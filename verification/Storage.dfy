/**
  The two files the server keeps per upload and the operations on them
  (src/file/ft_file.cpp and src/file/ft_file_meta.cpp), and the client's side of chunking.

  The first half says on values what each operation does; the second half holds the operations in
  the form of the source, working on a shared file system.
 */
module Storage {
  import opened Machine
  import opened Metadata

  /** An upload: the client that owns it and the name it offers. */
  datatype Key = Key(uuid: Uuid, name: Bytes)

  /** A file in the directory of one client. */
  datatype Path = Path(dir: Uuid, leaf: Bytes)

  /**
    A name that denotes a file of the directory it is joined to: at most 255 bytes, no separator and no
    zero byte, and neither "." nor "..".
   */
  predicate PlainName(name: Bytes) {
    && 0 < |name| <= 255 && 0x2F !in name && 0 !in name
    && name != [0x2E] && name != [0x2E, 0x2E]
  }

  /** The persistent state of one upload. */
  datatype Files = Files(target: Option<Bytes>, meta: Option<Bytes>)

  /** The hash of a file's contents: BLAKE2b, left uninterpreted. */
  type HashFunction = Bytes -> Digest

  // ---------------------------------------------------------------- chunks

  /** Length of the chunk that starts at `idx * CHUNK_SIZE`. */
  function ChunkLen(size: nat, idx: nat): (r: nat)
    requires idx * CHUNK_SIZE <= size
    ensures r <= CHUNK_SIZE && idx * CHUNK_SIZE + r <= size
  {
    Min(size - idx * CHUNK_SIZE, CHUNK_SIZE)
  }

  function GetChunk(content: Bytes, idx: nat): Result<Bytes> {
    var offset := idx * CHUNK_SIZE;
    if offset > |content| then Err(RangeError)
    else Ok(content[offset..offset + ChunkLen(|content|, idx)])
  }

  /** Position `p` belongs to chunk `i`. */
  predicate InChunk(p: nat, i: nat) {
    i * CHUNK_SIZE <= p < (i + 1) * CHUNK_SIZE
  }

  /**
    Chunks 0..n-1 tile a file: every position lies in exactly one of them, each has 1 to 3968 bytes,
    and no index beyond them yields data.
   */
  lemma ChunksTile(content: Bytes)
    ensures forall p: nat :: p < |content| ==> p / CHUNK_SIZE < NumChunks(|content|) && InChunk(p, p / CHUNK_SIZE)
    ensures forall p: nat, i: nat :: p < |content| && InChunk(p, i) ==> i == p / CHUNK_SIZE
    ensures forall i: nat :: i < NumChunks(|content|) ==>
      i * CHUNK_SIZE < |content| && 1 <= ChunkLen(|content|, i) <= CHUNK_SIZE
    ensures forall i: nat :: i < NumChunks(|content|) ==> GetChunk(content, i).Ok? && GetChunk(content, i).value != []
    ensures forall i: nat :: i >= NumChunks(|content|) ==> GetChunk(content, i).Err? || GetChunk(content, i).value == []
  {
  }

  // ---------------------------------------------------------------- writing

  /** Writing at an offset overwrites, and extends the file with zeros where there is a gap. */
  function WriteAt(f: Bytes, offset: nat, data: Bytes): (r: Bytes)
    ensures |r| == if data == [] then |f| else Max(|f|, offset + |data|)
  {
    if data == [] then f
    else seq(Max(|f|, offset + |data|),
             p requires 0 <= p < Max(|f|, offset + |data|) =>
               if offset <= p < offset + |data| then data[p - offset] else if p < |f| then f[p] else 0)
  }

  function CreateMeta(d: Files, size: u64, hash: Digest): Files {
    if d.meta.None? then d.(meta := Some(FreshMeta(size, hash))) else d
  }

  function CreateTarget(d: Files, size: nat): Files {
    if d.target.None? then d.(target := Some(Zeros(size))) else d
  }

  /** Constructing a `FileRemote` makes sure both files are there. */
  function Open(d: Files, size: u64, hash: Digest): Files {
    CreateTarget(CreateMeta(d, size, hash), size)
  }

  /** `saveChunk` accepts a chunk whose offset is within the file and whose length is the expected one. */
  predicate Accepts(size: nat, idx: nat, data: Bytes) {
    idx * CHUNK_SIZE <= size && |data| == ChunkLen(size, idx)
  }

  function MarkIn(d: Files, idx: nat): Files {
    if d.meta.Some? then d.(meta := Some(Mark(d.meta.value, idx, true))) else d
  }

  function Save(d: Files, size: nat, idx: nat, data: Bytes): Files
    requires d.target.Some?
  {
    if Accepts(size, idx, data) then
      MarkIn(d.(target := Some(WriteAt(d.target.value, idx * CHUNK_SIZE, data))), idx)
    else d
  }

  /** All chunks marked, and the contents hash to the announced value. */
  predicate IsComplete(h: HashFunction, d: Files, size: u64, hash: Digest) {
    d.target.Some? && NextMissing(d.meta, size, 0) == UINT64_MAX && h(d.target.value) == hash
  }

  /** `saveChunk` accepts for an index exactly the length that `getChunk` produces for it. */
  lemma AcceptsWhatIsSent(content: Bytes, idx: nat, data: Bytes)
    ensures GetChunk(content, idx).Ok? ==> Accepts(|content|, idx, GetChunk(content, idx).value)
    ensures Accepts(|content|, idx, data) <==>
      GetChunk(content, idx).Ok? && |data| == |GetChunk(content, idx).value|
  {
  }

  // ---------------------------------------------------------------- any order, any repetition

  /** Byte `p` of `f` is the client's. */
  predicate RightAt(content: Bytes, f: Bytes, p: nat) {
    p < |content| && p < |f| && f[p] == content[p]
  }

  /** `f` agrees with the client's file on chunk `i`. */
  ghost predicate Holds(content: Bytes, f: Bytes, i: nat) {
    forall p: nat :: p < |content| && p / CHUNK_SIZE == i ==> RightAt(content, f, p)
  }

  lemma AllRight(content: Bytes, f: Bytes)
    requires |f| <= |content| && forall p: nat :: p < |content| ==> RightAt(content, f, p)
    ensures f == content
  {
    assert |content| > 0 ==> RightAt(content, f, |content| - 1);
    assert forall p: nat :: p < |content| ==> RightAt(content, f, p) ==> f[p] == content[p];
  }

  /** Both files exist and every marked chunk is the client's. */
  ghost predicate Consistent(content: Bytes, d: Files) {
    && d.target.Some? && d.meta.Some?
    && |d.target.value| <= |content|
    && |d.meta.value| == HEADER_SIZE + BitmapSize(|content|)
    && forall i: nat :: Marked(d.meta.value, i) ==> i < NumChunks(|content|) && Holds(content, d.target.value, i)
  }

  lemma WriteHolds(content: Bytes, f: Bytes, i: nat)
    requires i < NumChunks(|content|) && |f| <= |content|
    ensures GetChunk(content, i).Ok?
    ensures var f' := WriteAt(f, i * CHUNK_SIZE, GetChunk(content, i).value);
      && |f'| <= |content| && Holds(content, f', i)
      && forall j: nat :: Holds(content, f, j) ==> Holds(content, f', j)
  {
    var at, data := i * CHUNK_SIZE, GetChunk(content, i).value;
    var f' := WriteAt(f, at, data);
    forall p: nat | p < |content| && p / CHUNK_SIZE == i
      ensures RightAt(content, f', p)
    {
      assert at <= p < at + |data| && data[p - at] == content[p];
    }
    forall p: nat | RightAt(content, f, p)
      ensures RightAt(content, f', p)
    {
    }
  }

  lemma SaveKeeps(content: Bytes, d: Files, i: nat)
    requires Consistent(content, d) && i < NumChunks(|content|)
    ensures GetChunk(content, i).Ok?
    ensures var d' := Save(d, |content|, i, GetChunk(content, i).value);
      && Consistent(content, d')
      && forall j: nat :: Marked(d'.meta.value, j) == (j == i || Marked(d.meta.value, j))
  {
    hide WriteAt, Mark, Holds;
    WriteHolds(content, d.target.value, i);
    AcceptsWhatIsSent(content, i, GetChunk(content, i).value);
    InRange(i, |content|);
    MarkIsOneBit(d.meta.value, i, true);
  }

  /** Saving the client's chunks `order`, one after the other. */
  function SaveAll(content: Bytes, d: Files, order: seq<nat>): Files
    requires d.target.Some? && forall a :: 0 <= a < |order| ==> order[a] < NumChunks(|content|)
    decreases |order|
  {
    if order == [] then d
    else
      ChunksTile(content);
      SaveAll(content, Save(d, |content|, order[0], GetChunk(content, order[0]).value), order[1..])
  }

  lemma AllHold(content: Bytes, f: Bytes)
    requires |f| <= |content| && forall i: nat :: i < NumChunks(|content|) ==> Holds(content, f, i)
    ensures f == content
  {
    forall p: nat | p < |content|
      ensures RightAt(content, f, p)
    {
      ChunksTile(content);
      assert Holds(content, f, p / CHUNK_SIZE);
    }
    AllRight(content, f);
  }

  /**
    Chunks saved in any order and any number of times are marked and kept, and the file is rebuilt
    byte for byte as soon as none is missing.
   */
  lemma {:induction false} AnyOrderRebuilds(content: Bytes, d: Files, order: seq<nat>)
    requires Consistent(content, d) && |content| <= UINT64_MAX
    requires forall a :: 0 <= a < |order| ==> order[a] < NumChunks(|content|)
    ensures var d' := SaveAll(content, d, order);
      && Consistent(content, d')
      && (forall j: nat :: Marked(d'.meta.value, j) <==> j in order || Marked(d.meta.value, j))
      && (NextMissing(d'.meta, |content|, 0) == UINT64_MAX ==> d'.target == Some(content))
    decreases |order|
  {
    hide Save, NextMissing, Holds;
    if order == [] {
      NextMissingIsLeast(d.meta.value, |content|, 0);
      if NextMissing(d.meta, |content|, 0) == UINT64_MAX {
        AllHold(content, d.target.value);
      }
    } else {
      SaveKeeps(content, d, order[0]);
      AnyOrderRebuilds(content, Save(d, |content|, order[0], GetChunk(content, order[0]).value), order[1..]);
    }
  }

  /** An upload starts that way. */
  lemma OpenIsConsistent(content: Bytes, hash: Digest)
    requires |content| <= UINT64_MAX
    ensures Consistent(content, Open(Files(None, None), |content|, hash))
  {
    FreshIsEmpty(|content|, hash);
  }

  // ---------------------------------------------------------------- one directory per client

  function MetaName(name: Bytes): Bytes {
    [46] + name + [46, 109, 101, 116, 97]  // "." name ".meta"
  }

  /** `x` reads "." then `name` then ".meta". */
  predicate DotMeta(x: Bytes, name: Bytes) {
    var n := |name|;
    && |x| == n + 6 && x[0] == '.' as int && x[1..1 + n] == name
    && x[n + 1] == '.' as int && x[n + 2] == 'm' as int && x[n + 3] == 'e' as int && x[n + 4] == 't' as int && x[n + 5] == 'a' as int
  }

  lemma MetaNameIs(x: Bytes, name: Bytes)
    ensures x == MetaName(name) <==> DotMeta(x, name)
  {
    if DotMeta(x, name) {
      assert x == [x[0]] + x[1..1 + |name|] + x[1 + |name|..];
    }
  }

  function TargetPath(k: Key): Path {
    Path(k.uuid, k.name)
  }

  function MetaPath(k: Key): Path {
    Path(k.uuid, MetaName(k.name))
  }

  function Lookup(files: map<Path, Bytes>, p: Path): Option<Bytes> {
    if p in files then Some(files[p]) else None
  }

  function Store(files: map<Path, Bytes>, p: Path, f: Option<Bytes>): map<Path, Bytes> {
    if f.Some? then files[p := f.value] else files - {p}
  }

  /** The two files of one upload. */
  function View(files: map<Path, Bytes>, k: Key): Files {
    Files(Lookup(files, TargetPath(k)), Lookup(files, MetaPath(k)))
  }

  function Put(files: map<Path, Bytes>, k: Key, d: Files): map<Path, Bytes> {
    Store(Store(files, TargetPath(k), d.target), MetaPath(k), d.meta)
  }

  lemma PathsDiffer(k: Key)
    ensures TargetPath(k) != MetaPath(k)
  {
    assert |MetaName(k.name)| == |k.name| + 6;
  }

  lemma PutView(files: map<Path, Bytes>, k: Key, d: Files)
    ensures View(Put(files, k, d), k) == d
    ensures Put(files, k, View(files, k)) == files
  {
    PathsDiffer(k);
  }

  lemma PutTarget(files: map<Path, Bytes>, k: Key, f: Bytes)
    ensures files[TargetPath(k) := f] == Put(files, k, View(files, k).(target := Some(f)))
    ensures View(files[TargetPath(k) := f], k) == View(files, k).(target := Some(f))
  {
    PathsDiffer(k);
  }

  lemma PutMeta(files: map<Path, Bytes>, k: Key, f: Bytes)
    ensures files[MetaPath(k) := f] == Put(files, k, View(files, k).(meta := Some(f)))
    ensures View(files[MetaPath(k) := f], k) == View(files, k).(meta := Some(f))
  {
    PathsDiffer(k);
  }

  lemma PutPut(files: map<Path, Bytes>, k: Key, a: Files, b: Files)
    ensures Put(Put(files, k, a), k, b) == Put(files, k, b)
  {
    PathsDiffer(k);
  }

  // ---------------------------------------------------------------- the operations of the source

  class FileSystem {
    var files: map<Path, Bytes>

    constructor ()
      ensures files == map[]
    {
      files := map[];
    }
  }

  lemma ThreeFields(part: Bytes, a: Bytes, b: Bytes, c: Bytes)
    requires |part| == HEADER_SIZE && |a| == 8 && |b| == 8 && |c| == 64
    requires forall i :: 0 <= i < 8 ==> a[i] == part[i] && b[i] == part[8 + i]
    requires forall i :: 0 <= i < 64 ==> c[i] == part[16 + i]
    ensures part[..8] == a && part[8..16] == b && part[16..] == c
  {
  }

  /** The byte at `k` as a read into a zeroed field gives it. */
  function ByteAt(meta: Option<Bytes>, k: nat): byte {
    if meta.Some? && k < |meta.value| then meta.value[k] else 0
  }

  function HeaderField(meta: Option<Bytes>): (f: Bytes)
    ensures |f| == 80 && forall k :: 0 <= k < 80 ==> f[k] == ByteAt(meta, k)
  {
    seq(80, (k: nat) => ByteAt(meta, k))
  }

  /** The header of any file at all, byte by byte: what is missing at its end counts as zero. */
  ghost predicate ReadsAs(meta: Option<Bytes>, r: Header) {
    var f := HeaderField(meta);
    r.size == Word64(f, 0) && r.chunkSize == Word64(f, 8) && r.hash == f[16..]
  }

  lemma PartIs(meta: Option<Bytes>)
    ensures HeaderPart(meta) == HeaderField(meta)
  {
  }

  lemma WordsOf(f: Bytes, a: Bytes, b: Bytes)
    requires |f| == 80 && f[..8] == a && f[8..16] == b
    ensures FromLittleEndian(a) == Word64(f, 0) <= UINT64_MAX && FromLittleEndian(b) == Word64(f, 8) <= UINT64_MAX
  {
    assert forall i :: 0 <= i < 8 ==> a[i] == f[i] && b[i] == f[8 + i];
    WordFrom(a);
    WordFrom(b);
    hide FromLittleEndian;
  }

  lemma HeaderOfAny(meta: Option<Bytes>, a: Bytes, b: Bytes, c: Bytes)
    requires |a| == 8 && |b| == 8 && |c| == 64
    requires forall i :: 0 <= i < 8 ==> a[i] == ByteAt(meta, i) && b[i] == ByteAt(meta, 8 + i)
    requires forall i :: 0 <= i < 64 ==> c[i] == ByteAt(meta, 16 + i)
    ensures FromLittleEndian(a) <= UINT64_MAX && FromLittleEndian(b) <= UINT64_MAX
    ensures ReadHeader(meta) == Header(FromLittleEndian(a), FromLittleEndian(b), c)
    ensures ReadsAs(meta, ReadHeader(meta))
  {
    hide FromLittleEndian, HeaderPart, ByteAt, Word64;
    PartIs(meta);
    ThreeFields(HeaderField(meta), a, b, c);
    WordsOf(HeaderField(meta), a, b);
  }

  /** What the header of a metadata file says, if one was written, and if there is none. */
  lemma HeaderFacts(meta: Option<Bytes>)
    ensures meta.None? ==> ReadHeader(meta).chunkSize == 0
    ensures forall size: u64, hash: Digest :: meta.Some? && HeaderBytes(size, hash) <= meta.value ==>
      ReadHeader(meta) == Header(size, CHUNK_SIZE, hash)
  {
    NoHeader();
    forall size: u64, hash: Digest | meta.Some? && HeaderBytes(size, hash) <= meta.value
      ensures ReadHeader(meta) == Header(size, CHUNK_SIZE, hash)
    {
      HeaderRoundTrip(meta.value, size, hash);
    }
  }

  class FileMetadata {
    const fs: FileSystem
    const key: Key
    const size: u64
    const hash: Digest
    const numChunks: nat
    const bitmapSize: nat

    ghost predicate Valid() {
      numChunks == NumChunks(size) && bitmapSize == BitmapSize(size)
    }

    constructor (fs: FileSystem, key: Key, size: u64, hash: Digest)
      ensures Valid() && this.fs == fs && this.key == key && this.size == size && this.hash == hash
    {
      this.fs, this.key, this.size, this.hash := fs, key, size, hash;
      var n := size / CHUNK_SIZE + (if size % CHUNK_SIZE > 0 then 1 else 0);
      this.numChunks := n;
      this.bitmapSize := n / 8 + (if n % 8 > 0 then 1 else 0);
    }

    /** Never rewrites a metadata file that is already there. */
    method CreateIfNotExist()
      requires Valid()
      modifies fs
      ensures fs.files == Put(old(fs.files), key, CreateMeta(View(old(fs.files), key), size, hash))
      ensures View(fs.files, key) == CreateMeta(View(old(fs.files), key), size, hash)
      ensures MetaPath(key) in old(fs.files) ==> fs.files == old(fs.files)
      ensures MetaPath(key) !in old(fs.files) ==>
        && fs.files.Keys == old(fs.files).Keys + {MetaPath(key)} && LooksFresh(fs.files[MetaPath(key)], size, hash)
        && forall p :: p in old(fs.files) ==> fs.files[p] == old(fs.files)[p]
    {
      PutView(fs.files, key, View(fs.files, key));
      FreshLooksFresh(size, hash);
      hide LooksFresh;
      if MetaPath(key) !in fs.files {
        var ms := LittleEndian(size, 8);
        ms := ms + LittleEndian(CHUNK_SIZE, 8);
        ms := ms + hash;
        var i := 0;
        while i < bitmapSize
          invariant 0 <= i <= bitmapSize
          invariant ms == HeaderBytes(size, hash) + Zeros(i)
        {
          ms := ms + [0];
          i := i + 1;
        }
        PutMeta(fs.files, key, ms);
        fs.files := fs.files[MetaPath(key) := ms];
      }
    }

    /** Reads the byte that holds the bit, changes the bit, writes the byte back. */
    method MarkChunk(idx: nat, valid: bool)
      modifies fs
      ensures var d := View(old(fs.files), key);
        var d' := if d.meta.Some? then d.(meta := Some(Mark(d.meta.value, idx, valid))) else d;
        fs.files == Put(old(fs.files), key, d') && View(fs.files, key) == d'
    {
      PutView(fs.files, key, View(fs.files, key));
      if MetaPath(key) in fs.files {
        var ms := fs.files[MetaPath(key)];
        var at := HEADER_SIZE + idx / 8;
        if at < |ms| {
          var bitmap := ms[at];
          bitmap := WithBit(bitmap, idx % 8, valid);
          ms := ms[at := bitmap];
        }
        PutMeta(fs.files, key, ms);
        fs.files := fs.files[MetaPath(key) := ms];
      }
    }

    /** Counts the bits set at the front of a byte. */
    static method CountOnes(bitmap: byte) returns (ones: nat)
      ensures ones == LeadingOnes(bitmap, 0)
    {
      ones := 0;
      var i := 7;
      while i >= 0 && Low(bitmap, i)
        invariant -1 <= i <= 7 && ones == 7 - i
        invariant LeadingOnes(bitmap, 0) == LeadingOnes(bitmap, ones)
      {
        i := i - 1;
        ones := ones + 1;
      }
    }

    /** The least unmarked chunk from the byte of `from` on, or UINT64_MAX. */
    method NextMissingChunk(from: nat) returns (r: u64)
      requires Valid()
      ensures r == NextMissing(View(fs.files, key).meta, size, from)
      ensures var meta := View(fs.files, key).meta;
        meta.Some? && |meta.value| >= HEADER_SIZE + BitmapSize(size) ==>
          IsLeastMissing(meta.value, NumChunks(size), from, r)
    {
      hide LeadingOnes, IsLeastMissing;
      r := UINT64_MAX;
      if MetaPath(key) in fs.files {
        var ms := fs.files[MetaPath(key)];
        if |ms| >= HEADER_SIZE + BitmapSize(size) {
          NextMissingIsLeast(ms, size, from);
        }
        var pos := from / 8;  // bitmap byte to read next
        var bitmap: byte := 0xFF;
        var good := true;
        while good && bitmap == 0xFF
          invariant bitmap == 0xFF ==> Scan(ms, from / 8) == if good then Scan(ms, pos) else None
          invariant bitmap != 0xFF ==> pos > 0 && HEADER_SIZE + pos <= |ms| && bitmap == ms[HEADER_SIZE + pos - 1]
          invariant bitmap != 0xFF ==> Scan(ms, from / 8) == Some(8 * (pos - 1) + LeadingOnes(bitmap, 0))
          decreases good, |ms| - pos
        {
          if HEADER_SIZE + pos < |ms| {
            bitmap := ms[HEADER_SIZE + pos];
            pos := pos + 1;
          } else {
            good := false;
          }
        }
        if bitmap != 0xFF {
          var ones := CountOnes(bitmap);
          var ret := (pos - 1) * 8 + ones;
          if ret < numChunks {
            NumChunksFits(size);
            r := ret;
          }
        }
      }
    }

    /** One read of `n` bytes into a zeroed field: what lies beyond the end of the file stays zero. */
    static method ReadField(ms: Bytes, pos: nat, n: nat) returns (field: Bytes, next: nat)
      requires pos <= |ms|
      ensures |field| == n && next == Min(pos + n, |ms|)
      ensures forall i :: 0 <= i < n ==> field[i] == if pos + i < |ms| then ms[pos + i] else 0
    {
      var got := Min(n, |ms| - pos);
      field := ms[pos..pos + got] + Zeros(n - got);
      next := pos + got;
    }

    /** Three reads give back the header as written, and a chunk size of 0 when there is no file. */
    static method ReadHeaderOf(fs: FileSystem, key: Key) returns (r: Header)
      ensures var meta := View(fs.files, key).meta;
        && r == ReadHeader(meta)
        && (meta.None? ==> r.chunkSize == 0)
        && (forall size: u64, hash: Digest :: meta.Some? && HeaderBytes(size, hash) <= meta.value ==>
              r == Header(size, CHUNK_SIZE, hash))
        && ReadsAs(meta, r)
    {
      var sizeBytes, chunkBytes, hash: Bytes := Zeros(8), Zeros(8), Zeros(64);
      ghost var meta := View(fs.files, key).meta;
      if MetaPath(key) in fs.files {
        var ms, pos := fs.files[MetaPath(key)], 0;
        sizeBytes, pos := ReadField(ms, pos, 8);
        chunkBytes, pos := ReadField(ms, pos, 8);
        hash, pos := ReadField(ms, pos, 64);
      }
      HeaderOfAny(meta, sizeBytes, chunkBytes, hash);
      hide ReadsAs, ReadHeader, HeaderBytes;
      r := Header(FromLittleEndian(sizeBytes), FromLittleEndian(chunkBytes), hash);
      HeaderFacts(meta);
    }
  }

  /** `f'` is `f` with `data` written over it from `at` on; a gap behind the end of `f` is filled with zeros. */
  predicate Overlaid(f: Bytes, at: nat, data: Bytes, f': Bytes) {
    if data == [] then f' == f
    else
    && |f'| == Max(|f|, at + |data|)
    && f'[at..at + |data|] == data
    && (forall p :: 0 <= p < Min(at, |f|) ==> f'[p] == f[p])
    && (forall p :: at + |data| <= p < |f| ==> f'[p] == f[p])
    && (forall p :: |f| <= p < at ==> f'[p] == 0)
  }

  lemma WriteOverlays(f: Bytes, at: nat, data: Bytes)
    ensures Overlaid(f, at, data, WriteAt(f, at, data))
  {
    if data != [] {
      var f' := WriteAt(f, at, data);
      assert f'[at..at + |data|] == data;
    }
  }

  lemma SavedMarks(files: map<Path, Bytes>, key: Key, idx: nat)
    ensures MetaPath(key) in files && 80 + idx / 8 < |files[MetaPath(key)]| ==>
      var meta := files[MetaPath(key)];
      forall j: nat :: Marked(Mark(meta, idx, true), j) <==> j == idx || Marked(meta, j)
  {
    if MetaPath(key) in files && 80 + idx / 8 < |files[MetaPath(key)]| {
      MarkIsOneBit(files[MetaPath(key)], idx, true);
    }
  }

  class FileRemote {
    const fs: FileSystem
    const key: Key
    const size: u64
    const hash: Digest
    const metadata: FileMetadata

    ghost predicate Valid() {
      && metadata.Valid() && metadata.fs == fs && metadata.key == key
      && metadata.size == size && metadata.hash == hash
    }

    constructor (fs: FileSystem, key: Key, size: u64, hash: Digest)
      modifies fs
      ensures Valid() && this.fs == fs && this.key == key && this.size == size && this.hash == hash
      ensures fs.files == Put(old(fs.files), key, Open(View(old(fs.files), key), size, hash))
      ensures View(fs.files, key) == Open(View(old(fs.files), key), size, hash)
      ensures fs.files.Keys == old(fs.files).Keys + {TargetPath(key), MetaPath(key)}
      ensures forall p :: p in old(fs.files) ==> fs.files[p] == old(fs.files)[p]
      ensures MetaPath(key) !in old(fs.files) ==> LooksFresh(fs.files[MetaPath(key)], size, hash)
      ensures TargetPath(key) !in old(fs.files) ==>
        |fs.files[TargetPath(key)]| == size && forall i :: 0 <= i < size ==> fs.files[TargetPath(key)][i] == 0
    {
      PathsDiffer(key);
      this.fs, this.key, this.size, this.hash := fs, key, size, hash;
      this.metadata := new FileMetadata(fs, key, size, hash);
      new;
      metadata.CreateIfNotExist();
      ghost var mid := fs.files;
      PutView(mid, key, View(mid, key));
      if TargetPath(key) !in fs.files {
        PutTarget(fs.files, key, Zeros(size));
        fs.files := fs.files[TargetPath(key) := Zeros(size)];
      }
      PutPut(old(fs.files), key, View(mid, key), View(fs.files, key));
    }

    method IsCompleteNow(h: HashFunction) returns (r: bool)
      requires Valid()
      ensures r == IsComplete(h, View(fs.files, key), size, hash)
      ensures r ==> TargetPath(key) in fs.files && h(fs.files[TargetPath(key)]) == hash
      ensures MetaPath(key) in fs.files && |fs.files[MetaPath(key)]| >= HEADER_SIZE + BitmapSize(size) ==>
        (r <==> && TargetPath(key) in fs.files && h(fs.files[TargetPath(key)]) == hash
                && forall i: nat :: i < NumChunks(size) ==> Marked(fs.files[MetaPath(key)], i))
    {
      if MetaPath(key) in fs.files && |fs.files[MetaPath(key)]| >= HEADER_SIZE + BitmapSize(size) {
        NextMissingIsLeast(fs.files[MetaPath(key)], size, 0);
      }
      hide Marked, NextMissing, BitmapSize;
      r := false;
      if TargetPath(key) in fs.files {
        var next := metadata.NextMissingChunk(0);
        if next == UINT64_MAX {
          r := h(fs.files[TargetPath(key)]) == hash;
        }
      }
    }

    /** The data goes to the target file first; only then is the chunk marked. */
    method SaveChunk(idx: nat, data: Bytes)
      requires Valid() && TargetPath(key) in fs.files
      modifies fs
      ensures fs.files == Put(old(fs.files), key, Save(View(old(fs.files), key), size, idx, data))
      ensures View(fs.files, key) == Save(View(old(fs.files), key), size, idx, data)
      ensures var at, was := idx * 3968, old(fs.files);
        if at > size || |data| != Min(size - at, 3968) then fs.files == was
        else
          && TargetPath(key) in fs.files && Overlaid(was[TargetPath(key)], at, data, fs.files[TargetPath(key)])
          && (forall p :: p != TargetPath(key) && p != MetaPath(key) ==> Lookup(fs.files, p) == Lookup(was, p))
          && (MetaPath(key) in was && 80 + idx / 8 < |was[MetaPath(key)]| ==>
                && MetaPath(key) in fs.files
                && forall j: nat :: Marked(fs.files[MetaPath(key)], j) <==> j == idx || Marked(was[MetaPath(key)], j))
    {
      PathsDiffer(key);
      SavedMarks(fs.files, key, idx);
      hide Marked, Overlaid, WriteAt;
      PutView(fs.files, key, View(fs.files, key));
      var offset := idx * CHUNK_SIZE;
      if offset > size {
        return;
      }
      var chunkSize := if size - offset < CHUNK_SIZE then size - offset else CHUNK_SIZE;
      if chunkSize != |data| {
        return;
      }
      var f := WriteAt(fs.files[TargetPath(key)], offset, data);
      WriteOverlays(fs.files[TargetPath(key)], offset, data);
      PutTarget(fs.files, key, f);
      fs.files := fs.files[TargetPath(key) := f];
      ghost var mid := fs.files;
      metadata.MarkChunk(idx, true);
      PutPut(old(fs.files), key, View(mid, key), View(fs.files, key));
    }

    method GetNextMissingChunk() returns (r: u64)
      requires Valid()
      ensures r == NextMissing(View(fs.files, key).meta, size, 0)
    {
      r := metadata.NextMissingChunk(0);
    }
  }
}
