/**
  The metadata file kept beside each upload (src/file/ft_file_meta.cpp): an 80-byte header with the
  file size, the chunk size and the hash, followed by one bit per chunk, most significant bit first.
 */
module Metadata {
  import opened Machine

  const CHUNK_SIZE := 3968
  const HEADER_SIZE := 80

  // ---------------------------------------------------------------- bits of a byte

  function Pow2(w: nat): (r: nat)
    ensures r >= 1
  {
    if w == 0 then 1 else 2 * Pow2(w - 1)
  }

  /** `(b >> i) & 1` */
  predicate Low(b: nat, i: nat) {
    if i == 0 then b % 2 == 1 else Low(b / 2, i - 1)
  }

  /** `b | (1 << i)` when `v` holds, `b & ~(1 << i)` otherwise. */
  function WithLow(b: nat, i: nat, v: bool): nat {
    if i == 0 then b / 2 * 2 + (if v then 1 else 0) else 2 * WithLow(b / 2, i - 1, v) + b % 2
  }

  lemma {:induction false} WithLowIsOneBit(b: nat, i: nat, v: bool, j: nat)
    ensures Low(WithLow(b, i, v), j) == if j == i then v else Low(b, j)
  {
    if i != 0 && j != 0 {
      WithLowIsOneBit(b / 2, i - 1, v, j - 1);
    }
  }

  lemma {:induction false} WithLowInRange(b: nat, i: nat, v: bool, w: nat)
    requires b < Pow2(w) && i < w
    ensures WithLow(b, i, v) < Pow2(w)
  {
    var half := Pow2(w - 1);
    assert Pow2(w) == 2 * half && b / 2 < half;
    if i != 0 {
      WithLowInRange(b / 2, i - 1, v, w - 1);
    }
  }

  lemma {:induction false} AllLow(b: nat, w: nat)
    requires b < Pow2(w)
    requires forall i: nat :: i < w ==> Low(b, i)
    ensures b == Pow2(w) - 1
  {
    if w != 0 {
      assert Low(b, 0);
      forall i: nat | i < w - 1
        ensures Low(b / 2, i)
      {
        assert Low(b, i + 1);
      }
      AllLow(b / 2, w - 1);
    }
  }

  lemma {:induction false} OnesLow(w: nat, i: nat)
    requires i < w
    ensures Low(Pow2(w) - 1, i)
  {
    assert (Pow2(w) - 1) / 2 == Pow2(w - 1) - 1;
    if i != 0 {
      OnesLow(w - 1, i - 1);
    }
  }

  /** Bit `k` of a bitmap byte, counted from the most significant one. */
  predicate Bit(b: byte, k: nat)
    requires k < 8
  {
    Low(b, 7 - k)
  }

  lemma Byte8()
    ensures Pow2(8) == 0x100
  {
    assert Pow2(4) == 16;
  }

  /** Setting a bit that is not set adds its value; clearing one that is set takes it away. */
  lemma {:induction false} WithLowAdds(b: nat, i: nat)
    ensures WithLow(b, i, true) == b + (if Low(b, i) then 0 else Pow2(i))
    ensures WithLow(b, i, false) == b - (if Low(b, i) then Pow2(i) else 0)
  {
    if i != 0 {
      WithLowAdds(b / 2, i - 1);
    }
  }

  function WithBit(b: byte, k: nat, v: bool): (r: byte)
    requires k < 8
    ensures forall j: nat :: j < 8 ==> Bit(r, j) == if j == k then v else Bit(b, j)
  {
    Byte8();
    WithLowInRange(b, 7 - k, v, 8);
    assert forall j: nat :: j < 8 ==> Bit(WithLow(b, 7 - k, v), j) == if j == k then v else Bit(b, j) by {
      forall j: nat | j < 8
        ensures Bit(WithLow(b, 7 - k, v), j) == if j == k then v else Bit(b, j)
      {
        WithLowIsOneBit(b, 7 - k, v, 7 - j);
      }
    }
    WithLow(b, 7 - k, v)
  }

  lemma FullByte(b: byte)
    ensures b == 0xFF <==> forall k :: 0 <= k < 8 ==> Bit(b, k)
  {
    Byte8();
    if forall k :: 0 <= k < 8 ==> Bit(b, k) {
      forall i: nat | i < 8
        ensures Low(b, i)
      {
        assert Bit(b, 7 - i);
      }
      AllLow(b, 8);
    }
    if b == 0xFF {
      forall k | 0 <= k < 8
        ensures Bit(b, k)
      {
        OnesLow(8, 7 - k);
      }
    }
  }

  // ---------------------------------------------------------------- sizes

  function NumChunks(size: nat): nat {
    size / CHUNK_SIZE + (if size % CHUNK_SIZE > 0 then 1 else 0)
  }

  function BitmapSize(size: nat): nat {
    NumChunks(size) / 8 + (if NumChunks(size) % 8 > 0 then 1 else 0)
  }

  /** One bit per chunk, and no byte more than that takes. */
  lemma BitmapIsTight(size: nat)
    ensures NumChunks(size) <= 8 * BitmapSize(size) < NumChunks(size) + 8
    ensures CHUNK_SIZE * NumChunks(size) >= size > CHUNK_SIZE * (NumChunks(size) - 1)
  {
  }

  // ---------------------------------------------------------------- header

  /** `k` bytes, least significant first, as the host stores a `size_t`. */
  function LittleEndian(v: nat, k: nat): (r: Bytes)
    ensures |r| == k
  {
    if k == 0 then [] else [v % 0x100] + LittleEndian(v / 0x100, k - 1)
  }

  function FromLittleEndian(s: Bytes): nat {
    if s == [] then 0 else s[0] as int + 0x100 * FromLittleEndian(s[1..])
  }

  function Pow256(k: nat): nat {
    if k == 0 then 1 else 0x100 * Pow256(k - 1)
  }

  lemma {:induction false} LittleEndianRoundTrip(v: nat, k: nat)
    requires v < Pow256(k)
    ensures FromLittleEndian(LittleEndian(v, k)) == v
  {
    if k != 0 {
      assert LittleEndian(v, k)[1..] == LittleEndian(v / 0x100, k - 1);
      LittleEndianRoundTrip(v / 0x100, k - 1);
    }
  }

  lemma {:induction false} FromLittleEndianBound(s: Bytes)
    ensures FromLittleEndian(s) < Pow256(|s|)
  {
    if s != [] {
      FromLittleEndianBound(s[1..]);
    }
  }

  lemma Word()
    ensures Pow256(8) == 0x1_0000_0000_0000_0000
  {
    assert Pow256(4) == 0x1_0000_0000;
  }

  function HeaderBytes(size: u64, hash: Digest): (r: Bytes)
    ensures |r| == HEADER_SIZE
  {
    LittleEndian(size, 8) + LittleEndian(CHUNK_SIZE, 8) + hash
  }

  /** The number in eight bytes from `at` on, least significant byte first. */
  function Word64(f: Bytes, at: nat): nat
    requires at + 8 <= |f|
  {
    f[at] as int + 0x100 * (f[at + 1] as int + 0x100 * (f[at + 2] as int + 0x100 * (f[at + 3] as int
      + 0x100 * (f[at + 4] as int + 0x100 * (f[at + 5] as int + 0x100 * (f[at + 6] as int + 0x100 * f[at + 7] as int))))))
  }

  lemma Lowest(s: Bytes, k: nat)
    requires k < |s|
    ensures FromLittleEndian(s[k..]) == s[k] as int + 0x100 * FromLittleEndian(s[k + 1..])
  {
    assert s[k..][1..] == s[k + 1..];
  }

  lemma WordFrom(s: Bytes)
    requires |s| == 8
    ensures FromLittleEndian(s) == Word64(s, 0)
  {
    assert s[0..] == s && s[8..] == [];
    forall k: nat | k < 8
      ensures FromLittleEndian(s[k..]) == s[k] as int + 0x100 * FromLittleEndian(s[k + 1..])
    {
      Lowest(s, k);
    }
    assert FromLittleEndian(s[8..]) == 0;
    hide FromLittleEndian;
  }

  lemma WordOf(f: Bytes, at: nat, v: u64)
    requires at + 8 <= |f| && f[at..at + 8] == LittleEndian(v, 8)
    ensures Word64(f, at) == v
  {
    Word();
    LittleEndianRoundTrip(v, 8);
    WordFrom(f[at..at + 8]);
  }

  /** Size, then chunk size, least significant byte first, then the hash. */
  lemma HeaderLayout(size: u64, hash: Digest)
    ensures var f := HeaderBytes(size, hash); Word64(f, 0) == size && Word64(f, 8) == 3968 && f[16..] == hash
  {
    var f := HeaderBytes(size, hash);
    assert f[0..8] == LittleEndian(size, 8) && f[8..16] == LittleEndian(CHUNK_SIZE, 8);
    WordOf(f, 0, size);
    WordOf(f, 8, CHUNK_SIZE);
  }

  datatype Header = Header(size: u64, chunkSize: u64, hash: Digest)

  /** The first 80 bytes of the file; what is not there reads as zero. */
  function HeaderPart(meta: Option<Bytes>): (r: Bytes)
    ensures |r| == HEADER_SIZE
  {
    if meta.None? then Zeros(HEADER_SIZE)
    else if |meta.value| < HEADER_SIZE then meta.value + Zeros(HEADER_SIZE - |meta.value|)
    else meta.value[..HEADER_SIZE]
  }

  function ReadHeader(meta: Option<Bytes>): Header {
    var h := HeaderPart(meta);
    Word();
    FromLittleEndianBound(h[..8]);
    FromLittleEndianBound(h[8..16]);
    Header(FromLittleEndian(h[..8]), FromLittleEndian(h[8..16]), h[16..])
  }

  /** A file that starts with a written header reads back as that header. */
  lemma HeaderRoundTrip(meta: Bytes, size: u64, hash: Digest)
    requires |meta| >= HEADER_SIZE && meta[..HEADER_SIZE] == HeaderBytes(size, hash)
    ensures ReadHeader(Some(meta)) == Header(size, CHUNK_SIZE, hash)
  {
    var h := HeaderBytes(size, hash);
    assert h[..8] == LittleEndian(size, 8) && h[8..16] == LittleEndian(CHUNK_SIZE, 8) && h[16..] == hash;
    Word();
    LittleEndianRoundTrip(size, 8);
    LittleEndianRoundTrip(CHUNK_SIZE, 8);
  }

  lemma {:induction false} ZerosAreZero(k: nat)
    ensures FromLittleEndian(Zeros(k)) == 0
  {
    if k != 0 {
      assert Zeros(k)[1..] == Zeros(k - 1);
      ZerosAreZero(k - 1);
    }
  }

  /** Without a metadata file the chunk size reads as 0, which stands for "no such upload". */
  lemma NoHeader()
    ensures ReadHeader(None).chunkSize == 0
  {
    assert Zeros(HEADER_SIZE)[8..16] == Zeros(8);
    ZerosAreZero(8);
  }

  // ---------------------------------------------------------------- the bitmap as a set of chunks

  predicate Marked(meta: Bytes, i: nat) {
    HEADER_SIZE + i / 8 < |meta| && Bit(meta[HEADER_SIZE + i / 8], i % 8)
  }

  /** The indices recorded as received, of a file with `n` chunks. */
  function MarkedSet(meta: Bytes, n: nat): set<nat> {
    set i: nat | i < n && Marked(meta, i)
  }

  function FreshMeta(size: u64, hash: Digest): (r: Bytes)
    ensures |r| == HEADER_SIZE + BitmapSize(size)
  {
    HeaderBytes(size, hash) + Zeros(BitmapSize(size))
  }

  /** A metadata file as it is first written, byte by byte: header, and one zero bit per chunk. */
  ghost predicate LooksFresh(meta: Bytes, size: u64, hash: Digest) {
    && |meta| >= 80 && Word64(meta, 0) == size && Word64(meta, 8) == 3968 && meta[16..80] == hash
    && NumChunks(size) <= 8 * (|meta| - 80) < NumChunks(size) + 8
    && forall i :: 80 <= i < |meta| ==> meta[i] == 0
  }

  lemma FreshLooksFresh(size: u64, hash: Digest)
    ensures LooksFresh(FreshMeta(size, hash), size, hash)
  {
    var f, header := FreshMeta(size, hash), HeaderBytes(size, hash);
    HeaderLayout(size, hash);
    BitmapIsTight(size);
    assert f[..80] == header && f[16..80] == header[16..];
    assert forall i :: 0 <= i < 16 ==> f[i] == header[i];
    hide HeaderBytes;
  }

  /** Setting or clearing a bit; an index beyond the end of the file leaves the file alone. */
  function Mark(meta: Bytes, idx: nat, v: bool): (r: Bytes)
    ensures |r| == |meta|
  {
    var at := HEADER_SIZE + idx / 8;
    if at < |meta| then meta[at := WithBit(meta[at], idx % 8, v)] else meta
  }

  lemma {:induction false} NoLow(i: nat)
    ensures !Low(0, i)
  {
    if i != 0 {
      NoLow(i - 1);
    }
  }

  lemma ZeroByte(k: nat)
    requires k < 8
    ensures !Bit(0, k)
  {
    NoLow(7 - k);
  }

  /** Creation gives the empty set and a header that reads back. */
  lemma FreshIsEmpty(size: u64, hash: Digest)
    ensures forall i: nat :: !Marked(FreshMeta(size, hash), i)
    ensures MarkedSet(FreshMeta(size, hash), NumChunks(size)) == {}
    ensures ReadHeader(Some(FreshMeta(size, hash))) == Header(size, CHUNK_SIZE, hash)
  {
    forall i: nat
      ensures !Marked(FreshMeta(size, hash), i)
    {
      ZeroByte(i % 8);
    }
    assert FreshMeta(size, hash)[..HEADER_SIZE] == HeaderBytes(size, hash);
    HeaderRoundTrip(FreshMeta(size, hash), size, hash);
  }

  lemma SameSlot(i: nat, j: nat)
    requires i / 8 == j / 8 && i % 8 == j % 8
    ensures i == j
  {
  }

  /** Marking changes the one bit and nothing else: no header byte, no other chunk. */
  lemma MarkIsOneBit(meta: Bytes, idx: nat, v: bool)
    requires HEADER_SIZE + idx / 8 < |meta|
    ensures forall j: nat :: Marked(Mark(meta, idx, v), j) == if j == idx then v else Marked(meta, j)
    ensures Mark(meta, idx, v)[..HEADER_SIZE] == meta[..HEADER_SIZE]
  {
    forall j: nat
      ensures Marked(Mark(meta, idx, v), j) == if j == idx then v else Marked(meta, j)
    {
      if j / 8 == idx / 8 && j % 8 == idx % 8 {
        SameSlot(j, idx);
      }
    }
  }

  lemma InRange(idx: nat, size: nat)
    requires idx < NumChunks(size)
    ensures idx / 8 < BitmapSize(size)
  {
  }

  /** The bits of a byte are used from the most significant one on. */
  lemma MarkAddsItsPower(meta: Bytes, idx: nat)
    requires HEADER_SIZE + idx / 8 < |meta|
    ensures var at, power := HEADER_SIZE + idx / 8, [128, 64, 32, 16, 8, 4, 2, 1][idx % 8];
      && Mark(meta, idx, true)[at] as int == meta[at] as int + (if Marked(meta, idx) then 0 else power)
      && Mark(meta, idx, false)[at] as int == meta[at] as int - (if Marked(meta, idx) then power else 0)
  {
    var k := 7 - idx % 8;
    WithLowAdds(meta[HEADER_SIZE + idx / 8], k);
    assert Pow2(3) == 8 && Pow2(7) == 16 * Pow2(3);
    assert Pow2(k) == [128, 64, 32, 16, 8, 4, 2, 1][idx % 8];
  }

  /** The same on sets: an in-range index is added or removed, everything else stays. */
  lemma MarkRefinesSet(meta: Bytes, size: nat, idx: nat, v: bool)
    requires |meta| == HEADER_SIZE + BitmapSize(size) && idx < NumChunks(size)
    ensures var n := NumChunks(size);
      MarkedSet(Mark(meta, idx, v), n) == if v then MarkedSet(meta, n) + {idx} else MarkedSet(meta, n) - {idx}
    ensures ReadHeader(Some(Mark(meta, idx, v))) == ReadHeader(Some(meta))
  {
    InRange(idx, size);
    MarkIsOneBit(meta, idx, v);
  }

  // ---------------------------------------------------------------- the scan

  /** Number of leading one bits of a byte, from bit `k` on. */
  function LeadingOnes(b: byte, k: nat): (r: nat)
    requires k <= 8
    ensures k <= r <= 8
    ensures forall j :: k <= j < r ==> Bit(b, j)
    ensures r < 8 ==> !Bit(b, r)
    decreases 8 - k
  {
    if k == 8 || !Bit(b, k) then k else LeadingOnes(b, k + 1)
  }

  /** First zero bit at or after bitmap byte `j`, looking only at bytes that exist. */
  function Scan(meta: Bytes, j: nat): Option<nat>
    decreases |meta| - j
  {
    if HEADER_SIZE + j >= |meta| then None
    else if meta[HEADER_SIZE + j] == 0xFF then Scan(meta, j + 1)
    else Some(8 * j + LeadingOnes(meta[HEADER_SIZE + j], 0))
  }

  /** `nextMissingChunk`: "none" is UINT64_MAX, and so is a hit in the padding after the last chunk. */
  function NextMissing(meta: Option<Bytes>, size: u64, from: nat): u64 {
    if meta.None? then UINT64_MAX
    else match Scan(meta.value, from / 8)
      case None => UINT64_MAX
      case Some(i) => if i < NumChunks(size) then i else UINT64_MAX
  }

  /** What one bitmap byte says: the chunks of its leading ones are marked, all eight iff it is 0xFF. */
  lemma FrontMarked(meta: Bytes, j: nat)
    requires HEADER_SIZE + j < |meta|
    ensures var b := meta[HEADER_SIZE + j];
      && (forall i: nat :: 8 * j <= i < 8 * j + LeadingOnes(b, 0) ==> Marked(meta, i))
      && (b == 0xFF <==> LeadingOnes(b, 0) == 8)
      && (b != 0xFF ==> !Marked(meta, 8 * j + LeadingOnes(b, 0)))
  {
    hide Bit, LeadingOnes;
    var b := meta[HEADER_SIZE + j];
    FullByte(b);
    var ones := LeadingOnes(b, 0);
    forall i: nat | 8 * j <= i < 8 * j + ones
      ensures Marked(meta, i)
    {
      assert i / 8 == j && Bit(b, i % 8);
    }
    if ones < 8 {
      assert (8 * j + ones) / 8 == j && (8 * j + ones) % 8 == ones;
    }
  }

  lemma {:induction false} ScanFindsFirst(meta: Bytes, j: nat)
    ensures match Scan(meta, j)
      case None => forall i: nat :: 8 * j <= i && HEADER_SIZE + i / 8 < |meta| ==> Marked(meta, i)
      case Some(i) =>
        && 8 * j <= i && HEADER_SIZE + i / 8 < |meta| && !Marked(meta, i)
        && forall k: nat :: 8 * j <= k < i ==> Marked(meta, k)
    decreases |meta| - j
  {
    if HEADER_SIZE + j < |meta| {
      FrontMarked(meta, j);
      hide Marked, LeadingOnes;
      if meta[HEADER_SIZE + j] == 0xFF {
        ScanFindsFirst(meta, j + 1);
      }
    }
  }

  /** The answer is the least unmarked chunk from the byte of `from` on; UINT64_MAX iff there is none. */
  ghost predicate IsLeastMissing(meta: Bytes, n: nat, from: nat, r: u64) {
    var lo := 8 * (from / 8);
    if r == UINT64_MAX then forall i: nat :: lo <= i < n ==> Marked(meta, i)
    else lo <= r < n && !Marked(meta, r) && forall i: nat :: lo <= i < r ==> Marked(meta, i)
  }

  lemma NumChunksFits(size: u64)
    ensures NumChunks(size) < UINT64_MAX
  {
  }

  /** Whatever the padding bits of the last byte hold. */
  lemma NextMissingIsLeast(meta: Bytes, size: u64, from: nat)
    requires |meta| >= HEADER_SIZE + BitmapSize(size)
    ensures IsLeastMissing(meta, NumChunks(size), from, NextMissing(Some(meta), size, from))
  {
    NumChunksFits(size);
    ScanFindsFirst(meta, from / 8);
    forall i: nat | i < NumChunks(size)
      ensures HEADER_SIZE + i / 8 < |meta|
    {
      InRange(i, size);
    }
  }
}
