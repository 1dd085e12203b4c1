/**
  One upload as a transition system: the client, the server's workers, the messages in flight and
  the two files on disk, with either process stopping at any step.

  Every live message of the upload is a token: in the stream to the server or queued there, held by
  a worker, or in the stream to the client. Tokens move in any order, so runs of this system cover
  every scheduling of any number of workers and connections.
 */
module Transfer {
  import opened Machine
  import opened Codec
  import opened Metadata
  import opened Storage
  import opened Handlers
  import opened Worker

  /** The file a client uploads. It does not change during the upload. */
  datatype Upload = Upload(key: Key, content: Bytes)

  /** The sizes the offer message can carry, under a name that stays in the client's directory. */
  predicate Offerable(t: Upload) {
    |t.content| < 0x1_0000_0000 && PlainName(t.key.name)
  }

  /** Chunk indices travel through `uint16_t` parameters. */
  const INDEX_LIMIT := 65536

  datatype Token = ToServer(m: Message) | Serving(w: Worker) | ToClient(m: Message)

  /** `offered`: the name is in the client's map; `completed`: FILE_COMPLETE took it out of there. */
  datatype State = State(disk: Files, tokens: map<nat, Token>, offered: bool, completed: bool)

  datatype Action =
    | OfferFile(id: nat)               // the client sends an offer
    | Advance(id: nat)                 // a token makes its next step
    | Lose(id: nat)                    // a connection or a queue drops a message
    | StopServer                       // the server process stops; its workers are gone
    | StopCreating(id: nat, k: nat)    // it stops while the blank target has only k bytes
    | StopClient                       // the client process stops and forgets its offers

  const INIT := State(Files(None, None), map[], false, false)

  function Local(t: Upload, h: HashFunction): LocalFile {
    LocalFile(t.key.name, t.content, h(t.content))
  }

  function ClientFiles(t: Upload, h: HashFunction, s: State): map<Bytes, LocalFile> {
    if s.offered then map[t.key.name := Local(t, h)] else map[]
  }

  function Queued(tokens: map<nat, Token>): map<nat, Token> {
    map i | i in tokens && !tokens[i].Serving? :: tokens[i]
  }

  predicate Enabled(t: Upload, s: State, a: Action) {
    match a
    case OfferFile(id) => id !in s.tokens
    case Advance(id) => id in s.tokens && (s.tokens[id].Serving? ==> Wf(s.tokens[id].w))
    case Lose(id) => id in s.tokens && !s.tokens[id].Serving?
    case StopServer => true
    case StopCreating(id, k) =>
      && id in s.tokens && s.tokens[id].Serving? && s.tokens[id].w.Creating?
      && s.disk.target.None? && k <= s.tokens[id].w.size
    case StopClient => true
  }

  function Moved(t: Upload, h: HashFunction, s: State, id: nat): State
    requires Enabled(t, s, Advance(id))
  {
    match s.tokens[id]
    case ToServer(m) => s.(tokens := s.tokens[id := Serving(Start(m))])
    case Serving(w) =>
      (match Step(h, s.disk, w)
       case Continue(d, w') => s.(disk := d, tokens := s.tokens[id := Serving(w')])
       case Finish(d, reply) =>
         s.(disk := d, tokens := if reply.Some? then s.tokens[id := ToClient(reply.value)] else s.tokens - {id}))
    case ToClient(m) =>
      var r := ClientHandle(t.key.uuid, ClientFiles(t, h, s), m);
      var tokens := if r.reply.Ok? && r.reply.value.Some? then s.tokens[id := ToServer(r.reply.value.value)]
                    else s.tokens - {id};
      s.(tokens := tokens, offered := t.key.name in r.files,
         completed := s.completed || (s.offered && t.key.name !in r.files))
  }

  function Apply(t: Upload, h: HashFunction, s: State, a: Action): State
    requires Enabled(t, s, a)
  {
    match a
    case OfferFile(id) =>
      s.(tokens := s.tokens[id := ToServer(BuildOffer(1, t.key.uuid, Local(t, h)))], offered := true)
    case Advance(id) => Moved(t, h, s, id)
    case Lose(id) => s.(tokens := s.tokens - {id})
    case StopServer => s.(tokens := Queued(s.tokens))
    case StopCreating(id, k) => s.(disk := s.disk.(target := Some(Zeros(k))), tokens := Queued(s.tokens))
    case StopClient => s.(offered := false)
  }

  /** The actions can be taken one after the other. */
  predicate Runs(t: Upload, h: HashFunction, s: State, acts: seq<Action>)
    decreases |acts|
  {
    acts == [] || (Enabled(t, s, acts[0]) && Runs(t, h, Apply(t, h, s, acts[0]), acts[1..]))
  }

  function After(t: Upload, h: HashFunction, s: State, acts: seq<Action>): State
    requires Runs(t, h, s, acts)
    decreases |acts|
  {
    if acts == [] then s else After(t, h, Apply(t, h, s, acts[0]), acts[1..])
  }

  /** The actions can be taken and lead from `s` to `s'`. */
  ghost predicate Follows(t: Upload, h: HashFunction, s: State, acts: seq<Action>, s': State) {
    Runs(t, h, s, acts) && After(t, h, s, acts) == s'
  }

  lemma One(t: Upload, h: HashFunction, s: State, a: Action)
    requires Enabled(t, s, a)
    ensures Follows(t, h, s, [a], Apply(t, h, s, a))
  {
    var s' := Apply(t, h, s, a);
    assert [a][1..] == [];
    assert Runs(t, h, s', []) && After(t, h, s', []) == s';
  }

  lemma {:induction false} RunsAppend(t: Upload, h: HashFunction, s: State, a: seq<Action>, b: seq<Action>)
    requires Runs(t, h, s, a) && Runs(t, h, After(t, h, s, a), b)
    ensures Follows(t, h, s, a + b, After(t, h, After(t, h, s, a), b))
    decreases |a|
  {
    if a == [] {
      assert a + b == b;
    } else {
      assert (a + b)[0] == a[0] && (a + b)[1..] == a[1..] + b;
      RunsAppend(t, h, Apply(t, h, s, a[0]), a[1..], b);
    }
  }

  /** What each fault takes away, and that it takes nothing else. */
  lemma FaultsTake(t: Upload, h: HashFunction, s: State, a: Action)
    requires Enabled(t, s, a) && !a.Advance? && !a.OfferFile?
    ensures var s' := Apply(t, h, s, a);
      && s'.completed == s.completed && s'.disk.meta == s.disk.meta
      && (s'.offered <==> s.offered && !a.StopClient?)
      && (forall id :: id in s'.tokens <==>
            id in s.tokens && a != Lose(id) && !((a.StopServer? || a.StopCreating?) && s.tokens[id].Serving?))
      && (forall id :: id in s'.tokens ==> s'.tokens[id] == s.tokens[id])
      && (if a.StopCreating? then s'.disk.target == Some(seq(a.k, _ => 0)) else s'.disk.target == s.disk.target)
  {
  }

  // ---------------------------------------------------------------- the invariant

  /** Byte `p` of the target file is the client's. */
  predicate Right(t: Upload, d: Files, p: nat) {
    d.target.Some? && RightAt(t.content, d.target.value, p)
  }

  /** Chunk `i` exists, its index fits 16 bits, and the server holds the client's bytes for it. */
  ghost predicate Sound(t: Upload, d: Files, i: nat) {
    && i < NumChunks(|t.content|) && i < INDEX_LIMIT
    && d.target.Some? && Holds(t.content, d.target.value, i)
  }

  ghost predicate MetaOk(t: Upload, h: HashFunction, d: Files) {
    d.meta.Some? ==>
      && |d.meta.value| == HEADER_SIZE + BitmapSize(|t.content|)
      && |t.content| <= UINT64_MAX
      && d.meta.value[..HEADER_SIZE] == HeaderBytes(|t.content|, h(t.content))
      && forall i: nat :: Marked(d.meta.value, i) ==> Sound(t, d, i)
  }

  ghost predicate DiskOk(t: Upload, h: HashFunction, d: Files) {
    && MetaOk(t, h, d)
    && (d.target.Some? ==> |d.target.value| <= |t.content|)
  }

  /** A message from the client carries the client's own data. */
  predicate FromClient(t: Upload, h: HashFunction, m: Message) {
    && KeyOf(m) == t.key
    && match m.body
       case Offer(size, n, hash) => size == |t.content| && n == NumChunks(|t.content|) && hash == h(t.content)
       case ChunkData(idx, data) =>
         && idx < NumChunks(|t.content|) && idx < INDEX_LIMIT
         && GetChunk(t.content, idx) == Ok(data)
       case _ => false
  }

  predicate Received(t: Upload, d: Files) {
    d.target == Some(t.content)
  }

  /** What FILE_COMPLETE stands for. */
  predicate Done(t: Upload, d: Files) {
    Received(t, d) && NumChunks(|t.content|) <= INDEX_LIMIT
  }

  predicate FromServer(t: Upload, d: Files, m: Message) {
    && KeyOf(m) == t.key
    && match m.body
       case Complete => Done(t, d)
       case ChunkReq(first, _) => first < INDEX_LIMIT
       case _ => false
  }

  ghost predicate WorkerOk(t: Upload, h: HashFunction, d: Files, w: Worker) {
    && Wf(w) && FromClient(t, h, w.m)
    && (!w.Start? ==> w.size == |t.content| && w.hash == h(t.content))
    && (Rank(w) <= 8 ==> d.meta.Some?)
    && (Rank(w) <= 7 ==> d.target.Some?)
    && match w
       case Writing(m, _, _, k) =>
         k <= |m.body.data| && forall p: nat :: m.body.idx * CHUNK_SIZE <= p < m.body.idx * CHUNK_SIZE + k ==> Right(t, d, p)
       case Reading(m, _, _) => Sound(t, d, m.body.idx)
       case Marking(m, _, _, b) =>
         Sound(t, d, m.body.idx) && forall k: nat :: k < 8 && Bit(b, k) ==> Sound(t, d, m.body.idx / 8 * 8 + k)
       case Checking(_, _, _, j) => forall i: nat :: i < 8 * j ==> Sound(t, d, i)
       case Hashing(_, _, _) => forall i: nat :: i < NumChunks(|t.content|) ==> Sound(t, d, i)
       case _ => true
  }

  ghost predicate TokenOk(t: Upload, h: HashFunction, d: Files, k: Token) {
    match k
    case ToServer(m) => FromClient(t, h, m)
    case Serving(w) => WorkerOk(t, h, d, w)
    case ToClient(m) => FromServer(t, d, m)
  }

  ghost predicate Inv(t: Upload, h: HashFunction, s: State) {
    && DiskOk(t, h, s.disk)
    && (forall id :: id in s.tokens ==> TokenOk(t, h, s.disk, s.tokens[id]))
    && (s.completed ==> Done(t, s.disk))
  }

  // ---------------------------------------------------------------- right bytes stay right

  /** From `d` to `d'` files are only created and no right byte is damaged. */
  ghost predicate Keeps(t: Upload, d: Files, d': Files) {
    && (d.meta.Some? ==> d'.meta.Some?)
    && (d.target.Some? ==> d'.target.Some?)
    && (forall p: nat :: Right(t, d, p) ==> Right(t, d', p))
    && (d'.target.Some? ==> |d'.target.value| <= |t.content|)
  }

  lemma KeepsRight(t: Upload, d: Files, d': Files, p: nat)
    requires Keeps(t, d, d') && Right(t, d, p)
    ensures Right(t, d', p)
  {
  }

  lemma KeepsSound(t: Upload, d: Files, d': Files, i: nat)
    requires Keeps(t, d, d') && Sound(t, d, i)
    ensures Sound(t, d', i)
  {
    forall p: nat | p < |t.content| && p / CHUNK_SIZE == i
      ensures RightAt(t.content, d'.target.value, p)
    {
      assert Right(t, d, p) && Right(t, d', p);
    }
  }

  lemma AllRightIsReceived(t: Upload, d: Files)
    requires d.target.Some? && |d.target.value| <= |t.content|
    requires forall p: nat :: p < |t.content| ==> Right(t, d, p)
    ensures Received(t, d)
  {
    forall p: nat | p < |t.content|
      ensures RightAt(t.content, d.target.value, p)
    {
      assert Right(t, d, p);
    }
    AllRight(t.content, d.target.value);
  }

  lemma KeepsReceived(t: Upload, d: Files, d': Files)
    requires Keeps(t, d, d') && Received(t, d)
    ensures Received(t, d')
  {
    forall p: nat | p < |t.content|
      ensures Right(t, d', p)
    {
      assert Right(t, d, p);
    }
    AllRightIsReceived(t, d');
  }

  lemma KeepsToken(t: Upload, h: HashFunction, d: Files, d': Files, k: Token)
    requires Keeps(t, d, d') && TokenOk(t, h, d, k)
    ensures TokenOk(t, h, d', k)
  {
    if Received(t, d) {
      KeepsReceived(t, d, d');
    }
    forall i: nat | Sound(t, d, i)
      ensures Sound(t, d', i)
    {
      KeepsSound(t, d, d', i);
    }
  }

  /** Chunks 0..n-1 together are the whole file. */
  lemma AllSoundIsReceived(t: Upload, h: HashFunction, d: Files)
    requires DiskOk(t, h, d) && d.target.Some?
    requires forall i: nat :: i < NumChunks(|t.content|) ==> Sound(t, d, i)
    ensures Received(t, d)
  {
    forall i: nat | i < NumChunks(|t.content|)
      ensures Holds(t.content, d.target.value, i)
    {
      assert Sound(t, d, i);
    }
    AllHold(t.content, d.target.value);
  }

  // ---------------------------------------------------------------- each atomic effect keeps the invariant

  /** What one effect guarantees, for the worker that takes it and for everybody else. */
  ghost predicate StepFine(t: Upload, h: HashFunction, d: Files, r: Outcome) {
    && Keeps(t, d, r.files)
    && DiskOk(t, h, r.files)
    && (r.Continue? ==> WorkerOk(t, h, r.files, r.next))
    && (r.Finish? && r.reply.Some? ==> FromServer(t, r.files, r.reply.value))
  }

  /** The header of an upload in progress reads back as offered; without a metadata file it reads as zero. */
  lemma HeaderOfUpload(t: Upload, h: HashFunction, d: Files)
    requires Offerable(t) && MetaOk(t, h, d)
    ensures d.meta.Some? ==> ReadHeader(d.meta) == Header(|t.content|, CHUNK_SIZE, h(t.content))
    ensures d.meta.None? ==> ReadHeader(d.meta).chunkSize == 0
  {
    if d.meta.Some? {
      HeaderRoundTrip(d.meta.value, |t.content|, h(t.content));
    } else {
      NoHeader();
    }
  }

  lemma StartFine(t: Upload, h: HashFunction, d: Files, w: Worker)
    requires Offerable(t) && DiskOk(t, h, d) && WorkerOk(t, h, d, w) && w.Start?
    ensures StepFine(t, h, d, Step(h, d, w))
  {
    hide ReadHeader;
    HeaderOfUpload(t, h, d);
  }

  lemma KeepsDisk(t: Upload, h: HashFunction, d: Files, d': Files)
    requires DiskOk(t, h, d) && Keeps(t, d, d') && d'.meta == d.meta
    ensures DiskOk(t, h, d')
  {
    if d.meta.Some? {
      forall i: nat | Marked(d.meta.value, i)
        ensures Sound(t, d', i)
      {
        KeepsSound(t, d, d', i);
      }
    }
  }

  lemma CreateFine(t: Upload, h: HashFunction, d: Files, w: Worker)
    requires Offerable(t) && DiskOk(t, h, d) && WorkerOk(t, h, d, w) && (w.Opening? || w.Creating?)
    ensures StepFine(t, h, d, Step(h, d, w))
  {
    var d' := Step(h, d, w).files;
    if w.Opening? && d.meta.None? {
      FreshIsEmpty(w.size, w.hash);
      assert FreshMeta(w.size, w.hash)[..HEADER_SIZE] == HeaderBytes(w.size, w.hash);
    } else {
      KeepsDisk(t, h, d, d');
    }
  }

  lemma SaveFine(t: Upload, h: HashFunction, d: Files, w: Worker)
    requires Offerable(t) && DiskOk(t, h, d) && WorkerOk(t, h, d, w) && w.Saving?
    ensures StepFine(t, h, d, Step(h, d, w))
  {
  }

  /** Writing the client's byte at its place damages nothing. */
  lemma RightByte(t: Upload, d: Files, at: nat)
    requires at < |t.content| && d.target.Some? && |d.target.value| <= |t.content|
    ensures var d' := d.(target := Some(WriteAt(d.target.value, at, [t.content[at]])));
      Keeps(t, d, d') && Right(t, d', at)
  {
  }

  /** Where the bytes of the client's chunk `idx` come from. */
  lemma ClientChunk(t: Upload, idx: nat, data: Bytes)
    requires idx < NumChunks(|t.content|) && GetChunk(t.content, idx) == Ok(data)
    ensures idx * CHUNK_SIZE + |data| <= |t.content|
    ensures forall k :: 0 <= k < |data| ==> data[k] == t.content[idx * CHUNK_SIZE + k]
    ensures forall p: nat :: p < |t.content| && p / CHUNK_SIZE == idx ==> idx * CHUNK_SIZE <= p < idx * CHUNK_SIZE + |data|
  {
  }

  lemma Filled(t: Upload, d: Files, idx: nat, len: nat)
    requires idx < NumChunks(|t.content|) && idx < INDEX_LIMIT && d.target.Some?
    requires forall p: nat :: p < |t.content| && p / CHUNK_SIZE == idx ==> idx * CHUNK_SIZE <= p < idx * CHUNK_SIZE + len
    requires forall p: nat :: idx * CHUNK_SIZE <= p < idx * CHUNK_SIZE + len ==> Right(t, d, p)
    ensures Sound(t, d, idx)
  {
    forall p: nat | p < |t.content| && p / CHUNK_SIZE == idx
      ensures RightAt(t.content, d.target.value, p)
    {
      assert Right(t, d, p);
    }
  }

  lemma SameTargetKeeps(t: Upload, d: Files, d': Files)
    requires d'.target == d.target && (d.meta.Some? ==> d'.meta.Some?)
    requires d.target.Some? ==> |d.target.value| <= |t.content|
    ensures Keeps(t, d, d')
  {
  }

  lemma WriteFine(t: Upload, h: HashFunction, d: Files, w: Worker)
    requires Offerable(t) && DiskOk(t, h, d) && WorkerOk(t, h, d, w) && w.Writing?
    ensures StepFine(t, h, d, Step(h, d, w))
  {
    var idx, data, at := w.m.body.idx, w.m.body.data, w.m.body.idx * CHUNK_SIZE;
    ClientChunk(t, idx, data);
    hide Sound, Accepts, GetChunk, WriteAt, MetaOk;
    if w.k < |data| {
      var d' := d.(target := Some(WriteAt(d.target.value, at + w.k, [data[w.k]])));
      assert Step(h, d, w) == Continue(d', Writing(w.m, w.size, w.hash, w.k + 1));
      RightByte(t, d, at + w.k);
      KeepsDisk(t, h, d, d');
      hide Keeps, DiskOk, Step;
      forall p: nat | at <= p < at + w.k + 1
        ensures Right(t, d', p)
      {
        if p < at + w.k {
          KeepsRight(t, d, d', p);
        }
      }
    } else {
      Filled(t, d, idx, |data|);
      SameTargetKeeps(t, d, d);
    }
  }

  lemma BitIsMark(meta: Bytes, j: nat, k: nat)
    requires k < 8 && HEADER_SIZE + j < |meta| && Bit(meta[HEADER_SIZE + j], k)
    ensures Marked(meta, j * 8 + k)
  {
    assert (j * 8 + k) / 8 == j && (j * 8 + k) % 8 == k;
  }

  lemma BitsSound(t: Upload, h: HashFunction, d: Files, j: nat, b: byte)
    requires DiskOk(t, h, d) && d.meta.Some? && HEADER_SIZE + j < |d.meta.value| && b == d.meta.value[HEADER_SIZE + j]
    ensures forall k: nat :: k < 8 && Bit(b, k) ==> Sound(t, d, j * 8 + k)
  {
    hide Sound;
    forall k: nat | k < 8 && Bit(b, k)
      ensures Sound(t, d, j * 8 + k)
    {
      BitIsMark(d.meta.value, j, k);
    }
  }

  lemma ReadStep(t: Upload, h: HashFunction, d: Files, w: Worker)
    requires DiskOk(t, h, d) && WorkerOk(t, h, d, w) && w.Reading?
    ensures var at := HEADER_SIZE + w.m.body.idx / 8;
      at < |d.meta.value| && Step(h, d, w) == Continue(d, Marking(w.m, w.size, w.hash, d.meta.value[at]))
  {
    InRange(w.m.body.idx, |t.content|);
    hide Holds, Marked;
  }

  lemma ReadFine(t: Upload, h: HashFunction, d: Files, w: Worker)
    requires Offerable(t) && DiskOk(t, h, d) && WorkerOk(t, h, d, w) && w.Reading?
    ensures StepFine(t, h, d, Step(h, d, w))
  {
    SameTargetKeeps(t, d, d);
    hide Sound, MetaOk, Keeps, Bit, FromClient, Step;
    ReadStep(t, h, d, w);
    var j := w.m.body.idx / 8;
    BitsSound(t, h, d, j, d.meta.value[HEADER_SIZE + j]);
  }

  lemma SameTarget(t: Upload, d: Files, d': Files, i: nat)
    requires Sound(t, d, i) && d'.target == d.target
    ensures Sound(t, d', i)
  {
  }

  /** Bits set in the written byte were set when it was read, or are the bit of the saved chunk. */
  lemma MarkFine(t: Upload, h: HashFunction, d: Files, w: Worker)
    requires Offerable(t) && DiskOk(t, h, d) && WorkerOk(t, h, d, w) && w.Marking?
    ensures StepFine(t, h, d, Step(h, d, w))
  {
    hide Right, BitmapSize, WithBit;
    var idx := w.m.body.idx;
    if HEADER_SIZE + idx / 8 < |d.meta.value| {
      var d' := Step(h, d, w).files;
      forall i: nat | Marked(d'.meta.value, i)
        ensures Sound(t, d', i)
      {
        if i / 8 == idx / 8 && i % 8 == idx % 8 {
          SameSlot(i, idx);
        } else if i / 8 == idx / 8 {
          assert Bit(w.b, i % 8) && i == idx / 8 * 8 + i % 8;
        } else {
          assert Marked(d.meta.value, i);
        }
        SameTarget(t, d, d', i);
      }
      SameTargetKeeps(t, d, d');
    }
  }

  /** A byte passed over in full, and the set bits before the first zero bit, are of sound chunks. */
  lemma PassedOver(t: Upload, h: HashFunction, d: Files, j: nat)
    requires Offerable(t) && DiskOk(t, h, d) && d.meta.Some?
    requires forall i: nat :: i < 8 * j ==> Sound(t, d, i)
    ensures match Look(d.meta, |t.content|, j)
      case Full => forall i: nat :: i < 8 * (j + 1) ==> Sound(t, d, i)
      case Missing(_) => true
      case Nothing => forall i: nat :: i < NumChunks(|t.content|) ==> Sound(t, d, i)
  {
    hide Sound, Marked, LeadingOnes;
    var meta := d.meta.value;
    if HEADER_SIZE + j < |meta| {
      FrontMarked(meta, j);
    } else {
      assert NumChunks(|t.content|) <= 8 * BitmapSize(|t.content|) <= 8 * j;
    }
  }

  /** Everything the scan has passed over is sound, and passing the end means the whole file is. */
  lemma CheckFine(t: Upload, h: HashFunction, d: Files, w: Worker)
    requires Offerable(t) && DiskOk(t, h, d) && WorkerOk(t, h, d, w) && w.Checking?
    ensures StepFine(t, h, d, Step(h, d, w))
  {
    hide Sound;
    SameTargetKeeps(t, d, d);
    PassedOver(t, h, d, w.j);
    hide LeadingOnes, BitmapSize;
  }

  lemma ReplyFine(t: Upload, h: HashFunction, d: Files, w: Worker)
    requires Offerable(t) && DiskOk(t, h, d) && WorkerOk(t, h, d, w) && (w.Verifying? || w.Hashing? || w.Seeking?)
    ensures StepFine(t, h, d, Step(h, d, w))
  {
    if w.Hashing? {
      AllSoundIsReceived(t, h, d);
      var n := NumChunks(|t.content|);
      assert n > 0 ==> Sound(t, d, n - 1);
    }
  }

  lemma EveryStepFine(t: Upload, h: HashFunction, d: Files, w: Worker)
    requires Offerable(t) && DiskOk(t, h, d) && WorkerOk(t, h, d, w)
    ensures StepFine(t, h, d, Step(h, d, w))
  {
    hide *;
    match w {
      case Start(_) => StartFine(t, h, d, w);
      case Opening(_, _, _) => CreateFine(t, h, d, w);
      case Creating(_, _, _) => CreateFine(t, h, d, w);
      case Saving(_, _, _) => SaveFine(t, h, d, w);
      case Writing(_, _, _, _) => WriteFine(t, h, d, w);
      case Reading(_, _, _) => ReadFine(t, h, d, w);
      case Marking(_, _, _, _) => MarkFine(t, h, d, w);
      case Verifying(_, _, _) => ReplyFine(t, h, d, w);
      case Checking(_, _, _, _) => CheckFine(t, h, d, w);
      case Hashing(_, _, _) => ReplyFine(t, h, d, w);
      case Seeking(_, _, _, _) => ReplyFine(t, h, d, w);
    }
  }

  // ---------------------------------------------------------------- every action keeps the invariant

  /** The client's answer to a request carries the client's own chunk. */
  lemma ClientAnswerFine(t: Upload, h: HashFunction, s: State, m: Message)
    requires Offerable(t) && FromServer(t, s.disk, m)
    ensures var r := ClientHandle(t.key.uuid, ClientFiles(t, h, s), m).reply;
      r.Ok? && r.value.Some? ==> FromClient(t, h, r.value.value)
  {
    if m.body.ChunkReq? && s.offered {
      ChunksTile(t.content);
      assert Narrow16(m.body.first) == m.body.first;
    }
  }

  lemma TokensKept(t: Upload, h: HashFunction, d: Files, d': Files, tokens: map<nat, Token>)
    requires Keeps(t, d, d')
    requires forall id :: id in tokens ==> TokenOk(t, h, d, tokens[id])
    ensures forall id :: id in tokens ==> TokenOk(t, h, d', tokens[id])
  {
    forall id | id in tokens
      ensures TokenOk(t, h, d', tokens[id])
    {
      KeepsToken(t, h, d, d', tokens[id]);
    }
  }

  lemma ServingFine(t: Upload, h: HashFunction, s: State, id: nat)
    requires Offerable(t) && Inv(t, h, s) && Enabled(t, s, Advance(id)) && s.tokens[id].Serving?
    ensures Inv(t, h, Moved(t, h, s, id)) && Keeps(t, s.disk, Moved(t, h, s, id).disk)
  {
    hide DiskOk, WorkerOk, Step, Keeps, FromServer, FromClient;
    var w := s.tokens[id].w;
    assert TokenOk(t, h, s.disk, s.tokens[id]);
    EveryStepFine(t, h, s.disk, w);
    TokensKept(t, h, s.disk, Step(h, s.disk, w).files, s.tokens);
    if s.completed {
      KeepsReceived(t, s.disk, Step(h, s.disk, w).files);
    }
  }

  lemma AdvanceFine(t: Upload, h: HashFunction, s: State, id: nat)
    requires Offerable(t) && Inv(t, h, s) && Enabled(t, s, Advance(id))
    ensures Inv(t, h, Moved(t, h, s, id)) && Keeps(t, s.disk, Moved(t, h, s, id).disk)
  {
    SameTargetKeeps(t, s.disk, s.disk);
    hide DiskOk, Step, Sound, Keeps;
    assert TokenOk(t, h, s.disk, s.tokens[id]);
    match s.tokens[id] {
      case ToServer(m) =>
      case Serving(w) => ServingFine(t, h, s, id);
      case ToClient(m) =>
        ClientAnswerFine(t, h, s, m);
    }
  }

  lemma ApplyKeepsInv(t: Upload, h: HashFunction, s: State, a: Action)
    requires Offerable(t) && Inv(t, h, s) && Enabled(t, s, a)
    ensures Inv(t, h, Apply(t, h, s, a)) && Keeps(t, s.disk, Apply(t, h, s, a).disk)
  {
    SameTargetKeeps(t, s.disk, s.disk);
    match a {
      case Advance(id) => AdvanceFine(t, h, s, id);
      case StopCreating(id, k) =>
        var s' := Apply(t, h, s, a);
        assert TokenOk(t, h, s.disk, s.tokens[id]);
        KeepsDisk(t, h, s.disk, s'.disk);
        TokensKept(t, h, s.disk, s'.disk, s.tokens);
      case _ =>
    }
  }

  lemma {:induction false} RunsKeepInv(t: Upload, h: HashFunction, s: State, acts: seq<Action>)
    requires Offerable(t) && Inv(t, h, s) && Runs(t, h, s, acts)
    ensures Inv(t, h, After(t, h, s, acts)) && Keeps(t, s.disk, After(t, h, s, acts).disk)
    decreases |acts|
  {
    if acts == [] {
      SameTargetKeeps(t, s.disk, s.disk);
    } else {
      ApplyKeepsInv(t, h, s, acts[0]);
      RunsKeepInv(t, h, Apply(t, h, s, acts[0]), acts[1..]);
    }
  }

  // ---------------------------------------------------------------- safety of whole runs

  function ChunkLenOf(t: Upload, i: nat): nat
    requires i < NumChunks(|t.content|)
  {
    ChunkLen(|t.content|, i)
  }

  /** The server's bytes for chunk `i` are the client's. */
  predicate SameChunk(t: Upload, d: Files, i: nat) {
    && i < NumChunks(|t.content|) && d.target.Some?
    && var (lo, len) := (i * CHUNK_SIZE, ChunkLenOf(t, i));
    lo + len <= |d.target.value| && GetChunk(t.content, i) == Ok(d.target.value[lo..lo + len])
  }

  lemma SoundIsSameChunk(t: Upload, d: Files, i: nat)
    requires Sound(t, d, i)
    ensures SameChunk(t, d, i)
  {
    var lo, len, f := i * CHUNK_SIZE, ChunkLenOf(t, i), d.target.value;
    assert RightAt(t.content, f, lo + len - 1);
    forall p: nat | lo <= p < lo + len
      ensures f[p] == t.content[p]
    {
      assert RightAt(t.content, f, p);
    }
    assert f[lo..lo + len] == t.content[lo..lo + len];
  }

  /**
    After any run, with stops at any step and any number of workers on the same file: a chunk marked
    in the bitmap holds the client's bytes, a completion message in flight means that the files are
    equal, and so does the client's belief that its upload is complete. Nothing is assumed of the hash.
   */
  lemma MarkedMeansReceived(t: Upload, h: HashFunction, acts: seq<Action>)
    requires Offerable(t) && Runs(t, h, INIT, acts)
    ensures var s := After(t, h, INIT, acts);
      && (s.disk.meta.Some? ==> forall i: nat :: Marked(s.disk.meta.value, i) ==> SameChunk(t, s.disk, i))
      && (forall id :: id in s.tokens && s.tokens[id].ToClient? && s.tokens[id].m.body.Complete? ==> Received(t, s.disk))
      && (s.completed ==> Received(t, s.disk))
  {
    RunsKeepInv(t, h, INIT, acts);
    var s := After(t, h, INIT, acts);
    if s.disk.meta.Some? {
      forall i: nat | Marked(s.disk.meta.value, i)
        ensures SameChunk(t, s.disk, i)
      {
        SoundIsSameChunk(t, s.disk, i);
      }
    }
    forall id | id in s.tokens && s.tokens[id].ToClient? && s.tokens[id].m.body.Complete?
      ensures Received(t, s.disk)
    {
      assert TokenOk(t, h, s.disk, s.tokens[id]);
    }
  }

  lemma {:induction false} RunsConcat(t: Upload, h: HashFunction, s: State, a: seq<Action>, b: seq<Action>)
    requires Runs(t, h, s, a + b)
    ensures Runs(t, h, s, a) && Runs(t, h, After(t, h, s, a), b)
    ensures After(t, h, s, a + b) == After(t, h, After(t, h, s, a), b)
    decreases |a|
  {
    if a == [] {
      assert a + b == b;
    } else {
      assert (a + b)[0] == a[0] && (a + b)[1..] == a[1..] + b;
      RunsConcat(t, h, Apply(t, h, s, a[0]), a[1..], b);
    }
  }

  /** A file once received stays received, whatever happens later. */
  lemma ReceivedForGood(t: Upload, h: HashFunction, before: seq<Action>, later: seq<Action>)
    requires Offerable(t) && Runs(t, h, INIT, before + later)
    ensures Runs(t, h, INIT, before)
    ensures Received(t, After(t, h, INIT, before).disk) ==> Received(t, After(t, h, INIT, before + later).disk)
  {
    RunsConcat(t, h, INIT, before, later);
    RunsKeepInv(t, h, INIT, before);
    var s := After(t, h, INIT, before);
    RunsKeepInv(t, h, s, later);
    if Received(t, s.disk) {
      KeepsReceived(t, s.disk, After(t, h, s, later).disk);
    }
  }

  // ---------------------------------------------------------------- what the target file looks like

  /** Every byte of the target file is the client's, or blank. */
  predicate RightOrBlank(t: Upload, d: Files) {
    d.target.Some? ==>
      |d.target.value| <= |t.content|
      && forall p :: 0 <= p < |d.target.value| ==> d.target.value[p] == t.content[p] || d.target.value[p] == 0
  }

  predicate FullLength(t: Upload, d: Files) {
    d.target.Some? ==> |d.target.value| == |t.content|
  }

  lemma OneRightByte(t: Upload, d: Files, p: nat, d': Files)
    requires RightOrBlank(t, d) && d.target.Some? && p < |t.content|
    requires d' == d.(target := Some(WriteAt(d.target.value, p, [t.content[p]])))
    ensures RightOrBlank(t, d') && (FullLength(t, d) ==> FullLength(t, d'))
  {
  }

  lemma StepBlank(t: Upload, h: HashFunction, d: Files, w: Worker)
    requires Offerable(t) && WorkerOk(t, h, d, w) && RightOrBlank(t, d)
    ensures var d' := Step(h, d, w).files; RightOrBlank(t, d') && (FullLength(t, d) ==> FullLength(t, d'))
  {
    if w.Writing? && w.k < |w.m.body.data| {
      var idx, data := w.m.body.idx, w.m.body.data;
      ClientChunk(t, idx, data);
      var p := idx * CHUNK_SIZE + w.k;
      assert data[w.k] == t.content[p];
      OneRightByte(t, d, p, Step(h, d, w).files);
    } else {
      hide ReadHeader, Look, WithBit, Sound, WriteAt, GetChunk, Accepts, FreshMeta;
    }
  }

  lemma ActionBlank(t: Upload, h: HashFunction, s: State, a: Action)
    requires Offerable(t) && Inv(t, h, s) && Enabled(t, s, a) && RightOrBlank(t, s.disk)
    ensures var d' := Apply(t, h, s, a).disk;
      RightOrBlank(t, d') && (FullLength(t, s.disk) && !a.StopCreating? ==> FullLength(t, d'))
  {
    if a.Advance? && s.tokens[a.id].Serving? {
      assert TokenOk(t, h, s.disk, s.tokens[a.id]);
      StepBlank(t, h, s.disk, s.tokens[a.id].w);
      hide Step;
    } else if a.StopCreating? {
      assert TokenOk(t, h, s.disk, s.tokens[a.id]);
    }
    hide RightOrBlank, FullLength, DiskOk, WorkerOk;
  }

  lemma {:induction false} RunsBlank(t: Upload, h: HashFunction, s: State, acts: seq<Action>)
    requires Offerable(t) && Inv(t, h, s) && Runs(t, h, s, acts) && RightOrBlank(t, s.disk)
    ensures RightOrBlank(t, After(t, h, s, acts).disk)
    ensures FullLength(t, s.disk) && (forall i :: 0 <= i < |acts| ==> !acts[i].StopCreating?) ==> FullLength(t, After(t, h, s, acts).disk)
    decreases |acts|
  {
    if acts != [] {
      ActionBlank(t, h, s, acts[0]);
      ApplyKeepsInv(t, h, s, acts[0]);
      hide Apply, Enabled, Inv, RightOrBlank, FullLength;
      RunsBlank(t, h, Apply(t, h, s, acts[0]), acts[1..]);
    }
  }

  /**
    In every run each byte of the target file is the client's byte at that position or 0; unless the server was stopped
    while it created the file, the file has the full length from the beginning.
   */
  lemma TargetIsRightOrBlank(t: Upload, h: HashFunction, acts: seq<Action>)
    requires Offerable(t) && Runs(t, h, INIT, acts) && After(t, h, INIT, acts).disk.target.Some?
    ensures var f := After(t, h, INIT, acts).disk.target.value;
      && |f| <= |t.content|
      && (forall p :: 0 <= p < |f| ==> f[p] == t.content[p] || f[p] == 0)
      && ((forall i :: 0 <= i < |acts| ==> !acts[i].StopCreating?) ==> |f| == |t.content|)
  {
    RunsBlank(t, h, INIT, acts);
  }

  // ---------------------------------------------------------------- indices and live messages

  /**
    The 16-bit index: a file of more than 65536 chunks is never reported complete, in any run, and no
    chunk from index 65536 on is requested, sent or marked.
   */
  lemma LargeFileNeverCompletes(t: Upload, h: HashFunction, acts: seq<Action>)
    requires Offerable(t) && Runs(t, h, INIT, acts) && NumChunks(|t.content|) > INDEX_LIMIT
    ensures var s := After(t, h, INIT, acts);
      && !s.completed
      && (forall id :: id in s.tokens && s.tokens[id].ToClient? ==>
            s.tokens[id].m.body.ChunkReq? ==> s.tokens[id].m.body.first < INDEX_LIMIT)
      && (forall id :: id in s.tokens && s.tokens[id].ToClient? ==> !s.tokens[id].m.body.Complete?)
      && (forall id :: id in s.tokens && s.tokens[id].ToServer? ==>
            s.tokens[id].m.body.ChunkData? ==> s.tokens[id].m.body.idx < INDEX_LIMIT)
      && (s.disk.meta.Some? ==> forall i: nat :: Marked(s.disk.meta.value, i) ==> i < INDEX_LIMIT)
  {
    RunsKeepInv(t, h, INIT, acts);
    var s := After(t, h, INIT, acts);
    forall id | id in s.tokens
      ensures TokenOk(t, h, s.disk, s.tokens[id])
    {
    }
  }

  function Offers(acts: seq<Action>): nat {
    if acts == [] then 0 else (if acts[0].OfferFile? then 1 else 0) + Offers(acts[1..])
  }

  /** Messages move, in any order, and nothing else happens. */
  predicate FaultFree(acts: seq<Action>) {
    forall i :: 0 <= i < |acts| ==> acts[i].Advance?
  }

  /** Offers are made and messages move; nothing stops and nothing is lost. */
  predicate NoFault(acts: seq<Action>) {
    forall i :: 0 <= i < |acts| ==> acts[i].Advance? || acts[i].OfferFile?
  }

  lemma {:induction false} FaultFreeOffersNothing(acts: seq<Action>)
    requires FaultFree(acts)
    ensures Offers(acts) == 0
    decreases |acts|
  {
    if acts != [] {
      FaultFreeOffersNothing(acts[1..]);
    }
  }

  lemma FewerTokens(s: State, s': State)
    ensures s'.tokens.Keys <= s.tokens.Keys ==> |s'.tokens| <= |s.tokens|
  {
    var a, b := s'.tokens.Keys, s.tokens.Keys;
    if a <= b {
      assert b == a + (b - a);
      assert |s'.tokens| == |a| && |s.tokens| == |b|;
    }
  }

  lemma {:induction false} LiveBound(t: Upload, h: HashFunction, s: State, acts: seq<Action>)
    requires Runs(t, h, s, acts)
    ensures |After(t, h, s, acts).tokens| <= |s.tokens| + Offers(acts)
    decreases |acts|
  {
    if acts != [] {
      var s' := Apply(t, h, s, acts[0]);
      LiveBound(t, h, s', acts[1..]);
      FewerTokens(s, s');
    }
  }

  /** One offer keeps at most one message of the upload alive, so at most one worker handles it. */
  lemma OneLiveMessage(t: Upload, h: HashFunction, acts: seq<Action>)
    requires Runs(t, h, INIT, acts) && Offers(acts) <= 1
    ensures forall i, j :: i in After(t, h, INIT, acts).tokens && j in After(t, h, INIT, acts).tokens ==> i == j
  {
    LiveBound(t, h, INIT, acts);
    var tokens := After(t, h, INIT, acts).tokens;
    forall i, j | i in tokens && j in tokens
      ensures i == j
    {
      assert |tokens.Keys| == |tokens| <= 1;
      assert |tokens.Keys - {i}| == |tokens.Keys| - 1;
      assert j !in tokens.Keys - {i};
    }
  }

  // ---------------------------------------------------------------- messages survive the wire

  /** The message a token carries. */
  function Carried(k: Token): Message {
    match k
    case ToServer(m) => m
    case Serving(w) => w.m
    case ToClient(m) => m
  }

  lemma SurvivesTheWire(t: Upload, h: HashFunction, d: Files, k: Token)
    requires Offerable(t) && TokenOk(t, h, d, k)
    ensures var m := Carried(k);
      Sendable(m) && Fits(Frame(m)) && Decode(Frame(m)) == Ok(Parsed(|Payload(m)| % 0x1_0000, m))
  {
    var m := Carried(k);
    assert |m.fileName| <= 255;
    if m.body.ChunkData? {
      ChunksTile(t.content);
      assert |m.body.data| == ChunkLen(|t.content|, m.body.idx);
    }
    assert Sendable(m);
    hide Payload, Frame, Decode, Fits;
    assert Encode(m) == Ok(Frame(m));
    ParseUndoesSerialize(m);
  }

  /** In every run every live message, framed and parsed again, is the same message. */
  lemma WireIsTransparent(t: Upload, h: HashFunction, acts: seq<Action>, id: nat)
    requires Offerable(t) && Runs(t, h, INIT, acts) && id in After(t, h, INIT, acts).tokens
    ensures var m := Carried(After(t, h, INIT, acts).tokens[id]);
      Sendable(m) && Fits(Frame(m)) && Decode(Frame(m)).Ok? && Decode(Frame(m)).value.msg == m
  {
    RunsKeepInv(t, h, INIT, acts);
    var s := After(t, h, INIT, acts);
    SurvivesTheWire(t, h, s.disk, s.tokens[id]);
  }
}
