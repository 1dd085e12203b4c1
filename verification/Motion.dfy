/**
  What one step of a live message does, seen from the bitmap: it looks for a missing chunk, fetches it, reads
  the bitmap byte, and writes it back with one more bit. Everything else only brings it closer to its
  next write, or to its end.
 */
module Motion {
  import opened Machine
  import opened Codec
  import opened Metadata
  import opened Storage
  import opened Handlers
  import opened Worker
  import opened Transfer

  /** The bitmap byte `j`, all zero as long as there is no metadata file. */
  function Cell(d: Files, j: nat): byte {
    if d.meta.Some? && HEADER_SIZE + j < |d.meta.value| then d.meta.value[HEADER_SIZE + j] else 0
  }

  predicate Has(d: Files, i: nat) {
    Bit(Cell(d, i / 8), i % 8)
  }

  /** Chunk `i` is the first one missing in its bitmap byte. */
  ghost predicate FirstMissing(d: Files, i: nat) {
    !Has(d, i) && forall k: nat :: i / 8 * 8 <= k < i ==> Has(d, k)
  }

  /** No chunk from bitmap byte `j` on is missing. */
  ghost predicate FullFrom(t: Upload, d: Files, j: nat) {
    forall i: nat :: 8 * j <= i < NumChunks(|t.content|) ==> Has(d, i)
  }

  ghost predicate SameCells(d: Files, d': Files) {
    forall j: nat :: Cell(d', j) == Cell(d, j)
  }

  /** What a live message is about to do to the bitmap. */
  datatype Aim = Aimless | Fetching(i: nat) | Stamping(i: nat, b: byte)

  function AimOf(t: Upload, k: Token): Aim {
    match k
    case ToClient(m) =>
      if m.body.ChunkReq? && m.body.first < NumChunks(|t.content|) then Fetching(m.body.first) else Aimless
    case ToServer(m) => if m.body.ChunkData? then Fetching(m.body.idx) else Aimless
    case Serving(w) =>
      if !w.m.body.ChunkData? || Rank(w) < 4 then Aimless
      else if w.Marking? then Stamping(w.m.body.idx, w.b)
      else Fetching(w.m.body.idx)
  }

  /** An upper bound on the steps of a message before it writes to the bitmap or is gone. */
  function Ahead(t: Upload, k: Token): (r: nat)
    ensures r > 0
  {
    var z := BitmapSize(|t.content|) + 1;
    match k
    case ToServer(m) => if m.body.ChunkData? then 4006 else 4017 + 2 * z
    case ToClient(_) => 4007
    case Serving(w) =>
      var late := w.m.body.ChunkData?;
      match w
      case Start(_) => if late then 4005 else 4016 + 2 * z
      case Opening(_, _, _) => if late then 4004 else 4015 + 2 * z
      case Creating(_, _, _) => if late then 4003 else 4014 + 2 * z
      case Saving(_, _, _) => if late then 4002 else 4013 + 2 * z
      case Writing(m, _, _, k) => if late then 3 + Max(0, |m.body.data| - k) else 3
      case Reading(_, _, _) => 2
      case Marking(_, _, _, _) => 1
      case Verifying(_, _, _) => 4012 + 2 * z
      case Checking(_, _, _, j) => 4010 + z + Max(0, z - j)
      case Hashing(_, _, _) => 4009 + z
      case Seeking(_, _, _, j) => 4008 + Max(0, z - j)
  }

  /** The request that a search without result leads to: the largest 16-bit index, if there is such a chunk. */
  predicate AsksInVain(t: Upload, k: Token, k': Token) {
    k.Serving? && k.w.Seeking? && AimOf(t, k') == Fetching(INDEX_LIMIT - 1)
  }

  /** How one step of `k` on the files `d` may leave it. */
  ghost predicate Goes(t: Upload, d: Files, k: Token, d': Files, k': Option<Token>) {
    match AimOf(t, k)
    case Stamping(i, b) =>
      && k'.Some? && AimOf(t, k'.value).Aimless? && k'.value.Serving? && !k'.value.w.Seeking?
      && Cell(d', i / 8) == WithBit(b, i % 8, true)
      && forall j: nat :: j != i / 8 ==> Cell(d', j) == Cell(d, j)
    case Fetching(i) =>
      && SameCells(d, d')
      && (k'.Some? ==> Ahead(t, k'.value) < Ahead(t, k))
      && (k'.Some? ==> AimOf(t, k'.value) == AimOf(t, k) || AimOf(t, k'.value) == Stamping(i, Cell(d, i / 8)))
    case Aimless =>
      && SameCells(d, d')
      && (k'.Some? ==> Ahead(t, k'.value) < Ahead(t, k))
      && (k'.Some? ==> match AimOf(t, k'.value)
            case Aimless => true
            case Fetching(i) =>
              k'.value.ToClient? && i < NumChunks(|t.content|) && (FirstMissing(d, i) || AsksInVain(t, k, k'.value))
            case Stamping(_, _) => false)
  }

  /**
    A search moves on from full bytes only, starts when something is missing, and ends in vain only if
    nothing is. Requests come from searches.
   */
  ghost predicate Searches(t: Upload, d: Files, k: Token, k': Option<Token>) {
    && (k'.Some? && k'.value.Serving? && k'.value.w.Seeking? ==>
          if k.Serving? && k.w.Seeking? then FullFrom(t, d, k.w.j) <==> FullFrom(t, d, k'.value.w.j)
          else !FullFrom(t, d, k'.value.w.j))
    && (k.Serving? && k.w.Seeking? && k'.Some? && k'.value.ToClient? ==>
          if FullFrom(t, d, k.w.j) then
            k'.value.m.body == ChunkReq(INDEX_LIMIT - 1, UINT16_MAX)
          else AimOf(t, k'.value).Fetching? && FirstMissing(d, AimOf(t, k'.value).i))
    && (k'.Some? && k'.value.ToClient? && k'.value.m.body.ChunkReq? ==> k.Serving? && k.w.Seeking?)
  }

  // ---------------------------------------------------------------- the server's side

  lemma FreshCells(d: Files, size: u64, hash: Digest)
    ensures SameCells(d, CreateMeta(d, size, hash))
  {
  }

  lemma HasIsMarked(d: Files, i: nat)
    requires d.meta.Some?
    ensures Has(d, i) <==> Marked(d.meta.value, i)
  {
    ZeroByte(i % 8);
  }

  lemma FrontHas(d: Files, j: nat)
    requires d.meta.Some? && HEADER_SIZE + j < |d.meta.value|
    ensures var b := d.meta.value[HEADER_SIZE + j];
      && (forall i: nat :: 8 * j <= i < 8 * j + LeadingOnes(b, 0) ==> Has(d, i))
      && (b == 0xFF <==> LeadingOnes(b, 0) == 8)
      && (b != 0xFF ==> !Has(d, 8 * j + LeadingOnes(b, 0)))
  {
    hide Bit, LeadingOnes, Has, Marked;
    FrontMarked(d.meta.value, j);
    forall i: nat
      ensures Has(d, i) <==> Marked(d.meta.value, i)
    {
      HasIsMarked(d, i);
    }
  }

  lemma FullByteSkipped(t: Upload, d: Files, j: nat)
    requires forall i: nat :: 8 * j <= i < 8 * j + 8 ==> Has(d, i)
    ensures FullFrom(t, d, j) <==> FullFrom(t, d, j + 1)
  {
    hide Has;
  }

  /** What the search learns from one byte, in terms of chunks. */
  lemma Looked(t: Upload, h: HashFunction, d: Files, j: nat)
    requires Offerable(t) && DiskOk(t, h, d) && d.meta.Some?
    ensures match Look(d.meta, |t.content|, j)
      case Full => j < BitmapSize(|t.content|) && (FullFrom(t, d, j) <==> FullFrom(t, d, j + 1))
      case Missing(i) => i < NumChunks(|t.content|) && FirstMissing(d, i) && !FullFrom(t, d, j) && !FullFrom(t, d, 0)
      case Nothing => FullFrom(t, d, j)
  {
    hide Has, LeadingOnes, Sound;
    if HEADER_SIZE + j < |d.meta.value| {
      FrontHas(d, j);
      if Look(d.meta, |t.content|, j).Full? {
        FullByteSkipped(t, d, j);
        hide FullFrom;
      }
    }
  }

  function Then(r: Outcome): Option<Token> {
    match r
    case Continue(_, w) => Some(Serving(w))
    case Finish(_, reply) => if reply.Some? then Some(ToClient(reply.value)) else None
  }

  lemma ThenIs(r: Outcome)
    ensures r.Continue? ==> Then(r) == Some(Serving(r.next))
    ensures r.Finish? && r.reply.Some? ==> Then(r) == Some(ToClient(r.reply.value))
  {
  }

  ghost predicate StepMoves(t: Upload, h: HashFunction, d: Files, w: Worker)
    requires Wf(w)
  {
    var r := Step(h, d, w);
    Goes(t, d, Serving(w), r.files, Then(r)) && Searches(t, d, Serving(w), Then(r))
  }

  lemma MovesAre(t: Upload, h: HashFunction, d: Files, w: Worker, r: Outcome)
    requires Wf(w) && r == Step(h, d, w)
    requires Goes(t, d, Serving(w), r.files, Then(r)) && Searches(t, d, Serving(w), Then(r))
    ensures StepMoves(t, h, d, w)
  {
  }

  lemma OpenMoves(t: Upload, h: HashFunction, d: Files, w: Worker)
    requires Offerable(t) && DiskOk(t, h, d) && WorkerOk(t, h, d, w) && Rank(w) >= 8
    ensures StepMoves(t, h, d, w)
  {
    hide ReadHeader, Has, Sound;
    if w.Opening? {
      FreshCells(d, w.size, w.hash);
    }
    hide FreshMeta, BitmapSize;
  }

  lemma SaveStep(t: Upload, h: HashFunction, d: Files, w: Worker)
    requires Offerable(t) && DiskOk(t, h, d) && WorkerOk(t, h, d, w) && 5 <= Rank(w) <= 7
    ensures var r := Step(h, d, w);
      && r.Continue? && r.files.meta == d.meta && r.next.m == w.m
      && Ahead(t, Serving(r.next)) < Ahead(t, Serving(w))
      && (w.m.body.ChunkData? ==>
            Rank(r.next) >= 5 || (r.next.Marking? && r.next.b == Cell(d, w.m.body.idx / 8)))
      && (!w.m.body.ChunkData? ==> r.next.Verifying?)
  {
    if w.m.body.ChunkData? {
      AcceptsWhatIsSent(t.content, w.m.body.idx, w.m.body.data);
      InRange(w.m.body.idx, |t.content|);
      assert Accepts(|t.content|, w.m.body.idx, w.m.body.data) && |w.m.body.data| <= CHUNK_SIZE;
      assert HEADER_SIZE + w.m.body.idx / 8 < |d.meta.value|;
    }
    hide Sound, Accepts, BitmapSize, WriteAt, Right, MetaOk, GetChunk, ChunkLen;
  }

  lemma SaveMoves(t: Upload, h: HashFunction, d: Files, w: Worker)
    requires Offerable(t) && DiskOk(t, h, d) && WorkerOk(t, h, d, w) && 5 <= Rank(w) <= 7
    ensures StepMoves(t, h, d, w)
  {
    SaveStep(t, h, d, w);
    hide Step, Sound, Has, FirstMissing, FullFrom, WorkerOk, DiskOk, Ahead;
  }

  lemma MarkMoves(t: Upload, h: HashFunction, d: Files, w: Worker)
    requires Offerable(t) && DiskOk(t, h, d) && WorkerOk(t, h, d, w) && w.Marking?
    ensures StepMoves(t, h, d, w)
  {
    InRange(w.m.body.idx, |t.content|);
    hide Has, WithBit, Sound, BitmapSize;
  }

  lemma CheckStep(t: Upload, h: HashFunction, d: Files, w: Worker)
    requires Offerable(t) && DiskOk(t, h, d) && WorkerOk(t, h, d, w) && Rank(w) <= 3 && !w.Seeking?
    ensures var r := Step(h, d, w);
      && r.files == d
      && (r.Continue? ==> r.next.m == w.m && Rank(r.next) < 4 && Ahead(t, Serving(r.next)) < Ahead(t, Serving(w)))
      && (r.Continue? && r.next.Seeking? ==> !FullFrom(t, d, r.next.j))
      && (r.Finish? ==> r.reply.Some? && r.reply.value.body.Complete?)
  {
    if w.Checking? {
      Looked(t, h, d, w.j);
    }
    if w.Hashing? {
      AllSoundIsReceived(t, h, d);
    }
    hide Has, FirstMissing, Look, Sound, BitmapSize, FullFrom, MetaOk;
  }

  lemma CheckMoves(t: Upload, h: HashFunction, d: Files, w: Worker)
    requires Offerable(t) && DiskOk(t, h, d) && WorkerOk(t, h, d, w) && Rank(w) <= 3 && !w.Seeking?
    ensures StepMoves(t, h, d, w)
  {
    CheckStep(t, h, d, w);
    hide Step, Has, FirstMissing, FullFrom, WorkerOk, DiskOk, BitmapSize;
  }

  lemma SeekStep(h: HashFunction, d: Files, w: Worker)
    requires w.Seeking?
    ensures var r := Step(h, d, w);
      && r.files == d
      && match Look(d.meta, w.size, w.j)
         case Full => r == Continue(d, Seeking(w.m, w.size, w.hash, w.j + 1))
         case Missing(i) => r.Finish? && r.reply.Some? && (i < INDEX_LIMIT ==> r.reply.value.body == ChunkReq(i, UINT16_MAX))
         case Nothing => r.Finish? && r.reply.Some? && r.reply.value.body == ChunkReq(INDEX_LIMIT - 1, UINT16_MAX)
  {
    hide Look;
  }

  lemma AskMoves(t: Upload, d: Files, w: Worker, m: Message)
    requires w.Seeking? && m.body.ChunkReq? && m.body.last == UINT16_MAX
    requires if FullFrom(t, d, w.j) then m.body.first == INDEX_LIMIT - 1
      else m.body.first < NumChunks(|t.content|) && FirstMissing(d, m.body.first)
    ensures Goes(t, d, Serving(w), d, Some(ToClient(m))) && Searches(t, d, Serving(w), Some(ToClient(m)))
  {
    hide Has, FirstMissing, FullFrom, BitmapSize;
  }

  lemma SeekOn(t: Upload, d: Files, w: Worker)
    requires w.Seeking? && w.j < BitmapSize(|t.content|) && (FullFrom(t, d, w.j) <==> FullFrom(t, d, w.j + 1))
    ensures var k' := Some(Serving(Seeking(w.m, w.size, w.hash, w.j + 1)));
      Goes(t, d, Serving(w), d, k') && Searches(t, d, Serving(w), k')
  {
    hide Has, FirstMissing, FullFrom, BitmapSize;
  }

  lemma SeekMoves(t: Upload, h: HashFunction, d: Files, w: Worker)
    requires Offerable(t) && DiskOk(t, h, d) && WorkerOk(t, h, d, w) && w.Seeking?
    requires NumChunks(|t.content|) <= INDEX_LIMIT
    ensures StepMoves(t, h, d, w)
  {
    assert d.meta.Some? && w.size == |t.content|;
    hide *;
    Looked(t, h, d, w.j);
    SeekStep(h, d, w);
    var r := Step(h, d, w);
    if Look(d.meta, w.size, w.j).Full? {
      SeekOn(t, d, w);
    } else {
      AskMoves(t, d, w, r.reply.value);
    }
    ThenIs(r);
    MovesAre(t, h, d, w, r);
  }

  lemma ServingMoves(t: Upload, h: HashFunction, d: Files, w: Worker)
    requires Offerable(t) && DiskOk(t, h, d) && WorkerOk(t, h, d, w) && NumChunks(|t.content|) <= INDEX_LIMIT
    ensures StepMoves(t, h, d, w)
  {
    if Rank(w) >= 8 {
      OpenMoves(t, h, d, w);
    } else if Rank(w) >= 5 {
      SaveMoves(t, h, d, w);
    } else if w.Marking? {
      MarkMoves(t, h, d, w);
    } else if w.Seeking? {
      SeekMoves(t, h, d, w);
    } else {
      CheckMoves(t, h, d, w);
    }
    hide *;
  }

  // ---------------------------------------------------------------- every step of a live message

  function At(s: State, id: nat): Option<Token> {
    if id in s.tokens then Some(s.tokens[id]) else None
  }

  predicate OthersStay(s: State, s': State, id: nat) {
    s'.tokens.Keys <= s.tokens.Keys && forall i :: i in s.tokens && i != id ==> i in s'.tokens && s'.tokens[i] == s.tokens[i]
  }

  /** The client's part: the chunk is sent, or the message is gone. */
  lemma ClientMoves(t: Upload, h: HashFunction, s: State, id: nat)
    requires Offerable(t) && Enabled(t, s, Advance(id)) && s.tokens[id].ToClient? && FromServer(t, s.disk, s.tokens[id].m)
    ensures var s' := Moved(t, h, s, id);
      && s'.disk == s.disk && OthersStay(s, s', id)
      && (id in s'.tokens <==> s.offered && AimOf(t, s.tokens[id]).Fetching?)
      && (id in s'.tokens ==> s'.tokens[id].ToServer? && AimOf(t, s'.tokens[id]) == AimOf(t, s.tokens[id]) && s'.offered)
      && (s.offered && s.tokens[id].m.body.Complete? ==> s'.completed)
      && (s.tokens[id].m.body.ChunkReq? ==> s'.completed == s.completed && s'.offered == s.offered)
      && (s.completed ==> s'.completed)
      && (s.offered ==> s'.offered || s'.completed)
  {
    var m, files := s.tokens[id].m, ClientFiles(t, h, s);
    ClientAnswersIff(t.key.uuid, files, m);
    assert m.clientUuid == t.key.uuid && m.fileName == t.key.name;
    hide BuildChunkData, GetChunk, Done;
  }

  ghost predicate Advances(t: Upload, h: HashFunction, s: State, id: nat)
    requires Enabled(t, s, Advance(id))
  {
    var s' := Moved(t, h, s, id);
    && Goes(t, s.disk, s.tokens[id], s'.disk, At(s', id))
    && Searches(t, s.disk, s.tokens[id], At(s', id))
    && OthersStay(s, s', id)
  }

  lemma TakenAdvances(t: Upload, h: HashFunction, s: State, id: nat)
    requires Enabled(t, s, Advance(id)) && s.tokens[id].ToServer?
    requires s.tokens[id].m.body.ChunkData? || s.tokens[id].m.body.Offer?
    ensures Advances(t, h, s, id)
  {
    hide Has, FirstMissing, FullFrom, BitmapSize;
  }

  lemma ClientAdvances(t: Upload, h: HashFunction, s: State, id: nat)
    requires Offerable(t) && Enabled(t, s, Advance(id)) && s.tokens[id].ToClient? && FromServer(t, s.disk, s.tokens[id].m)
    ensures Advances(t, h, s, id)
  {
    ClientMoves(t, h, s, id);
    hide Has, FirstMissing, FullFrom, Moved, BitmapSize, FromServer;
  }

  lemma ServingAdvances(t: Upload, h: HashFunction, s: State, id: nat)
    requires Enabled(t, s, Advance(id)) && s.tokens[id].Serving? && StepMoves(t, h, s.disk, s.tokens[id].w)
    ensures Advances(t, h, s, id)
  {
    hide Goes, Searches, Step;
  }

  lemma EveryAdvance(t: Upload, h: HashFunction, s: State, id: nat)
    requires Offerable(t) && Inv(t, h, s) && Enabled(t, s, Advance(id)) && NumChunks(|t.content|) <= INDEX_LIMIT
    ensures Advances(t, h, s, id)
  {
    assert TokenOk(t, h, s.disk, s.tokens[id]);
    hide Advances, DiskOk, WorkerOk, Sound, StepMoves, GetChunk;
    match s.tokens[id]
    case ToServer(m) => TakenAdvances(t, h, s, id);
    case ToClient(m) => ClientAdvances(t, h, s, id);
    case Serving(w) =>
      ServingMoves(t, h, s.disk, w);
      ServingAdvances(t, h, s, id);
  }
}
