/**
  The server handler (src/ft_server.cpp:105-186) as the sequence of atomic effects a worker thread
  has on the two files of an upload: one file creation, one byte of data, one bitmap byte read or
  written at a time. Between any two of them the process may stop or other workers may run.
 */
module Worker {
  import opened Machine
  import opened Codec
  import opened Metadata
  import opened Storage
  import opened Handlers

  /** Where a worker is in the handler; `size` and `hash` are the fields of its `FileRemote`. */
  datatype Worker =
    | Start(m: Message)
    | Opening(m: Message, size: u64, hash: Digest)            // before createIfNotExist
    | Creating(m: Message, size: u64, hash: Digest)           // before creating the blank target
    | Saving(m: Message, size: u64, hash: Digest)             // before the checks of saveChunk
    | Writing(m: Message, size: u64, hash: Digest, k: nat)    // k bytes of the chunk written
    | Reading(m: Message, size: u64, hash: Digest)            // markChunk: before reading the byte
    | Marking(m: Message, size: u64, hash: Digest, b: byte)   // markChunk: before writing it back
    | Verifying(m: Message, size: u64, hash: Digest)          // isComplete: does the target exist?
    | Checking(m: Message, size: u64, hash: Digest, j: nat)   // isComplete: bitmap byte j is next
    | Hashing(m: Message, size: u64, hash: Digest)            // isComplete: before hashing
    | Seeking(m: Message, size: u64, hash: Digest, j: nat)    // getNextMissingChunk: byte j is next

  /** Only the handling of chunk data writes and marks. */
  predicate Wf(w: Worker) {
    w.Writing? || w.Reading? || w.Marking? ==> w.m.body.ChunkData?
  }

  datatype Outcome = Continue(files: Files, next: Worker) | Finish(files: Files, reply: Option<Message>)

  function Request(w: Worker, idx: nat): Option<Message> {
    Some(BuildChunkReq(w.m.seqNumber + 1, w.m.clientUuid, w.m.fileName, idx, UINT16_MAX))
  }

  /** What the scan learns from one bitmap byte. */
  datatype Seen = Full | Missing(idx: nat) | Nothing

  function Look(meta: Option<Bytes>, size: u64, j: nat): Seen {
    if meta.None? || HEADER_SIZE + j >= |meta.value| then Nothing
    else
      var b := meta.value[HEADER_SIZE + j];
      if b == 0xFF then Full
      else
        var i := 8 * j + LeadingOnes(b, 0);
        if i < NumChunks(size) then Missing(i) else Nothing
  }

  /** One atomic effect. */
  function Step(h: HashFunction, d: Files, w: Worker): (r: Outcome)
    requires Wf(w)
    ensures r.Continue? ==> Wf(r.next) && r.next.m == w.m
    ensures r.Finish? && r.reply.Some? ==> KeyOf(r.reply.value) == KeyOf(w.m) && !r.reply.value.body.ChunkData?
  {
    match w
    case Start(m) =>
      (match m.body
       case Offer(size, _, hash) => Continue(d, Opening(m, size, hash))
       case ChunkData(_, _) =>
         var header := ReadHeader(d.meta);
         if header.chunkSize == 0 then Finish(d, None) else Continue(d, Opening(m, header.size, header.hash))
       case _ => Finish(d, None))
    case Opening(m, size, hash) => Continue(CreateMeta(d, size, hash), Creating(m, size, hash))
    case Creating(m, size, hash) => Continue(CreateTarget(d, size), Saving(m, size, hash))
    case Saving(m, size, hash) =>
      if m.body.ChunkData? && Accepts(size, m.body.idx, m.body.data) then Continue(d, Writing(m, size, hash, 0))
      else Continue(d, Verifying(m, size, hash))
    case Writing(m, size, hash, k) =>
      if k < |m.body.data| && d.target.Some? then
        var f := WriteAt(d.target.value, m.body.idx * CHUNK_SIZE + k, [m.body.data[k]]);
        Continue(d.(target := Some(f)), Writing(m, size, hash, k + 1))
      else Continue(d, Reading(m, size, hash))
    case Reading(m, size, hash) =>
      var at := HEADER_SIZE + m.body.idx / 8;
      if d.meta.Some? && at < |d.meta.value| then Continue(d, Marking(m, size, hash, d.meta.value[at]))
      else Continue(d, Verifying(m, size, hash))
    case Marking(m, size, hash, b) =>
      var at := HEADER_SIZE + m.body.idx / 8;
      if d.meta.Some? && at < |d.meta.value| then
        Continue(d.(meta := Some(d.meta.value[at := WithBit(b, m.body.idx % 8, true)])), Verifying(m, size, hash))
      else Continue(d, Verifying(m, size, hash))
    case Verifying(m, size, hash) =>
      Continue(d, if d.target.Some? then Checking(m, size, hash, 0) else Seeking(m, size, hash, 0))
    case Checking(m, size, hash, j) =>
      (match Look(d.meta, size, j)
       case Full => Continue(d, Checking(m, size, hash, j + 1))
       case Missing(_) => Continue(d, Seeking(m, size, hash, 0))
       case Nothing => Continue(d, Hashing(m, size, hash)))
    case Hashing(m, size, hash) =>
      if d.target.Some? && h(d.target.value) == hash then
        Finish(d, Some(BuildComplete(m.seqNumber, m.clientUuid, m.fileName)))
      else Continue(d, Seeking(m, size, hash, 0))
    case Seeking(m, size, hash, j) =>
      (match Look(d.meta, size, j)
       case Full => Continue(d, Seeking(m, size, hash, j + 1))
       case Missing(i) => Finish(d, Request(w, i))
       case Nothing => Finish(d, Request(w, UINT64_MAX)))
  }

  // ---------------------------------------------------------------- an undisturbed worker computes the handler

  function Rank(w: Worker): nat {
    match w
    case Start(_) => 10
    case Opening(_, _, _) => 9
    case Creating(_, _, _) => 8
    case Saving(_, _, _) => 7
    case Writing(_, _, _, _) => 6
    case Reading(_, _, _) => 5
    case Marking(_, _, _, _) => 4
    case Verifying(_, _, _) => 3
    case Checking(_, _, _, _) => 2
    case Hashing(_, _, _) => 1
    case Seeking(_, _, _, _) => 0
  }

  function Remaining(d: Files, w: Worker): nat
    requires Wf(w)
  {
    match w
    case Writing(m, _, _, k) => Max(0, |m.body.data| - k)
    case Checking(_, _, _, j) => if d.meta.Some? then Max(0, |d.meta.value| - j) else 0
    case Seeking(_, _, _, j) => if d.meta.Some? then Max(0, |d.meta.value| - j) else 0
    case _ => 0
  }

  lemma StepDecreases(h: HashFunction, d: Files, w: Worker)
    requires Wf(w)
    ensures var r := Step(h, d, w);
      r.Continue? ==> Rank(r.next) < Rank(w) || (Rank(r.next) == Rank(w) && Remaining(r.files, r.next) < Remaining(d, w))
  {
  }

  /** Steps of one worker with nobody else running, until it has replied. */
  function RunAlone(h: HashFunction, d: Files, w: Worker): ServerResult
    requires Wf(w)
    decreases Rank(w), Remaining(d, w)
  {
    match Step(h, d, w)
    case Continue(d', w') => RunAlone(h, d', w')
    case Finish(d', reply) => ServerResult(d', reply)
  }

  /** One look per byte is the scan of the bitmap. */
  lemma LookIsScan(meta: Option<Bytes>, size: u64, j: nat)
    ensures NextMissing(meta, size, 8 * j) == match Look(meta, size, j)
      case Full => NextMissing(meta, size, 8 * (j + 1))
      case Missing(i) => i
      case Nothing => UINT64_MAX
    ensures Look(meta, size, j).Missing? ==> Look(meta, size, j).idx < UINT64_MAX
  {
    NumChunksFits(size);
    assert 8 * j / 8 == j && 8 * (j + 1) / 8 == j + 1;
  }

  lemma FullIsThere(meta: Option<Bytes>, size: u64, j: nat)
    ensures Look(meta, size, j).Full? ==> meta.Some? && j < |meta.value|
  {
  }

  lemma {:induction false} SeekAlone(h: HashFunction, d: Files, w: Worker)
    requires w.Seeking?
    ensures RunAlone(h, d, w) == ServerResult(d, Request(w, NextMissing(d.meta, w.size, 8 * w.j)))
    decreases Remaining(d, w)
  {
    LookIsScan(d.meta, w.size, w.j);
    FullIsThere(d.meta, w.size, w.j);
    hide NextMissing, Look;
    if Look(d.meta, w.size, w.j).Full? {
      SeekAlone(h, d, Seeking(w.m, w.size, w.hash, w.j + 1));
    }
  }

  /** Completion message if the contents hash as announced, else the next request. */
  function Verdict(h: HashFunction, d: Files, w: Worker, allMarked: bool): ServerResult
    requires !w.Start? && d.target.Some?
  {
    ServerResult(d, Some(
      if allMarked && h(d.target.value) == w.hash then BuildComplete(w.m.seqNumber, w.m.clientUuid, w.m.fileName)
      else Request(w, NextMissing(d.meta, w.size, 0)).value))
  }

  lemma SameRequest(w: Worker, w': Worker, idx: nat)
    requires w.m == w'.m
    ensures Request(w, idx) == Request(w', idx)
  {
  }

  lemma HashAlone(h: HashFunction, d: Files, w: Worker)
    requires w.Hashing? && d.target.Some?
    ensures RunAlone(h, d, w) == Verdict(h, d, w, true)
  {
    var next := Seeking(w.m, w.size, w.hash, 0);
    hide NextMissing, Look, Request, BuildComplete;
    SeekAlone(h, d, next);
    SameRequest(w, next, NextMissing(d.meta, w.size, 0));
    if h(d.target.value) != w.hash {
      assert Step(h, d, w) == Continue(d, next);
    }
  }

  lemma {:induction false} CheckAlone(h: HashFunction, d: Files, w: Worker)
    requires w.Checking? && d.target.Some?
    ensures RunAlone(h, d, w) == Verdict(h, d, w, NextMissing(d.meta, w.size, 8 * w.j) == UINT64_MAX)
    decreases Remaining(d, w)
  {
    LookIsScan(d.meta, w.size, w.j);
    FullIsThere(d.meta, w.size, w.j);
    hide NextMissing, Look, Request, BuildComplete;
    match Look(d.meta, w.size, w.j)
    case Full =>
      assert Step(h, d, w) == Continue(d, Checking(w.m, w.size, w.hash, w.j + 1));
      CheckAlone(h, d, Checking(w.m, w.size, w.hash, w.j + 1));
    case Missing(_) =>
      assert Step(h, d, w) == Continue(d, Seeking(w.m, w.size, w.hash, 0));
      SeekAlone(h, d, Seeking(w.m, w.size, w.hash, 0));
      SameRequest(w, Seeking(w.m, w.size, w.hash, 0), NextMissing(d.meta, w.size, 0));
    case Nothing =>
      assert Step(h, d, w) == Continue(d, Hashing(w.m, w.size, w.hash));
      HashAlone(h, d, Hashing(w.m, w.size, w.hash));
      SameRequest(w, Hashing(w.m, w.size, w.hash), NextMissing(d.meta, w.size, 0));
  }

  lemma AnswerIsVerdict(h: HashFunction, d: Files, w: Worker)
    requires !w.Start? && d.target.Some?
    ensures Verdict(h, d, w, NextMissing(d.meta, w.size, 0) == UINT64_MAX)
         == ServerResult(d, Some(Answer(h, d, w.size, w.hash, w.m)))
  {
    hide NextMissing;
  }

  lemma RequestIs(w: Worker, idx: nat)
    ensures Request(w, idx) == Some(BuildChunkReq(w.m.seqNumber + 1, w.m.clientUuid, w.m.fileName, idx, UINT16_MAX))
  {
  }

  lemma VerifyAlone(h: HashFunction, d: Files, w: Worker)
    requires w.Verifying?
    ensures RunAlone(h, d, w) == ServerResult(d, Some(Answer(h, d, w.size, w.hash, w.m)))
  {
    hide NextMissing, Look, Request, BuildChunkReq, BuildComplete;
    if d.target.Some? {
      var next := Checking(w.m, w.size, w.hash, 0);
      assert Step(h, d, w) == Continue(d, next);
      CheckAlone(h, d, next);
      AnswerIsVerdict(h, d, next);
    } else {
      var next := Seeking(w.m, w.size, w.hash, 0);
      assert Step(h, d, w) == Continue(d, next);
      SeekAlone(h, d, next);
      RequestIs(next, NextMissing(d.meta, w.size, 0));
    }
  }

  lemma WriteOneMore(f: Bytes, at: nat, data: Bytes, k: nat)
    requires k < |data|
    ensures WriteAt(WriteAt(f, at + k, [data[k]]), at + k + 1, data[k + 1..]) == WriteAt(f, at + k, data[k..])
  {
  }

  lemma WriteNothing(f: Bytes, at: nat, data: Bytes)
    requires data == []
    ensures WriteAt(f, at, data) == f
  {
  }

  lemma MarkAlone(h: HashFunction, d: Files, w: Worker)
    requires w.Reading? && Wf(w)
    ensures var d' := MarkIn(d, w.m.body.idx);
      RunAlone(h, d, w) == ServerResult(d', Some(Answer(h, d', w.size, w.hash, w.m)))
  {
    hide Answer, WithBit;
    var v := Verifying(w.m, w.size, w.hash);
    VerifyAlone(h, MarkIn(d, w.m.body.idx), v);
    var at := HEADER_SIZE + w.m.body.idx / 8;
    if d.meta.Some? && at < |d.meta.value| {
      var next := Marking(w.m, w.size, w.hash, d.meta.value[at]);
      assert Step(h, d, w) == Continue(d, next);
      assert Step(h, d, next) == Continue(MarkIn(d, w.m.body.idx), v);
    } else {
      assert Step(h, d, w) == Continue(MarkIn(d, w.m.body.idx), v);
    }
  }

  lemma {:induction false} WriteAlone(h: HashFunction, d: Files, w: Worker)
    requires w.Writing? && Wf(w) && w.k <= |w.m.body.data| && d.target.Some?
    ensures var idx, data := w.m.body.idx, w.m.body.data;
      var d' := MarkIn(d.(target := Some(WriteAt(d.target.value, idx * CHUNK_SIZE + w.k, data[w.k..]))), idx);
      RunAlone(h, d, w) == ServerResult(d', Some(Answer(h, d', w.size, w.hash, w.m)))
    decreases Remaining(d, w)
  {
    hide Answer, WithBit, WriteAt, MarkIn;
    var idx, data, at := w.m.body.idx, w.m.body.data, w.m.body.idx * CHUNK_SIZE;
    if w.k < |data| {
      var f := WriteAt(d.target.value, at + w.k, [data[w.k]]);
      WriteAlone(h, d.(target := Some(f)), Writing(w.m, w.size, w.hash, w.k + 1));
      WriteOneMore(d.target.value, at, data, w.k);
    } else {
      WriteNothing(d.target.value, at + w.k, data[w.k..]);
      MarkAlone(h, d, Reading(w.m, w.size, w.hash));
    }
  }

  lemma OpenAlone(h: HashFunction, d: Files, w: Worker)
    requires w.Opening?
    ensures var d' := Open(d, w.size, w.hash);
      && d'.target.Some?
      && RunAlone(h, d, w) == RunAlone(h, d', Saving(w.m, w.size, w.hash))
      && (!w.m.body.ChunkData? ==> RunAlone(h, d, w) == RunAlone(h, d', Verifying(w.m, w.size, w.hash)))
  {
    var d1 := CreateMeta(d, w.size, w.hash);
    assert Step(h, d, w) == Continue(d1, Creating(w.m, w.size, w.hash));
    assert Step(h, d1, Creating(w.m, w.size, w.hash)) == Continue(CreateTarget(d1, w.size), Saving(w.m, w.size, w.hash));
  }

  lemma SaveAlone(h: HashFunction, d: Files, w: Worker)
    requires w.Saving? && w.m.body.ChunkData? && d.target.Some?
    ensures var d' := Save(d, w.size, w.m.body.idx, w.m.body.data);
      RunAlone(h, d, w) == ServerResult(d', Some(Answer(h, d', w.size, w.hash, w.m)))
  {
    hide Answer, MarkIn, WriteAt;
    if Accepts(w.size, w.m.body.idx, w.m.body.data) {
      var next := Writing(w.m, w.size, w.hash, 0);
      assert Step(h, d, w) == Continue(d, next);
      WriteAlone(h, d, next);
      assert w.m.body.data[0..] == w.m.body.data;
    } else {
      VerifyAlone(h, d, Verifying(w.m, w.size, w.hash));
    }
  }

  /** The atomic effects, run without interruption, are exactly the handler. */
  lemma RunsToHandler(h: HashFunction, d: Files, m: Message)
    ensures RunAlone(h, d, Start(m)) == ServerHandle(h, d, m)
  {
    hide Answer, Save, Open, ReadHeader;
    match m.body {
      case Offer(size, _, hash) =>
        OpenAlone(h, d, Opening(m, size, hash));
        VerifyAlone(h, Open(d, size, hash), Verifying(m, size, hash));
      case ChunkData(idx, data) =>
        var header := ReadHeader(d.meta);
        if header.chunkSize != 0 {
          OpenAlone(h, d, Opening(m, header.size, header.hash));
          SaveAlone(h, Open(d, header.size, header.hash), Saving(m, header.size, header.hash));
        }
      case _ =>
    }
  }
}
