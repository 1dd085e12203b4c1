/**
  Fault-free runs that never end. Three messages of a file with three chunks or more can go on setting each
  other back for ever: each one writes back the bitmap byte as it was before the last write of another.
 */
module Endless {
  import opened Machine
  import opened Metadata
  import opened Storage
  import opened Handlers
  import opened Worker
  import opened Transfer
  import opened Session
  import opened Progress
  import opened Marks
  import opened Motion
  import opened Bounds

  /** A fault-free run of at least `k` steps leads from `s` to `s'`. */
  ghost predicate Gets(t: Upload, h: HashFunction, s: State, s': State, k: nat) {
    exists acts :: FaultFree(acts) && |acts| >= k && Follows(t, h, s, acts, s')
  }

  lemma GetsOn(t: Upload, h: HashFunction, s: State, s1: State, s2: State, j: nat, k: nat)
    requires Gets(t, h, s, s1, j) && Gets(t, h, s1, s2, k)
    ensures Gets(t, h, s, s2, j + k)
  {
    hide Apply, Enabled;
    var a :| FaultFree(a) && |a| >= j && Follows(t, h, s, a, s1);
    var b :| FaultFree(b) && |b| >= k && Follows(t, h, s1, b, s2);
    RunsAppend(t, h, s, a, b);
    assert FaultFree(a + b) && |a + b| >= j + k;
  }

  /** The upload is under way and its files are there. */
  ghost predicate Working(t: Upload, h: HashFunction, s: State) {
    Inv(t, h, s) && Opened(t, h, s.disk) && s.offered && !s.completed
  }

  predicate OnlyMoved(s: State, s': State, id: nat) {
    id in s'.tokens && s'.tokens == s.tokens[id := s'.tokens[id]]
  }

  /** A worker from the write-back to its answer. */
  lemma WriteBack(t: Upload, h: HashFunction, d: Files, w: Worker)
    requires Opened(t, h, d) && WorkerOk(t, h, d, w) && w.Marking?
    ensures var d' := Step(h, d, w).files;
      && Opened(t, h, d') && RunAlone(h, d, w) == ServerResult(d', Some(Reply(t, h, d', w.m)))
      && forall k: nat :: k < 8 && w.m.body.idx < 8 ==> (Marked(d'.meta.value, k) <==> k == w.m.body.idx || Bit(w.b, k))
  {
    EveryStepFine(t, h, d, w);
    var d', v := Step(h, d, w).files, Verifying(w.m, w.size, w.hash);
    InRange(w.m.body.idx, |t.content|);
    assert Step(h, d, w) == Continue(d', v);
    hide Sound, Answer, Bit, WithBit;
    VerifyAlone(h, d', v);
  }

  lemma RunGets(t: Upload, h: HashFunction, s: State, s': State, id: nat, acts: seq<Action>)
    requires Offerable(t) && Inv(t, h, s) && Undisturbed(acts, id) && Follows(t, h, s, acts, s') && s' != s
    ensures Gets(t, h, s, s', 1) && Inv(t, h, s')
  {
    hide Inv;
    RunsKeepInv(t, h, s, acts);
    assert FaultFree(acts);
    assert acts != [];
  }

  lemma OneGets(t: Upload, h: HashFunction, s: State, id: nat)
    requires Offerable(t) && Inv(t, h, s) && Enabled(t, s, Advance(id))
    ensures Gets(t, h, s, Moved(t, h, s, id), 1) && Inv(t, h, Moved(t, h, s, id))
  {
    One(t, h, s, Advance(id));
    ApplyKeepsInv(t, h, s, Advance(id));
    hide Inv, Apply, Enabled;
    assert FaultFree([Advance(id)]);
  }

  lemma Answered(t: Upload, h: HashFunction, s: State, id: nat) returns (s': State)
    requires Working(t, h, s) && id in s.tokens && s.tokens[id].ToClient? && s.tokens[id].m.body.ChunkReq?
    requires AimOf(t, s.tokens[id]).Fetching?
    ensures Gets(t, h, s, s', 1) && Working(t, h, s') && s'.disk == s.disk && OnlyMoved(s, s', id)
    ensures s'.tokens[id].ToServer? && AimOf(t, s'.tokens[id]) == AimOf(t, s.tokens[id])
  {
    s' := Moved(t, h, s, id);
    OneGets(t, h, s, id);
    assert TokenOk(t, h, s.disk, s.tokens[id]);
    ClientMoves(t, h, s, id);
    hide Inv, Gets, Moved, Opened, AimOf;
  }

  /** The worker that writes `a.b` with the bit of chunk `a.i` in byte 0 will see chunk `next` as the first missing one. */
  predicate SeesMissing(t: Upload, a: Aim, next: nat) {
    && a.Stamping? && a.i < 8
    && next < 8 && next < NumChunks(|t.content|) && next != a.i && !Bit(a.b, next)
    && forall k: nat :: k < next ==> k == a.i || Bit(a.b, k)
  }

  ghost predicate MarksAre(d: Files, a: Aim) {
    d.meta.Some? && a.Stamping? && forall k: nat :: k < 8 ==> (Marked(d.meta.value, k) <==> k == a.i || Bit(a.b, k))
  }

  lemma WriteResult(t: Upload, h: HashFunction, d: Files, w: Worker, next: nat)
    requires Opened(t, h, d) && WorkerOk(t, h, d, w) && w.Marking? && SeesMissing(t, AimOf(t, Serving(w)), next)
    ensures var r := RunAlone(h, d, w);
      && Opened(t, h, r.files) && MarksAre(r.files, AimOf(t, Serving(w)))
      && r.reply == Some(ReqMsg(t, Narrow16(w.m.seqNumber + 1), next))
  {
    WriteBack(t, h, d, w);
    hide RunAlone, Step, Reply, Bit, DiskOk, Marked, Sound;
    NextRequest(t, h, RunAlone(h, d, w).files, w.m, next);
  }

  lemma ServingOk(t: Upload, h: HashFunction, s: State, id: nat)
    requires Inv(t, h, s) && id in s.tokens && AimOf(t, s.tokens[id]).Stamping?
    ensures s.tokens[id].Serving? && WorkerOk(t, h, s.disk, s.tokens[id].w) && s.tokens[id].w.Marking? && Wf(s.tokens[id].w)
  {
    assert TokenOk(t, h, s.disk, s.tokens[id]);
  }

  lemma Writes(t: Upload, h: HashFunction, s: State, id: nat, next: nat) returns (s': State)
    requires Working(t, h, s) && id in s.tokens && SeesMissing(t, AimOf(t, s.tokens[id]), next)
    ensures Gets(t, h, s, s', 1) && Working(t, h, s') && OnlyMoved(s, s', id)
    ensures s'.tokens[id].ToClient? && s'.tokens[id].m.body.ChunkReq? && AimOf(t, s'.tokens[id]) == Fetching(next)
    ensures MarksAre(s'.disk, AimOf(t, s.tokens[id]))
  {
    ServingOk(t, h, s, id);
    var w := s.tokens[id].w;
    hide Inv, Bit, RunAlone, Opened, WorkerOk, Gets, MarksAre;
    WriteResult(t, h, s.disk, w, next);
    var acts := Serve(t, h, s, id);
    s' := Replied(s, id, RunAlone(h, s.disk, w));
    RunGets(t, h, s, s', id, acts);
  }

  lemma GetsLess(t: Upload, h: HashFunction, s: State, s': State, j: nat, k: nat)
    requires Gets(t, h, s, s', j) && k <= j
    ensures Gets(t, h, s, s', k)
  {
    hide Follows;
  }

  /** The worker writes back its byte, asks for the next chunk, and the client sends it. */
  lemma WriteAndFetch(t: Upload, h: HashFunction, s: State, id: nat, next: nat) returns (s': State)
    requires Working(t, h, s) && id in s.tokens && SeesMissing(t, AimOf(t, s.tokens[id]), next)
    ensures Gets(t, h, s, s', 1) && Working(t, h, s') && OnlyMoved(s, s', id)
    ensures s'.tokens[id].ToServer? && AimOf(t, s'.tokens[id]) == Fetching(next)
    ensures MarksAre(s'.disk, AimOf(t, s.tokens[id]))
  {
    hide Gets, Working, MarksAre, SeesMissing, AimOf;
    var s1 := Writes(t, h, s, id, next);
    s' := Answered(t, h, s1, id);
    GetsOn(t, h, s, s1, s', 1, 1);
    GetsLess(t, h, s, s', 2, 1);
  }

  lemma ByteHeld(d: Files, w: Worker)
    requires d.meta.Some? && w.Marking? && Wf(w) && UpToDate(d, w) && w.m.body.idx < 8 && HEADER_SIZE < |d.meta.value|
    ensures forall k: nat :: k < 8 ==> (Bit(w.b, k) <==> Marked(d.meta.value, k))
  {
    hide Bit;
  }

  lemma HasBitmap(t: Upload, h: HashFunction, d: Files, k: Token)
    requires Opened(t, h, d) && TokenOk(t, h, d, k) && AimOf(t, k).Fetching?
    ensures HEADER_SIZE < |d.meta.value|
  {
    hide Sound;
  }

  lemma Takes(t: Upload, h: HashFunction, s: State, id: nat) returns (s': State)
    requires Working(t, h, s) && id in s.tokens && s.tokens[id].ToServer? && AimOf(t, s.tokens[id]).Fetching?
    ensures Gets(t, h, s, s', 1) && Working(t, h, s')
    ensures var m := s.tokens[id].m;
      && s' == s.(tokens := s.tokens[id := Serving(Start(m))]) && m.body.ChunkData? && WorkerOk(t, h, s.disk, Start(m))
      && AimOf(t, s.tokens[id]) == Fetching(m.body.idx) && HEADER_SIZE < |s.disk.meta.value|
  {
    HasBitmap(t, h, s.disk, s.tokens[id]);
    s' := Moved(t, h, s, id);
    OneGets(t, h, s, id);
    assert TokenOk(t, h, s'.disk, s'.tokens[id]);
    hide Gets, DiskOk, Sound;
  }

  lemma Reads(t: Upload, h: HashFunction, s: State, id: nat) returns (s': State, b: byte)
    requires Working(t, h, s) && id in s.tokens && s.tokens[id].Serving? && s.tokens[id].w.Start? && s.tokens[id].w.m.body.ChunkData?
    requires WorkerOk(t, h, s.disk, s.tokens[id].w) && s.tokens[id].w.m.body.idx < 8 && HEADER_SIZE < |s.disk.meta.value|
    ensures Gets(t, h, s, s', 1) && Working(t, h, s') && OnlyMoved(s, s', id) && s'.disk.meta == s.disk.meta
    ensures AimOf(t, s'.tokens[id]) == Stamping(s.tokens[id].w.m.body.idx, b)
    ensures forall k: nat :: k < 8 ==> (Bit(b, k) <==> Marked(s.disk.meta.value, k))
  {
    hide Inv, DiskOk, WorkerOk, Gets, Bit, Marked, UpToDate, Follows, Undisturbed;
    var acts, d, w := ToMarking(t, h, s, id);
    s', b := s.(disk := d, tokens := s.tokens[id := Serving(w)]), w.b;
    ByteHeld(d, w);
    RunGets(t, h, s, s', id, acts);
  }

  /** A queued chunk is taken by a worker, which comes as far as holding the bitmap byte. */
  lemma FetchAndRead(t: Upload, h: HashFunction, s: State, id: nat) returns (s': State, b: byte)
    requires Working(t, h, s) && id in s.tokens && s.tokens[id].ToServer?
    requires AimOf(t, s.tokens[id]).Fetching? && AimOf(t, s.tokens[id]).i < 8
    ensures Gets(t, h, s, s', 1) && Working(t, h, s') && OnlyMoved(s, s', id) && s'.disk.meta == s.disk.meta
    ensures AimOf(t, s'.tokens[id]) == Stamping(AimOf(t, s.tokens[id]).i, b)
    ensures forall k: nat :: k < 8 ==> (Bit(b, k) <==> Marked(s.disk.meta.value, k))
  {
    hide Working, WorkerOk, Gets, Bit, Marked, AimOf;
    var s1 := Takes(t, h, s, id);
    s', b := Reads(t, h, s1, id);
    assert s'.tokens == s.tokens[id := s'.tokens[id]];
    GetsOn(t, h, s, s1, s', 1, 1);
    GetsLess(t, h, s, s', 2, 1);
  }

  // ---------------------------------------------------------------- the cycle of three messages

  /**
    `x` is about to write {0, 2} without chunk 1, `y` to write {0, 1} without chunk 2, and chunk 2 is queued
    in `z`. (Other bits of the byte do not matter.)
   */
  ghost predicate Spinning(t: Upload, h: HashFunction, s: State, x: nat, y: nat, z: nat) {
    && Working(t, h, s) && NumChunks(|t.content|) >= 3
    && x != y && y != z && x != z && x in s.tokens && y in s.tokens && z in s.tokens
    && (var a := AimOf(t, s.tokens[x]); a.Stamping? && a.i == 2 && Bit(a.b, 0) && !Bit(a.b, 1))
    && (var a := AimOf(t, s.tokens[y]); a.Stamping? && a.i == 1 && Bit(a.b, 0) && !Bit(a.b, 2))
    && s.tokens[z].ToServer? && AimOf(t, s.tokens[z]) == Fetching(2)
  }

  /** Two writes and two reads later the three have changed places. */
  lemma Turn(t: Upload, h: HashFunction, s: State, x: nat, y: nat, z: nat) returns (s': State)
    requires Spinning(t, h, s, x, y, z)
    ensures Spinning(t, h, s', z, x, y) && Gets(t, h, s, s', 1)
  {
    hide Gets, Working, Bit, Marked, AimOf;
    var s1 := WriteAndFetch(t, h, s, x, 1);
    var s2, b2 := FetchAndRead(t, h, s1, z);
    assert Bit(b2, 0) && !Bit(b2, 1);
    var s3 := WriteAndFetch(t, h, s2, y, 2);
    var b4;
    s', b4 := FetchAndRead(t, h, s3, x);
    assert Bit(b4, 0) && !Bit(b4, 2);
    GetsOn(t, h, s, s1, s2, 1, 1);
    GetsOn(t, h, s, s2, s3, 2, 1);
    GetsOn(t, h, s, s3, s', 3, 1);
    GetsLess(t, h, s, s', 4, 1);
  }

  lemma {:induction false} SpinsOn(t: Upload, h: HashFunction, s: State, x: nat, y: nat, z: nat, len: nat) returns (s': State)
    requires Spinning(t, h, s, x, y, z)
    ensures Gets(t, h, s, s', len) && Working(t, h, s')
    decreases len
  {
    if len == 0 {
      s' := s;
      assert FaultFree([]) && Follows(t, h, s, [], s);
    } else {
      hide Gets;
      var s1 := Turn(t, h, s, x, y, z);
      s' := SpinsOn(t, h, s1, z, x, y, len - 1);
      GetsOn(t, h, s, s1, s', 1, len - 1);
    }
  }

  lemma ReachesOn(t: Upload, h: HashFunction, a: seq<Action>, n: nat, s: State, s': State, k: nat) returns (a': seq<Action>)
    requires Offerable(t) && Reaches(t, h, a, n, s) && Gets(t, h, s, s', k)
    ensures Reaches(t, h, a', n, s')
  {
    hide Reaches, Follows;
    var b :| FaultFree(b) && |b| >= k && Follows(t, h, s, b, s');
    FaultFreeOffersNothing(b);
    Extend(t, h, a, n, s, b, s');
    a' := a + b;
  }

  lemma OfferAnswer(t: Upload, h: HashFunction, d: Files, next: nat)
    requires Opened(t, h, d) && next < NumChunks(|t.content|) && next < INDEX_LIMIT
    requires !Marked(d.meta.value, next) && forall k: nat :: k < next ==> Marked(d.meta.value, k)
    ensures ServerHandle(h, d, OfferMsg(t, h)) == ServerResult(d, Some(ReqMsg(t, 2, next)))
  {
    NextRequest(t, h, d, OfferMsg(t, h), next);
    hide Marked, DiskOk, Answer;
  }

  lemma OfferAsked(t: Upload, h: HashFunction, a: seq<Action>, n: nat, s: State, id: nat, next: nat)
      returns (a': seq<Action>, s': State)
    requires Reaches(t, h, a, n, s) && Opened(t, h, s.disk) && s.offered && id !in s.tokens
    requires next < NumChunks(|t.content|) && next < INDEX_LIMIT
    requires !Marked(s.disk.meta.value, next) && forall k: nat :: k < next ==> Marked(s.disk.meta.value, k)
    ensures Reaches(t, h, a', n + 1, s') && s' == s.(tokens := s.tokens[id := ToClient(ReqMsg(t, 2, next))])
  {
    OfferAnswer(t, h, s.disk, next);
    hide Inv, ServerHandle, Marked, DiskOk, Reaches, OfferMsg, ReqMsg;
    a', s' := OfferHandled(t, h, a, n, s, id, s.disk, ReqMsg(t, 2, next));
  }

  /** An offer made when the first `next` chunks are marked is answered by a request for the next one, which is sent. */
  lemma OfferAndFetch(t: Upload, h: HashFunction, a: seq<Action>, n: nat, s: State, id: nat, next: nat)
      returns (a': seq<Action>, s': State)
    requires Reaches(t, h, a, n, s) && Working(t, h, s) && id !in s.tokens
    requires next < NumChunks(|t.content|) && next < INDEX_LIMIT
    requires !Marked(s.disk.meta.value, next) && forall k: nat :: k < next ==> Marked(s.disk.meta.value, k)
    ensures Reaches(t, h, a', n + 1, s') && Working(t, h, s') && s'.disk == s.disk && OnlyMoved(s, s', id)
    ensures s'.tokens[id].ToServer? && AimOf(t, s'.tokens[id]) == Fetching(next)
  {
    assert Offerable(t) by { assert Opened(t, h, s.disk); }
    hide Inv, Gets, Marked, DiskOk, Follows;
    var s1;
    a', s1 := OfferAsked(t, h, a, n, s, id, next);
    s' := Answered(t, h, s1, id);
    assert s'.tokens == s.tokens[id := s'.tokens[id]];
    hide Reaches;
    a' := ReachesOn(t, h, a', n + 1, s1, s', 1);
  }

  /** One worker holds the empty byte for chunk 0; meanwhile the other message gets chunks 0 and 1 marked and chunk 2 queued. */
  lemma HoldAndSave(t: Upload, h: HashFunction) returns (a: seq<Action>, s: State, b: byte)
    requires Offerable(t) && NumChunks(|t.content|) >= 3
    ensures Reaches(t, h, a, 2, s) && Working(t, h, s) && s.tokens.Keys == {0, 1}
    ensures Marked(s.disk.meta.value, 0) && Marked(s.disk.meta.value, 1) && !Marked(s.disk.meta.value, 2)
    ensures s.tokens[0].ToServer? && AimOf(t, s.tokens[0]) == Fetching(2)
    ensures AimOf(t, s.tokens[1]) == Stamping(0, b) && forall k: nat :: k < 8 ==> !Bit(b, k)
  {
    a, s := TwoWaiting(t, h);
    assert Working(t, h, s);
    assert AimOf(t, s.tokens[0]) == AimOf(t, s.tokens[1]) == Fetching(0);
    hide Reaches, Gets, Working, Bit, Marked, AimOf;
    var s1, s2, s3, s4, b2, b4;
    s1, b := FetchAndRead(t, h, s, 1);
    s2, b2 := FetchAndRead(t, h, s1, 0);
    s3 := WriteAndFetch(t, h, s2, 0, 1);
    s4, b4 := FetchAndRead(t, h, s3, 0);
    GetsOn(t, h, s, s1, s2, 1, 1);
    GetsOn(t, h, s, s2, s3, 2, 1);
    GetsOn(t, h, s, s3, s4, 3, 1);
    a := ReachesOn(t, h, a, 2, s, s4, 4);
    s := WriteAndFetch(t, h, s4, 0, 2);
    a := ReachesOn(t, h, a, 2, s4, s, 1);
  }

  /** Three offers of a file with three chunks or more can lead there: now the first worker writes back its old byte. */
  lemma GetSpinning(t: Upload, h: HashFunction) returns (a: seq<Action>, s: State)
    requires Offerable(t) && NumChunks(|t.content|) >= 3
    ensures Reaches(t, h, a, 3, s) && Spinning(t, h, s, 0, 1, 2) && s.tokens.Keys == {0, 1, 2}
  {
    hide Reaches, Gets, Working, Bit, Marked, AimOf;
    var s0, s1, s2, s3, b, b2, b3;
    a, s0, b := HoldAndSave(t, h);
    a, s1 := OfferAndFetch(t, h, a, 2, s0, 2, 2);
    s2 := WriteAndFetch(t, h, s1, 1, 1);
    s3, b2 := FetchAndRead(t, h, s2, 1);
    s, b3 := FetchAndRead(t, h, s3, 0);
    GetsOn(t, h, s1, s2, s3, 1, 1);
    GetsOn(t, h, s1, s3, s, 2, 1);
    a := ReachesOn(t, h, a, 3, s1, s, 3);
    assert Bit(b2, 0) && !Bit(b2, 2) && Bit(b3, 0) && !Bit(b3, 1);
  }

  /** Three offers and no fault: for every length there is a run that long in which the upload is not completed. */
  lemma EndlessRun(t: Upload, h: HashFunction, len: nat) returns (acts: seq<Action>)
    requires Offerable(t) && NumChunks(|t.content|) >= 3
    ensures Runs(t, h, INIT, acts) && NoFault(acts) && Offers(acts) == 3 && |acts| >= len
    ensures !After(t, h, INIT, acts).completed
  {
    var a, s := GetSpinning(t, h);
    var s' := SpinsOn(t, h, s, 0, 1, 2, len);
    hide Spinning, Inv, Opened;
    var b :| FaultFree(b) && |b| >= len && Follows(t, h, s, b, s');
    FaultFreeOffersNothing(b);
    Extend(t, h, a, 3, s, b, s');
    acts := a + b;
  }

  /** No length bounds the fault-free runs from there. */
  lemma SpinningIsUnbounded(t: Upload, h: HashFunction, s: State)
    requires Spinning(t, h, s, 0, 1, 2)
    ensures !Bounded(t, h, s)
  {
    hide Spinning, Apply, Enabled;
    forall n: nat
      ensures !EndsWithin(t, h, s, n)
    {
      var s' := SpinsOn(t, h, s, 0, 1, 2, n + 1);
      var b :| FaultFree(b) && |b| >= n + 1 && Follows(t, h, s, b, s');
      assert Runs(t, h, s, b);
    }
  }
}
