/**
  Do marks persist? `markChunk` reads a bitmap byte and writes it back as two steps
  (src/file/ft_file_meta.cpp:66-82). This module says exactly which step erases a mark, that no mark is
  ever erased while at most one worker serves the upload, and that two offers suffice to erase one,
  exactly for files of two chunks or more.
 */
module Marks {
  import opened Machine
  import opened Codec
  import opened Metadata
  import opened Storage
  import opened Handlers
  import opened Worker
  import opened Transfer
  import opened Session
  import opened Progress

  // ---------------------------------------------------------------- the step that erases a mark

  /**
    A step erases the mark of chunk `i` exactly when it writes back the byte of `i` for another chunk,
    and the mark of `i` was not there when the byte was read.
   */
  lemma StepUnmarksIff(h: HashFunction, d: Files, w: Worker, i: nat)
    requires Wf(w) && d.meta.Some? && Marked(d.meta.value, i)
    ensures var d' := Step(h, d, w).files;
      && d'.meta.Some?
      && (!Marked(d'.meta.value, i) <==>
            w.Marking? && w.m.body.idx / 8 == i / 8 && w.m.body.idx != i && !Bit(w.b, i % 8))
  {
    if w.Marking? && w.m.body.idx / 8 == i / 8 && w.m.body.idx % 8 == i % 8 {
      SameSlot(w.m.body.idx, i);
    }
    hide Low, WithLow;
  }

  // ---------------------------------------------------------------- one worker at a time

  /** Every mark of `d` is in `d'`. */
  ghost predicate MarksGrow(d: Files, d': Files) {
    d.meta.Some? ==> d'.meta.Some? && forall i: nat :: Marked(d.meta.value, i) ==> Marked(d'.meta.value, i)
  }

  /** At most one worker serves the upload. */
  predicate Alone(s: State) {
    forall i, j :: i in s.tokens && j in s.tokens && s.tokens[i].Serving? && s.tokens[j].Serving? ==> i == j
  }

  /** The worker about to write back a byte holds what is on the disk. */
  predicate UpToDate(d: Files, w: Worker) {
    w.Marking? ==>
      && w.m.body.ChunkData? && d.meta.Some? && HEADER_SIZE + w.m.body.idx / 8 < |d.meta.value|
      && w.b == d.meta.value[HEADER_SIZE + w.m.body.idx / 8]
  }

  predicate AllUpToDate(s: State) {
    forall id :: id in s.tokens && s.tokens[id].Serving? ==> UpToDate(s.disk, s.tokens[id].w)
  }

  lemma StepMarksGrow(h: HashFunction, d: Files, w: Worker)
    requires Wf(w) && UpToDate(d, w)
    ensures MarksGrow(d, Step(h, d, w).files)
    ensures Step(h, d, w).Continue? ==> UpToDate(Step(h, d, w).files, Step(h, d, w).next)
  {
    if d.meta.Some? {
      forall i: nat | Marked(d.meta.value, i)
        ensures Step(h, d, w).files.meta.Some? && Marked(Step(h, d, w).files.meta.value, i)
      {
        StepUnmarksIff(h, d, w, i);
      }
    }
  }

  lemma ActionMarksGrow(t: Upload, h: HashFunction, s: State, a: Action)
    requires Alone(s) && AllUpToDate(s) && Enabled(t, s, a)
    ensures MarksGrow(s.disk, Apply(t, h, s, a).disk) && AllUpToDate(Apply(t, h, s, a))
  {
    hide ClientHandle, Marked;
    if a.Advance? && s.tokens[a.id].Serving? {
      StepMarksGrow(h, s.disk, s.tokens[a.id].w);
      hide Step, UpToDate;
    }
  }

  /** In every state of the run at most one worker serves the upload. */
  predicate RunsAlone(t: Upload, h: HashFunction, s: State, acts: seq<Action>)
    decreases |acts|
  {
    Alone(s) && (acts == [] || (Enabled(t, s, acts[0]) && RunsAlone(t, h, Apply(t, h, s, acts[0]), acts[1..])))
  }

  /** While that is so, marks only grow. */
  lemma {:induction false} MarksOnlyGrow(t: Upload, h: HashFunction, s: State, acts: seq<Action>)
    requires AllUpToDate(s) && RunsAlone(t, h, s, acts)
    ensures Runs(t, h, s, acts) && AllUpToDate(After(t, h, s, acts))
    ensures MarksGrow(s.disk, After(t, h, s, acts).disk)
    decreases |acts|
  {
    hide Apply, Enabled, Alone, AllUpToDate;
    if acts != [] {
      ActionMarksGrow(t, h, s, acts[0]);
      MarksOnlyGrow(t, h, Apply(t, h, s, acts[0]), acts[1..]);
    }
  }

  lemma FewTokensAlone(s: State)
    requires |s.tokens| <= 1
    ensures Alone(s)
  {
    forall i, j | i in s.tokens && j in s.tokens
      ensures i == j
    {
      assert |s.tokens.Keys| == |s.tokens| <= 1;
      assert |s.tokens.Keys - {i}| == |s.tokens.Keys| - 1;
      assert j !in s.tokens.Keys - {i};
    }
  }

  lemma OneMore(a: Action)
    ensures Offers([a]) == if a.OfferFile? then 1 else 0
  {
    assert [a][1..] == [] && Offers([]) == 0;
  }

  lemma {:induction false} OneOfferRunsAlone(t: Upload, h: HashFunction, s: State, acts: seq<Action>)
    requires Runs(t, h, s, acts) && |s.tokens| + Offers(acts) <= 1
    ensures RunsAlone(t, h, s, acts)
    decreases |acts|
  {
    FewTokensAlone(s);
    if acts != [] {
      var s' := Apply(t, h, s, acts[0]);
      LiveBound(t, h, s, [acts[0]]);
      One(t, h, s, acts[0]);
      OneMore(acts[0]);
      hide Apply, Enabled, Alone;
      OneOfferRunsAlone(t, h, s', acts[1..]);
    }
  }

  lemma {:induction false} RunsAloneConcat(t: Upload, h: HashFunction, s: State, a: seq<Action>, b: seq<Action>)
    requires RunsAlone(t, h, s, a + b)
    ensures RunsAlone(t, h, s, a) && Runs(t, h, s, a) && RunsAlone(t, h, After(t, h, s, a), b)
    decreases |a|
  {
    hide Apply, Enabled, Alone;
    if a == [] {
      assert a + b == b;
      if b != [] {
        assert RunsAlone(t, h, s, []);
      }
    } else {
      assert (a + b)[0] == a[0] && (a + b)[1..] == a[1..] + b;
      RunsAloneConcat(t, h, Apply(t, h, s, a[0]), a[1..], b);
    }
  }

  /** In every run with one offer, stops and losses included, a mark once set stays. */
  lemma OneOfferKeepsMarks(t: Upload, h: HashFunction, before: seq<Action>, later: seq<Action>)
    requires Runs(t, h, INIT, before + later) && Offers(before + later) <= 1
    ensures Runs(t, h, INIT, before)
    ensures MarksGrow(After(t, h, INIT, before).disk, After(t, h, INIT, before + later).disk)
  {
    OneOfferRunsAlone(t, h, INIT, before + later);
    RunsAloneConcat(t, h, INIT, before, later);
    MarksOnlyGrow(t, h, INIT, before);
    MarksOnlyGrow(t, h, After(t, h, INIT, before), later);
    RunsConcat(t, h, INIT, before, later);
  }

  // ---------------------------------------------------------------- two offers

  /** An accepted chunk and files that are there: the worker goes on to hold the bitmap byte. */
  lemma StepTowards(h: HashFunction, d: Files, w: Worker)
    requires Wf(w) && w.m.body.ChunkData? && Rank(w) >= 5 && d.meta.Some? && d.target.Some?
    requires HEADER_SIZE + w.m.body.idx / 8 < |d.meta.value|
    requires if w.Start? then ReadHeader(d.meta).chunkSize > 0 else Accepts(w.size, w.m.body.idx, w.m.body.data)
    ensures var r := Step(h, d, w);
      && r.Continue? && r.files.meta == d.meta && r.files.target.Some?
      && (Rank(r.next) >= 5 || (r.next.Marking? && UpToDate(r.files, r.next)))
  {
    hide ReadHeader, WriteAt, Accepts;
  }

  /** A worker with the client's chunk comes as far as holding the bitmap byte, and changes no mark on the way. */
  lemma TowardsMarking(t: Upload, h: HashFunction, d: Files, w: Worker)
    requires Opened(t, h, d) && WorkerOk(t, h, d, w) && w.m.body.ChunkData? && Rank(w) >= 5
    ensures var r := Step(h, d, w);
      && r.Continue? && r.files.meta == d.meta && r.files.target.Some?
      && (Rank(r.next) >= 5 || (r.next.Marking? && UpToDate(r.files, r.next)))
  {
    HeaderOfUpload(t, h, d);
    InRange(w.m.body.idx, |t.content|);
    AcceptsWhatIsSent(t.content, w.m.body.idx, w.m.body.data);
    hide Step, ReadHeader, Sound, Accepts, GetChunk, UpToDate;
    StepTowards(h, d, w);
  }

  lemma OneTowards(t: Upload, h: HashFunction, s: State, id: nat) returns (s1: State)
    requires Opened(t, h, s.disk) && id in s.tokens && s.tokens[id].Serving?
    requires WorkerOk(t, h, s.disk, s.tokens[id].w) && s.tokens[id].w.m.body.ChunkData? && Rank(s.tokens[id].w) >= 5
    ensures Follows(t, h, s, [Advance(id)], s1)
    ensures id in s1.tokens && s1.tokens[id].Serving? && s1 == s.(disk := s1.disk, tokens := s.tokens[id := s1.tokens[id]])
    ensures Opened(t, h, s1.disk) && s1.disk.meta == s.disk.meta && WorkerOk(t, h, s1.disk, s1.tokens[id].w)
    ensures var w, w1 := s.tokens[id].w, s1.tokens[id].w;
      && w1.m == w.m && Wf(w1)
      && (w1.Marking? ==> UpToDate(s1.disk, w1))
      && (!w1.Marking? ==> Rank(w1) >= 5)
      && (Rank(w1) < Rank(w) || (Rank(w1) == Rank(w) && Remaining(s1.disk, w1) < Remaining(s.disk, w)))
  {
    var w := s.tokens[id].w;
    TowardsMarking(t, h, s.disk, w);
    EveryStepFine(t, h, s.disk, w);
    StepDecreases(h, s.disk, w);
    One(t, h, s, Advance(id));
    var r := Step(h, s.disk, w);
    s1 := s.(disk := r.files, tokens := s.tokens[id := Serving(r.next)]);
    assert Apply(t, h, s, Advance(id)) == s1;
    hide Step, WorkerOk, DiskOk, Rank, Remaining, UpToDate, Apply, Follows;
  }

  lemma {:induction false} ToMarking(t: Upload, h: HashFunction, s: State, id: nat) returns (acts: seq<Action>, d': Files, w': Worker)
    requires Opened(t, h, s.disk) && id in s.tokens && s.tokens[id].Serving?
    requires WorkerOk(t, h, s.disk, s.tokens[id].w) && s.tokens[id].w.m.body.ChunkData? && Rank(s.tokens[id].w) >= 5
    ensures Follows(t, h, s, acts, s.(disk := d', tokens := s.tokens[id := Serving(w')])) && Undisturbed(acts, id)
    ensures Opened(t, h, d') && d'.meta == s.disk.meta
    ensures w'.Marking? && w'.m == s.tokens[id].w.m && Wf(w') && UpToDate(d', w')
    decreases Rank(s.tokens[id].w), Remaining(s.disk, s.tokens[id].w)
  {
    var s1 := OneTowards(t, h, s, id);
    hide Step, WorkerOk, DiskOk, Rank, Remaining, UpToDate, Apply, Enabled, Opened;
    if s1.tokens[id].w.Marking? {
      acts, d', w' := [Advance(id)], s1.disk, s1.tokens[id].w;
    } else {
      var rest;
      rest, d', w' := ToMarking(t, h, s1, id);
      RunsAppend(t, h, s, [Advance(id)], rest);
      acts := [Advance(id)] + rest;
      assert s1.tokens[id := Serving(w')] == s.tokens[id := Serving(w')];
    }
  }

  /** A run from the start without faults, with its number of offers. */
  ghost predicate Reaches(t: Upload, h: HashFunction, acts: seq<Action>, offers: nat, s: State) {
    Follows(t, h, INIT, acts, s) && Offers(acts) == offers && NoFault(acts) && Inv(t, h, s)
  }

  lemma {:induction false} OffersConcat(a: seq<Action>, b: seq<Action>)
    ensures Offers(a + b) == Offers(a) + Offers(b)
  {
    if a == [] {
      assert a + b == b;
    } else {
      assert (a + b)[0] == a[0] && (a + b)[1..] == a[1..] + b;
      OffersConcat(a[1..], b);
    }
  }

  lemma Extend(t: Upload, h: HashFunction, a: seq<Action>, offers: nat, s: State, b: seq<Action>, s': State)
    requires Offerable(t) && Reaches(t, h, a, offers, s) && Follows(t, h, s, b, s') && NoFault(b)
    ensures Reaches(t, h, a + b, offers + Offers(b), s')
  {
    RunsAppend(t, h, INIT, a, b);
    OffersConcat(a, b);
    RunsKeepInv(t, h, s, b);
  }

  /** A queued message handled by a worker from beginning to end. */
  lemma Handle(t: Upload, h: HashFunction, a: seq<Action>, n: nat, s: State, id: nat) returns (a': seq<Action>, s': State)
    requires Offerable(t) && Reaches(t, h, a, n, s) && id in s.tokens && s.tokens[id].ToServer?
    ensures s' == Replied(s, id, ServerHandle(h, s.disk, s.tokens[id].m)) && Reaches(t, h, a', n, s')
  {
    hide Reaches, ServerHandle, Inv;
    var b := TakeAndServe(t, h, s, id);
    s' := Replied(s, id, ServerHandle(h, s.disk, s.tokens[id].m));
    FaultFreeOffersNothing(b);
    Extend(t, h, a, n, s, b, s');
    a' := a + b;
  }

  lemma MakeOffer(t: Upload, h: HashFunction, a: seq<Action>, n: nat, s: State, id: nat) returns (a': seq<Action>, s': State)
    requires Offerable(t) && Reaches(t, h, a, n, s) && id !in s.tokens
    ensures s' == s.(tokens := s.tokens[id := ToServer(OfferMsg(t, h))], offered := true) && Reaches(t, h, a', n + 1, s')
  {
    hide Reaches;
    One(t, h, s, OfferFile(id));
    OneMore(OfferFile(id));
    s' := Apply(t, h, s, OfferFile(id));
    Extend(t, h, a, n, s, [OfferFile(id)], s');
    a' := a + [OfferFile(id)];
  }

  /** The client answers a request. */
  lemma Fetch(t: Upload, h: HashFunction, a: seq<Action>, n: nat, s: State, id: nat, number: u16, i: nat)
      returns (a': seq<Action>, s': State)
    requires Offerable(t) && Reaches(t, h, a, n, s) && s.offered && i < NumChunks(|t.content|) && i < INDEX_LIMIT
    requires id in s.tokens && s.tokens[id] == ToClient(ReqMsg(t, number, i))
    ensures s' == s.(tokens := s.tokens[id := ToServer(ChunkMsg(t, number, i))]) && Reaches(t, h, a', n, s')
  {
    hide Reaches, Inv;
    One(t, h, s, Advance(id));
    OneMore(Advance(id));
    s' := Moved(t, h, s, id);
    ClientSends(t, h, Config(s.disk, true, Down(ReqMsg(t, number, i)), false), number, i);
    hide ClientHandle;
    Extend(t, h, a, n, s, [Advance(id)], s');
    a' := a + [Advance(id)];
  }

  /** What the server answers to an offer when nothing is marked yet. */
  lemma FirstRequest(t: Upload, h: HashFunction, d: Files)
    requires Offerable(t) && DiskOk(t, h, d) && NumChunks(|t.content|) >= 1
    requires d.meta.Some? ==> !Marked(d.meta.value, 0)
    ensures Opened(t, h, Found(t, h, d)) && !Marked(Found(t, h, d).meta.value, 0)
    ensures ServerHandle(h, d, OfferMsg(t, h)) == ServerResult(Found(t, h, d), Some(ReqMsg(t, 2, 0)))
  {
    OfferOpens(t, h, d);
    var d1, m := Found(t, h, d), OfferMsg(t, h);
    FreshIsEmpty(|t.content|, h(t.content));
    var k := Min(NumChunks(|t.content|), INDEX_LIMIT);
    assert MissingFrom(d1.meta.value, k, 0)[0] == 0;
    AsksForFirst(t, h, d1, m);
  }

  lemma {:induction false} MissingHead(meta: Bytes, n: nat, from: nat, k: nat)
    requires from <= k < n && !Marked(meta, k) && forall j: nat :: from <= j < k ==> Marked(meta, j)
    ensures MissingFrom(meta, n, from) != [] && MissingFrom(meta, n, from)[0] == k
    decreases k - from
  {
    if from < k {
      MissingHead(meta, n, from + 1, k);
    }
  }

  /** With the first `k` chunks marked and the next one not, the server asks for that one. */
  lemma NextRequest(t: Upload, h: HashFunction, d: Files, m: Message, k: nat)
    requires Opened(t, h, d) && KeyOf(m) == t.key && k < NumChunks(|t.content|) && k < INDEX_LIMIT
    requires !Marked(d.meta.value, k) && forall j: nat :: j < k ==> Marked(d.meta.value, j)
    ensures Reply(t, h, d, m) == ReqMsg(t, Narrow16(m.seqNumber + 1), k)
  {
    hide Marked, Reply, DiskOk;
    MissingHead(d.meta.value, Min(NumChunks(|t.content|), INDEX_LIMIT), 0, k);
    AsksForFirst(t, h, d, m);
  }

  lemma InitReached(t: Upload, h: HashFunction)
    ensures Reaches(t, h, [], 0, INIT)
  {
  }

  /** An offer, handled by a worker from beginning to end. */
  lemma OfferHandled(t: Upload, h: HashFunction, a: seq<Action>, n: nat, s: State, id: nat, d: Files, x: Message)
      returns (a': seq<Action>, s': State)
    requires Offerable(t) && Reaches(t, h, a, n, s) && id !in s.tokens
    requires ServerHandle(h, s.disk, OfferMsg(t, h)) == ServerResult(d, Some(x))
    ensures Reaches(t, h, a', n + 1, s') && s' == s.(disk := d, tokens := s.tokens[id := ToClient(x)], offered := true)
  {
    hide Reaches, ServerHandle, Inv, OfferMsg;
    a', s' := MakeOffer(t, h, a, n, s, id);
    a', s' := Handle(t, h, a', n + 1, s', id);
    assert s'.tokens == s.tokens[id := ToClient(x)];
  }

  /** The first two answers of a server that knows nothing of the upload. */
  lemma FirstAnswers(t: Upload, h: HashFunction)
    requires Offerable(t) && NumChunks(|t.content|) >= 1
    ensures var d := Found(t, h, INIT.disk);
      && Opened(t, h, d) && (forall i: nat :: !Marked(d.meta.value, i))
      && ServerHandle(h, INIT.disk, OfferMsg(t, h)) == ServerResult(d, Some(ReqMsg(t, 2, 0)))
      && ServerHandle(h, d, OfferMsg(t, h)) == ServerResult(d, Some(ReqMsg(t, 2, 0)))
  {
    var d := Found(t, h, INIT.disk);
    FirstRequest(t, h, INIT.disk);
    FreshIsEmpty(|t.content|, h(t.content));
    assert forall i: nat :: !Marked(d.meta.value, i);
    FirstRequest(t, h, d);
    assert Found(t, h, d) == d;
    hide ServerHandle, Marked, DiskOk, Found;
  }

  /** Two offers, each answered by a request for chunk 0. */
  lemma TwoAsked(t: Upload, h: HashFunction) returns (a: seq<Action>, s: State)
    requires Offerable(t) && NumChunks(|t.content|) >= 2
    ensures Reaches(t, h, a, 2, s) && s.offered && !s.completed && Opened(t, h, s.disk)
    ensures forall i: nat :: !Marked(s.disk.meta.value, i)
    ensures s.tokens == map[0 := ToClient(ReqMsg(t, 2, 0)), 1 := ToClient(ReqMsg(t, 2, 0))]
  {
    InitReached(t, h);
    hide Reaches, ServerHandle, Found, Marked, DiskOk, ReqMsg;
    FirstAnswers(t, h);
    var d := Found(t, h, INIT.disk);
    a, s := OfferHandled(t, h, [], 0, INIT, 0, d, ReqMsg(t, 2, 0));
    a, s := OfferHandled(t, h, a, 1, s, 1, d, ReqMsg(t, 2, 0));
  }

  /** The client has sent chunk 0 twice. */
  lemma TwoWaiting(t: Upload, h: HashFunction) returns (a: seq<Action>, s: State)
    requires Offerable(t) && NumChunks(|t.content|) >= 2
    ensures Reaches(t, h, a, 2, s) && s.offered && Opened(t, h, s.disk)
    ensures forall i: nat :: !Marked(s.disk.meta.value, i)
    ensures s.tokens == map[0 := ToServer(ChunkMsg(t, 2, 0)), 1 := ToServer(ChunkMsg(t, 2, 0))] && !s.completed
  {
    hide Reaches, Marked, DiskOk, ChunkMsg;
    a, s := TwoAsked(t, h);
    a, s := Fetch(t, h, a, 2, s, 0, 2, 0);
    a, s := Fetch(t, h, a, 2, s, 1, 2, 0);
  }

  /** The second message is taken by a worker that comes as far as holding the bitmap byte. */
  lemma HoldByte(t: Upload, h: HashFunction, a: seq<Action>, s: State) returns (a': seq<Action>, s': State, w: Worker)
    requires Offerable(t) && NumChunks(|t.content|) >= 2 && Reaches(t, h, a, 2, s) && s.offered && Opened(t, h, s.disk)
    requires !Marked(s.disk.meta.value, 0) && !Marked(s.disk.meta.value, 1)
    requires s.tokens == map[0 := ToServer(ChunkMsg(t, 2, 0)), 1 := ToServer(ChunkMsg(t, 2, 0))]
    ensures Reaches(t, h, a', 2, s') && s'.offered && Opened(t, h, s'.disk)
    ensures !Marked(s'.disk.meta.value, 0) && !Marked(s'.disk.meta.value, 1)
    ensures w.Marking? && Wf(w) && w.m == ChunkMsg(t, 2, 0) && UpToDate(s'.disk, w)
    ensures s'.tokens == map[0 := ToServer(ChunkMsg(t, 2, 0)), 1 := Serving(w)]
  {
    var m := ChunkMsg(t, 2, 0);
    One(t, h, s, Advance(1));
    OneMore(Advance(1));
    var s1 := s.(tokens := s.tokens[1 := Serving(Start(m))]);
    assert Apply(t, h, s, Advance(1)) == s1;
    Extend(t, h, a, 2, s, [Advance(1)], s1);
    assert TokenOk(t, h, s1.disk, s1.tokens[1]);
    hide Reaches, Apply, DiskOk, WorkerOk, Inv, Marked;
    var b, d;
    b, d, w := ToMarking(t, h, s1, 1);
    s' := s1.(disk := d, tokens := s1.tokens[1 := Serving(w)]);
    FaultFreeOffersNothing(b);
    Extend(t, h, a + [Advance(1)], 2, s1, b, s');
    a' := a + [Advance(1)] + b;
  }

  /** Meanwhile the first message is handled, and the next one too: chunks 0 and 1 are saved and marked. */
  lemma SaveTwo(t: Upload, h: HashFunction, a: seq<Action>, s: State, w: Worker) returns (a': seq<Action>, s': State)
    requires Offerable(t) && NumChunks(|t.content|) >= 2 && Reaches(t, h, a, 2, s) && s.offered && Opened(t, h, s.disk)
    requires !Marked(s.disk.meta.value, 0) && !Marked(s.disk.meta.value, 1)
    requires s.tokens == map[0 := ToServer(ChunkMsg(t, 2, 0)), 1 := Serving(w)]
    ensures Reaches(t, h, a', 2, s') && Opened(t, h, s'.disk)
    ensures |s'.disk.meta.value| == |s.disk.meta.value| && Marked(s'.disk.meta.value, 1)
    ensures 1 in s'.tokens && s'.tokens[1] == Serving(w)
  {
    var m0, m1 := ChunkMsg(t, 2, 0), ChunkMsg(t, 3, 1);
    InRange(0, |t.content|);
    InRange(1, |t.content|);
    ServerSaves(t, h, s.disk, 2, 0);
    MarkIsOneBit(s.disk.meta.value, 0, true);
    var d1 := ServerHandle(h, s.disk, m0).files;
    NextRequest(t, h, d1, m0, 1);
    ServerSaves(t, h, d1, 3, 1);
    MarkIsOneBit(d1.meta.value, 1, true);
    hide Reaches, ServerHandle, Mark, Marked, DiskOk;
    a', s' := Handle(t, h, a, 2, s, 0);
    assert s'.tokens[0] == ToClient(ReqMsg(t, 3, 1));
    a', s' := Fetch(t, h, a', 2, s', 0, 3, 1);
    a', s' := Handle(t, h, a', 2, s', 0);
  }

  /** Chunk `i` is marked after `before` and no longer after `later`. */
  ghost predicate Erases(t: Upload, h: HashFunction, before: seq<Action>, later: seq<Action>, i: nat)
    requires Runs(t, h, INIT, before) && Runs(t, h, INIT, before + later)
  {
    var d, d' := After(t, h, INIT, before).disk, After(t, h, INIT, before + later).disk;
    d.meta.Some? && Marked(d.meta.value, i) && (d'.meta.Some? ==> !Marked(d'.meta.value, i))
  }

  /**
    The loss: the worker that has read the bitmap byte before the other one saved chunks 0 and 1 writes
    it back with the mark of chunk 0 only. So two offers can lose a mark of any file of two chunks.
   */
  lemma TwoOffersLoseAMark(t: Upload, h: HashFunction) returns (before: seq<Action>, last: Action)
    requires Offerable(t) && NumChunks(|t.content|) >= 2
    ensures Runs(t, h, INIT, before) && Runs(t, h, INIT, before + [last])
    ensures Offers(before + [last]) == 2 && NoFault(before + [last])
    ensures Erases(t, h, before, [last], 1)
  {
    var a, s, w;
    a, s := TwoWaiting(t, h);
    a, s, w := HoldByte(t, h, a, s);
    var b := w.b;
    assert !Bit(b, 1) by { assert !Marked(s.disk.meta.value, 1); }
    a, s := SaveTwo(t, h, a, s, w);
    before, last := a, Advance(1);
    StepUnmarksIff(h, s.disk, w, 1);
    One(t, h, s, last);
    OneMore(last);
    Extend(t, h, a, 2, s, [last], Apply(t, h, s, last));
  }

  // ---------------------------------------------------------------- when marks can be lost

  ghost predicate CanLoseMarks(t: Upload, h: HashFunction) {
    exists before, later, i: nat ::
      Runs(t, h, INIT, before) && Runs(t, h, INIT, before + later) && Erases(t, h, before, later, i)
  }

  lemma OneChunkStep(t: Upload, h: HashFunction, s: State, a: Action)
    requires Offerable(t) && Inv(t, h, s) && Enabled(t, s, a) && NumChunks(|t.content|) <= 1
    ensures MarksGrow(s.disk, Apply(t, h, s, a).disk)
  {
    hide ClientHandle;
    if a.Advance? && s.tokens[a.id].Serving? && s.disk.meta.Some? {
      var w := s.tokens[a.id].w;
      assert TokenOk(t, h, s.disk, s.tokens[a.id]);
      forall i: nat | Marked(s.disk.meta.value, i)
        ensures Step(h, s.disk, w).files.meta.Some? && Marked(Step(h, s.disk, w).files.meta.value, i)
      {
        assert Sound(t, s.disk, i);
        StepUnmarksIff(h, s.disk, w, i);
      }
    }
  }

  lemma {:induction false} OneChunkRuns(t: Upload, h: HashFunction, s: State, acts: seq<Action>)
    requires Offerable(t) && Inv(t, h, s) && Runs(t, h, s, acts) && NumChunks(|t.content|) <= 1
    ensures MarksGrow(s.disk, After(t, h, s, acts).disk)
    decreases |acts|
  {
    if acts != [] {
      OneChunkStep(t, h, s, acts[0]);
      ApplyKeepsInv(t, h, s, acts[0]);
      hide Apply, Enabled, Inv;
      OneChunkRuns(t, h, Apply(t, h, s, acts[0]), acts[1..]);
    }
  }

  /** Some run loses a mark exactly when the file has two chunks or more. */
  lemma LossPossibleIff(t: Upload, h: HashFunction)
    requires Offerable(t)
    ensures CanLoseMarks(t, h) <==> NumChunks(|t.content|) >= 2
  {
    if NumChunks(|t.content|) >= 2 {
      var before, last := TwoOffersLoseAMark(t, h);
      assert Erases(t, h, before, [last], 1);
    } else {
      forall before, later, i: nat | Runs(t, h, INIT, before) && Runs(t, h, INIT, before + later)
        ensures !Erases(t, h, before, later, i)
      {
        RunsConcat(t, h, INIT, before, later);
        RunsKeepInv(t, h, INIT, before);
        OneChunkRuns(t, h, After(t, h, INIT, before), later);
      }
    }
  }
}
