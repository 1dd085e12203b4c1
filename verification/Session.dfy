/**
  A session without faults: one client, one offer, every message delivered and handled. The handlers
  are deterministic, so from given files on the server there is exactly one such session; this module
  says message by message what it is, for every file and every state an interrupted upload can leave.
 */
module Session {
  import opened Machine
  import opened Codec
  import opened Metadata
  import opened Storage
  import opened Handlers
  import opened Worker
  import opened Transfer

  /** The one message in flight. */
  datatype Wire = Quiet | Up(m: Message) | Down(m: Message)

  /** `threw`: a handler raised an exception. */
  datatype Config = Config(disk: Files, offered: bool, wire: Wire, threw: bool)

  function Next(t: Upload, h: HashFunction, c: Config): Config {
    match c.wire
    case Quiet => c
    case Up(m) =>
      var r := ServerHandle(h, c.disk, m);
      c.(disk := r.files, wire := if r.reply.Some? then Down(r.reply.value) else Quiet)
    case Down(m) =>
      var files := if c.offered then map[t.key.name := Local(t, h)] else map[];
      var r := ClientHandle(t.key.uuid, files, m);
      c.(offered := t.key.name in r.files,
         wire := if r.reply.Ok? && r.reply.value.Some? then Up(r.reply.value.value) else Quiet,
         threw := c.threw || r.reply.Err?)
  }

  function Later(t: Upload, h: HashFunction, c: Config, k: nat): Config
    decreases k
  {
    if k == 0 then c else Later(t, h, Next(t, h, c), k - 1)
  }

  /** The messages on the wire in the first `k` configurations. */
  function Talk(t: Upload, h: HashFunction, c: Config, k: nat): seq<Message>
    decreases k
  {
    if k == 0 then []
    else (if c.wire.Quiet? then [] else [c.wire.m]) + Talk(t, h, Next(t, h, c), k - 1)
  }

  /** The client has just offered its file to a server holding the files `d`. */
  function Offered(t: Upload, h: HashFunction, d: Files): Config {
    Config(d, true, Up(BuildOffer(1, t.key.uuid, Local(t, h))), false)
  }

  // ---------------------------------------------------------------- what is missing

  /** The unmarked chunks from `i` up to `n`, in increasing order. */
  function MissingFrom(meta: Bytes, n: nat, i: nat): seq<nat>
    decreases n - i
  {
    if i >= n then [] else if Marked(meta, i) then MissingFrom(meta, n, i + 1) else [i] + MissingFrom(meta, n, i + 1)
  }

  lemma {:induction false} MissingFromSpec(meta: Bytes, n: nat, i: nat)
    ensures var ms := MissingFrom(meta, n, i);
      && (forall a, b :: 0 <= a < b < |ms| ==> ms[a] < ms[b])
      && (forall a :: 0 <= a < |ms| ==> i <= ms[a] < n && !Marked(meta, ms[a]))
      && (forall j: nat :: i <= j < n && !Marked(meta, j) ==> j in ms)
    decreases n - i
  {
    hide Marked;
    if i < n {
      MissingFromSpec(meta, n, i + 1);
    }
  }

  lemma {:induction false} SkipMarked(meta: Bytes, n: nat, i: nat, k: nat)
    requires i <= k <= n && forall j: nat :: i <= j < k ==> Marked(meta, j)
    ensures MissingFrom(meta, n, i) == MissingFrom(meta, n, k)
    decreases k - i
  {
    if i < k {
      SkipMarked(meta, n, i + 1, k);
    }
  }

  lemma {:induction false} SameMarks(meta: Bytes, meta': Bytes, n: nat, i: nat)
    requires forall j: nat :: i <= j < n ==> Marked(meta, j) == Marked(meta', j)
    ensures MissingFrom(meta, n, i) == MissingFrom(meta', n, i)
    decreases n - i
  {
    if i < n {
      SameMarks(meta, meta', n, i + 1);
    }
  }

  /** Marking the first missing chunk removes it from the front of the list. */
  lemma MarkingFirst(meta: Bytes, n: nat, k: nat)
    requires HEADER_SIZE + k / 8 < |meta| && k < n
    requires !Marked(meta, k) && forall j: nat :: j < k ==> Marked(meta, j)
    ensures MissingFrom(meta, n, 0) == [k] + MissingFrom(Mark(meta, k, true), n, 0)
  {
    var meta' := Mark(meta, k, true);
    MarkIsOneBit(meta, k, true);
    SkipMarked(meta, n, 0, k);
    SkipMarked(meta', n, 0, k + 1);
    SameMarks(meta, meta', n, k + 1);
  }

  // ---------------------------------------------------------------- one handler call keeps the invariant

  lemma {:induction false} RunAloneFine(t: Upload, h: HashFunction, d: Files, w: Worker)
    requires Offerable(t) && DiskOk(t, h, d) && WorkerOk(t, h, d, w)
    ensures var r := RunAlone(h, d, w);
      && DiskOk(t, h, r.files) && Keeps(t, d, r.files)
      && (r.reply.Some? ==> FromServer(t, r.files, r.reply.value))
    decreases Rank(w), Remaining(d, w)
  {
    assert Wf(w);
    StepDecreases(h, d, w);
    hide Sound, DiskOk, WorkerOk, FromServer, Step, Rank, Remaining;
    EveryStepFine(t, h, d, w);
    match Step(h, d, w)
    case Continue(d', w') => RunAloneFine(t, h, d', w');
    case Finish(_, _) =>
  }

  lemma HandleFine(t: Upload, h: HashFunction, d: Files, m: Message)
    requires Offerable(t) && DiskOk(t, h, d) && FromClient(t, h, m)
    ensures var r := ServerHandle(h, d, m);
      && DiskOk(t, h, r.files) && Keeps(t, d, r.files)
      && (r.reply.Some? ==> FromServer(t, r.files, r.reply.value))
  {
    RunsToHandler(h, d, m);
    RunAloneFine(t, h, d, Start(m));
  }

  // ---------------------------------------------------------------- one round

  /** Both files are there and the invariant holds. */
  ghost predicate Opened(t: Upload, h: HashFunction, d: Files) {
    Offerable(t) && DiskOk(t, h, d) && d.meta.Some? && d.target.Some?
  }

  function Reply(t: Upload, h: HashFunction, d: Files, m: Message): Message
    requires |t.content| <= UINT64_MAX
  {
    Answer(h, d, |t.content|, h(t.content), m)
  }

  function ChunkMsg(t: Upload, number: u16, i: nat): Message
    requires i < NumChunks(|t.content|) && i < INDEX_LIMIT
  {
    ChunksTile(t.content);
    Message(number, t.key.uuid, t.key.name, ChunkData(i, GetChunk(t.content, i).value))
  }

  function OfferMsg(t: Upload, h: HashFunction): Message
    requires Offerable(t)
  {
    Message(1, t.key.uuid, t.key.name, Offer(|t.content|, NumChunks(|t.content|), h(t.content)))
  }

  function ReqMsg(t: Upload, number: u16, i: nat): Message
    requires i < INDEX_LIMIT
  {
    Message(number, t.key.uuid, t.key.name, ChunkReq(i, UINT16_MAX))
  }

  lemma LeastIsLeast(meta: Bytes, n: nat, r: u64, i: nat)
    requires IsLeastMissing(meta, n, 0, r) && i < n && !Marked(meta, i)
    ensures r <= i && !Marked(meta, r) && forall j: nat :: j < r ==> Marked(meta, j)
  {
  }

  lemma FirstUnmarked(meta: Bytes, k: nat) returns (first: nat)
    requires MissingFrom(meta, k, 0) != []
    ensures first < k && !Marked(meta, first)
  {
    MissingFromSpec(meta, k, 0);
    first := MissingFrom(meta, k, 0)[0];
  }

  lemma FirstIsNext(t: Upload, h: HashFunction, d: Files)
    requires Opened(t, h, d)
    ensures var k := Min(NumChunks(|t.content|), INDEX_LIMIT);
      var ms := MissingFrom(d.meta.value, k, 0);
      ms != [] ==>
        && ms[0] == NextMissing(d.meta, |t.content|, 0) < k
        && ms == [ms[0]] + MissingFrom(Mark(d.meta.value, ms[0], true), k, 0)
  {
    var meta, k := d.meta.value, Min(NumChunks(|t.content|), INDEX_LIMIT);
    if MissingFrom(meta, k, 0) != [] {
      var first := FirstUnmarked(meta, k);
      NextMissingIsLeast(meta, |t.content|, 0);
      hide *;
      var r := NextMissing(d.meta, |t.content|, 0);
      LeastIsLeast(meta, NumChunks(|t.content|), r, first);
      InRange(r, |t.content|);
      MarkingFirst(meta, k, r);
    }
  }

  /** The answer asks for the least unmarked chunk when one with a 16-bit index is missing. */
  lemma AsksForFirst(t: Upload, h: HashFunction, d: Files, m: Message)
    requires Opened(t, h, d) && KeyOf(m) == t.key
    ensures var ms := MissingFrom(d.meta.value, Min(NumChunks(|t.content|), INDEX_LIMIT), 0);
      ms != [] ==> ms[0] < INDEX_LIMIT && Reply(t, h, d, m) == ReqMsg(t, Narrow16(m.seqNumber + 1), ms[0])
  {
    hide Sound, DiskOk, NextMissing, MissingFrom;
    FirstIsNext(t, h, d);
  }

  /** The client answers a request with the chunk; its sequence number is echoed. */
  lemma ClientSends(t: Upload, h: HashFunction, c: Config, number: u16, i: nat)
    requires i < NumChunks(|t.content|) && i < INDEX_LIMIT
    requires c.offered && c.wire == Down(ReqMsg(t, number, i))
    ensures Next(t, h, c) == c.(wire := Up(ChunkMsg(t, number, i)))
  {
    ChunksTile(t.content);
    assert Narrow16(i) == i && Narrow16(number) == number;
  }

  /** The server saves the chunk, marks it and answers. */
  lemma ServerSaves(t: Upload, h: HashFunction, d: Files, number: u16, i: nat)
    requires Opened(t, h, d) && i < NumChunks(|t.content|) && i < INDEX_LIMIT
    ensures var m := ChunkMsg(t, number, i);
      var r := ServerHandle(h, d, m);
      && Opened(t, h, r.files)
      && r.files.meta == Some(Mark(d.meta.value, i, true))
      && r.files.target == Some(WriteAt(d.target.value, i * CHUNK_SIZE, GetChunk(t.content, i).value))
      && r.reply == Some(Reply(t, h, r.files, m))
  {
    hide ReadHeader, Answer, Mark, WriteAt;
    var m := ChunkMsg(t, number, i);
    HandleFine(t, h, d, m);
    HeaderOfUpload(t, h, d);
    ChunksTile(t.content);
    AcceptsWhatIsSent(t.content, i, m.body.data);
  }

  // ---------------------------------------------------------------- all rounds

  predicate Within(t: Upload, ms: seq<nat>) {
    forall a :: 0 <= a < |ms| ==> ms[a] < NumChunks(|t.content|) && ms[a] < INDEX_LIMIT
  }

  /** The requests and answers for the chunks `ms`, numbered on from `number`. */
  function Rounds(t: Upload, ms: seq<nat>, number: u16): seq<Message>
    requires Within(t, ms)
  {
    if ms == [] then []
    else
      var next := Narrow16(number + 1);
      [ReqMsg(t, next, ms[0]), ChunkMsg(t, next, ms[0])] + Rounds(t, ms[1..], next)
  }

  lemma CountOn(number: u16, k: nat)
    ensures Narrow16(Narrow16(number + 1) + k) == Narrow16(number + (k + 1))
  {
  }

  lemma {:induction false} RoundsLength(t: Upload, ms: seq<nat>, number: u16)
    requires Within(t, ms)
    ensures |Rounds(t, ms, number)| == 2 * |ms|
    decreases |ms|
  {
    if ms != [] {
      RoundsLength(t, ms[1..], Narrow16(number + 1));
    }
  }

  lemma RoundsStep(t: Upload, ms: seq<nat>, number: u16)
    requires Within(t, ms) && ms != []
    ensures var next := Narrow16(number + 1);
      Rounds(t, ms, number) == [ReqMsg(t, next, ms[0]), ChunkMsg(t, next, ms[0])] + Rounds(t, ms[1..], next)
  {
  }

  /** Entry by entry: request and chunk `ms[k]`, both with the number `number + 1 + k` modulo 65536. */
  lemma {:induction false} RoundsAt(t: Upload, ms: seq<nat>, number: u16, k: nat)
    requires Within(t, ms) && k < |ms|
    ensures |Rounds(t, ms, number)| == 2 * |ms|
    ensures Rounds(t, ms, number)[2 * k] == ReqMsg(t, Narrow16(number + 1 + k), ms[k])
    ensures Rounds(t, ms, number)[2 * k + 1] == ChunkMsg(t, Narrow16(number + 1 + k), ms[k])
    decreases k
  {
    RoundsLength(t, ms, number);
    RoundsStep(t, ms, number);
    hide ChunkMsg, ReqMsg, Rounds, Narrow16;
    if k > 0 {
      var next := Narrow16(number + 1);
      RoundsAt(t, ms[1..], next, k - 1);
      CountOn(number, k - 1);
      assert Narrow16(next + 1 + (k - 1)) == Narrow16(number + 1 + k) by { CountOn(number, k); }
      assert ms[1..][k - 1] == ms[k];
    }
  }

  lemma {:induction false} LaterAdds(t: Upload, h: HashFunction, c: Config, a: nat, b: nat)
    ensures Later(t, h, c, a + b) == Later(t, h, Later(t, h, c, a), b)
    ensures Talk(t, h, c, a + b) == Talk(t, h, c, a) + Talk(t, h, Later(t, h, c, a), b)
    decreases a
  {
    hide Next;
    if a != 0 {
      LaterAdds(t, h, Next(t, h, c), a - 1, b);
    }
  }

  /** The chunks the protocol can still ask for. */
  function Askable(t: Upload, meta: Bytes): (ms: seq<nat>)
    ensures Within(t, ms)
  {
    MissingFromSpec(meta, Min(NumChunks(|t.content|), INDEX_LIMIT), 0);
    MissingFrom(meta, Min(NumChunks(|t.content|), INDEX_LIMIT), 0)
  }

  /** The server has handled the message `m` and its answer is on the way. */
  function Answering(t: Upload, h: HashFunction, d: Files, m: Message): Config
    requires |t.content| <= UINT64_MAX
  {
    Config(d, true, Down(Reply(t, h, d, m)), false)
  }

  lemma TwoSteps(t: Upload, h: HashFunction, c: Config)
    requires !c.wire.Quiet? && !Next(t, h, c).wire.Quiet?
    ensures Later(t, h, c, 2) == Next(t, h, Next(t, h, c))
    ensures Talk(t, h, c, 2) == [c.wire.m, Next(t, h, c).wire.m]
  {
    hide Next;
    var c1 := Next(t, h, c);
    assert Later(t, h, c1, 1) == Later(t, h, Next(t, h, c1), 0);
    assert Talk(t, h, c1, 1) == [c1.wire.m] + Talk(t, h, Next(t, h, c1), 0);
  }

  /** Request and answer: two steps that transfer the first missing chunk. */
  lemma OneRound(t: Upload, h: HashFunction, d: Files, m: Message)
    requires Opened(t, h, d) && KeyOf(m) == t.key && Askable(t, d.meta.value) != []
    ensures var ms := Askable(t, d.meta.value);
      var next := Narrow16(m.seqNumber + 1);
      var d' := ServerHandle(h, d, ChunkMsg(t, next, ms[0])).files;
      var c := Answering(t, h, d, m);
      && Opened(t, h, d') && Askable(t, d'.meta.value) == ms[1..]
      && Later(t, h, c, 2) == Answering(t, h, d', ChunkMsg(t, next, ms[0]))
      && Talk(t, h, c, 2) == [ReqMsg(t, next, ms[0]), ChunkMsg(t, next, ms[0])]
  {
    hide ServerHandle, ClientHandle, Answer, DiskOk, MissingFrom;
    var ms, next, c := Askable(t, d.meta.value), Narrow16(m.seqNumber + 1), Answering(t, h, d, m);
    FirstIsNext(t, h, d);
    AsksForFirst(t, h, d, m);
    ClientSends(t, h, c, next, ms[0]);
    ServerSaves(t, h, d, next, ms[0]);
    var c1 := Next(t, h, c);
    var c2 := Next(t, h, c1);
    TwoSteps(t, h, c);
  }

  /** All rounds: every askable chunk is transferred once, in increasing order. */
  lemma {:induction false} Drain(t: Upload, h: HashFunction, d: Files, m: Message) returns (d': Files, m': Message)
    requires Opened(t, h, d) && KeyOf(m) == t.key
    ensures var ms := Askable(t, d.meta.value);
      var c := Answering(t, h, d, m);
      && Opened(t, h, d') && Askable(t, d'.meta.value) == [] && KeyOf(m') == t.key
      && m'.seqNumber == Narrow16(m.seqNumber + |ms|)
      && Later(t, h, c, 2 * |ms|) == Answering(t, h, d', m')
      && Talk(t, h, c, 2 * |ms|) == Rounds(t, ms, m.seqNumber)
    decreases |Askable(t, d.meta.value)|
  {
    hide ServerHandle, Next, Answer, DiskOk, MissingFrom;
    var ms, c := Askable(t, d.meta.value), Answering(t, h, d, m);
    if ms == [] {
      d', m' := d, m;
    } else {
      OneRound(t, h, d, m);
      var next := Narrow16(m.seqNumber + 1);
      var m1 := ChunkMsg(t, next, ms[0]);
      var d1 := ServerHandle(h, d, m1).files;
      d', m' := Drain(t, h, d1, m1);
      LaterAdds(t, h, c, 2, 2 * |ms[1..]|);
      CountOn(m.seqNumber, |ms[1..]|);
      hide Askable, Narrow16, Answering, NumChunks;
    }
  }

  // ---------------------------------------------------------------- the session of a file the protocol can carry

  lemma AllMarked(t: Upload, h: HashFunction, d: Files)
    requires Opened(t, h, d) && Askable(t, d.meta.value) == []
    ensures forall i: nat :: i < NumChunks(|t.content|) && i < INDEX_LIMIT ==> Marked(d.meta.value, i)
  {
    var k := Min(NumChunks(|t.content|), INDEX_LIMIT);
    MissingFromSpec(d.meta.value, k, 0);
    forall i: nat | i < k
      ensures Marked(d.meta.value, i)
    {
      assert i !in MissingFrom(d.meta.value, k, 0);
    }
  }

  /** With every chunk marked the server says so, and the client takes the file off its list. */
  lemma LastReply(t: Upload, h: HashFunction, d: Files, m: Message)
    requires Opened(t, h, d) && KeyOf(m) == t.key && Askable(t, d.meta.value) == []
    requires NumChunks(|t.content|) <= INDEX_LIMIT
    ensures Received(t, d)
    ensures Reply(t, h, d, m) == Message(m.seqNumber, t.key.uuid, t.key.name, Complete)
  {
    AllMarked(t, h, d);
    AllSoundIsReceived(t, h, d);
    NextMissingIsLeast(d.meta.value, |t.content|, 0);
    assert NextMissing(d.meta, |t.content|, 0) == UINT64_MAX;
    hide NextMissing, Marked, Sound, MissingFrom, DiskOk;
  }

  lemma Concludes(t: Upload, h: HashFunction, d: Files, m: Message)
    requires Opened(t, h, d) && KeyOf(m) == t.key && Askable(t, d.meta.value) == []
    requires NumChunks(|t.content|) <= INDEX_LIMIT
    ensures Received(t, d)
    ensures Reply(t, h, d, m) == Message(m.seqNumber, t.key.uuid, t.key.name, Complete)
    ensures Next(t, h, Answering(t, h, d, m)) == Config(d, false, Quiet, false)
  {
    hide Reply, DiskOk, Askable, Received;
    LastReply(t, h, d, m);
  }

  /** What an offer finds or creates on the server. */
  function Found(t: Upload, h: HashFunction, d: Files): Files
    requires Offerable(t)
  {
    Open(d, |t.content|, h(t.content))
  }

  lemma OfferOpens(t: Upload, h: HashFunction, d: Files)
    requires Offerable(t) && DiskOk(t, h, d)
    ensures var d1 := Found(t, h, d);
      && Opened(t, h, d1)
      && Next(t, h, Offered(t, h, d)) == Answering(t, h, d1, Offered(t, h, d).wire.m)
      && KeyOf(Offered(t, h, d).wire.m) == t.key
      && Offered(t, h, d).wire.m == OfferMsg(t, h)
  {
    var m := Offered(t, h, d).wire.m;
    HandleFine(t, h, d, m);
  }

  /** The chunks an offer finds missing: those unmarked in the metadata file, all of them if there is none. */
  function Lacking(t: Upload, h: HashFunction, d: Files): (ms: seq<nat>)
    requires Offerable(t)
    ensures Within(t, ms)
  {
    Askable(t, Found(t, h, d).meta.value)
  }

  predicate Unmarked(d: Files, i: nat) {
    d.meta.None? || !Marked(d.meta.value, i)
  }

  /** Strictly increasing, and exactly the unmarked chunks with a 16-bit index. */
  lemma FoundMarks(t: Upload, h: HashFunction, d: Files)
    requires Offerable(t)
    ensures forall i: nat :: !Marked(Found(t, h, d).meta.value, i) <==> Unmarked(d, i)
  {
    FreshIsEmpty(|t.content|, h(t.content));
    hide Marked;
  }

  lemma LackingSpec(t: Upload, h: HashFunction, d: Files)
    requires Offerable(t)
    ensures var ms := Lacking(t, h, d);
      && (forall a, b :: 0 <= a < b < |ms| ==> ms[a] < ms[b])
      && (forall a :: 0 <= a < |ms| ==> Unmarked(d, ms[a]))
      && (forall i: nat :: i < NumChunks(|t.content|) && i < INDEX_LIMIT && Unmarked(d, i) ==> i in ms)
  {
    FoundMarks(t, h, d);
    var meta, k := Found(t, h, d).meta.value, Min(NumChunks(|t.content|), INDEX_LIMIT);
    assert Lacking(t, h, d) == MissingFrom(meta, k, 0);
    hide Marked, Unmarked, MissingFrom, Lacking, Found, NumChunks;
    MissingFromSpec(meta, k, 0);
  }

  /** Every session begins with the offer and the rounds of the askable chunks. */
  lemma Opening(t: Upload, h: HashFunction, d: Files) returns (d': Files, m: Message)
    requires Offerable(t) && DiskOk(t, h, d)
    ensures Opened(t, h, d') && Askable(t, d'.meta.value) == [] && KeyOf(m) == t.key
    ensures var c, ms := Offered(t, h, d), Lacking(t, h, d);
      && m.seqNumber == Narrow16(1 + |ms|)
      && Later(t, h, c, 2 * |ms| + 1) == Answering(t, h, d', m)
      && Talk(t, h, c, 2 * |ms| + 1) == [OfferMsg(t, h)] + Rounds(t, ms, 1)
  {
    hide Next, DiskOk, MissingFrom, Answer;
    var ms, c := Lacking(t, h, d), Offered(t, h, d);
    OfferOpens(t, h, d);
    d', m := Drain(t, h, Found(t, h, d), c.wire.m);
    assert Talk(t, h, c, 2 * |ms| + 1) == [c.wire.m] + Talk(t, h, Next(t, h, c), 2 * |ms|);
  }

  /** Received, and nothing is left to ask for. */
  ghost predicate Drained(t: Upload, h: HashFunction, d: Files) {
    Received(t, d) && Opened(t, h, d) && Askable(t, d.meta.value) == []
  }

  lemma SessionTalk(t: Upload, h: HashFunction, d: Files)
    requires Offerable(t) && DiskOk(t, h, d) && NumChunks(|t.content|) <= INDEX_LIMIT
    ensures var ms := Lacking(t, h, d);
      var c, k := Offered(t, h, d), 2 * |ms| + 2;
      && Talk(t, h, c, k) == [OfferMsg(t, h)] + Rounds(t, ms, 1)
           + [Message(Narrow16(1 + |ms|), t.key.uuid, t.key.name, Complete)]
      && var d' := Later(t, h, c, k).disk;
         Later(t, h, c, k) == Config(d', false, Quiet, false) && Drained(t, h, d')
  {
    hide Next, DiskOk, MissingFrom, Answer, Offered, Lacking, Rounds;
    var ms, c := Lacking(t, h, d), Offered(t, h, d);
    var d2, m2 := Opening(t, h, d);
    Concludes(t, h, d2, m2);
    var c2 := Answering(t, h, d2, m2);
    assert Talk(t, h, c2, 1) == [c2.wire.m] + Talk(t, h, Next(t, h, c2), 0);
    assert Later(t, h, c2, 1) == Later(t, h, Next(t, h, c2), 0);
    LaterAdds(t, h, c, 2 * |ms| + 1, 1);
  }

  /** What a finished session leaves: no message, no exception, the client's list empty, everything received and marked. */
  ghost predicate Finished(t: Upload, c: Config) {
    && c.wire.Quiet? && !c.offered && !c.threw
    && Received(t, c.disk)
    && c.disk.meta.Some? && forall i: nat :: i < NumChunks(|t.content|) ==> Marked(c.disk.meta.value, i)
  }

  /**
    The whole session, for every file of at most 65536 chunks and every state that interrupted uploads
    can leave on the server: one offer, then for each missing chunk in increasing order one request
    and one chunk message, numbered consecutively from 2 modulo 65536, then one completion message.
    No handler throws, the client's list ends empty and the server's file equals the client's.
   */
  lemma ExactSession(t: Upload, h: HashFunction, d: Files)
    requires Offerable(t) && DiskOk(t, h, d) && NumChunks(|t.content|) <= INDEX_LIMIT
    ensures var ms := Lacking(t, h, d);
      var c, k := Offered(t, h, d), 2 * |ms| + 2;
      && Talk(t, h, c, k) == [OfferMsg(t, h)] + Rounds(t, ms, 1)
           + [Message(Narrow16(1 + |ms|), t.key.uuid, t.key.name, Complete)]
      && (forall a, b :: 0 <= a < b < |ms| ==> ms[a] < ms[b])
      && (forall a :: 0 <= a < |ms| ==> Unmarked(d, ms[a]))
      && (forall i: nat :: i < NumChunks(|t.content|) && Unmarked(d, i) ==> i in ms)
      && Finished(t, Later(t, h, c, k))
  {
    SessionTalk(t, h, d);
    LackingSpec(t, h, d);
    hide Talk, Rounds, Lacking, Unmarked, DiskOk, MissingFrom, Marked, Offered, Next;
    AllMarked(t, h, Later(t, h, Offered(t, h, d), 2 * |Lacking(t, h, d)| + 2).disk);
  }

  // ---------------------------------------------------------------- the session of a larger file

  lemma {:induction false} SetAgain(b: nat, i: nat)
    requires Low(b, i)
    ensures WithLow(b, i, true) == b
  {
    if i != 0 {
      SetAgain(b / 2, i - 1);
    }
  }

  lemma MarkedAgain(meta: Bytes, i: nat)
    requires Marked(meta, i)
    ensures Mark(meta, i, true) == meta
  {
    SetAgain(meta[HEADER_SIZE + i / 8], 7 - i % 8);
  }

  lemma SameBytes(f: Bytes, at: nat, data: Bytes)
    requires at + |data| <= |f| && f[at..at + |data|] == data
    ensures WriteAt(f, at, data) == f
  {
    forall p: nat | at <= p < at + |data|
      ensures f[p] == data[p - at]
    {
      assert f[p] == f[at..at + |data|][p - at];
    }
  }

  /** Saving a chunk the server has already changes neither file. */
  lemma SavedAgain(t: Upload, h: HashFunction, d: Files, i: nat)
    requires Opened(t, h, d) && i < NumChunks(|t.content|) && Marked(d.meta.value, i)
    ensures Mark(d.meta.value, i, true) == d.meta.value
    ensures GetChunk(t.content, i).Ok?
    ensures WriteAt(d.target.value, i * CHUNK_SIZE, GetChunk(t.content, i).value) == d.target.value
  {
    MarkedAgain(d.meta.value, i);
    SoundIsSameChunk(t, d, i);
    hide WriteAt, Mark, Sound;
    SameBytes(d.target.value, i * CHUNK_SIZE, GetChunk(t.content, i).value);
  }

  /** With chunks 0..65535 present, the next missing index is 65536, and its low 16 bits are 0. */
  lemma AsksForZero(t: Upload, h: HashFunction, d: Files, m: Message)
    requires Opened(t, h, d) && KeyOf(m) == t.key && Askable(t, d.meta.value) == []
    requires NumChunks(|t.content|) > INDEX_LIMIT
    ensures Reply(t, h, d, m) == ReqMsg(t, Narrow16(m.seqNumber + 1), 0)
  {
    AllMarked(t, h, d);
    NextMissingIsLeast(d.meta.value, |t.content|, 0);
    assert !Marked(d.meta.value, INDEX_LIMIT);
    assert NextMissing(d.meta, |t.content|, 0) == INDEX_LIMIT;
  }

  /** Then the round repeats itself: chunk 0 comes once more and changes nothing. */
  lemma StallRound(t: Upload, h: HashFunction, d: Files, m: Message)
    requires Opened(t, h, d) && KeyOf(m) == t.key && Askable(t, d.meta.value) == []
    requires NumChunks(|t.content|) > INDEX_LIMIT
    ensures var next := Narrow16(m.seqNumber + 1);
      && Later(t, h, Answering(t, h, d, m), 2) == Answering(t, h, d, ChunkMsg(t, next, 0))
      && Talk(t, h, Answering(t, h, d, m), 2) == [ReqMsg(t, next, 0), ChunkMsg(t, next, 0)]
  {
    hide ServerHandle, ClientHandle, Answer, DiskOk, MissingFrom, Mark, WriteAt, Later, Marked;
    var next, c := Narrow16(m.seqNumber + 1), Answering(t, h, d, m);
    AsksForZero(t, h, d, m);
    ClientSends(t, h, c, next, 0);
    ServerSaves(t, h, d, next, 0);
    AllMarked(t, h, d);
    SavedAgain(t, h, d, 0);
    TwoSteps(t, h, c);
  }

  /** For ever: after any number of rounds the files are as they were. */
  lemma {:induction false} Stalls(t: Upload, h: HashFunction, d: Files, m: Message, rounds: nat)
    requires Opened(t, h, d) && KeyOf(m) == t.key && Askable(t, d.meta.value) == []
    requires NumChunks(|t.content|) > INDEX_LIMIT
    ensures Later(t, h, Answering(t, h, d, m), 2 * rounds)
         == Config(d, true, Down(ReqMsg(t, Narrow16(m.seqNumber + 1 + rounds), 0)), false)
    decreases rounds
  {
    hide Answer, DiskOk, MissingFrom, Next, NumChunks;
    AsksForZero(t, h, d, m);
    if rounds != 0 {
      StallRound(t, h, d, m);
      LaterAdds(t, h, Answering(t, h, d, m), 2, 2 * (rounds - 1));
      Stalls(t, h, d, ChunkMsg(t, Narrow16(m.seqNumber + 1), 0), rounds - 1);
    }
  }

  /**
    The whole session of a larger file: the missing chunks below 65536 are transferred once each, in
    increasing order; then chunk 0 is requested again and again, and the files never change any more.
   */
  lemma LargeSession(t: Upload, h: HashFunction, d: Files, rounds: nat)
    requires Offerable(t) && DiskOk(t, h, d) && NumChunks(|t.content|) > INDEX_LIMIT
    ensures var ms := Lacking(t, h, d);
      var c, k := Offered(t, h, d), 2 * |ms| + 1;
      && Talk(t, h, c, k) == [OfferMsg(t, h)] + Rounds(t, ms, 1)
      && var stuck := Later(t, h, c, k).disk;
         Later(t, h, c, k + 2 * rounds)
           == Config(stuck, true, Down(ReqMsg(t, Narrow16(2 + |ms| + rounds), 0)), false)
  {
    hide Next, DiskOk, MissingFrom, Answer, NumChunks, Offered, Lacking, Rounds, Talk;
    var d2, m2 := Opening(t, h, d);
    Stalls(t, h, d2, m2, rounds);
    LaterAdds(t, h, Offered(t, h, d), 2 * |Lacking(t, h, d)| + 1, 2 * rounds);
  }

  lemma {:induction false} StaysQuiet(t: Upload, h: HashFunction, c: Config, k: nat)
    requires c.wire.Quiet?
    ensures Later(t, h, c, k) == c
    decreases k
  {
    if k != 0 {
      StaysQuiet(t, h, c, k - 1);
    }
  }

  /** So its session is never over. */
  lemma NeverQuiet(t: Upload, h: HashFunction, d: Files, k: nat)
    requires Offerable(t) && DiskOk(t, h, d) && NumChunks(|t.content|) > INDEX_LIMIT
    ensures !Later(t, h, Offered(t, h, d), k).wire.Quiet?
  {
    hide Next, DiskOk, Offered, Lacking, Rounds, Talk;
    var c, k0 := Offered(t, h, d), 2 * |Lacking(t, h, d)| + 1;
    LargeSession(t, h, d, k);
    if Later(t, h, c, k).wire.Quiet? {
      var more := k0 + 2 * k - k;
      LaterAdds(t, h, c, k, more);
      StaysQuiet(t, h, Later(t, h, c, k), more);
    }
  }

  // ---------------------------------------------------------------- the exact limit

  /** Some time after the offer the client's list is empty. */
  ghost predicate Finishes(t: Upload, h: HashFunction, d: Files) {
    exists k: nat :: !Later(t, h, Offered(t, h, d), k).offered
  }

  ghost predicate ConfigOk(t: Upload, h: HashFunction, c: Config) {
    && DiskOk(t, h, c.disk)
    && (c.wire.Up? ==> FromClient(t, h, c.wire.m))
    && (c.wire.Down? ==> FromServer(t, c.disk, c.wire.m))
  }

  lemma NextFine(t: Upload, h: HashFunction, c: Config)
    requires Offerable(t) && ConfigOk(t, h, c)
    ensures ConfigOk(t, h, Next(t, h, c))
    ensures NumChunks(|t.content|) > INDEX_LIMIT && c.offered ==> Next(t, h, c).offered
  {
    match c.wire
    case Quiet =>
    case Up(m) => HandleFine(t, h, c.disk, m);
    case Down(m) => ClientAnswerFine(t, h, State(c.disk, map[], c.offered, false), m);
  }

  lemma {:induction false} StaysOffered(t: Upload, h: HashFunction, c: Config, k: nat)
    requires Offerable(t) && ConfigOk(t, h, c) && c.offered && NumChunks(|t.content|) > INDEX_LIMIT
    ensures Later(t, h, c, k).offered
    decreases k
  {
    if k != 0 {
      NextFine(t, h, c);
      StaysOffered(t, h, Next(t, h, c), k - 1);
    }
  }

  lemma SmallEnough(size: nat)
    ensures size <= 260046848 <==> NumChunks(size) <= INDEX_LIMIT
  {
  }

  /**
    The documentation promises files up to 4 GB. The sessions that finish are exactly those of files
    of at most 65536 chunks, that is 260046848 bytes.
   */
  lemma FinishesIff(t: Upload, h: HashFunction, d: Files)
    requires Offerable(t) && DiskOk(t, h, d)
    ensures Finishes(t, h, d) <==> |t.content| <= 260046848
  {
    SmallEnough(|t.content|);
    if NumChunks(|t.content|) <= INDEX_LIMIT {
      ExactSession(t, h, d);
    } else {
      forall k: nat
        ensures Later(t, h, Offered(t, h, d), k).offered
      {
        StaysOffered(t, h, Offered(t, h, d), k);
      }
    }
  }

  // ---------------------------------------------------------------- what a session asks for

  predicate AsksOnlyUnmarked(d: Files, talk: seq<Message>) {
    forall i :: 0 <= i < |talk| && talk[i].body.ChunkReq? ==> Unmarked(d, talk[i].body.first)
  }

  predicate AsksOnlyZero(talk: seq<Message>) {
    forall i :: 0 <= i < |talk| && talk[i].body.ChunkReq? ==> talk[i].body.first == 0
  }

  lemma IsChunk(t: Upload, number: u16, i: nat)
    requires i < NumChunks(|t.content|) && i < INDEX_LIMIT
    ensures ChunkMsg(t, number, i).body.ChunkData?
  {
  }

  lemma RoundsAskUnmarked(t: Upload, d: Files, ms: seq<nat>, first: Message, last: seq<Message>)
    requires Within(t, ms) && forall a :: 0 <= a < |ms| ==> Unmarked(d, ms[a])
    requires !first.body.ChunkReq? && forall i :: 0 <= i < |last| ==> !last[i].body.ChunkReq?
    ensures AsksOnlyUnmarked(d, [first] + Rounds(t, ms, 1) + last)
  {
    RoundsLength(t, ms, 1);
    var r := Rounds(t, ms, 1);
    var talk := [first] + r + last;
    hide Unmarked, Rounds, ChunkMsg;
    forall i | 0 <= i < |talk| && talk[i].body.ChunkReq?
      ensures Unmarked(d, talk[i].body.first)
    {
      assert 1 <= i < 1 + |r| && talk[i] == r[i - 1];
      var k := (i - 1) / 2;
      RoundsAt(t, ms, 1, k);
      IsChunk(t, Narrow16(2 + k), ms[k]);
      assert i - 1 == 2 * k || i - 1 == 2 * k + 1;
    }
  }

  lemma PrefixAsks(d: Files, a: seq<Message>, b: seq<Message>)
    requires AsksOnlyUnmarked(d, a + b)
    ensures AsksOnlyUnmarked(d, a)
  {
    assert forall i :: 0 <= i < |a| ==> (a + b)[i] == a[i];
  }

  lemma {:induction false} Silent(t: Upload, h: HashFunction, c: Config, k: nat)
    requires c.wire.Quiet?
    ensures Talk(t, h, c, k) == []
    decreases k
  {
    if k != 0 {
      Silent(t, h, c, k - 1);
    }
  }

  lemma WholeTalkAsks(t: Upload, h: HashFunction, d: Files)
    requires Offerable(t) && DiskOk(t, h, d) && NumChunks(|t.content|) <= INDEX_LIMIT
    ensures var c, all := Offered(t, h, d), 2 * |Lacking(t, h, d)| + 2;
      AsksOnlyUnmarked(d, Talk(t, h, c, all)) && Later(t, h, c, all).wire.Quiet?
  {
    SessionTalk(t, h, d);
    LackingSpec(t, h, d);
    hide Talk, Rounds, Lacking, Offered, Later, DiskOk;
    var ms := Lacking(t, h, d);
    RoundsAskUnmarked(t, d, ms, OfferMsg(t, h), [Message(Narrow16(1 + |ms|), t.key.uuid, t.key.name, Complete)]);
  }

  /** A session of a file the protocol can carry never asks for a chunk that was marked when it began. */
  lemma AsksForMissing(t: Upload, h: HashFunction, d: Files, k: nat)
    requires Offerable(t) && DiskOk(t, h, d) && NumChunks(|t.content|) <= INDEX_LIMIT
    ensures AsksOnlyUnmarked(d, Talk(t, h, Offered(t, h, d), k))
  {
    hide *;
    var c, all := Offered(t, h, d), 2 * |Lacking(t, h, d)| + 2;
    WholeTalkAsks(t, h, d);
    if k <= all {
      LaterAdds(t, h, c, k, all - k);
      assert Talk(t, h, c, k + (all - k)) == Talk(t, h, c, all);
      PrefixAsks(d, Talk(t, h, c, k), Talk(t, h, Later(t, h, c, k), all - k));
    } else {
      LaterAdds(t, h, c, all, k - all);
      Silent(t, h, Later(t, h, c, all), k - all);
      assert Talk(t, h, c, all + (k - all)) == Talk(t, h, c, k);
      assert Talk(t, h, c, all) + [] == Talk(t, h, c, all);
    }
  }

  lemma {:induction false} StuckAsksZero(t: Upload, h: HashFunction, d: Files, m: Message, k: nat)
    requires Opened(t, h, d) && KeyOf(m) == t.key && Askable(t, d.meta.value) == []
    requires NumChunks(|t.content|) > INDEX_LIMIT
    ensures AsksOnlyZero(Talk(t, h, Answering(t, h, d, m), k))
    decreases k
  {
    hide Answer, DiskOk, MissingFrom, Next, ServerHandle, ClientHandle;
    var c, next := Answering(t, h, d, m), Narrow16(m.seqNumber + 1);
    AsksForZero(t, h, d, m);
    if k == 1 {
      assert Talk(t, h, c, 1) == [c.wire.m] + Talk(t, h, Next(t, h, c), 0);
    } else if k > 1 {
      StallRound(t, h, d, m);
      LaterAdds(t, h, c, 2, k - 2);
      StuckAsksZero(t, h, d, ChunkMsg(t, next, 0), k - 2);
    }
  }

  /** The messages of a larger file up to the point where nothing askable is left. */
  lemma LargeOpening(t: Upload, h: HashFunction, d: Files) returns (d': Files, m: Message)
    requires Offerable(t) && DiskOk(t, h, d) && NumChunks(|t.content|) > INDEX_LIMIT
    ensures Opened(t, h, d') && KeyOf(m) == t.key && Askable(t, d'.meta.value) == []
    ensures var c, n := Offered(t, h, d), 2 * |Lacking(t, h, d)| + 1;
      && Later(t, h, c, n) == Answering(t, h, d', m)
      && |Talk(t, h, c, n)| == n && AsksOnlyUnmarked(d, Talk(t, h, c, n))
  {
    hide Next, DiskOk, Offered, Lacking, Rounds, Talk, AsksOnlyUnmarked, Unmarked, Answering, Later;
    var ms, c := Lacking(t, h, d), Offered(t, h, d);
    d', m := Opening(t, h, d);
    var opening := [OfferMsg(t, h)] + Rounds(t, ms, 1);
    assert opening + [] == opening;
    LackingSpec(t, h, d);
    RoundsLength(t, ms, 1);
    RoundsAskUnmarked(t, d, ms, OfferMsg(t, h), []);
  }

  /** For a larger file that holds of the first 2 * |missing| + 1 messages; after them only chunk 0 is asked for. */
  lemma LargeAsks(t: Upload, h: HashFunction, d: Files, k: nat)
    requires Offerable(t) && DiskOk(t, h, d) && NumChunks(|t.content|) > INDEX_LIMIT
    ensures var n := 2 * |Lacking(t, h, d)| + 1;
      var talk := Talk(t, h, Offered(t, h, d), k);
      if k <= n then AsksOnlyUnmarked(d, talk)
      else n <= |talk| && AsksOnlyUnmarked(d, talk[..n]) && AsksOnlyZero(talk[n..])
  {
    hide *;
    var c, n := Offered(t, h, d), 2 * |Lacking(t, h, d)| + 1;
    var d', m := LargeOpening(t, h, d);
    var opening := Talk(t, h, c, n);
    if k <= n {
      LaterAdds(t, h, c, k, n - k);
      assert Talk(t, h, c, k + (n - k)) == opening;
      PrefixAsks(d, Talk(t, h, c, k), Talk(t, h, Later(t, h, c, k), n - k));
    } else {
      LaterAdds(t, h, c, n, k - n);
      assert Talk(t, h, c, n + (k - n)) == Talk(t, h, c, k);
      StuckAsksZero(t, h, d', m, k - n);
      var talk, more := Talk(t, h, c, k), Talk(t, h, Later(t, h, c, n), k - n);
      assert talk == opening + more && talk[..n] == opening && talk[n..] == more;
    }
  }

  // ---------------------------------------------------------------- resuming

  /** The file opened from its path alone, by the header, is the file opened from the offer. */
  ghost predicate SameFromPath(t: Upload, h: HashFunction, d: Files)
    requires Offerable(t)
  {
    var header, d1 := ReadHeader(d.meta), Found(t, h, d);
    && header.chunkSize > 0
    && NumChunks(header.size) == NumChunks(|t.content|)
    && Open(d, header.size, header.hash) == d1
    && NextMissing(d1.meta, header.size, 0) == NextMissing(d1.meta, |t.content|, 0)
    && (IsComplete(h, d1, header.size, header.hash) <==> IsComplete(h, d1, |t.content|, h(t.content)))
  }

  lemma PathGivesSame(t: Upload, h: HashFunction, d: Files)
    requires Offerable(t) && DiskOk(t, h, d)
    ensures d.meta.Some? ==> SameFromPath(t, h, d)
  {
    HeaderOfUpload(t, h, d);
    hide ReadHeader, NextMissing;
  }

  /** What the first `k` messages of a new session may ask for. */
  ghost predicate AsksProperly(t: Upload, h: HashFunction, d: Files, k: nat)
    requires Offerable(t)
  {
    var talk, n := Talk(t, h, Offered(t, h, d), k), 2 * |Lacking(t, h, d)| + 1;
    if NumChunks(|t.content|) <= INDEX_LIMIT || k <= n then AsksOnlyUnmarked(d, talk)
    else n <= |talk| && AsksOnlyUnmarked(d, talk[..n]) && AsksOnlyZero(talk[n..])
  }

  lemma NewSessionAsks(t: Upload, h: HashFunction, d: Files, k: nat)
    requires Offerable(t) && DiskOk(t, h, d)
    ensures AsksProperly(t, h, d, k)
  {
    hide DiskOk, Talk, Offered, Lacking, AsksOnlyUnmarked, AsksOnlyZero;
    if NumChunks(|t.content|) <= INDEX_LIMIT {
      AsksForMissing(t, h, d, k);
    } else {
      LargeAsks(t, h, d, k);
    }
  }

  /**
    Whatever interrupted runs came before: a file opened from its path alone has the chunk count, the
    files, the next missing chunk and the completion verdict of the file opened from the offer. A new session
    of a file the protocol can carry asks for no chunk that is still marked and ends with the file
    received; one of a larger file asks for none until it begins to repeat chunk 0.
   */
  lemma ResumeIsFaithful(t: Upload, h: HashFunction, acts: seq<Action>, k: nat)
    requires Offerable(t) && Runs(t, h, INIT, acts)
    ensures var d := After(t, h, INIT, acts).disk;
      && (d.meta.Some? ==> SameFromPath(t, h, d))
      && AsksProperly(t, h, d, k)
      && (NumChunks(|t.content|) <= INDEX_LIMIT ==> Finishes(t, h, d))
  {
    RunsKeepInv(t, h, INIT, acts);
    var d := After(t, h, INIT, acts).disk;
    assert DiskOk(t, h, d);
    hide *;
    PathGivesSame(t, h, d);
    NewSessionAsks(t, h, d, k);
    SmallEnough(|t.content|);
    FinishesIff(t, h, d);
  }
}
