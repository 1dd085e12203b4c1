/**
  Sessions inside the full transition system: the fault-free runs of an offer are exactly the session
  of its module, and whatever has happened before, an upload the protocol can carry can still be
  brought to completion.
 */
module Progress {
  import opened Machine
  import opened Codec
  import opened Metadata
  import opened Storage
  import opened Handlers
  import opened Worker
  import opened Transfer
  import opened Session

  // ---------------------------------------------------------------- runs of one message

  /** Only the message `id` moves: no stop, no loss, nobody else. */
  predicate Undisturbed(acts: seq<Action>, id: nat) {
    forall i :: 0 <= i < |acts| ==> acts[i] == Advance(id)
  }

  /** The message on one of the streams, if that is where the token is. */
  function Voice(s: State, id: nat): seq<Message> {
    if id in s.tokens && !s.tokens[id].Serving? then [Carried(s.tokens[id])] else []
  }

  /** The messages on the streams in the states that the actions start from. */
  function Heard(t: Upload, h: HashFunction, s: State, id: nat, acts: seq<Action>): seq<Message>
    requires Runs(t, h, s, acts)
    decreases |acts|
  {
    if acts == [] then [] else Voice(s, id) + Heard(t, h, Apply(t, h, s, acts[0]), id, acts[1..])
  }

  lemma {:induction false} HeardConcat(t: Upload, h: HashFunction, s: State, id: nat, a: seq<Action>, b: seq<Action>)
    requires Runs(t, h, s, a) && Runs(t, h, After(t, h, s, a), b)
    ensures Runs(t, h, s, a + b)
    ensures Heard(t, h, s, id, a + b) == Heard(t, h, s, id, a) + Heard(t, h, After(t, h, s, a), id, b)
    decreases |a|
  {
    hide Voice, Apply, Enabled;
    RunsAppend(t, h, s, a, b);
    if a == [] {
      assert a + b == b;
    } else {
      assert (a + b)[0] == a[0] && (a + b)[1..] == a[1..] + b;
      HeardConcat(t, h, Apply(t, h, s, a[0]), id, a[1..], b);
    }
  }

  lemma HeardOne(t: Upload, h: HashFunction, s: State, id: nat)
    requires Enabled(t, s, Advance(id))
    ensures Runs(t, h, s, [Advance(id)]) && Heard(t, h, s, id, [Advance(id)]) == Voice(s, id)
  {
    hide Voice, Apply;
    One(t, h, s, Advance(id));
    var s' := Apply(t, h, s, Advance(id));
    assert [Advance(id)][1..] == [];
    assert Heard(t, h, s', id, []) == [];
  }

  /** The state after a worker has run to its end. */
  function Replied(s: State, id: nat, r: ServerResult): State {
    s.(disk := r.files,
       tokens := if r.reply.Some? then s.tokens[id := ToClient(r.reply.value)] else s.tokens - {id})
  }

  lemma Overwrite(s: State, s1: State, id: nat, d: Files, w: Worker, r: ServerResult)
    requires s1 == s.(disk := d, tokens := s.tokens[id := Serving(w)])
    ensures Replied(s1, id, r) == Replied(s, id, r)
  {
    assert s.tokens[id := Serving(w)] - {id} == s.tokens - {id};
  }

  /** A run of the message `id` alone from `s` to `s'`, on which `talk` is heard. */
  ghost predicate Leads(t: Upload, h: HashFunction, s: State, id: nat, acts: seq<Action>, s': State, talk: seq<Message>) {
    Undisturbed(acts, id) && Follows(t, h, s, acts, s') && Heard(t, h, s, id, acts) == talk
  }

  lemma LeadsOne(t: Upload, h: HashFunction, s: State, id: nat)
    requires Enabled(t, s, Advance(id))
    ensures Leads(t, h, s, id, [Advance(id)], Moved(t, h, s, id), Voice(s, id))
  {
    One(t, h, s, Advance(id));
    HeardOne(t, h, s, id);
  }

  lemma LeadsOn(t: Upload, h: HashFunction, s: State, id: nat, a: seq<Action>, s1: State, x: seq<Message>,
                b: seq<Action>, s2: State, y: seq<Message>)
    requires Leads(t, h, s, id, a, s1, x) && Leads(t, h, s1, id, b, s2, y)
    ensures Leads(t, h, s, id, a + b, s2, x + y)
  {
    RunsAppend(t, h, s, a, b);
    HeardConcat(t, h, s, id, a, b);
  }

  /** Scheduling one worker until it replies; no message is on the streams meanwhile. */
  lemma {:induction false} Serve(t: Upload, h: HashFunction, s: State, id: nat) returns (acts: seq<Action>)
    requires id in s.tokens && s.tokens[id].Serving? && Wf(s.tokens[id].w)
    ensures Leads(t, h, s, id, acts, Replied(s, id, RunAlone(h, s.disk, s.tokens[id].w)), [])
    decreases Rank(s.tokens[id].w), Remaining(s.disk, s.tokens[id].w)
  {
    var w := s.tokens[id].w;
    StepDecreases(h, s.disk, w);
    LeadsOne(t, h, s, id);
    var s1 := Moved(t, h, s, id);
    assert Voice(s, id) == [];
    hide Step, Rank, Remaining, Leads;
    match Step(h, s.disk, w)
    case Finish(_, _) => acts := [Advance(id)];
    case Continue(d', w') =>
      var rest := Serve(t, h, s1, id);
      var end := Replied(s1, id, RunAlone(h, d', w'));
      LeadsOn(t, h, s, id, [Advance(id)], s1, [], rest, end, []);
      acts := [Advance(id)] + rest;
      Overwrite(s, s1, id, d', w', RunAlone(h, d', w'));
  }

  /** A queued message is taken by a worker and handled. */
  lemma TakeAndServe(t: Upload, h: HashFunction, s: State, id: nat) returns (acts: seq<Action>)
    requires id in s.tokens && s.tokens[id].ToServer?
    ensures Leads(t, h, s, id, acts, Replied(s, id, ServerHandle(h, s.disk, s.tokens[id].m)), [s.tokens[id].m]) && acts != []
  {
    var m := s.tokens[id].m;
    LeadsOne(t, h, s, id);
    var s1 := Moved(t, h, s, id);
    assert s1 == s.(tokens := s.tokens[id := Serving(Start(m))]);
    hide ServerHandle, RunAlone, Moved, Leads;
    var rest := Serve(t, h, s1, id);
    RunsToHandler(h, s.disk, m);
    var r := ServerHandle(h, s.disk, m);
    Overwrite(s, s1, id, s.disk, Start(m), r);
    LeadsOn(t, h, s, id, [Advance(id)], s1, [m], rest, Replied(s1, id, r), []);
    assert [m] + [] == [m];
    acts := [Advance(id)] + rest;
  }

  // ---------------------------------------------------------------- the session inside the system

  /** The session's one message is the token `id`. */
  predicate Matches(s: State, c: Config, id: nat) {
    && s.disk == c.disk && s.offered == c.offered
    && match c.wire
       case Quiet => id !in s.tokens
       case Up(m) => id in s.tokens && s.tokens[id] == ToServer(m)
       case Down(m) => id in s.tokens && s.tokens[id] == ToClient(m)
  }

  /** Offered still, or taken off the list by a completion message. */
  predicate Accounted(s: State) {
    s.offered || s.completed
  }

  function WireTalk(c: Config): seq<Message> {
    if c.wire.Quiet? then [] else [c.wire.m]
  }

  lemma UpMatches(t: Upload, h: HashFunction, s: State, c: Config, id: nat)
    requires Matches(s, c, id) && c.wire.Up? && Accounted(s)
    ensures var s' := Replied(s, id, ServerHandle(h, s.disk, c.wire.m)); Matches(s', Next(t, h, c), id) && Accounted(s')
  {
    hide ServerHandle;
  }

  lemma SessionStep(t: Upload, h: HashFunction, s: State, c: Config, id: nat) returns (acts: seq<Action>, s': State)
    requires Matches(s, c, id) && Accounted(s)
    ensures Leads(t, h, s, id, acts, s', WireTalk(c)) && Matches(s', Next(t, h, c), id) && Accounted(s')
    ensures !c.wire.Quiet? ==> acts != []
  {
    match c.wire {
      case Quiet => acts, s' := [], s;
      case Down(m) =>
        acts, s' := [Advance(id)], Moved(t, h, s, id);
        LeadsOne(t, h, s, id);
        hide ClientHandle, Leads;
      case Up(m) =>
        UpMatches(t, h, s, c, id);
        acts := TakeAndServe(t, h, s, id);
        s' := Replied(s, id, ServerHandle(h, s.disk, m));
    }
  }

  lemma {:induction false} SessionRuns(t: Upload, h: HashFunction, s: State, c: Config, id: nat, k: nat)
      returns (acts: seq<Action>, s': State)
    requires Matches(s, c, id) && Accounted(s)
    ensures Leads(t, h, s, id, acts, s', Talk(t, h, c, k)) && Matches(s', Later(t, h, c, k), id) && Accounted(s')
    ensures !Later(t, h, c, k).wire.Quiet? ==> |acts| >= k
    decreases k
  {
    if k == 0 {
      acts, s' := [], s;
    } else {
      hide Next, Matches, Leads;
      if c.wire.Quiet? {
        StaysQuiet(t, h, c, k);
      }
      var first, s1 := SessionStep(t, h, s, c, id);
      var rest;
      rest, s' := SessionRuns(t, h, s1, Next(t, h, c), id, k - 1);
      LeadsOn(t, h, s, id, first, s1, WireTalk(c), rest, s', Talk(t, h, Next(t, h, c), k - 1));
      acts := first + rest;
    }
  }

  /**
    An offer made in any reachable state, undisturbed from then on: the messages heard are those of the
    exact session, and the run ends with the client told and the files equal.
   */
  lemma OfferRuns(t: Upload, h: HashFunction, s: State, id: nat) returns (full: seq<Action>, end: State)
    requires Offerable(t) && Inv(t, h, s) && NumChunks(|t.content|) <= INDEX_LIMIT && id !in s.tokens
    ensures var s1 := Apply(t, h, s, OfferFile(id));
      && Leads(t, h, s1, id, full, end, Talk(t, h, Offered(t, h, s.disk), 2 * |Lacking(t, h, s.disk)| + 2))
      && id !in end.tokens && end.completed && Received(t, end.disk)
  {
    hide Next, DiskOk, TokenOk;
    var s1 := Apply(t, h, s, OfferFile(id));
    var c := Offered(t, h, s.disk);
    assert Matches(s1, c, id) && Accounted(s1);
    var k := 2 * |Lacking(t, h, s.disk)| + 2;
    ExactSession(t, h, s.disk);
    hide Apply, Offered, Inv, Rounds, Leads, Talk;
    full, end := SessionRuns(t, h, s1, c, id, k);
  }

  lemma {:induction false} SameActions(t: Upload, h: HashFunction, s: State, id: nat, full: seq<Action>, acts: seq<Action>)
    requires Undisturbed(full, id) && Undisturbed(acts, id) && Runs(t, h, s, full) && Runs(t, h, s, acts)
    requires id !in After(t, h, s, full).tokens
    ensures acts <= full
    decreases |full|
  {
    hide Apply;
    if acts != [] && full != [] {
      assert acts[0] == full[0];
      SameActions(t, h, Apply(t, h, s, full[0]), id, full[1..], acts[1..]);
      assert acts == [acts[0]] + acts[1..] && full == [full[0]] + full[1..];
    }
  }

  lemma NoLonger(t: Upload, h: HashFunction, s: State, id: nat, full: seq<Action>, end: State, talk: seq<Message>)
    requires Leads(t, h, s, id, full, end, talk) && id !in end.tokens
    ensures forall acts :: Undisturbed(acts, id) && Runs(t, h, s, acts) ==> |acts| <= |full|
  {
    hide Apply, Enabled;
    forall acts | Undisturbed(acts, id) && Runs(t, h, s, acts)
      ensures |acts| <= |full|
    {
      SameActions(t, h, s, id, full, acts);
    }
  }

  /** From `s` on, the fault-free run `acts` has said part of `talk`; all of it, and completed, if it cannot go on. */
  ghost predicate Says(t: Upload, h: HashFunction, s: State, id: nat, acts: seq<Action>, talk: seq<Message>)
    requires Runs(t, h, s, acts)
  {
    var s' := After(t, h, s, acts);
    && Heard(t, h, s, id, acts) <= talk
    && (!Enabled(t, s', Advance(id)) ==> Heard(t, h, s, id, acts) == talk && s'.completed && Received(t, s'.disk))
  }

  lemma PartOfFull(t: Upload, h: HashFunction, s: State, id: nat, full: seq<Action>, end: State, talk: seq<Message>, acts: seq<Action>)
    requires Leads(t, h, s, id, full, end, talk) && id !in end.tokens && Undisturbed(acts, id) && Runs(t, h, s, acts)
    requires end.completed && Received(t, end.disk)
    ensures Says(t, h, s, id, acts, talk)
  {
    hide Apply, Enabled, Voice, Received;
    SameActions(t, h, s, id, full, acts);
    var rest := full[|acts|..];
    assert full == acts + rest;
    RunsConcat(t, h, s, acts, rest);
    HeardConcat(t, h, s, id, acts, rest);
    if rest != [] {
      assert rest[0] == full[|acts|] == Advance(id);
      assert Enabled(t, After(t, h, s, acts), rest[0]);
    } else {
      assert full == acts;
    }
  }

  lemma FaultFreeFrom(t: Upload, h: HashFunction, s: State, id: nat, acts: seq<Action>)
    requires Offerable(t) && Inv(t, h, s) && NumChunks(|t.content|) <= INDEX_LIMIT && id !in s.tokens
    requires Undisturbed(acts, id) && Runs(t, h, Apply(t, h, s, OfferFile(id)), acts)
    ensures var talk := Talk(t, h, Offered(t, h, s.disk), 2 * |Lacking(t, h, s.disk)| + 2);
      Says(t, h, Apply(t, h, s, OfferFile(id)), id, acts, talk)
  {
    assert Enabled(t, s, OfferFile(id));
    hide *;
    var full, end := OfferRuns(t, h, s, id);
    var talk := Talk(t, h, Offered(t, h, s.disk), 2 * |Lacking(t, h, s.disk)| + 2);
    PartOfFull(t, h, Apply(t, h, s, OfferFile(id)), id, full, end, talk, acts);
  }

  /**
    So in every reachable state every fault-free run of an offer is a part of that one session, and one
    that cannot be continued is all of it: it has said exactly its messages and has completed the upload.
   */
  lemma FaultFreeRunIsTheSession(t: Upload, h: HashFunction, before: seq<Action>, s: State, id: nat, acts: seq<Action>)
    requires Offerable(t) && Follows(t, h, INIT, before, s) && NumChunks(|t.content|) <= INDEX_LIMIT && id !in s.tokens
    requires Undisturbed(acts, id) && Runs(t, h, Apply(t, h, s, OfferFile(id)), acts)
    ensures var talk := Talk(t, h, Offered(t, h, s.disk), 2 * |Lacking(t, h, s.disk)| + 2);
      Says(t, h, Apply(t, h, s, OfferFile(id)), id, acts, talk)
  {
    assert Inv(t, h, s) by {
      RunsKeepInv(t, h, INIT, before);
    }
    hide *;
    FaultFreeFrom(t, h, s, id, acts);
  }

  /** Nor does any of them go on for ever. */
  lemma FaultFreeRunsEnd(t: Upload, h: HashFunction, before: seq<Action>, s: State, id: nat) returns (n: nat)
    requires Offerable(t) && Follows(t, h, INIT, before, s) && NumChunks(|t.content|) <= INDEX_LIMIT && id !in s.tokens
    ensures forall acts :: Undisturbed(acts, id) && Runs(t, h, Apply(t, h, s, OfferFile(id)), acts) ==> |acts| <= n
  {
    assert Inv(t, h, s) by {
      RunsKeepInv(t, h, INIT, before);
    }
    assert Enabled(t, s, OfferFile(id));
    hide *;
    var full, end := OfferRuns(t, h, s, id);
    n := |full|;
    NoLonger(t, h, Apply(t, h, s, OfferFile(id)), id, full, end,
             Talk(t, h, Offered(t, h, s.disk), 2 * |Lacking(t, h, s.disk)| + 2));
  }

  lemma PartOfLonger(t: Upload, h: HashFunction, s: State, id: nat, full: seq<Action>, end: State, talk: seq<Message>, acts: seq<Action>)
    requires Leads(t, h, s, id, full, end, talk) && Undisturbed(acts, id) && Runs(t, h, s, acts) && |acts| < |full|
    ensures Heard(t, h, s, id, acts) <= talk && Enabled(t, After(t, h, s, acts), Advance(id))
  {
    hide Apply, Enabled, Voice;
    var rest := full[|acts|..];
    assert full == acts + rest;
    RunsConcat(t, h, s, acts, rest);
    HeardConcat(t, h, s, id, acts, rest);
    assert rest[0] == full[|acts|] == Advance(id);
  }

  lemma LargeOfferRuns(t: Upload, h: HashFunction, s: State, id: nat, k: nat) returns (full: seq<Action>, end: State)
    requires Offerable(t) && Inv(t, h, s) && NumChunks(|t.content|) > INDEX_LIMIT && id !in s.tokens
    ensures |full| >= k && Leads(t, h, Apply(t, h, s, OfferFile(id)), id, full, end, Talk(t, h, Offered(t, h, s.disk), k))
  {
    var s1, c := Apply(t, h, s, OfferFile(id)), Offered(t, h, s.disk);
    assert Matches(s1, c, id) && Accounted(s1) && DiskOk(t, h, s.disk);
    hide *;
    NeverQuiet(t, h, s.disk, k);
    full, end := SessionRuns(t, h, s1, c, id, k);
  }

  /** A larger file: every such run says a part of its session too, and can always go on. */
  lemma LargeRunIsTheSession(t: Upload, h: HashFunction, before: seq<Action>, s: State, id: nat, acts: seq<Action>)
    requires Offerable(t) && Follows(t, h, INIT, before, s) && NumChunks(|t.content|) > INDEX_LIMIT && id !in s.tokens
    requires Undisturbed(acts, id) && Runs(t, h, Apply(t, h, s, OfferFile(id)), acts)
    ensures Heard(t, h, Apply(t, h, s, OfferFile(id)), id, acts) <= Talk(t, h, Offered(t, h, s.disk), |acts| + 1)
    ensures Enabled(t, After(t, h, Apply(t, h, s, OfferFile(id)), acts), Advance(id))
  {
    assert Inv(t, h, s) by {
      RunsKeepInv(t, h, INIT, before);
    }
    assert Enabled(t, s, OfferFile(id));
    hide *;
    var full, end := LargeOfferRuns(t, h, s, id, |acts| + 1);
    PartOfLonger(t, h, Apply(t, h, s, OfferFile(id)), id, full, end, Talk(t, h, Offered(t, h, s.disk), |acts| + 1), acts);
  }

  // ---------------------------------------------------------------- completion is always possible

  lemma {:induction false} Above(s: set<nat>) returns (id: nat)
    ensures forall i :: i in s ==> i < id
    decreases |s|
  {
    if s == {} {
      id := 0;
    } else {
      var i :| i in s;
      var rest := Above(s - {i});
      id := Max(rest, i + 1);
      assert forall j :: j in s ==> j == i || j in s - {i};
    }
  }

  /**
    From every reachable state, whatever stops, losses and half-done work it contains, some
    continuation ends with the client told and the server's file equal to the client's.
   */
  lemma CanAlwaysComplete(t: Upload, h: HashFunction, acts: seq<Action>) returns (more: seq<Action>)
    requires Offerable(t) && Runs(t, h, INIT, acts) && NumChunks(|t.content|) <= INDEX_LIMIT
    ensures Runs(t, h, INIT, acts + more)
    ensures After(t, h, INIT, acts + more).completed && Received(t, After(t, h, INIT, acts + more).disk)
  {
    RunsKeepInv(t, h, INIT, acts);
    var s := After(t, h, INIT, acts);
    var id := Above(s.tokens.Keys);
    assert id !in s.tokens;
    One(t, h, s, OfferFile(id));
    var full, end := OfferRuns(t, h, s, id);
    hide Apply, Inv, Talk;
    more := [OfferFile(id)] + full;
    RunsAppend(t, h, s, [OfferFile(id)], full);
    RunsAppend(t, h, INIT, acts, more);
  }

  /** Some run completes the upload. */
  ghost predicate Completable(t: Upload, h: HashFunction) {
    exists acts :: Runs(t, h, INIT, acts) && After(t, h, INIT, acts).completed
  }

  /** An upload can be completed at all exactly when it has at most 65536 chunks. */
  lemma CompletableIff(t: Upload, h: HashFunction)
    requires Offerable(t)
    ensures Completable(t, h) <==> NumChunks(|t.content|) <= INDEX_LIMIT
  {
    if NumChunks(|t.content|) <= INDEX_LIMIT {
      var more := CanAlwaysComplete(t, h, []);
      assert Runs(t, h, INIT, [] + more);
    } else {
      forall acts | Runs(t, h, INIT, acts)
        ensures !After(t, h, INIT, acts).completed
      {
        LargeFileNeverCompletes(t, h, acts);
      }
    }
  }
}
