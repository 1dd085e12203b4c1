/**
  When do fault-free runs end, and how? From an offer on, a run that comes to an end has completed the upload,
  however many messages are alive. And all such runs come to an end exactly if there are at most two
  messages (and the indices fit 16 bits), or at most two chunks.
 */
module Endings {
  import opened Machine
  import opened Metadata
  import opened Storage
  import opened Worker
  import opened Transfer
  import opened Progress
  import opened Marks
  import opened Motion
  import opened Bounds
  import opened TwoMessages
  import opened Endless

  // ---------------------------------------------------------------- messages that cannot get lost on the server

  /** Only an offer can come before the metadata file. */
  predicate Follower(k: Token) {
    k.ToClient? || Carried(k).body.ChunkData?
  }

  predicate Begun(s: State) {
    forall id :: id in s.tokens && Follower(s.tokens[id]) ==> s.disk.meta.Some?
  }

  lemma LaterReplies(h: HashFunction, d: Files, w: Worker)
    requires Wf(w) && !w.Start? && (Rank(w) <= 8 ==> d.meta.Some?)
    ensures var r := Step(h, d, w);
      (d.meta.Some? ==> r.files.meta.Some?) && (r.Finish? ==> r.reply.Some? && r.files.meta.Some?)
  {
    hide Look, WriteAt, WithBit, Accepts;
  }

  lemma StepReplies(t: Upload, h: HashFunction, d: Files, w: Worker)
    requires Offerable(t) && DiskOk(t, h, d) && WorkerOk(t, h, d, w) && (w.m.body.ChunkData? ==> d.meta.Some?)
    ensures var r := Step(h, d, w);
      (d.meta.Some? ==> r.files.meta.Some?) && (r.Finish? ==> r.reply.Some? && r.files.meta.Some?)
  {
    if w.Start? {
      HeaderOfUpload(t, h, d);
      hide ReadHeader, Sound, MetaOk;
    } else {
      LaterReplies(h, d, w);
      hide Step, DiskOk, Sound;
    }
  }

  lemma WorkerStays(t: Upload, h: HashFunction, s: State, id: nat)
    requires Begun(s) && Enabled(t, s, Advance(id)) && s.tokens[id].Serving?
    requires var r := Step(h, s.disk, s.tokens[id].w);
      (s.disk.meta.Some? ==> r.files.meta.Some?) && (r.Finish? ==> r.reply.Some? && r.files.meta.Some?)
    ensures var s' := Moved(t, h, s, id);
      && id in s'.tokens && s'.offered == s.offered && s'.completed == s.completed && OthersStay(s, s', id)
      && (s.disk.meta.Some? ==> s'.disk.meta.Some?)
      && (Follower(s'.tokens[id]) ==> s'.disk.meta.Some?)
  {
    hide Step;
  }

  /** A worker replies, a queued message is taken: neither is ever the end of a message. */
  lemma StaysAlive(t: Upload, h: HashFunction, s: State, id: nat)
    requires Offerable(t) && Inv(t, h, s) && Begun(s) && Enabled(t, s, Advance(id)) && !s.tokens[id].ToClient?
    ensures var s' := Moved(t, h, s, id);
      && id in s'.tokens && s'.offered == s.offered && s'.completed == s.completed && OthersStay(s, s', id)
      && (s.disk.meta.Some? ==> s'.disk.meta.Some?)
      && (Follower(s'.tokens[id]) ==> s'.disk.meta.Some?)
  {
    assert TokenOk(t, h, s.disk, s.tokens[id]);
    if s.tokens[id].Serving? {
      StepReplies(t, h, s.disk, s.tokens[id].w);
      hide Moved, Step, Inv, TokenOk, OthersStay, WorkerOk, DiskOk;
      WorkerStays(t, h, s, id);
    } else {
      hide Step, Inv, TokenOk;
    }
  }

  lemma BegunAction(t: Upload, h: HashFunction, s: State, a: Action)
    requires Offerable(t) && Inv(t, h, s) && Begun(s) && Enabled(t, s, a)
    ensures Begun(Apply(t, h, s, a))
  {
    if a.Advance? {
      if s.tokens[a.id].ToClient? {
        assert TokenOk(t, h, s.disk, s.tokens[a.id]);
        ClientMoves(t, h, s, a.id);
      } else {
        StaysAlive(t, h, s, a.id);
      }
      hide Inv, Moved;
    }
  }

  lemma {:induction false} BegunRuns(t: Upload, h: HashFunction, s: State, acts: seq<Action>)
    requires Offerable(t) && Inv(t, h, s) && Begun(s) && Runs(t, h, s, acts)
    ensures Begun(After(t, h, s, acts))
    decreases |acts|
  {
    if acts != [] {
      BegunAction(t, h, s, acts[0]);
      ApplyKeepsInv(t, h, s, acts[0]);
      hide Apply, Enabled, Inv, Begun;
      BegunRuns(t, h, Apply(t, h, s, acts[0]), acts[1..]);
    }
  }

  // ---------------------------------------------------------------- a run that ends has completed the upload

  /**
    A search that can find nothing any more, and the request it leads to: the client has no such chunk, and
    the message ends there.
   */
  ghost predicate Hopeless(t: Upload, d: Files, k: Token) {
    match k
    case Serving(w) => w.Seeking? && FullFrom(t, d, w.j)
    case ToClient(m) => m.body.ChunkReq? && m.body.first >= NumChunks(|t.content|)
    case ToServer(_) => false
  }

  /** Completed, or some message can still complete the upload. */
  ghost predicate Hopeful(t: Upload, s: State) {
    s.completed || (s.offered && exists id :: id in s.tokens && !Hopeless(t, s.disk, s.tokens[id]))
  }

  lemma HopefulToken(t: Upload, s: State, id: nat)
    requires s.offered && id in s.tokens && !Hopeless(t, s.disk, s.tokens[id])
    ensures Hopeful(t, s)
  {
  }

  lemma HopeStays(t: Upload, d: Files, d': Files, k: Token)
    requires SameCells(d, d') && !Hopeless(t, d, k)
    ensures !Hopeless(t, d', k)
  {
    hide FullFrom;
    if k.Serving? && k.w.Seeking? {
      SameFull(t, d, d', k.w.j);
    }
  }

  /** Neither does its own step take the hope from a message. */
  lemma OwnHope(t: Upload, d: Files, k: Token, d': Files, k': Token)
    requires Goes(t, d, k, d', Some(k')) && Searches(t, d, k, Some(k')) && (AimOf(t, k).Stamping? || !Hopeless(t, d, k))
    ensures !Hopeless(t, d', k')
  {
    hide FullFrom, Has, FirstMissing, Ahead;
    if !AimOf(t, k).Stamping? && k'.Serving? && k'.w.Seeking? {
      SameFull(t, d, d', k'.w.j);
    }
  }

  lemma HopePasses(t: Upload, s: State, s': State, id: nat)
    requires id in s.tokens && OthersStay(s, s', id) && Hopeful(t, s)
    requires Goes(t, s.disk, s.tokens[id], s'.disk, At(s', id)) && Searches(t, s.disk, s.tokens[id], At(s', id))
    requires (s.completed ==> s'.completed) && (s.offered ==> s'.offered || s'.completed)
    requires id !in s'.tokens && s.offered && !s'.completed ==> Hopeless(t, s.disk, s.tokens[id])
    ensures Hopeful(t, s')
  {
    if !s'.completed {
      var good :| good in s.tokens && !Hopeless(t, s.disk, s.tokens[good]);
      var stamps := AimOf(t, s.tokens[id]).Stamping?;
      assert stamps ==> id in s'.tokens;
      assert !stamps ==> SameCells(s.disk, s'.disk);
      hide Goes, Searches, Hopeless, AimOf, SameCells, Hopeful;
      if stamps || good == id {
        OwnHope(t, s.disk, s.tokens[id], s'.disk, s'.tokens[id]);
        HopefulToken(t, s', id);
      } else {
        HopeStays(t, s.disk, s'.disk, s.tokens[good]);
        HopefulToken(t, s', good);
      }
    }
  }

  /** The client lets go of a message only if the upload is complete or the message was hopeless. */
  lemma ClientLetsGo(t: Upload, h: HashFunction, s: State, id: nat)
    requires Offerable(t) && Enabled(t, s, Advance(id)) && s.tokens[id].ToClient? && FromServer(t, s.disk, s.tokens[id].m)
    ensures var s' := Moved(t, h, s, id);
      && (s.completed ==> s'.completed) && (s.offered ==> s'.offered || s'.completed)
      && (id !in s'.tokens && s.offered && !s'.completed ==> Hopeless(t, s.disk, s.tokens[id]))
  {
    ClientMoves(t, h, s, id);
    hide Moved, Done, FullFrom;
  }

  lemma HopeKept(t: Upload, h: HashFunction, s: State, id: nat)
    requires Offerable(t) && Inv(t, h, s) && Begun(s) && NumChunks(|t.content|) <= INDEX_LIMIT
    requires Enabled(t, s, Advance(id)) && Hopeful(t, s)
    ensures Hopeful(t, Moved(t, h, s, id))
  {
    assert TokenOk(t, h, s.disk, s.tokens[id]);
    hide Inv, Moved, Begun, Goes, Searches, Hopeless, Hopeful, OthersStay;
    EveryAdvance(t, h, s, id);
    if s.tokens[id].ToClient? {
      ClientLetsGo(t, h, s, id);
    } else {
      StaysAlive(t, h, s, id);
    }
    HopePasses(t, s, Moved(t, h, s, id), id);
  }

  lemma {:induction false} HopeRuns(t: Upload, h: HashFunction, s: State, acts: seq<Action>)
    requires Offerable(t) && Inv(t, h, s) && Begun(s) && NumChunks(|t.content|) <= INDEX_LIMIT
    requires FaultFree(acts) && Runs(t, h, s, acts) && Hopeful(t, s)
    ensures Hopeful(t, After(t, h, s, acts))
    decreases |acts|
  {
    if acts != [] {
      HopeKept(t, h, s, acts[0].id);
      BegunAction(t, h, s, acts[0]);
      ApplyKeepsInv(t, h, s, acts[0]);
      assert FaultFree(acts[1..]);
      assert Apply(t, h, s, acts[0]) == Moved(t, h, s, acts[0].id);
      hide Moved, Enabled, Inv, Begun, Hopeful, Apply;
      HopeRuns(t, h, Apply(t, h, s, acts[0]), acts[1..]);
    }
  }

  // ---------------------------------------------------------------- files with too many chunks

  /** A message of a file with more than 65536 chunks is never at its end. */
  lemma LargeLives(t: Upload, h: HashFunction, s: State, id: nat)
    requires Offerable(t) && Inv(t, h, s) && Begun(s) && NumChunks(|t.content|) > INDEX_LIMIT && s.offered && id in s.tokens
    ensures Enabled(t, s, Advance(id)) && id in Moved(t, h, s, id).tokens && Moved(t, h, s, id).offered
  {
    AlwaysEnabled(t, h, s);
    assert TokenOk(t, h, s.disk, s.tokens[id]);
    if s.tokens[id].ToClient? {
      ClientMoves(t, h, s, id);
    } else {
      StaysAlive(t, h, s, id);
    }
    hide Inv, Moved, Begun;
  }

  lemma {:induction false} LargeLivesOn(t: Upload, h: HashFunction, s: State, id: nat, acts: seq<Action>)
    requires Offerable(t) && Inv(t, h, s) && Begun(s) && NumChunks(|t.content|) > INDEX_LIMIT && s.offered && id in s.tokens
    requires FaultFree(acts) && Runs(t, h, s, acts)
    ensures id in After(t, h, s, acts).tokens && After(t, h, s, acts).offered
    decreases |acts|
  {
    if acts != [] {
      var a := acts[0];
      LargeLives(t, h, s, a.id);
      LargeLives(t, h, s, id);
      assert TokenOk(t, h, s.disk, s.tokens[a.id]);
      if s.tokens[a.id].ToClient? {
        ClientMoves(t, h, s, a.id);
      } else {
        StaysAlive(t, h, s, a.id);
      }
      BegunAction(t, h, s, a);
      ApplyKeepsInv(t, h, s, a);
      assert FaultFree(acts[1..]);
      assert Apply(t, h, s, a) == Moved(t, h, s, a.id);
      hide Moved, Enabled, Inv, Begun, Apply, TokenOk;
      LargeLivesOn(t, h, Apply(t, h, s, a), id, acts[1..]);
    }
  }

  /**
    An offer in any reachable state, any number of other messages alive, no fault from then on: if the run comes to an
    end, that is if no message is left, the client has been told and the files are equal.
   */
  lemma EndsCompleted(t: Upload, h: HashFunction, before: seq<Action>, s: State, id: nat, acts: seq<Action>)
    requires Offerable(t) && Follows(t, h, INIT, before, s) && id !in s.tokens
    requires FaultFree(acts) && Runs(t, h, Apply(t, h, s, OfferFile(id)), acts)
    ensures var s' := After(t, h, Apply(t, h, s, OfferFile(id)), acts);
      s'.tokens == map[] ==> s'.completed && Received(t, s'.disk)
  {
    var s1 := Apply(t, h, s, OfferFile(id));
    RunsKeepInv(t, h, INIT, before);
    BegunRuns(t, h, INIT, before);
    ApplyKeepsInv(t, h, s, OfferFile(id));
    BegunAction(t, h, s, OfferFile(id));
    assert s1.offered && id in s1.tokens && !Hopeless(t, s1.disk, s1.tokens[id]);
    HopefulToken(t, s1, id);
    hide Apply, Enabled, Begun, Hopeless, DiskOk, TokenOk;
    RunsKeepInv(t, h, s1, acts);
    if NumChunks(|t.content|) <= INDEX_LIMIT {
      HopeRuns(t, h, s1, acts);
    } else {
      LargeLivesOn(t, h, s1, id, acts);
    }
  }

  lemma {:induction false} LargeRun(t: Upload, h: HashFunction, s: State, id: nat, len: nat) returns (acts: seq<Action>)
    requires Offerable(t) && Inv(t, h, s) && Begun(s) && NumChunks(|t.content|) > INDEX_LIMIT && s.offered && id in s.tokens
    ensures Undisturbed(acts, id) && |acts| == len && Runs(t, h, s, acts)
    decreases len
  {
    if len == 0 {
      acts := [];
    } else {
      LargeLives(t, h, s, id);
      BegunAction(t, h, s, Advance(id));
      ApplyKeepsInv(t, h, s, Advance(id));
      assert Apply(t, h, s, Advance(id)) == Moved(t, h, s, id);
      hide Moved, Enabled, Inv, Begun, Apply;
      var rest := LargeRun(t, h, Moved(t, h, s, id), id, len - 1);
      acts := [Advance(id)] + rest;
      assert acts[1..] == rest;
    }
  }

  lemma LargeIsUnbounded(t: Upload, h: HashFunction, s: State, id: nat)
    requires Offerable(t) && Inv(t, h, s) && Begun(s) && NumChunks(|t.content|) > INDEX_LIMIT && s.offered && id in s.tokens
    ensures !Bounded(t, h, s)
  {
    hide Inv, Begun;
    forall n: nat
      ensures !EndsWithin(t, h, s, n)
    {
      var acts := LargeRun(t, h, s, id, n + 1);
      assert FaultFree(acts) && Runs(t, h, s, acts);
    }
  }

  // ---------------------------------------------------------------- when all fault-free runs end

  /** With `k` live messages, fault-free runs are bounded in every reachable state. */
  ghost predicate AlwaysEnds(t: Upload, h: HashFunction, k: nat) {
    forall before, s :: Follows(t, h, INIT, before, s) && |s.tokens| == k ==> Bounded(t, h, s)
  }

  lemma NewToken(s: State, id: nat, x: Token)
    requires id !in s.tokens
    ensures |s.tokens[id := x]| == |s.tokens| + 1
  {
    assert s.tokens[id := x].Keys == s.tokens.Keys + {id};
    assert |s.tokens[id := x]| == |s.tokens[id := x].Keys| && |s.tokens| == |s.tokens.Keys|;
  }

  /** Further offers, never taken, up to `k` live messages. */
  lemma {:induction false} MoreOffers(t: Upload, h: HashFunction, a: seq<Action>, n: nat, s: State, k: nat)
      returns (a': seq<Action>, n': nat, s': State)
    requires Offerable(t) && Reaches(t, h, a, n, s) && |s.tokens| <= k
    ensures Reaches(t, h, a', n', s') && |s'.tokens| == k && s'.disk == s.disk && s'.completed == s.completed
    ensures s'.offered == (s.offered || |s.tokens| < k)
    ensures forall i :: i in s.tokens ==> i in s'.tokens && s'.tokens[i] == s.tokens[i]
    decreases k - |s.tokens|
  {
    hide Reaches, Offerable;
    a', n', s' := a, n, s;
    if |s.tokens| < k {
      var id := Above(s.tokens.Keys);
      a', s' := MakeOffer(t, h, a, n, s, id);
      NewToken(s, id, s'.tokens[id]);
      a', n', s' := MoreOffers(t, h, a', n + 1, s', k);
    }
  }

  lemma TwoIds(ids: set<nat>) returns (x: nat, y: nat)
    requires |ids| <= 2
    ensures x != y && ids <= {x, y}
  {
    if ids == {} {
      x, y := 0, 1;
    } else {
      x :| x in ids;
      var rest := ids - {x};
      if rest == {} {
        y := x + 1;
      } else {
        y :| y in rest;
        assert |rest - {y}| == 0;
        assert rest == {y};
      }
      assert ids == {x} + rest;
    }
  }

  lemma EndsIfFew(t: Upload, h: HashFunction, before: seq<Action>, s: State)
    requires Offerable(t) && Follows(t, h, INIT, before, s)
    requires s.tokens == map[] || NumChunks(|t.content|) <= 2 || (|s.tokens| <= 2 && NumChunks(|t.content|) <= INDEX_LIMIT)
    ensures Bounded(t, h, s)
  {
    assert Inv(t, h, INIT) && Orderly(t, INIT);
    hide Inv, Orderly, Apply, Enabled, Bounded;
    RunsKeepInv(t, h, INIT, before);
    if s.tokens == map[] {
      BoundedNext(t, h, s);
    } else if NumChunks(|t.content|) <= 2 {
      OrderlyRuns(t, h, INIT, before);
      var n := Above(s.tokens.Keys);
      FewChunksEnd(t, h, s, n);
    } else {
      assert |s.tokens.Keys| == |s.tokens|;
      var x, y := TwoIds(s.tokens.Keys);
      TwoMessagesEnd(t, h, s, x, y, x + y + 1);
    }
  }

  lemma NotAlways(t: Upload, h: HashFunction, k: nat) returns (before: seq<Action>, s: State)
    requires Offerable(t) && k > 0 && NumChunks(|t.content|) >= 3 && (k >= 3 || NumChunks(|t.content|) > INDEX_LIMIT)
    ensures Follows(t, h, INIT, before, s) && |s.tokens| == k && !Bounded(t, h, s)
  {
    var n;
    if NumChunks(|t.content|) > INDEX_LIMIT {
      InitReached(t, h);
      before, n, s := MoreOffers(t, h, [], 0, INIT, k);
      BegunRuns(t, h, INIT, before);
      assert |s.tokens.Keys| == k;
      var id :| id in s.tokens;
      hide Bounded;
      LargeIsUnbounded(t, h, s, id);
    } else {
      var s0;
      before, s0 := GetSpinning(t, h);
      assert |s0.tokens| == |s0.tokens.Keys| == 3;
      before, n, s := MoreOffers(t, h, before, 3, s0, k);
      hide Bounded, Inv, DiskOk, AimOf, Bit;
      SpinningIsUnbounded(t, h, s);
    }
  }

  /**
    Do fault-free runs with `k` live messages always come to an end? Exactly if there are none, or at most two
    chunks, or at most two messages and at most 65536 chunks.
   */
  lemma AlwaysEndsIff(t: Upload, h: HashFunction, k: nat)
    requires Offerable(t)
    ensures AlwaysEnds(t, h, k) <==> k == 0 || NumChunks(|t.content|) <= 2 || (k <= 2 && NumChunks(|t.content|) <= INDEX_LIMIT)
  {
    hide Bounded, Follows;
    if k == 0 || NumChunks(|t.content|) <= 2 || (k <= 2 && NumChunks(|t.content|) <= INDEX_LIMIT) {
      forall before, s | Follows(t, h, INIT, before, s) && |s.tokens| == k
        ensures Bounded(t, h, s)
      {
        EndsIfFew(t, h, before, s);
      }
    } else {
      var before, s := NotAlways(t, h, k);
    }
  }
}
