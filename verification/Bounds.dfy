/**
  Fault-free runs: nothing stops, nothing is lost, nobody offers again. Do they end? With at most two
  chunks they do, however many messages are alive.
 */
module Bounds {
  import opened Machine
  import opened Sums
  import opened Metadata
  import opened Storage
  import opened Handlers
  import opened Transfer
  import opened Motion

  ghost predicate EndsWithin(t: Upload, h: HashFunction, s: State, n: nat) {
    forall acts :: FaultFree(acts) && Runs(t, h, s, acts) ==> |acts| <= n
  }

  /** There is a length that no fault-free run exceeds. */
  ghost predicate Bounded(t: Upload, h: HashFunction, s: State) {
    exists n: nat :: EndsWithin(t, h, s, n)
  }

  // ---------------------------------------------------------------- bounds from step to step

  lemma {:induction false} CommonBound(t: Upload, h: HashFunction, s: State, ids: set<nat>) returns (n: nat)
    requires forall id :: id in ids ==> Enabled(t, s, Advance(id)) && Bounded(t, h, Moved(t, h, s, id))
    ensures forall id :: id in ids ==> EndsWithin(t, h, Moved(t, h, s, id), n)
    decreases |ids|
  {
    hide Moved, Enabled;
    if ids == {} {
      n := 0;
    } else {
      var id :| id in ids;
      var rest := CommonBound(t, h, s, ids - {id});
      var mine: nat :| EndsWithin(t, h, Moved(t, h, s, id), mine);
      n := Max(rest, mine);
      forall i | i in ids
        ensures EndsWithin(t, h, Moved(t, h, s, i), n)
      {
        assert i == id || i in ids - {id};
      }
    }
  }

  /** Finitely many messages can move, so bounds for every next state are a bound for this one. */
  lemma BoundedNext(t: Upload, h: HashFunction, s: State)
    requires forall id :: id in s.tokens ==> Enabled(t, s, Advance(id)) && Bounded(t, h, Moved(t, h, s, id))
    ensures Bounded(t, h, s)
  {
    hide Moved;
    var n := CommonBound(t, h, s, s.tokens.Keys);
    forall acts: seq<Action> | FaultFree(acts) && Runs(t, h, s, acts)
      ensures |acts| <= n + 1
    {
      if acts != [] {
        var id := acts[0].id;
        assert id in s.tokens.Keys && Runs(t, h, Moved(t, h, s, id), acts[1..]);
        assert FaultFree(acts[1..]);
      }
    }
    assert EndsWithin(t, h, s, n + 1);
  }

  /** The steps ahead of each message. */
  function Steps(t: Upload, s: State, n: nat): (r: seq<nat>)
    ensures |r| == n
  {
    seq(n, i => if i in s.tokens then Ahead(t, s.tokens[i]) else 0)
  }

  lemma StepsLess(t: Upload, s: State, s': State, id: nat, n: nat)
    requires OthersStay(s, s', id) && id in s.tokens && id < n
    requires id in s'.tokens ==> Ahead(t, s'.tokens[id]) < Ahead(t, s.tokens[id])
    ensures Total(Steps(t, s', n)) < Total(Steps(t, s, n))
  {
    hide Ahead;
    TotalLess(Steps(t, s', n), Steps(t, s, n), id);
  }

  lemma AlwaysEnabled(t: Upload, h: HashFunction, s: State)
    requires Inv(t, h, s)
    ensures forall id :: id in s.tokens ==> Enabled(t, s, Advance(id))
  {
    forall id | id in s.tokens
      ensures Enabled(t, s, Advance(id))
    {
      assert TokenOk(t, h, s.disk, s.tokens[id]);
    }
  }

  // ---------------------------------------------------------------- at most two chunks

  predicate ForChunk(a: Aim, i: nat) {
    !a.Aimless? && a.i == i
  }

  /** Chunk 1 is fetched only after chunk 0 has been marked, and chunk 0 is never lost. */
  ghost predicate Orderly(t: Upload, s: State) {
    forall id :: id in s.tokens ==>
      var a := AimOf(t, s.tokens[id]);
      && (a.Aimless? || a.i == 0 || Has(s.disk, 0))
      && (a.Stamping? ==> a.i == 0 || Bit(a.b, 0))
  }

  lemma AimIsChunk(t: Upload, h: HashFunction, d: Files, k: Token)
    requires TokenOk(t, h, d, k)
    ensures !AimOf(t, k).Aimless? ==> AimOf(t, k).i < NumChunks(|t.content|)
  {
  }

  lemma OrderlyAdvance(t: Upload, h: HashFunction, s: State, id: nat)
    requires Orderly(t, s) && Enabled(t, s, Advance(id)) && Advances(t, h, s, id) && NumChunks(|t.content|) <= 2
    requires !AimOf(t, s.tokens[id]).Aimless? ==> AimOf(t, s.tokens[id]).i < 2
    ensures Orderly(t, Moved(t, h, s, id))
  {
    hide Moved, Bit;
    var s', a := Moved(t, h, s, id), AimOf(t, s.tokens[id]);
    assert if a.Stamping? then Has(s'.disk, 0) else Cell(s'.disk, 0) == Cell(s.disk, 0);
    assert FirstMissing(s.disk, 1) ==> Has(s.disk, 0);
    forall i | i in s'.tokens
      ensures var b := AimOf(t, s'.tokens[i]);
        (b.Aimless? || b.i == 0 || Has(s'.disk, 0)) && (b.Stamping? ==> b.i == 0 || Bit(b.b, 0))
    {
      assert i in s.tokens;
    }
  }

  lemma OrderlyAction(t: Upload, h: HashFunction, s: State, a: Action)
    requires Offerable(t) && Inv(t, h, s) && Orderly(t, s) && Enabled(t, s, a) && NumChunks(|t.content|) <= 2
    ensures Orderly(t, Apply(t, h, s, a))
  {
    if a.Advance? {
      EveryAdvance(t, h, s, a.id);
      assert TokenOk(t, h, s.disk, s.tokens[a.id]);
      AimIsChunk(t, h, s.disk, s.tokens[a.id]);
      hide Inv, TokenOk, Advances;
      OrderlyAdvance(t, h, s, a.id);
    } else {
      hide AimOf, Has, Bit, Inv;
      assert a.OfferFile? ==> AimOf(t, ToServer(BuildOffer(1, t.key.uuid, Local(t, h)))).Aimless?;
    }
  }

  lemma {:induction false} OrderlyRuns(t: Upload, h: HashFunction, s: State, acts: seq<Action>)
    requires Offerable(t) && Inv(t, h, s) && Orderly(t, s) && Runs(t, h, s, acts) && NumChunks(|t.content|) <= 2
    ensures Orderly(t, After(t, h, s, acts))
    decreases |acts|
  {
    if acts != [] {
      OrderlyAction(t, h, s, acts[0]);
      ApplyKeepsInv(t, h, s, acts[0]);
      hide Apply, Enabled, Inv, Orderly;
      OrderlyRuns(t, h, Apply(t, h, s, acts[0]), acts[1..]);
    }
  }

  /** 1 as long as the message may still write for chunk 0. */
  function MayStampFirst(t: Upload, s: State, id: nat): nat {
    if id !in s.tokens then 0
    else
      var a := AimOf(t, s.tokens[id]);
      if ForChunk(a, 0) || (a.Aimless? && !Has(s.disk, 0)) then 1 else 0
  }

  /** 1 as long as it may write for chunk 1 before somebody writes for chunk 0. */
  function MayStampSecond(t: Upload, s: State, id: nat): nat {
    if id !in s.tokens then 0
    else
      var a := AimOf(t, s.tokens[id]);
      if ForChunk(a, 1) || (a.Aimless? && !Has(s.disk, 1)) then 1 else 0
  }

  function Firsts(t: Upload, s: State, n: nat): (r: seq<nat>)
    ensures |r| == n
  {
    seq(n, (i: nat) => MayStampFirst(t, s, i))
  }

  function Seconds(t: Upload, s: State, n: nat): (r: seq<nat>)
    ensures |r| == n
  {
    seq(n, (i: nat) => MayStampSecond(t, s, i))
  }

  lemma FewChunksAdvance(t: Upload, h: HashFunction, s: State, id: nat, n: nat)
    requires Orderly(t, s) && Enabled(t, s, Advance(id)) && Advances(t, h, s, id) && NumChunks(|t.content|) <= 2 && id < n
    requires !AimOf(t, s.tokens[id]).Aimless? ==> AimOf(t, s.tokens[id]).i < 2
    ensures var s', a := Moved(t, h, s, id), AimOf(t, s.tokens[id]);
      && NoneAbove(Firsts(t, s', n), Firsts(t, s, n))
      && (a.Stamping? && a.i == 0 ==> Firsts(t, s', n)[id] < Firsts(t, s, n)[id])
      && (!(a.Stamping? && a.i == 0) ==> NoneAbove(Seconds(t, s', n), Seconds(t, s, n)))
      && (a.Stamping? && a.i == 1 ==> Seconds(t, s', n)[id] < Seconds(t, s, n)[id])
  {
    hide Moved, Bit;
    var s', a := Moved(t, h, s, id), AimOf(t, s.tokens[id]);
    assert if a.Stamping? then Has(s'.disk, 0) else Cell(s'.disk, 0) == Cell(s.disk, 0);
    assert a.Stamping? && a.i == 1 ==> Has(s.disk, 0) && Has(s'.disk, 1);
    assert FirstMissing(s.disk, 1) ==> Has(s.disk, 0);
  }

  /** Every step lowers the first of the three sums that it changes. */
  lemma FewChunksLess(t: Upload, h: HashFunction, s: State, id: nat, n: nat)
    requires Offerable(t) && Inv(t, h, s) && Orderly(t, s) && NumChunks(|t.content|) <= 2
    requires Enabled(t, s, Advance(id)) && id < n
    ensures var s' := Moved(t, h, s, id);
      var e, e', l, l' := Total(Firsts(t, s, n)), Total(Firsts(t, s', n)), Total(Seconds(t, s, n)), Total(Seconds(t, s', n));
      e' < e || (e' == e && (l' < l || (l' == l && Total(Steps(t, s', n)) < Total(Steps(t, s, n)))))
  {
    EveryAdvance(t, h, s, id);
    assert TokenOk(t, h, s.disk, s.tokens[id]);
    AimIsChunk(t, h, s.disk, s.tokens[id]);
    var s', a := Moved(t, h, s, id), AimOf(t, s.tokens[id]);
    hide Inv, TokenOk, Orderly, Moved, Firsts, Seconds, Total, Steps;
    FewChunksAdvance(t, h, s, id, n);
    TotalLeq(Firsts(t, s', n), Firsts(t, s, n));
    if a.Stamping? && a.i == 0 {
      TotalLess(Firsts(t, s', n), Firsts(t, s, n), id);
    } else {
      TotalLeq(Seconds(t, s', n), Seconds(t, s, n));
      if a.Stamping? {
        TotalLess(Seconds(t, s', n), Seconds(t, s, n), id);
      } else {
        StepsLess(t, s, s', id, n);
      }
    }
  }

  /** At most two chunks: fault-free runs are bounded, whatever the number of messages. */
  lemma {:induction false} FewChunksEnd(t: Upload, h: HashFunction, s: State, n: nat)
    requires Offerable(t) && Inv(t, h, s) && Orderly(t, s) && NumChunks(|t.content|) <= 2
    requires forall id :: id in s.tokens ==> id < n
    ensures Bounded(t, h, s)
    decreases Total(Firsts(t, s, n)), Total(Seconds(t, s, n)), Total(Steps(t, s, n))
  {
    AlwaysEnabled(t, h, s);
    forall id | id in s.tokens
      ensures Enabled(t, s, Advance(id)) && Bounded(t, h, Moved(t, h, s, id))
    {
      FewChunksLess(t, h, s, id, n);
      OrderlyAction(t, h, s, Advance(id));
      ApplyKeepsInv(t, h, s, Advance(id));
      EveryAdvance(t, h, s, id);
      hide Inv, Orderly, Moved, Firsts, Seconds, Total, Steps;
      FewChunksEnd(t, h, Moved(t, h, s, id), n);
    }
    BoundedNext(t, h, s);
  }
}
