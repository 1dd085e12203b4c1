/**
  The poll group (src/loop/ft_poll_grp.cpp): the pollables of the main loop, the `pollfd` vector cached
  beside them, and the loop that handles events while it removes closed pollables from both.

  `poll` itself is an input: `ready` is what it reports per position.
 */
module PollGroup {
  import opened Machine

  /** The `revents` of one position; `other` stands for the remaining flags. */
  datatype Ready = Ready(readable: bool, error: bool, hangup: bool, other: bool)

  const NONE := Ready(false, false, false, false)

  predicate Broken(r: Ready) {
    r.error || r.hangup
  }

  // ---------------------------------------------------------------- one pass, on values

  /**
    What happens outside the loop: which pollables have descriptor -1 before the pass, which ones get
    it when their event is handled, and which one is the listener, whose handler adds connections.
   */
  datatype Env<P> = Env(limit: nat, listener: Option<P>, down: set<P>, dead: set<P>)

  predicate Removed<P(==)>(env: Env<P>, p: P, r: Ready) {
    r != NONE && (Broken(r) || p in env.down || (r.readable && p in env.dead))
  }

  /** How many of the waiting connections the listener's handler can still add. */
  function Accepted<P>(env: Env<P>, size: nat, pending: seq<P>): (r: nat)
    ensures r <= |pending|
  {
    Min(|pending|, Max(0, env.limit - size))
  }

  predicate Accepts<P(==)>(env: Env<P>, p: P, r: Ready) {
    r.readable && env.listener == Some(p)
  }

  /**
    The pollables that stay, from the current index on: `kept` of them lie before it, `rest` from it on,
    and `rv` are the cached events of the positions of `rest`. Removal shifts the pollables but not the
    events: the next pollable is judged by the same entry, and the last entry is cut off.
   */
  function Pass<P(==)>(env: Env<P>, kept: nat, rest: seq<P>, rv: seq<Ready>, pending: seq<P>): (r: seq<P>)
    requires |rv| == |rest|
    decreases |rest| + |pending|, |pending|
  {
    if rest == [] then []
    else if Accepts(env, rest[0], rv[0]) && pending != [] then
      var n := Accepted(env, kept + |rest|, pending);
      Pass(env, kept, rest + pending[..n], rv + seq(n, _ => NONE), [])
    else if Removed(env, rest[0], rv[0]) then Pass(env, kept, rest[1..], rv[..|rv| - 1], pending)
    else [rest[0]] + Pass(env, kept + 1, rest[1..], rv[1..], pending)
  }

  // ---------------------------------------------------------------- the cached descriptors

  class Pollable {
    var fd: int

    constructor (fd: int)
      ensures this.fd == fd
    {
      this.fd := fd;
    }
  }

  datatype PollFd = PollFd(fd: int, revents: Ready)

  function Revents(cached: seq<PollFd>): (r: seq<Ready>)
    ensures |r| == |cached|
    ensures forall i :: 0 <= i < |cached| ==> r[i] == cached[i].revents
  {
    seq(|cached|, i requires 0 <= i < |cached| => cached[i].revents)
  }

  predicate Distinct<P(==)>(s: seq<P>) {
    forall i, j :: 0 <= i < j < |s| ==> s[i] != s[j]
  }

  // ---------------------------------------------------------------- one step of the loop, on slices

  lemma NothingLeft<P>(env: Env<P>, ps: seq<P>, rv: seq<Ready>, i: nat, pending: seq<P>)
    requires i == |ps| == |rv|
    ensures ps[..i] + Pass(env, i, ps[i..], rv[i..], pending) == ps
  {
  }

  /** The pollable at index `i` occurs nowhere else. */
  lemma SplitAt<P>(ps: seq<P>, i: nat, more: seq<P>)
    requires i < |ps| && Distinct(ps + more)
    ensures ps[i] !in ps[..i] && ps[i] !in ps[i + 1..] + more
    ensures forall p :: p in ps[i..] + more <==> p == ps[i] || p in ps[i + 1..] + more
  {
    var all := ps + more;
    assert forall k :: 0 <= k < |ps| ==> all[k] == ps[k];
    assert forall k :: 0 <= k < |more| ==> all[|ps| + k] == more[k];
    assert ps[i..] == [ps[i]] + ps[i + 1..];
  }

  lemma AcceptSlices<P>(env: Env<P>, ps: seq<P>, rv: seq<Ready>, i: nat, pending: seq<P>)
    requires i < |ps| == |rv| && Accepts(env, ps[i], rv[i])
    ensures var n := Accepted(env, |ps|, pending);
      var (ps', rv') := (ps + pending[..n], rv + seq(n, _ => NONE));
      && ps'[..i] == ps[..i]
      && Pass(env, i, ps[i..], rv[i..], pending) == Pass(env, i, ps'[i..], rv'[i..], [])
  {
    var n := Accepted(env, |ps|, pending);
    var none := seq(n, _ => NONE);
    assert (ps + pending[..n])[i..] == ps[i..] + pending[..n];
    assert (rv + none)[i..] == rv[i..] + none;
    if pending == [] {
      assert ps + pending[..n] == ps && rv + none == rv;
    }
  }

  lemma AcceptedMembers<P>(ps: seq<P>, more: seq<P>, n: nat, i: nat)
    requires n <= |more| && Distinct(ps + more) && i < |ps|
    ensures Distinct(ps + more[..n] + [])
    ensures forall p :: p in ps + more[..n] + [] ==> p in ps + more
    ensures (ps + more[..n])[i + 1..] == ps[i + 1..] + more[..n]
    ensures var tail := (ps + more[..n])[i + 1..]; forall p :: p in tail ==> p in ps[i + 1..] + more
  {
    assert ps + more[..n] + [] == (ps + more)[..|ps| + n];
  }

  lemma RemoveSlices<P>(env: Env<P>, ps: seq<P>, rv: seq<Ready>, i: nat, pending: seq<P>)
    requires i < |ps| == |rv| && Removed(env, ps[i], rv[i]) && (pending == [] || !Accepts(env, ps[i], rv[i]))
    ensures var (ps', rv') := (ps[..i] + ps[i + 1..], rv[..|rv| - 1]);
      && ps'[..i] == ps[..i] && ps'[i..] == ps[i + 1..]
      && Pass(env, i, ps[i..], rv[i..], pending) == Pass(env, i, ps'[i..], rv'[i..], pending)
  {
    var rv' := rv[..|rv| - 1];
    assert ps[i..][0] == ps[i] && ps[i..][1..] == ps[i + 1..];
    assert rv[i..][0] == rv[i] && rv[i..][..|rv[i..]| - 1] == rv'[i..];
    assert (ps[..i] + ps[i + 1..])[i..] == ps[i + 1..];
  }

  lemma RemovedAt<P>(ps: seq<P>, i: nat, more: seq<P>)
    requires i < |ps| && Distinct(ps + more)
    ensures Distinct(ps[..i] + ps[i + 1..] + more)
    ensures forall p :: p in ps[..i] + ps[i + 1..] + more ==> p in ps + more
    ensures forall k :: 0 <= k < |ps| && ps[k] == ps[i] ==> k == i
  {
    var all, cut := ps + more, ps[..i] + ps[i + 1..] + more;
    assert forall k :: 0 <= k < |cut| ==> cut[k] == all[if k < i then k else k + 1];
    assert forall k :: 0 <= k < |ps| ==> ps[k] == all[k];
  }

  lemma KeepSlices<P>(env: Env<P>, ps: seq<P>, rv: seq<Ready>, i: nat, pending: seq<P>)
    requires i < |ps| == |rv| && !Removed(env, ps[i], rv[i]) && (pending == [] || !Accepts(env, ps[i], rv[i]))
    ensures ps[..i] + Pass(env, i, ps[i..], rv[i..], pending)
         == ps[..i + 1] + Pass(env, i + 1, ps[i + 1..], rv[i + 1..], pending)
  {
    assert ps[i..][0] == ps[i] && ps[i..][1..] == ps[i + 1..];
    assert rv[i..][0] == rv[i] && rv[i..][1..] == rv[i + 1..];
    assert ps[..i] + [ps[i]] == ps[..i + 1];
  }

  // ---------------------------------------------------------------- the class

  class Group {
    const limit: nat
    var pollables: seq<Pollable>
    var cached: seq<PollFd>

    /** The cached descriptors are those of the pollables, position by position. */
    ghost predicate Agree()
      reads this, pollables
    {
      |cached| == |pollables| && forall i :: 0 <= i < |cached| ==> cached[i].fd == pollables[i].fd
    }

    constructor (limit: nat)
      ensures this.limit == limit && pollables == [] && cached == []
      ensures Agree()
    {
      this.limit, pollables, cached := limit, [], [];
    }

    /** Rewrites every cached descriptor; the cached events stay. */
    method Refresh()
      requires |cached| == |pollables|
      modifies this`cached
      ensures Agree()
      ensures Revents(cached) == Revents(old(cached))
    {
      var i := 0;
      while i < |pollables|
        invariant 0 <= i <= |pollables| && |cached| == |pollables|
        invariant forall j :: 0 <= j < i ==> cached[j].fd == pollables[j].fd
        invariant Revents(cached) == Revents(old(cached))
      {
        cached := cached[i := cached[i].(fd := pollables[i].fd)];
        i := i + 1;
      }
    }

    method Add(p: Pollable) returns (r: Result<()>)
      requires |cached| == |pollables|
      modifies this`pollables, this`cached
      ensures r.Ok? <==> |old(pollables)| < limit
      ensures r.Ok? ==> Agree() && pollables == old(pollables) + [p] && Revents(cached) == Revents(old(cached)) + [NONE]
      ensures r.Err? ==> r.error == LimitExceeded && pollables == old(pollables) && cached == old(cached)
    {
      if |pollables| >= limit {
        return Err(LimitExceeded);
      }
      pollables := pollables + [p];
      cached := cached + [PollFd(0, NONE)];
      assert Revents(cached) == Revents(old(cached)) + [NONE];
      Refresh();
      r := Ok(());
    }

    /** Removes the first occurrence; every later pollable moves down, the cached events do not. */
    method Remove(p: Pollable)
      requires |cached| == |pollables|
      modifies this`pollables, this`cached
      ensures p !in old(pollables) ==> pollables == old(pollables) && cached == old(cached)
      ensures p in old(pollables) ==>
        && Agree()
        && |pollables| == |old(pollables)| - 1
        && Revents(cached) == Revents(old(cached))[..|pollables|]
        && exists k :: 0 <= k < |old(pollables)| && old(pollables)[k] == p && p !in old(pollables)[..k]
             && pollables == old(pollables)[..k] + old(pollables)[k + 1..]
    {
      var k := 0;
      while k < |pollables| && pollables[k] != p
        invariant 0 <= k <= |pollables| && p !in pollables[..k]
      {
        k := k + 1;
      }
      if k < |pollables| {
        pollables := pollables[..k] + pollables[k + 1..];
        cached := cached[..|pollables|];
        assert Revents(cached) == Revents(old(cached))[..|pollables|];
        Refresh();
        assert old(pollables)[k] == p;
      }
    }

    /** The listener's handler: adds connections until there are no more or the group is full. */
    method AcceptAll(pending: seq<Pollable>)
      requires |cached| == |pollables|
      modifies this`pollables, this`cached
      ensures |cached| == |pollables|
      ensures var n := Min(|pending|, Max(0, limit - |old(pollables)|));
        && pollables == old(pollables) + pending[..n]
        && Revents(cached) == Revents(old(cached)) + seq(n, _ => NONE)
      ensures Agree() || (pollables == old(pollables) && cached == old(cached))
    {
      var n := 0;
      while n < |pending|
        invariant 0 <= n <= |pending| && |cached| == |pollables|
        invariant n <= Max(0, limit - |old(pollables)|)
        invariant pollables == old(pollables) + pending[..n]
        invariant Agree() || (pollables == old(pollables) && cached == old(cached))
        invariant Revents(cached) == Revents(old(cached)) + seq(n, _ => NONE)
      {
        var r := Add(pending[n]);
        if r.Err? {
          return;
        }
        n := n + 1;
      }
    }

    /** At index `i` the pass is on its way to `result`; nothing from `i` on has been handled yet. */
    ghost predicate OnTheWay(env: Env<Pollable>, i: nat, waiting: seq<Pollable>, result: seq<Pollable>, all: set<Pollable>, agree: bool)
      reads this, all
    {
      && |cached| == |pollables| && i <= |pollables| && env.limit == limit
      && Distinct(pollables + waiting)
      && (forall p :: p in pollables + waiting ==> p in all)
      && (forall p :: p in pollables[i..] + waiting ==> (p.fd == -1 <==> p in env.down))
      && result == pollables[..i] + Pass(env, i, pollables[i..], Revents(cached)[i..], waiting)
      && (agree ==> forall k :: 0 <= k < |cached| ==> cached[k].fd == pollables[k].fd)
    }

    /** The same after the handler of the pollable at index `i` has run. */
    ghost predicate Dispatched(env: Env<Pollable>, i: nat, p: Pollable, r: Ready, left: seq<Pollable>,
                               result: seq<Pollable>, all: set<Pollable>, agree: bool)
      reads this, all
    {
      && |cached| == |pollables| && i < |pollables| && env.limit == limit
      && p in all && p == pollables[i] && r == cached[i].revents
      && Distinct(pollables + left)
      && (forall q :: q in pollables + left ==> q in all)
      && (forall q :: q in pollables[i + 1..] + left ==> (q.fd == -1 <==> q in env.down))
      && (p.fd == -1 <==> p in env.down || (r.readable && p in env.dead))
      && (left == [] || !Accepts(env, p, r))
      && result == pollables[..i] + Pass(env, i, pollables[i..], Revents(cached)[i..], left)
      && (agree ==> forall k :: 0 <= k < |cached| ==> cached[k].fd == pollables[k].fd || (k == i && r != NONE && p.fd == -1))
    }

    /** The handler of the pollable `p` at index `i`: its descriptor may become -1, the listener adds connections. */
    method Dispatch(i: nat, p: Pollable, r: Ready, listener: Option<Pollable>, dead: set<Pollable>, waiting: seq<Pollable>,
                    ghost env: Env<Pollable>, ghost result: seq<Pollable>, ghost all: set<Pollable>, ghost agree: bool)
        returns (left: seq<Pollable>)
      requires OnTheWay(env, i, waiting, result, all, agree) && env.listener == listener && env.dead == dead
      requires i < |pollables| && p in all && p == pollables[i] && r == cached[i].revents
      modifies this`pollables, this`cached, p
      ensures Dispatched(env, i, p, r, left, result, all, agree)
      ensures |pollables| + |left| <= |old(pollables)| + |waiting|
    {
      hide Pass, Distinct;
      left := waiting;
      SplitAt(pollables, i, waiting);
      if r.readable {
        if p in dead {
          p.fd := -1;
        }
        if listener == Some(p) {
          ghost var n := Accepted(env, |pollables|, waiting);
          AcceptSlices(env, pollables, Revents(cached), i, waiting);
          AcceptedMembers(pollables, waiting, n, i);
          AcceptAll(waiting);
          left := [];
        }
      }
    }

    /** Removes the pollable if it is closed. */
    method Decide(i: nat, p: Pollable, r: Ready, ghost left: seq<Pollable>,
                  ghost env: Env<Pollable>, ghost result: seq<Pollable>, ghost all: set<Pollable>, ghost agree: bool)
        returns (removed: bool)
      requires Dispatched(env, i, p, r, left, result, all, agree)
      modifies this`pollables, this`cached
      ensures OnTheWay(env, if removed then i else i + 1, left, result, all, agree)
      ensures |pollables| == |old(pollables)| - (if removed then 1 else 0)
    {
      hide Pass, Distinct;
      removed := false;
      if r != NONE && (r.error || r.hangup || p.fd == -1) {
        RemoveSlices(env, pollables, Revents(cached), i, left);
        RemovedAt(pollables, i, left);
        Remove(p);
        removed := true;
      } else {
        KeepSlices(env, pollables, Revents(cached), i, left);
      }
    }

    method EventLoop(listener: Option<Pollable>, dead: set<Pollable>, pending: seq<Pollable>,
                     ghost env: Env<Pollable>, ghost result: seq<Pollable>, ghost all: set<Pollable>, ghost agree: bool)
      requires OnTheWay(env, 0, pending, result, all, agree) && env.listener == listener && env.dead == dead
      requires |pollables| + |pending| < UINT64_MAX
      modifies this`pollables, this`cached, all
      ensures |cached| == |pollables| && pollables == result
      ensures agree ==> forall k :: 0 <= k < |cached| ==> cached[k].fd == pollables[k].fd
    {
      hide Pass, Distinct, Revents;
      var waiting := pending;
      var i: u64 := 0;
      while i < |pollables|
        invariant OnTheWay(env, i, waiting, result, all, agree)
        invariant |pollables| + |waiting| < UINT64_MAX
        decreases |pollables| + |waiting| - i
      {
        var p, r := pollables[i], cached[i].revents;
        assert p in all by { assert (pollables + waiting)[i] == p; }
        waiting := Dispatch(i, p, r, listener, dead, waiting, env, result, all, agree);
        var removed := Decide(i, p, r, waiting, env, result, all, agree);
        if removed {
          i := if i == 0 then UINT64_MAX else i - 1;  // size_t wraps
        }
        i := (i + 1) % 0x1_0000_0000_0000_0000;
      }
      NothingLeft(env, pollables, Revents(cached), i, waiting);
    }

    ghost function Down(ps: seq<Pollable>): set<Pollable>
      reads ps
    {
      set p | p in ps && p.fd == -1
    }

    /**
      One pass of the event loop. `pending` are the connections waiting at the listener. Cached descriptors that
      agree with the pollables still do so afterwards, ready for the next call of `poll`.
     */
    method PollAndHandle(ready: seq<Ready>, listener: Option<Pollable>, dead: set<Pollable>, pending: seq<Pollable>)
      requires |ready| == |cached| == |pollables|
      requires Distinct(pollables + pending) && |pollables| + |pending| < UINT64_MAX
      modifies this`pollables, this`cached, pollables, pending
      ensures |cached| == |pollables|
      ensures pollables == Pass(Env(limit, listener, old(Down(pollables + pending)), dead), 0, old(pollables), ready, pending)
      ensures old(Agree()) ==> Agree()
    {
      ghost var agree := Agree();
      ghost var all := set p | p in pollables + pending;
      ghost var env := Env(limit, listener, Down(pollables + pending), dead);
      ghost var result := Pass(env, 0, pollables, ready, pending);
      cached := seq(|cached|, k requires 0 <= k < |ready| && |ready| == |cached| reads this => cached[k].(revents := ready[k]));
      assert Revents(cached) == ready;
      assert pollables[0..] == pollables && ready[0..] == ready;
      assert forall q :: q in all ==> q in pollables || q in pending;
      EventLoop(listener, dead, pending, env, result, all, agree);
    }
  }

  // ---------------------------------------------------------------- what a pass does

  /**
    A pollable alone in the group, over all flags: it is dropped exactly if something is reported for it, and that is
    an error or a hang-up, or its descriptor was -1, or it is readable and reading makes its descriptor -1.
    Only a readable listener lets anybody in.
   */
  lemma AloneInTheGroup<P>(limit: nat, listener: Option<P>, down: set<P>, dead: set<P>, kept: nat, p: P,
                           readable: bool, error: bool, hangup: bool, other: bool, pending: seq<P>)
    requires pending == [] || !readable || listener != Some(p)
    ensures var left := Pass(Env(limit, listener, down, dead), kept, [p], [Ready(readable, error, hangup, other)], pending);
      var reported := readable || error || hangup || other;
      left == if reported && (error || hangup || p in down || (readable && p in dead)) then [] else [p]
  {
    var env, r := Env(limit, listener, down, dead), Ready(readable, error, hangup, other);
    assert [p][1..] == [] && [r][1..] == [] && [r][..0] == [];
    assert Pass(env, kept, [], [], pending) == [] && Pass(env, kept + 1, [], [], pending) == [];
  }

  lemma {:induction false} NothingReported<P>(env: Env<P>, kept: nat, rest: seq<P>, rv: seq<Ready>)
    requires |rv| == |rest| && forall i :: 0 <= i < |rv| ==> rv[i] == NONE
    ensures Pass(env, kept, rest, rv, []) == rest
    decreases |rest|
  {
    if rest != [] {
      NothingReported(env, kept + 1, rest[1..], rv[1..]);
    }
  }

  /** A readable listener takes in the waiting connections, all of them or as many as the limit of the group allows. */
  lemma ListenerTakesIn<P>(limit: nat, l: P, down: set<P>, dead: set<P>, kept: nat, pending: seq<P>)
    requires l !in down && l !in dead
    ensures var left := Pass(Env(limit, Some(l), down, dead), kept, [l], [Ready(true, false, false, false)], pending);
      && left != [] && left[0] == l && left[1..] <= pending
      && (kept + 1 + |pending| <= limit ==> left[1..] == pending)
      && (kept + 1 <= limit < kept + 1 + |pending| ==> kept + |left| == limit)
      && (limit < kept + 1 ==> left == [l])
  {
    var env, r := Env(limit, Some(l), down, dead), Ready(true, false, false, false);
    var n := Accepted(env, kept + 1, pending);
    var more, none := pending[..n], seq(n, _ => NONE);
    NothingReported(env, kept + 1, more, none);
    if pending == [] {
      AloneInTheGroup(limit, Some(l), down, dead, kept, l, true, false, false, false, []);
    } else {
      assert ([l] + more)[1..] == more && ([r] + none)[1..] == none;
      assert Pass(env, kept, [l], [r], pending) == Pass(env, kept, [l] + more, [r] + none, []);
      assert Pass(env, kept, [l] + more, [r] + none, []) == [l] + more;
    }
  }

  /** A hang-up or error seen at the current index empties the group from there on. */
  lemma {:induction false} BrokenDropsTheRest<P>(env: Env<P>, kept: nat, rest: seq<P>, rv: seq<Ready>, pending: seq<P>)
    requires |rv| == |rest| && rest != [] && (rv[0].error || rv[0].hangup)
    ensures Pass(env, kept, rest, rv, pending) == []
    decreases |rest| + |pending|, |pending|
  {
    if Accepts(env, rest[0], rv[0]) && pending != [] {
      var n := Accepted(env, kept + |rest|, pending);
      BrokenDropsTheRest(env, kept, rest + pending[..n], rv + seq(n, _ => NONE), []);
    } else if |rest| > 1 {
      BrokenDropsTheRest(env, kept, rest[1..], rv[..|rv| - 1], pending);
    }
  }

  lemma {:induction false} NeverMore<P>(env: Env<P>, kept: nat, rest: seq<P>, rv: seq<Ready>)
    requires |rv| == |rest|
    ensures |Pass(env, kept, rest, rv, [])| <= |rest|
    decreases |rest|
  {
    if rest != [] {
      if Removed(env, rest[0], rv[0]) {
        NeverMore(env, kept, rest[1..], rv[..|rv| - 1]);
      } else {
        NeverMore(env, kept + 1, rest[1..], rv[1..]);
      }
    }
  }

  /** When no connection is added meanwhile, nobody ends at or behind a position reported as broken. */
  lemma {:induction false} NobodyBehindBroken<P>(env: Env<P>, kept: nat, rest: seq<P>, rv: seq<Ready>, i: nat)
    requires |rv| == |rest| && i < |rv| && (rv[i].error || rv[i].hangup)
    ensures |Pass(env, kept, rest, rv, [])| <= i
    decreases |rest|
  {
    if i == 0 {
      BrokenDropsTheRest(env, kept, rest, rv, []);
    } else if !Removed(env, rest[0], rv[0]) {
      NobodyBehindBroken(env, kept + 1, rest[1..], rv[1..], i - 1);
    } else if i < |rest| - 1 {
      NobodyBehindBroken(env, kept, rest[1..], rv[..|rv| - 1], i);
    } else {
      NeverMore(env, kept, rest[1..], rv[..|rv| - 1]);
    }
  }

  /** Everybody keeps a valid descriptor, so that only hang-ups and errors remove anybody. */
  predicate OnlyBreaks<P>(env: Env<P>) {
    env.down == {} && env.dead == {}
  }

  /** What the loop is there for: drop the pollables whose own position is broken, keep the others. */
  function Healthy<P>(rest: seq<P>, rv: seq<Ready>): seq<P>
    requires |rv| == |rest|
  {
    if rest == [] then []
    else (if rv[0].error || rv[0].hangup then [] else [rest[0]]) + Healthy(rest[1..], rv[1..])
  }

  lemma {:induction false} HealthyNone<P>(rest: seq<P>, rv: seq<Ready>)
    requires |rv| == |rest|
    ensures Healthy(rest, rv) == [] <==> forall i :: 0 <= i < |rv| ==> Broken(rv[i])
  {
    if rest != [] {
      HealthyNone(rest[1..], rv[1..]);
      assert forall i :: 0 < i < |rv| ==> rv[i] == rv[1..][i - 1];
      assert forall i :: 0 <= i < |rv[1..]| ==> rv[1..][i] == rv[i + 1];
    }
  }

  lemma FromSecond(rv: seq<Ready>)
    requires rv != [] && !Broken(rv[0])
    ensures (forall i, j :: 0 <= i < j < |rv| && Broken(rv[i]) ==> Broken(rv[j]))
       <==> (forall i, j :: 0 <= i < j < |rv[1..]| && Broken(rv[1..][i]) ==> Broken(rv[1..][j]))
  {
    var t := rv[1..];
    if forall i, j :: 0 <= i < j < |t| && Broken(t[i]) ==> Broken(t[j]) {
      forall i, j | 0 <= i < j < |rv| && Broken(rv[i])
        ensures Broken(rv[j])
      {
        assert t[i - 1] == rv[i] && t[j - 1] == rv[j];
      }
    }
    if forall i, j :: 0 <= i < j < |rv| && Broken(rv[i]) ==> Broken(rv[j]) {
      forall i, j | 0 <= i < j < |t| && Broken(t[i])
        ensures Broken(t[j])
      {
        assert t[i] == rv[i + 1] && t[j] == rv[j + 1];
      }
    }
  }

  /**
    The pass does that exactly when no healthy position follows a broken one; otherwise healthy
    connections are dropped together with the broken one.
   */
  lemma {:induction false} KeepsHealthyIff<P>(env: Env<P>, kept: nat, rest: seq<P>, rv: seq<Ready>)
    requires |rv| == |rest| && OnlyBreaks(env)
    ensures Pass(env, kept, rest, rv, []) == Healthy(rest, rv)
       <==> forall i, j :: 0 <= i < j < |rv| && (rv[i].error || rv[i].hangup) ==> rv[j].error || rv[j].hangup
    decreases |rest|
  {
    if rest != [] {
      if Broken(rv[0]) {
        BrokenDropsTheRest(env, kept, rest, rv, []);
        HealthyNone(rest[1..], rv[1..]);
        assert forall i :: 0 < i < |rv| ==> rv[i] == rv[1..][i - 1];
        assert forall i :: 0 <= i < |rv[1..]| ==> rv[1..][i] == rv[i + 1];
      } else {
        KeepsHealthyIff(env, kept + 1, rest[1..], rv[1..]);
        FromSecond(rv);
        var a, b := Pass(env, kept + 1, rest[1..], rv[1..], []), Healthy(rest[1..], rv[1..]);
        assert ([rest[0]] + a)[1..] == a && ([rest[0]] + b)[1..] == b;
      }
    }
  }

  /** Survivors of a hang-up at index `i`: the pass goes on as if nothing were reported from `i` on, and is cut there. */
  function Silenced(rv: seq<Ready>, i: nat): (r: seq<Ready>)
    requires i <= |rv|
    ensures |r| == |rv|
  {
    rv[..i] + seq(|rv| - i, _ => NONE)
  }

  function FirstOf<P>(s: seq<P>, n: nat): seq<P> {
    s[..Min(n, |s|)]
  }

  /** A whole pass in which position `i` is reported broken ends with exactly the survivors before `i`. */
  lemma {:induction false} SurvivorsBefore<P>(env: Env<P>, kept: nat, ps: seq<P>, rv: seq<Ready>, i: nat)
    requires |rv| == |ps| && i < |rv| && (rv[i].error || rv[i].hangup)
    ensures Pass(env, kept, ps, rv, []) == FirstOf(Pass(env, kept, ps, Silenced(rv, i), []), i)
    decreases |ps|
  {
    var sv := Silenced(rv, i);
    if i == 0 {
      BrokenDropsTheRest(env, kept, ps, rv, []);
    } else {
      assert sv[0] == rv[0];
      if !Removed(env, ps[0], rv[0]) {
        SurvivorsBefore(env, kept + 1, ps[1..], rv[1..], i - 1);
        assert sv[1..] == Silenced(rv[1..], i - 1);
      } else if i < |ps| - 1 {
        SurvivorsBefore(env, kept, ps[1..], rv[..|rv| - 1], i);
        assert sv[..|sv| - 1] == Silenced(rv[..|rv| - 1], i);
      } else {
        assert sv[..|sv| - 1] == rv[..|rv| - 1];
        NeverMore(env, kept, ps[1..], rv[..|rv| - 1]);
      }
    }
  }

  // ---------------------------------------------------------------- who is dropped: the general case

  /** What the loop is there for: everybody is judged by the events of its own position. */
  function OwnKept<P(==)>(env: Env<P>, ps: seq<P>, own: seq<Ready>): (r: seq<P>)
    requires |own| == |ps|
    ensures forall p :: p in r ==> p in ps
  {
    if ps == [] then []
    else (if Removed(env, ps[0], own[0]) then [] else [ps[0]]) + OwnKept(env, ps[1..], own[1..])
  }

  /** How many of the first `k` are removed by their own events. */
  function Gone<P(==)>(env: Env<P>, ps: seq<P>, own: seq<Ready>, k: nat): (g: nat)
    requires |own| == |ps| && k <= |ps|
    ensures g <= k
    decreases k
  {
    if k == 0 then 0
    else (if Removed(env, ps[0], own[0]) then 1 else 0) + Gone(env, ps[1..], own[1..], k - 1)
  }

  /** The events by which the loop judges `ps[k]`, if everybody before was judged rightly, agree with its own. */
  predicate JudgedRightly<P(==)>(env: Env<P>, ps: seq<P>, cur: seq<Ready>, own: seq<Ready>, k: nat)
    requires |cur| == |own| == |ps| && k < |ps|
  {
    Removed(env, ps[k], cur[k - Gone(env, ps, own, k)]) == Removed(env, ps[k], own[k])
  }

  ghost predicate AllJudgedRightly<P>(env: Env<P>, ps: seq<P>, cur: seq<Ready>, own: seq<Ready>)
    requires |cur| == |own| == |ps|
  {
    forall k :: 0 <= k < |ps| ==> JudgedRightly(env, ps, cur, own, k)
  }

  /** The condition for a list is that for its head and, with the events as the loop leaves them, for its tail. */
  lemma JudgedStep<P>(env: Env<P>, ps: seq<P>, cur: seq<Ready>, own: seq<Ready>)
    requires |cur| == |own| == |ps| && ps != []
    requires Removed(env, ps[0], cur[0]) == Removed(env, ps[0], own[0])
    ensures var cur' := if Removed(env, ps[0], own[0]) then cur[..|cur| - 1] else cur[1..];
      AllJudgedRightly(env, ps, cur, own) <==> AllJudgedRightly(env, ps[1..], cur', own[1..])
  {
    var cur' := if Removed(env, ps[0], own[0]) then cur[..|cur| - 1] else cur[1..];
    forall k | 0 < k < |ps|
      ensures JudgedRightly(env, ps, cur, own, k) == JudgedRightly(env, ps[1..], cur', own[1..], k - 1)
    {
      assert ps[1..][k - 1] == ps[k] && own[1..][k - 1] == own[k];
      assert cur'[k - 1 - Gone(env, ps[1..], own[1..], k - 1)] == cur[k - Gone(env, ps, own, k)];
    }
    assert JudgedRightly(env, ps, cur, own, 0);
    if AllJudgedRightly(env, ps, cur, own) {
      forall k | 0 <= k < |ps[1..]|
        ensures JudgedRightly(env, ps[1..], cur', own[1..], k)
      {
        assert JudgedRightly(env, ps, cur, own, k + 1);
      }
    }
    if AllJudgedRightly(env, ps[1..], cur', own[1..]) {
      forall k | 0 <= k < |ps|
        ensures JudgedRightly(env, ps, cur, own, k)
      {
        assert k > 0 ==> JudgedRightly(env, ps[1..], cur', own[1..], k - 1);
      }
    }
  }

  lemma {:induction false} PassMembers<P>(env: Env<P>, kept: nat, rest: seq<P>, rv: seq<Ready>, pending: seq<P>)
    requires |rv| == |rest|
    ensures forall p :: p in Pass(env, kept, rest, rv, pending) ==> p in rest || p in pending
    decreases |rest| + |pending|, |pending|
  {
    if rest != [] {
      if Accepts(env, rest[0], rv[0]) && pending != [] {
        var n := Accepted(env, kept + |rest|, pending);
        PassMembers(env, kept, rest + pending[..n], rv + seq(n, _ => NONE), []);
      } else if Removed(env, rest[0], rv[0]) {
        PassMembers(env, kept, rest[1..], rv[..|rv| - 1], pending);
      } else {
        PassMembers(env, kept + 1, rest[1..], rv[1..], pending);
      }
    }
  }

  lemma HeadsDiffer<P>(x: P, a: seq<P>, b: seq<P>)
    requires x !in b
    ensures [x] + a != b
  {
    assert ([x] + a)[0] == x;
  }

  lemma ConsEqual<P>(x: P, a: seq<P>, b: seq<P>)
    ensures [x] + a == [x] + b <==> a == b
  {
    assert ([x] + a)[1..] == a && ([x] + b)[1..] == b;
  }

  /** Without new connections: the pass keeps exactly the right ones iff everybody is judged rightly. */
  lemma {:induction false} PassKeepsOwnIff<P>(env: Env<P>, kept: nat, ps: seq<P>, cur: seq<Ready>, own: seq<Ready>)
    requires |cur| == |own| == |ps| && Distinct(ps)
    ensures Pass(env, kept, ps, cur, []) == OwnKept(env, ps, own) <==> AllJudgedRightly(env, ps, cur, own)
    decreases |ps|
  {
    if ps != [] {
      var p := ps[0];
      assert p !in ps[1..] && Distinct(ps[1..]);
      if Removed(env, p, cur[0]) != Removed(env, p, own[0]) {
        assert !JudgedRightly(env, ps, cur, own, 0);
        if Removed(env, p, cur[0]) {
          PassMembers(env, kept, ps[1..], cur[..|cur| - 1], []);
          HeadsDiffer(p, OwnKept(env, ps[1..], own[1..]), Pass(env, kept, ps, cur, []));
        } else {
          HeadsDiffer(p, Pass(env, kept + 1, ps[1..], cur[1..], []), OwnKept(env, ps[1..], own[1..]));
        }
      } else {
        JudgedStep(env, ps, cur, own);
        if Removed(env, p, own[0]) {
          PassKeepsOwnIff(env, kept, ps[1..], cur[..|cur| - 1], own[1..]);
        } else {
          PassKeepsOwnIff(env, kept + 1, ps[1..], cur[1..], own[1..]);
          ConsEqual(p, Pass(env, kept + 1, ps[1..], cur[1..], []), OwnKept(env, ps[1..], own[1..]));
        }
      }
    }
  }

  lemma BrokenIsRemoved<P>(env: Env<P>, p: P, r: Ready)
    requires OnlyBreaks(env)
    ensures Removed(env, p, r) <==> Broken(r)
  {
  }

  /** Once the loop stands at a broken entry, everybody is judged by it. */
  lemma {:induction false} JudgedByBroken<P>(env: Env<P>, ps: seq<P>, cur: seq<Ready>, own: seq<Ready>)
    requires OnlyBreaks(env) && |cur| == |own| == |ps| && (ps != [] ==> Broken(cur[0]))
    ensures AllJudgedRightly(env, ps, cur, own) <==> forall i :: 0 <= i < |own| ==> Broken(own[i])
    decreases |ps|
  {
    if ps != [] {
      BrokenIsRemoved(env, ps[0], cur[0]);
      BrokenIsRemoved(env, ps[0], own[0]);
      if Broken(own[0]) {
        JudgedStep(env, ps, cur, own);
        JudgedByBroken(env, ps[1..], cur[..|cur| - 1], own[1..]);
        assert forall i :: 0 < i < |own| ==> own[i] == own[1..][i - 1];
        assert forall i :: 0 <= i < |own[1..]| ==> own[1..][i] == own[i + 1];
      } else {
        assert !JudgedRightly(env, ps, cur, own, 0);
      }
    }
  }

  /** When only hang-ups and errors occur, this is the condition of `KeepsHealthyIff`, and the right result is its result. */
  lemma {:induction false} HealthyIsTheCase<P>(env: Env<P>, ps: seq<P>, rv: seq<Ready>)
    requires OnlyBreaks(env) && |rv| == |ps|
    ensures OwnKept(env, ps, rv) == Healthy(ps, rv)
    ensures AllJudgedRightly(env, ps, rv, rv)
       <==> forall i, j :: 0 <= i < j < |rv| && (rv[i].error || rv[i].hangup) ==> rv[j].error || rv[j].hangup
    decreases |ps|
  {
    if ps != [] {
      BrokenIsRemoved(env, ps[0], rv[0]);
      HealthyIsTheCase(env, ps[1..], rv[1..]);
      if Broken(rv[0]) {
        JudgedByBroken(env, ps, rv, rv);
      } else {
        JudgedStep(env, ps, rv, rv);
        FromSecond(rv);
      }
    }
  }

  // ---------------------------------------------------------------- the same with new connections

  /** The position of the listener, or the length if it is not there. */
  function Where<P(==)>(env: Env<P>, ps: seq<P>): (l: nat)
    ensures l <= |ps| && (l < |ps| ==> env.listener == Some(ps[l]))
    ensures forall k :: 0 <= k < l ==> env.listener != Some(ps[k])
  {
    if ps == [] || env.listener == Some(ps[0]) then 0 else 1 + Where(env, ps[1..])
  }

  /** The connections added: the listener is handled by the events it finds at its place, when some are gone before it. */
  function Newcomers<P(==)>(env: Env<P>, kept: nat, ps: seq<P>, cur: seq<Ready>, own: seq<Ready>, pending: seq<P>): seq<P>
    requires |cur| == |own| == |ps|
  {
    var l := Where(env, ps);
    if l == |ps| || !cur[l - Gone(env, ps, own, l)].readable then []
    else pending[..Accepted(env, kept + |ps| - Gone(env, ps, own, l), pending)]
  }

  /**
    A newcomer has no events of its own. It inherits old ones if its place has come to lie among the
    positions of those removed from the listener on; then these must not remove it.
   */
  ghost predicate NewcomersSpared<P>(env: Env<P>, ps: seq<P>, cur: seq<Ready>, own: seq<Ready>, new': seq<P>)
    requires |cur| == |own| == |ps|
  {
    var all := Gone(env, ps, own, |ps|);
    forall a :: 0 <= a < |new'| && a + Gone(env, ps, own, Where(env, ps)) < all ==> !Removed(env, new'[a], cur[|ps| + a - all])
  }

  /** The pass ends with exactly those whom their own events do not remove, followed by the newcomers. */
  ghost predicate PassIsRight<P>(env: Env<P>, kept: nat, ps: seq<P>, cur: seq<Ready>, own: seq<Ready>, pending: seq<P>)
    requires |cur| == |own| == |ps|
  {
    Pass(env, kept, ps, cur, pending) == OwnKept(env, ps, own) + Newcomers(env, kept, ps, cur, own, pending)
  }

  /** Everybody finds at its place events that judge it like its own. */
  ghost predicate PlacesAgree<P>(env: Env<P>, kept: nat, ps: seq<P>, cur: seq<Ready>, own: seq<Ready>, pending: seq<P>)
    requires |cur| == |own| == |ps|
  {
    AllJudgedRightly(env, ps, cur, own) && NewcomersSpared(env, ps, cur, own, Newcomers(env, kept, ps, cur, own, pending))
  }

  lemma {:induction false} OwnKeptAppend<P>(env: Env<P>, ps: seq<P>, own: seq<Ready>, more: seq<P>, none: seq<Ready>)
    requires |own| == |ps| && |none| == |more| && forall i :: 0 <= i < |none| ==> none[i] == NONE
    ensures OwnKept(env, ps + more, own + none) == OwnKept(env, ps, own) + more
    decreases |ps| + |more|
  {
    if ps == [] {
      assert ps + more == more && own + none == none;
      if more != [] {
        OwnKeptAppend(env, [], [], more[1..], none[1..]);
        assert [] + more[1..] == more[1..] && [] + none[1..] == none[1..];
      }
    } else {
      assert (ps + more)[1..] == ps[1..] + more && (own + none)[1..] == own[1..] + none;
      assert (ps + more)[0] == ps[0] && (own + none)[0] == own[0];
      OwnKeptAppend(env, ps[1..], own[1..], more, none);
      var head, tail := if Removed(env, ps[0], own[0]) then [] else [ps[0]], OwnKept(env, ps[1..], own[1..]);
      assert OwnKept(env, ps + more, own + none) == head + (tail + more) == (head + tail) + more;
    }
  }

  lemma {:induction false} GoneAppend<P>(env: Env<P>, ps: seq<P>, own: seq<Ready>, more: seq<P>, none: seq<Ready>, k: nat)
    requires |own| == |ps| && |none| == |more| && forall i :: 0 <= i < |none| ==> none[i] == NONE
    requires k <= |ps| + |more|
    ensures Gone(env, ps + more, own + none, k) == Gone(env, ps, own, Min(k, |ps|))
    decreases k
  {
    if k > 0 {
      if ps == [] {
        assert ps + more == more && own + none == none;
        GoneAppend(env, [], [], more[1..], none[1..], k - 1);
        assert [] + more[1..] == more[1..] && [] + none[1..] == none[1..];
      } else {
        assert (ps + more)[1..] == ps[1..] + more && (own + none)[1..] == own[1..] + none;
        GoneAppend(env, ps[1..], own[1..], more, none, k - 1);
      }
    }
  }

  /** With connections appended, the condition splits into that for the old ones and that for the newcomers. */
  lemma JudgedAppend<P>(env: Env<P>, ps: seq<P>, cur: seq<Ready>, own: seq<Ready>, more: seq<P>, none: seq<Ready>)
    requires |cur| == |own| == |ps| && |none| == |more| && forall i :: 0 <= i < |none| ==> none[i] == NONE
    requires Where(env, ps) == 0
    ensures AllJudgedRightly(env, ps + more, cur + none, own + none)
       <==> AllJudgedRightly(env, ps, cur, own) && NewcomersSpared(env, ps, cur, own, more)
  {
    var ps', cur', own', all := ps + more, cur + none, own + none, Gone(env, ps, own, |ps|);
    forall k | 0 <= k < |ps|
      ensures JudgedRightly(env, ps', cur', own', k) == JudgedRightly(env, ps, cur, own, k)
    {
      GoneAppend(env, ps, own, more, none, k);
    }
    forall a | 0 <= a < |more|
      ensures JudgedRightly(env, ps', cur', own', |ps| + a) <==> a < all ==> !Removed(env, more[a], cur[|ps| + a - all])
    {
      GoneAppend(env, ps, own, more, none, |ps| + a);
      assert ps'[|ps| + a] == more[a] && own'[|ps| + a] == NONE;
    }
    if AllJudgedRightly(env, ps', cur', own') {
      forall k | 0 <= k < |ps|
        ensures JudgedRightly(env, ps, cur, own, k)
      {
        assert JudgedRightly(env, ps', cur', own', k);
      }
      forall a | 0 <= a < |more| && a < all
        ensures !Removed(env, more[a], cur[|ps| + a - all])
      {
        assert JudgedRightly(env, ps', cur', own', |ps| + a);
      }
    }
    if AllJudgedRightly(env, ps, cur, own) && NewcomersSpared(env, ps, cur, own, more) {
      forall k | 0 <= k < |ps'|
        ensures JudgedRightly(env, ps', cur', own', k)
      {
        if k < |ps| {
          assert JudgedRightly(env, ps, cur, own, k);
        } else {
          assert k == |ps| + (k - |ps|);
        }
      }
    }
  }

  lemma {:induction false} NoListener<P>(env: Env<P>, kept: nat, ps: seq<P>, cur: seq<Ready>, pending: seq<P>)
    requires |cur| == |ps| && forall k :: 0 <= k < |ps| ==> env.listener != Some(ps[k])
    ensures Pass(env, kept, ps, cur, pending) == Pass(env, kept, ps, cur, [])
    decreases |ps|
  {
    if ps != [] {
      if Removed(env, ps[0], cur[0]) {
        NoListener(env, kept, ps[1..], cur[..|cur| - 1], pending);
      } else {
        NoListener(env, kept + 1, ps[1..], cur[1..], pending);
      }
    }
  }

  /** One position on, nothing of this has changed. */
  lemma TailSame<P>(env: Env<P>, kept: nat, ps: seq<P>, cur: seq<Ready>, own: seq<Ready>, pending: seq<P>, new': seq<P>)
    requires |cur| == |own| == |ps| && ps != [] && env.listener != Some(ps[0])
    ensures var gone := Removed(env, ps[0], own[0]);
      var (kept', cur') := (if gone then kept else kept + 1, if gone then cur[..|cur| - 1] else cur[1..]);
      && Newcomers(env, kept', ps[1..], cur', own[1..], pending) == Newcomers(env, kept, ps, cur, own, pending)
      && (NewcomersSpared(env, ps[1..], cur', own[1..], new') <==> NewcomersSpared(env, ps, cur, own, new'))
  {
    var gone := Removed(env, ps[0], own[0]);
    var cur' := if gone then cur[..|cur| - 1] else cur[1..];
    var l := Where(env, ps);
    assert Where(env, ps[1..]) == l - 1;
    var all, before := Gone(env, ps, own, |ps|), Gone(env, ps, own, l);
    var all', before' := Gone(env, ps[1..], own[1..], |ps| - 1), Gone(env, ps[1..], own[1..], l - 1);
    assert all' == all - (if gone then 1 else 0) && before' == before - (if gone then 1 else 0);
    if l < |ps| {
      assert cur'[l - 1 - before'] == cur[l - before];
    }
    forall a | 0 <= a < |new'| && a + before < all
      ensures Removed(env, new'[a], cur'[|ps| - 1 + a - all']) == Removed(env, new'[a], cur[|ps| + a - all])
    {
      assert cur'[|ps| - 1 + a - all'] == cur[|ps| + a - all];
    }
  }

  lemma DistinctTail<P>(ps: seq<P>, more: seq<P>)
    requires ps != [] && Distinct(ps + more)
    ensures Distinct(ps[1..] + more) && Distinct(ps)
  {
    assert ps[1..] + more == (ps + more)[1..];
    assert ps == (ps + more)[..|ps|];
  }

  lemma ListenerAccepts<P>(env: Env<P>, kept: nat, ps: seq<P>, cur: seq<Ready>, own: seq<Ready>, pending: seq<P>)
    requires |cur| == |own| == |ps| && ps != [] && Distinct(ps + pending) && env.listener == Some(ps[0])
    requires cur[0].readable && pending != []
    ensures PassIsRight(env, kept, ps, cur, own, pending) <==> PlacesAgree(env, kept, ps, cur, own, pending)
  {
    hide AllJudgedRightly, NewcomersSpared, OwnKept, Removed;
    var n := Accepted(env, kept + |ps|, pending);
    var more, none := pending[..n], seq(n, _ => NONE);
    assert Newcomers(env, kept, ps, cur, own, pending) == more;
    assert ps + more == (ps + pending)[..|ps| + n];
    PassKeepsOwnIff(env, kept, ps + more, cur + none, own + none);
    OwnKeptAppend(env, ps, own, more, none);
    JudgedAppend(env, ps, cur, own, more, none);
  }

  lemma ListenerIdle<P>(env: Env<P>, kept: nat, ps: seq<P>, cur: seq<Ready>, own: seq<Ready>, pending: seq<P>)
    requires |cur| == |own| == |ps| && ps != [] && Distinct(ps + pending) && env.listener == Some(ps[0])
    requires !cur[0].readable || pending == []
    ensures PassIsRight(env, kept, ps, cur, own, pending) <==> PlacesAgree(env, kept, ps, cur, own, pending)
  {
    hide AllJudgedRightly, OwnKept, Removed;
    assert Newcomers(env, kept, ps, cur, own, pending) == [];
    SplitAt(ps, 0, pending);
    DistinctTail(ps, pending);
    if Removed(env, ps[0], cur[0]) {
      NoListener(env, kept, ps[1..], cur[..|cur| - 1], pending);
    } else {
      NoListener(env, kept + 1, ps[1..], cur[1..], pending);
    }
    PassKeepsOwnIff(env, kept, ps, cur, own);
  }

  lemma HeadMisjudged<P>(env: Env<P>, kept: nat, ps: seq<P>, cur: seq<Ready>, own: seq<Ready>, pending: seq<P>)
    requires |cur| == |own| == |ps| && ps != [] && ps[0] !in ps[1..] + pending && env.listener != Some(ps[0])
    requires Removed(env, ps[0], cur[0]) != Removed(env, ps[0], own[0])
    ensures !PassIsRight(env, kept, ps, cur, own, pending) && !PlacesAgree(env, kept, ps, cur, own, pending)
  {
    assert !JudgedRightly(env, ps, cur, own, 0);
    var new' := Newcomers(env, kept, ps, cur, own, pending);
    var mine := OwnKept(env, ps[1..], own[1..]);
    if Removed(env, ps[0], cur[0]) {
      PassMembers(env, kept, ps[1..], cur[..|cur| - 1], pending);
      HeadsDiffer(ps[0], mine + new', Pass(env, kept, ps, cur, pending));
      assert OwnKept(env, ps, own) + new' == [ps[0]] + (mine + new');
    } else {
      HeadsDiffer(ps[0], Pass(env, kept + 1, ps[1..], cur[1..], pending), mine + new');
      assert OwnKept(env, ps, own) == mine;
    }
  }

  /** Prepending to one part of the two sides. */
  lemma ConsBoth<P>(x: P, a: seq<P>, b: seq<P>, c: seq<P>)
    ensures ([x] + a == ([x] + b) + c) <==> a == b + c
  {
    assert ([x] + b) + c == [x] + (b + c);
    ConsEqual(x, a, b + c);
  }

  lemma HeadKept<P>(env: Env<P>, ps: seq<P>, own: seq<Ready>)
    requires |own| == |ps| && ps != []
    ensures OwnKept(env, ps, own)
         == if Removed(env, ps[0], own[0]) then OwnKept(env, ps[1..], own[1..]) else [ps[0]] + OwnKept(env, ps[1..], own[1..])
  {
    hide Removed;
  }

  lemma PassStep<P>(env: Env<P>, kept: nat, ps: seq<P>, cur: seq<Ready>, pending: seq<P>)
    requires |cur| == |ps| && ps != [] && env.listener != Some(ps[0])
    ensures Pass(env, kept, ps, cur, pending)
         == if Removed(env, ps[0], cur[0]) then Pass(env, kept, ps[1..], cur[..|cur| - 1], pending)
            else [ps[0]] + Pass(env, kept + 1, ps[1..], cur[1..], pending)
  {
    hide Removed;
  }

  /** One position on, both sides of the equivalence say the same. */
  lemma HeadJudged<P>(env: Env<P>, kept: nat, ps: seq<P>, cur: seq<Ready>, own: seq<Ready>, pending: seq<P>)
    requires |cur| == |own| == |ps| && ps != [] && env.listener != Some(ps[0])
    requires Removed(env, ps[0], cur[0]) == Removed(env, ps[0], own[0])
    ensures var gone := Removed(env, ps[0], own[0]);
      var (kept', cur') := (if gone then kept else kept + 1, if gone then cur[..|cur| - 1] else cur[1..]);
      && (PassIsRight(env, kept, ps, cur, own, pending) <==> PassIsRight(env, kept', ps[1..], cur', own[1..], pending))
      && (PlacesAgree(env, kept, ps, cur, own, pending) <==> PlacesAgree(env, kept', ps[1..], cur', own[1..], pending))
  {
    hide Newcomers, NewcomersSpared, AllJudgedRightly, Removed, Pass, OwnKept;
    var new' := Newcomers(env, kept, ps, cur, own, pending);
    JudgedStep(env, ps, cur, own);
    TailSame(env, kept, ps, cur, own, pending, new');
    HeadKept(env, ps, own);
    PassStep(env, kept, ps, cur, pending);
    if !Removed(env, ps[0], own[0]) {
      ConsBoth(ps[0], Pass(env, kept + 1, ps[1..], cur[1..], pending), OwnKept(env, ps[1..], own[1..]), new');
    }
  }

  /**
    The general case, new connections included: the pass ends with exactly those whom their own events do
    not remove, followed by the newcomers, if and only if everybody finds at its place events that
    judge it like its own.
   */
  lemma {:induction false} PassIsRightIff<P>(env: Env<P>, kept: nat, ps: seq<P>, cur: seq<Ready>, own: seq<Ready>, pending: seq<P>)
    requires |cur| == |own| == |ps| && Distinct(ps + pending)
    ensures PassIsRight(env, kept, ps, cur, own, pending) <==> PlacesAgree(env, kept, ps, cur, own, pending)
    decreases |ps|
  {
    if ps != [] {
      hide *;
      SplitAt(ps, 0, pending);
      if env.listener == Some(ps[0]) && cur[0].readable && pending != [] {
        ListenerAccepts(env, kept, ps, cur, own, pending);
      } else if env.listener == Some(ps[0]) {
        ListenerIdle(env, kept, ps, cur, own, pending);
      } else if Removed(env, ps[0], cur[0]) != Removed(env, ps[0], own[0]) {
        HeadMisjudged(env, kept, ps, cur, own, pending);
      } else {
        HeadJudged(env, kept, ps, cur, own, pending);
        DistinctTail(ps, pending);
        if Removed(env, ps[0], own[0]) {
          PassIsRightIff(env, kept, ps[1..], cur[..|cur| - 1], own[1..], pending);
        } else {
          PassIsRightIff(env, kept + 1, ps[1..], cur[1..], own[1..], pending);
        }
      }
    }
  }

  /** A closed connection before a broken one: the broken one is judged by the other's events and stays. */
  lemma ClosedSavesBroken<P>(a: P, b: P)
    requires a != b
    ensures var env := Env(2, None, {}, {a});
      var rv := [Ready(true, false, false, false), Ready(false, false, true, false)];
      Pass(env, 0, [a, b], rv, []) == [b] && OwnKept(env, [a, b], rv) == []
  {
    var env := Env(2, None, {}, {a});
    var rv := [Ready(true, false, false, false), Ready(false, false, true, false)];
    assert [a, b][1..] == [b] && rv[..1] == [rv[0]] && rv[1..] == [rv[1]];
    assert [b][1..] == [] && [rv[0]][1..] == [] && [rv[1]][1..] == [];
    assert Pass(env, 0, [b], [rv[0]], []) == [b] + Pass(env, 1, [], [], []);
    assert OwnKept(env, [b], [rv[1]]) == OwnKept(env, [], []);
  }
}
