/**
  The request broker (src/request/ft_req_brkr.cpp): one queue and one termination flag behind a mutex
  and a condition variable, a main thread that queues requests and finally stops the workers, and
  worker threads. Threads interleave between any two steps; wake-ups may be spurious.
 */
module Broker {
  import opened Sums

  /** A message with the connection it came from; only its identity matters here. */
  datatype Request = Request(id: nat)

  /** Where a worker is in `RequestBrokerWorker::run`. */
  datatype Worker =
    | LoopTest                  // reads the termination flag, without the mutex
    | WantLock                  // blocked on the mutex
    | Inside                    // holds the mutex, tests the condition
    | Waiting(notified: bool)   // in `wait`, mutex released
    | Handling(r: Request)      // runs the request handler
    | Exited

  /** Where the main thread is in `queueRequest` or `stopWorkers`. */
  datatype Main =
    | Idle
    | Pushing(r: Request) | Notifying | Unlocking
    | Terminating | Waking | Releasing
    | Joining(i: nat)
    | Stopped

  datatype Owner = Nobody | ByMain | ByWorker(i: nat)

  /** `pushed`, `popped` and `handled` record the history; pairs name the worker. */
  datatype State = State(
    owner: Owner, queue: seq<Request>, terminate: bool, workers: seq<Worker>, main: Main,
    pushed: seq<Request>, popped: seq<(nat, Request)>, handled: seq<(nat, Request)>)

  datatype Action = Queue(r: Request) | Stop | MainStep | WorkerStep(i: nat) | Spurious(i: nat)

  /** After `startWorkers(n)`. */
  function Init(n: nat): State {
    State(Nobody, [], false, seq(n, _ => LoopTest), Idle, [], [], [])
  }

  predicate Enabled(s: State, a: Action) {
    match a
    case Queue(_) => s.main.Idle? && s.owner.Nobody?
    case Stop => s.main.Idle? && s.owner.Nobody?
    case MainStep =>
      (match s.main
       case Idle => false
       case Stopped => false
       case Joining(i) => i < |s.workers| ==> s.workers[i].Exited?
       case _ => true)
    case WorkerStep(i) =>
      && i < |s.workers|
      && (match s.workers[i]
          case LoopTest => true
          case WantLock => s.owner.Nobody?
          case Inside => true
          case Waiting(notified) => notified && s.owner.Nobody?
          case Handling(_) => true
          case Exited => false)
    case Spurious(i) => i < |s.workers| && s.workers[i] == Waiting(false)
  }

  /** `notify_all` */
  function NotifyAll(ws: seq<Worker>): (r: seq<Worker>)
    ensures |r| == |ws|
    ensures forall i :: 0 <= i < |ws| ==> r[i] == if ws[i].Waiting? then Waiting(true) else ws[i]
  {
    seq(|ws|, i requires 0 <= i < |ws| => if ws[i].Waiting? then Waiting(true) else ws[i])
  }

  function MainMoved(s: State): State
    requires Enabled(s, MainStep)
  {
    match s.main
    case Pushing(r) => s.(queue := s.queue + [r], pushed := s.pushed + [r], main := Notifying)
    case Notifying => s.(workers := NotifyAll(s.workers), main := Unlocking)
    case Unlocking => s.(owner := Nobody, main := Idle)
    case Terminating => s.(terminate := true, main := Waking)
    case Waking => s.(workers := NotifyAll(s.workers), main := Releasing)
    case Releasing => s.(owner := Nobody, main := Joining(0))
    case Joining(i) => s.(main := if i < |s.workers| then Joining(i + 1) else Stopped)
  }

  function WorkerMoved(s: State, i: nat): State
    requires Enabled(s, WorkerStep(i))
  {
    match s.workers[i]
    case LoopTest => s.(workers := s.workers[i := if s.terminate then Exited else WantLock])
    case WantLock => s.(owner := ByWorker(i), workers := s.workers[i := Inside])
    case Inside =>
      if s.queue == [] && !s.terminate then s.(owner := Nobody, workers := s.workers[i := Waiting(false)])
      else if s.terminate then s.(owner := Nobody, workers := s.workers[i := LoopTest])
      else s.(owner := Nobody, workers := s.workers[i := Handling(s.queue[0])],
              queue := s.queue[1..], popped := s.popped + [(i, s.queue[0])])
    case Waiting(_) => s.(owner := ByWorker(i), workers := s.workers[i := Inside])
    case Handling(r) => s.(workers := s.workers[i := LoopTest], handled := s.handled + [(i, r)])
  }

  function Apply(s: State, a: Action): State
    requires Enabled(s, a)
  {
    match a
    case Queue(r) => s.(owner := ByMain, main := Pushing(r))
    case Stop => s.(owner := ByMain, main := Terminating)
    case MainStep => MainMoved(s)
    case WorkerStep(i) => WorkerMoved(s, i)
    case Spurious(i) => s.(workers := s.workers[i := Waiting(true)])
  }

  predicate Runs(s: State, acts: seq<Action>)
    decreases |acts|
  {
    acts == [] || (Enabled(s, acts[0]) && Runs(Apply(s, acts[0]), acts[1..]))
  }

  function After(s: State, acts: seq<Action>): State
    requires Runs(s, acts)
    decreases |acts|
  {
    if acts == [] then s else After(Apply(s, acts[0]), acts[1..])
  }

  // ---------------------------------------------------------------- what can be observed of a run

  /** The requests handed to `queueRequest`, in order. */
  function Handed(acts: seq<Action>): seq<Request> {
    if acts == [] then [] else (if acts[0].Queue? then [acts[0].r] else []) + Handed(acts[1..])
  }

  /** A request handed over but not in the queue yet. */
  function Coming(m: Main): seq<Request> {
    if m.Pushing? then [m.r] else []
  }

  /** The handler calls that begin in a step: the worker was not in the handler before and is afterwards. */
  function BeginsIn(s: State, a: Action): seq<(nat, Request)>
    requires Enabled(s, a)
  {
    var ws' := Apply(s, a).workers;
    if a.WorkerStep? && a.i < |ws'| && !s.workers[a.i].Handling? && ws'[a.i].Handling? then [(a.i, ws'[a.i].r)] else []
  }

  function EndsIn(s: State, a: Action): seq<(nat, Request)>
    requires Enabled(s, a)
  {
    var ws' := Apply(s, a).workers;
    if a.WorkerStep? && a.i < |ws'| && s.workers[a.i].Handling? && !ws'[a.i].Handling? then [(a.i, s.workers[a.i].r)] else []
  }

  /** All handler calls of a run, in the order in which they begin, with the worker that makes them. */
  function Begun(s: State, acts: seq<Action>): seq<(nat, Request)>
    requires Runs(s, acts)
    decreases |acts|
  {
    if acts == [] then [] else BeginsIn(s, acts[0]) + Begun(Apply(s, acts[0]), acts[1..])
  }

  /** The same in the order in which they end. */
  function Ended(s: State, acts: seq<Action>): seq<(nat, Request)>
    requires Runs(s, acts)
    decreases |acts|
  {
    if acts == [] then [] else EndsIn(s, acts[0]) + Ended(Apply(s, acts[0]), acts[1..])
  }

  lemma HistoryStep(s: State, a: Action)
    requires Enabled(s, a)
    ensures var s' := Apply(s, a);
      && s'.pushed + Coming(s'.main) == s.pushed + Coming(s.main) + (if a.Queue? then [a.r] else [])
      && s'.popped == s.popped + BeginsIn(s, a) && s'.handled == s.handled + EndsIn(s, a)
  {
  }

  lemma Regroup<X>(a: seq<X>, b: seq<X>, c: seq<X>, d: seq<X>, e: seq<X>)
    requires d == a + b && e == d + c
    ensures e == a + (b + c)
  {
  }

  /** The histories kept in the state are what can be observed. */
  lemma {:induction false} HistoriesAreTrue(s: State, acts: seq<Action>)
    requires Runs(s, acts)
    ensures var s' := After(s, acts);
      && s'.pushed + Coming(s'.main) == s.pushed + Coming(s.main) + Handed(acts)
      && s'.popped == s.popped + Begun(s, acts)
      && s'.handled == s.handled + Ended(s, acts)
    decreases |acts|
  {
    if acts != [] {
      var a, s1, s' := acts[0], Apply(s, acts[0]), After(s, acts);
      var handed := if a.Queue? then [a.r] else [];
      HistoryStep(s, a);
      hide Apply, Enabled, BeginsIn, EndsIn, Coming;
      HistoriesAreTrue(s1, acts[1..]);
      Regroup(s.pushed + Coming(s.main), handed, Handed(acts[1..]), s1.pushed + Coming(s1.main), s'.pushed + Coming(s'.main));
      Regroup(s.popped, BeginsIn(s, a), Begun(s1, acts[1..]), s1.popped, s'.popped);
      Regroup(s.handled, EndsIn(s, a), Ended(s1, acts[1..]), s1.handled, s'.handled);
    }
  }

  // ---------------------------------------------------------------- the invariant

  function Requests(l: seq<(nat, Request)>): seq<Request> {
    if l == [] then [] else Requests(l[..|l| - 1]) + [l[|l| - 1].1]
  }

  /** The requests of one worker, in order. */
  function Of(l: seq<(nat, Request)>, i: nat): seq<Request> {
    if l == [] then [] else Of(l[..|l| - 1], i) + (if l[|l| - 1].0 == i then [l[|l| - 1].1] else [])
  }

  function Held(w: Worker): seq<Request> {
    if w.Handling? then [w.r] else []
  }

  predicate MainLocks(m: Main) {
    m.Pushing? || m.Notifying? || m.Unlocking? || m.Terminating? || m.Waking? || m.Releasing?
  }

  /** The mutex excludes: it is held by exactly the thread inside a critical region. */
  ghost predicate Exclusive(s: State) {
    && (s.owner.ByMain? <==> MainLocks(s.main))
    && (forall i :: 0 <= i < |s.workers| ==> (s.workers[i].Inside? <==> s.owner == ByWorker(i)))
    && (s.owner.ByWorker? ==> s.owner.i < |s.workers|)
  }

  /** A waiting worker that has not been notified has nothing to be notified of. */
  ghost predicate NoLostWakeup(s: State) {
    forall i :: 0 <= i < |s.workers| && s.workers[i] == Waiting(false) ==>
      (s.queue == [] || s.main.Notifying?) && (!s.terminate || s.main.Waking?)
  }

  /** The worker has handled what it popped, except for the request it is handling now. */
  predicate Settled(s: State, i: nat)
    requires i < |s.workers|
  {
    Of(s.popped, i) == Of(s.handled, i) + Held(s.workers[i])
  }

  ghost predicate Conserved(s: State) {
    && s.pushed == Requests(s.popped) + s.queue
    && forall i :: 0 <= i < |s.workers| ==> Settled(s, i)
  }

  ghost predicate Stopping(s: State) {
    && (s.terminate <==> s.main.Waking? || s.main.Releasing? || s.main.Joining? || s.main.Stopped?)
    && (s.main.Joining? ==> s.main.i <= |s.workers| && forall i :: 0 <= i < s.main.i ==> s.workers[i].Exited?)
    && (s.main.Stopped? ==> forall i :: 0 <= i < |s.workers| ==> s.workers[i].Exited?)
    && (forall i :: 0 <= i < |s.workers| && s.workers[i].Exited? ==> s.terminate)
  }

  ghost predicate Inv(s: State) {
    Exclusive(s) && NoLostWakeup(s) && Conserved(s) && Stopping(s)
  }

  lemma Appended(l: seq<(nat, Request)>, i: nat, r: Request)
    ensures Requests(l + [(i, r)]) == Requests(l) + [r]
    ensures Of(l + [(i, r)], i) == Of(l, i) + [r]
    ensures forall j: nat :: j != i ==> Of(l + [(i, r)], j) == Of(l, j)
  {
    assert (l + [(i, r)])[..|l|] == l;
  }

  lemma HandleKeepsConserved(s: State, i: nat)
    requires Conserved(s) && Enabled(s, WorkerStep(i)) && s.workers[i].Handling?
    ensures Conserved(WorkerMoved(s, i))
  {
    Appended(s.handled, i, s.workers[i].r);
    hide Of, Requests;
    var s' := WorkerMoved(s, i);
    forall j | 0 <= j < |s.workers|
      ensures Settled(s', j)
    {
      assert Settled(s, j);
    }
  }

  lemma MoveFirst(done: seq<Request>, queue: seq<Request>)
    requires queue != []
    ensures done + [queue[0]] + queue[1..] == done + queue
  {
  }

  lemma PopKeepsConserved(s: State, i: nat)
    requires Conserved(s) && Enabled(s, WorkerStep(i)) && s.workers[i].Inside? && s.queue != [] && !s.terminate
    ensures Conserved(WorkerMoved(s, i))
  {
    Appended(s.popped, i, s.queue[0]);
    hide Of, Requests;
    var s' := WorkerMoved(s, i);
    MoveFirst(Requests(s.popped), s.queue);
    forall j | 0 <= j < |s.workers|
      ensures Settled(s', j)
    {
      assert Settled(s, j);
      assert j == i ==> Of(s.popped, j) == Of(s.handled, j);
    }
  }

  lemma OtherKeepsConserved(s: State, i: nat)
    requires Conserved(s) && Enabled(s, WorkerStep(i)) && !s.workers[i].Handling?
    requires s.workers[i].Inside? ==> s.queue == [] || s.terminate
    ensures Conserved(WorkerMoved(s, i))
  {
    hide Of, Requests;
    var s' := WorkerMoved(s, i);
    forall j | 0 <= j < |s.workers|
      ensures Settled(s', j)
    {
      assert Settled(s, j);
    }
  }

  lemma WorkerKeepsExclusive(s: State, i: nat)
    requires Inv(s) && Enabled(s, WorkerStep(i))
    ensures Exclusive(WorkerMoved(s, i))
  {
    hide Conserved, NoLostWakeup, Stopping;
  }

  lemma WorkerKeepsRest(s: State, i: nat)
    requires Inv(s) && Enabled(s, WorkerStep(i))
    ensures NoLostWakeup(WorkerMoved(s, i)) && Stopping(WorkerMoved(s, i))
  {
    hide Conserved;
  }

  lemma WorkerKeepsInv(s: State, i: nat)
    requires Inv(s) && Enabled(s, WorkerStep(i))
    ensures Inv(WorkerMoved(s, i))
  {
    WorkerKeepsExclusive(s, i);
    WorkerKeepsRest(s, i);
    hide WorkerMoved, Conserved, Exclusive, NoLostWakeup, Stopping;
    if s.workers[i].Handling? {
      HandleKeepsConserved(s, i);
    } else if s.workers[i].Inside? && s.queue != [] && !s.terminate {
      PopKeepsConserved(s, i);
    } else {
      OtherKeepsConserved(s, i);
    }
  }

  lemma MainKeepsInv(s: State)
    requires Inv(s) && Enabled(s, MainStep)
    ensures Inv(MainMoved(s))
  {
    hide Of, Requests;
    var s' := MainMoved(s);
    forall j | 0 <= j < |s.workers|
      ensures Settled(s', j)
    {
      assert Settled(s, j);
    }
    if s.main.Pushing? {
      assert s.pushed + [s.main.r] == Requests(s.popped) + (s.queue + [s.main.r]);
    }
  }

  lemma ApplyKeepsInv(s: State, a: Action)
    requires Inv(s) && Enabled(s, a)
    ensures Inv(Apply(s, a)) && |Apply(s, a).workers| == |s.workers|
  {
    hide Of, Requests;
    match a {
      case WorkerStep(i) => WorkerKeepsInv(s, i);
      case MainStep => MainKeepsInv(s);
      case _ =>
        forall j | 0 <= j < |s.workers|
          ensures Settled(Apply(s, a), j)
        {
          assert Settled(s, j);
        }
    }
  }

  lemma {:induction false} RunsKeepInv(s: State, acts: seq<Action>)
    requires Inv(s) && Runs(s, acts)
    ensures Inv(After(s, acts)) && |After(s, acts).workers| == |s.workers|
    decreases |acts|
  {
    if acts != [] {
      ApplyKeepsInv(s, acts[0]);
      RunsKeepInv(Apply(s, acts[0]), acts[1..]);
    }
  }

  // ---------------------------------------------------------------- conservation and order

  lemma FromStart(n: nat, acts: seq<Action>)
    requires Runs(Init(n), acts)
    ensures var s := After(Init(n), acts);
      Handed(acts) == s.pushed + Coming(s.main) && s.popped == Begun(Init(n), acts) && s.handled == Ended(Init(n), acts)
  {
    HistoriesAreTrue(Init(n), acts);
  }

  /**
    In every run: what was handed to the broker is what handlers were called for, in that order, followed by the queue and
    the request just coming in; every worker has finished its calls, except for the one it is in now; the mutex excludes.
   */
  lemma NothingLostNothingTwice(n: nat, acts: seq<Action>)
    requires Runs(Init(n), acts)
    ensures var s := After(Init(n), acts);
      && |s.workers| == n
      && Handed(acts) == Requests(Begun(Init(n), acts)) + s.queue + Coming(s.main)
      && (forall i :: 0 <= i < n ==> Of(Begun(Init(n), acts), i) == Of(Ended(Init(n), acts), i) + Held(s.workers[i]))
      && (forall i, j :: 0 <= i < n && 0 <= j < n && s.workers[i].Inside? && s.workers[j].Inside? ==> i == j)
  {
    RunsKeepInv(Init(n), acts);
    FromStart(n, acts);
    var s := After(Init(n), acts);
    forall i | 0 <= i < n
      ensures Of(s.popped, i) == Of(s.handled, i) + Held(s.workers[i])
    {
      assert Settled(s, i);
    }
  }

  /** Entries name only worker 0. */
  predicate OnlyZero(l: seq<(nat, Request)>) {
    forall k :: 0 <= k < |l| ==> l[k].0 == 0
  }

  lemma {:induction false} OfZero(l: seq<(nat, Request)>)
    requires OnlyZero(l)
    ensures Of(l, 0) == Requests(l)
    decreases |l|
  {
    if l != [] {
      OfZero(l[..|l| - 1]);
    }
  }

  lemma StepNames(s: State, a: Action)
    requires |s.workers| == 1 && OnlyZero(s.popped) && OnlyZero(s.handled) && Enabled(s, a)
    ensures OnlyZero(Apply(s, a).popped) && OnlyZero(Apply(s, a).handled)
  {
  }

  lemma {:induction false} OneWorkerNames(s: State, acts: seq<Action>)
    requires |s.workers| == 1 && OnlyZero(s.popped) && OnlyZero(s.handled) && Runs(s, acts) && Inv(s)
    ensures OnlyZero(After(s, acts).popped) && OnlyZero(After(s, acts).handled)
    decreases |acts|
  {
    if acts != [] {
      ApplyKeepsInv(s, acts[0]);
      StepNames(s, acts[0]);
      hide Inv, Apply, Enabled, OnlyZero;
      OneWorkerNames(Apply(s, acts[0]), acts[1..]);
    }
  }

  /** With one worker (the client) requests are handled in the order they were queued. */
  lemma OneWorkerIsFifo(acts: seq<Action>)
    requires Runs(Init(1), acts)
    ensures var s := After(Init(1), acts);
      |s.workers| == 1 && Handed(acts) == Requests(Ended(Init(1), acts)) + Held(s.workers[0]) + s.queue + Coming(s.main)
  {
    RunsKeepInv(Init(1), acts);
    FromStart(1, acts);
    OneWorkerNames(Init(1), acts);
    var s := After(Init(1), acts);
    OfZero(s.popped);
    OfZero(s.handled);
    assert Settled(s, 0);
  }

  // ---------------------------------------------------------------- no lost wake-up

  /** Outside the main thread's own critical regions a worker sleeps only when there is nothing to do. */
  lemma SleepsOnlyWhenIdle(n: nat, acts: seq<Action>, i: nat)
    requires Runs(Init(n), acts) && i < n
    ensures var s := After(Init(n), acts);
      && |s.workers| == n
      && (s.workers[i] == Waiting(false) && !s.owner.ByMain? ==> s.queue == [] && !s.terminate)
  {
    RunsKeepInv(Init(n), acts);
  }

  /** A queued request is never stuck: some thread can go on, and it is not by waking spuriously. */
  lemma QueuedMeansProgress(n: nat, acts: seq<Action>)
    requires Runs(Init(n), acts) && n > 0
    ensures var s := After(Init(n), acts);
      s.queue != [] && !s.terminate ==> Enabled(s, MainStep) || exists i: nat :: Enabled(s, WorkerStep(i))
  {
    RunsKeepInv(Init(n), acts);
    var s := After(Init(n), acts);
    if s.queue != [] && !s.terminate {
      var i := if s.owner.ByWorker? then s.owner.i else 0;
      assert s.workers[i] != Waiting(false) || s.main.Notifying?;
      assert Enabled(s, MainStep) || Enabled(s, WorkerStep(i));
    }
  }

  /** Steps a worker makes at most before it pops a request, while there is one. */
  function Distance(w: Worker): nat {
    match w
    case Exited => 0
    case Inside => 0
    case WantLock => 1
    case Waiting(_) => 1
    case LoopTest => 2
    case Handling(_) => 3
  }

  function Distances(ws: seq<Worker>): (r: seq<nat>)
    ensures |r| == |ws|
  {
    seq(|ws|, i requires 0 <= i < |ws| => Distance(ws[i]))
  }

  function WorkerSteps(acts: seq<Action>): nat {
    if acts == [] then 0 else (if acts[0].WorkerStep? then 1 else 0) + WorkerSteps(acts[1..])
  }

  lemma {:induction false} OnlyMore(s: State, acts: seq<Action>)
    requires Runs(s, acts)
    ensures |s.popped| <= |After(s, acts).popped| && s.pushed <= After(s, acts).pushed
    ensures s.terminate ==> After(s, acts).terminate
    decreases |acts|
  {
    if acts != [] {
      OnlyMore(Apply(s, acts[0]), acts[1..]);
    }
  }

  /** Every step of a worker brings it closer to the queue, or pops. */
  lemma StepCloser(s: State, a: Action)
    requires Enabled(s, a) && s.queue != [] && !s.terminate
    ensures var s' := Apply(s, a);
      Total(Distances(s'.workers)) + (if a.WorkerStep? then 1 else 0) <= Total(Distances(s.workers)) + 4 * (|s'.popped| - |s.popped|)
  {
    var ws, ws' := s.workers, Apply(s, a).workers;
    if a.WorkerStep? {
      TotalUpdate(Distances(ws), a.i, Distance(ws'[a.i]));
      assert Distances(ws') == Distances(ws)[a.i := Distance(ws'[a.i])];
    } else {
      assert Distances(ws') == Distances(ws);
    }
  }

  lemma {:induction false} StepsBound(s: State, acts: seq<Action>, p: nat)
    requires Runs(s, acts) && !After(s, acts).terminate
    requires p < |s.queue| && |After(s, acts).popped| <= |s.popped| + p
    ensures WorkerSteps(acts) + Total(Distances(After(s, acts).workers))
         <= Total(Distances(s.workers)) + 4 * (|After(s, acts).popped| - |s.popped|)
    decreases |acts|
  {
    if acts != [] {
      var s' := Apply(s, acts[0]);
      OnlyMore(s', acts[1..]);
      assert !s.terminate;
      StepCloser(s, acts[0]);
      var pops := |s'.popped| - |s.popped|;
      assert 0 <= pops <= 1 && |s'.queue| >= |s.queue| - pops;
      hide Distances, Apply, Enabled;
      StepsBound(s', acts[1..], p - pops);
    }
  }

  lemma {:induction false} DistancesBound(ws: seq<nat>)
    requires forall i :: 0 <= i < |ws| ==> ws[i] <= 3
    ensures Total(ws) <= 3 * |ws|
    decreases |ws|
  {
    if ws != [] {
      DistancesBound(ws[1..]);
    }
  }

  lemma RequestsAt(l: seq<(nat, Request)>)
    ensures |Requests(l)| == |l| && forall i :: 0 <= i < |l| ==> Requests(l)[i] == l[i].1
  {
  }

  lemma PoppedInOrder(s: State, s': State, p: nat)
    requires Conserved(s) && Conserved(s') && s.pushed <= s'.pushed && p < |s.queue| && |s'.popped| > |s.popped| + p
    ensures s'.popped[|s.popped| + p].1 == s.queue[p]
  {
    RequestsAt(s.popped);
    RequestsAt(s'.popped);
    var k := |s.popped| + p;
    assert s.pushed[k] == s.queue[p];
    assert s'.pushed[k] == Requests(s'.popped)[k];
  }

  lemma Middle<X>(all: seq<X>, a: seq<X>, b: seq<X>, c: seq<X>, p: nat)
    requires all == a + b + c || (all == a + b && c == [])
    requires |all| > |a| + p
    ensures p < |b| ==> all[|a| + p] == b[p]
    ensures c == [] ==> p < |b|
  {
  }

  lemma PoppedInTime(n: nat, before: seq<Action>, later: seq<Action>, p: nat)
    requires Runs(Init(n), before) && Runs(After(Init(n), before), later)
    requires var s := After(Init(n), before); p < |s.queue| && !After(s, later).terminate && WorkerSteps(later) > 3 * n + 4 * p
    ensures var s := After(Init(n), before);
      var s' := After(s, later);
      |s'.popped| > |s.popped| + p && s'.popped[|s.popped| + p].1 == s.queue[p]
  {
    RunsKeepInv(Init(n), before);
    var s := After(Init(n), before);
    RunsKeepInv(s, later);
    var s' := After(s, later);
    OnlyMore(s, later);
    if |s'.popped| <= |s.popped| + p {
      StepsBound(s, later, p);
      DistancesBound(Distances(s.workers));
    }
    hide Exclusive, NoLostWakeup, Stopping, Runs, After, Conserved;
    PoppedInOrder(s, s', p);
  }

  /**
    A queued request with `p` requests before it has its handler called within 3 n + 4 p + 1 steps of the `n` workers,
    whatever the main thread does meanwhile except setting the flag; and it is the next but `p` of those handed over.
   */
  lemma QueuedIsPopped(n: nat, before: seq<Action>, later: seq<Action>, p: nat)
    requires Runs(Init(n), before) && Runs(After(Init(n), before), later)
    requires var s := After(Init(n), before); p < |s.queue| && !After(s, later).terminate && WorkerSteps(later) > 3 * n + 4 * p
    ensures var s := After(Init(n), before);
      && |Begun(s, later)| > p && Begun(s, later)[p].1 == s.queue[p]
      && |Begun(Init(n), before)| + p < |Handed(before)| && s.queue[p] == Handed(before)[|Begun(Init(n), before)| + p]
  {
    hide *;
    var s := After(Init(n), before);
    PoppedInTime(n, before, later, p);
    NothingLostNothingTwice(n, before);
    RequestsAt(Begun(Init(n), before));
    HistoriesAreTrue(s, later);
    Middle(Handed(before), Requests(Begun(Init(n), before)), s.queue, Coming(s.main), p);
    Middle(After(s, later).popped, s.popped, Begun(s, later), [], p);
  }

  // ---------------------------------------------------------------- shutdown

  lemma {:induction false} NothingPoppedAfterwards(s: State, acts: seq<Action>)
    requires s.terminate && Inv(s) && Runs(s, acts)
    ensures After(s, acts).popped == s.popped && After(s, acts).queue == s.queue && After(s, acts).terminate
    ensures Begun(s, acts) == []
    decreases |acts|
  {
    if acts != [] {
      ApplyKeepsInv(s, acts[0]);
      NothingPoppedAfterwards(Apply(s, acts[0]), acts[1..]);
    }
  }

  /** After the flag is set a worker never starts a request. */
  lemma {:induction false} HeldStays(s: State, acts: seq<Action>, i: nat)
    requires s.terminate && Inv(s) && Runs(s, acts) && i < |s.workers| && !s.workers[i].Handling?
    ensures i < |After(s, acts).workers| && !After(s, acts).workers[i].Handling?
    decreases |acts|
  {
    if acts != [] {
      ApplyKeepsInv(s, acts[0]);
      HeldStays(Apply(s, acts[0]), acts[1..], i);
    }
  }

  lemma {:induction false} OfConcat(a: seq<(nat, Request)>, b: seq<(nat, Request)>, i: nat)
    ensures Of(a + b, i) == Of(a, i) + Of(b, i)
    decreases |b|
  {
    if b == [] {
      assert a + b == a;
    } else {
      var n := |b| - 1;
      assert (a + b)[..|a + b| - 1] == a + b[..n];
      OfConcat(a, b[..n], i);
    }
  }

  lemma FinishesHeld(s: State, acts: seq<Action>, i: nat)
    requires s.terminate && Inv(s) && Runs(s, acts) && i < |s.workers|
    ensures var s' := After(s, acts);
      && |s'.workers| == |s.workers|
      && (Of(s'.handled, i) == Of(s.handled, i) || Of(s'.handled, i) == Of(s.handled, i) + Held(s.workers[i]))
  {
    NothingPoppedAfterwards(s, acts);
    RunsKeepInv(s, acts);
    var a, b := Of(s.handled, i), Of(After(s, acts).handled, i);
    var x, y := Held(s.workers[i]), Held(After(s, acts).workers[i]);
    assert Settled(s, i) && Settled(After(s, acts), i);
    assert a + x == b + y;
    if |x| == |y| {
      assert a == (a + x)[..|a|] == (b + y)[..|b|] == b;
    } else if |y| == 0 {
      assert b == b + y;
    } else {
      assert x == [] && a == b + y;
      HeldStays(s, acts, i);
    }
  }

  lemma AddsOnly<X>(a: seq<X>, x: seq<X>, c: seq<X>)
    requires c == a + x
    ensures c == a ==> x == []
    ensures forall y :: c == a + y ==> x == y
  {
    assert x == c[|a|..];
    assert forall y :: c == a + y ==> y == c[|a|..];
  }

  /** Once the flag is set, each worker finishes at most the request it already holds. */
  lemma FinishesWhatItHolds(s: State, acts: seq<Action>, i: nat)
    requires s.terminate && Inv(s) && Runs(s, acts) && i < |s.workers|
    ensures Of(Ended(s, acts), i) == [] || Of(Ended(s, acts), i) == Held(s.workers[i])
  {
    hide Inv, Apply, Of;
    FinishesHeld(s, acts, i);
    HistoriesAreTrue(s, acts);
    OfConcat(s.handled, Ended(s, acts), i);
    AddsOnly(Of(s.handled, i), Of(Ended(s, acts), i), Of(After(s, acts).handled, i));
  }

  function WorkerRank(w: Worker): nat {
    match w
    case Exited => 0
    case LoopTest => 1
    case Handling(_) => 2
    case Inside => 2
    case WantLock => 3
    case Waiting(notified) => if notified then 3 else 4
  }

  function Ranks(ws: seq<Worker>): (r: seq<nat>)
    ensures |r| == |ws|
  {
    seq(|ws|, i requires 0 <= i < |ws| => WorkerRank(ws[i]))
  }

  /** What is left to do after the flag is set. */
  function Left(s: State): nat {
    Total(Ranks(s.workers)) + match s.main
      case Waking => |s.workers| + 3
      case Releasing => |s.workers| + 2
      case Joining(i) => if i <= |s.workers| then |s.workers| + 1 - i else 0
      case _ => 0
  }

  lemma StepLeaves(s: State, a: Action)
    requires s.terminate && Inv(s) && Enabled(s, a)
    ensures Left(Apply(s, a)) < Left(s)
  {
    hide Conserved, Exclusive, NoLostWakeup;
    var ws, ws' := s.workers, Apply(s, a).workers;
    assert NoneAbove(Ranks(ws'), Ranks(ws));
    TotalLeq(Ranks(ws'), Ranks(ws));
    if a.WorkerStep? || a.Spurious? {
      assert WorkerRank(ws'[a.i]) < WorkerRank(ws[a.i]);
      TotalLess(Ranks(ws'), Ranks(ws), a.i);
    }
  }

  /** Shutdown cannot go on for ever. */
  lemma {:induction false} ShutdownIsBounded(s: State, acts: seq<Action>)
    requires s.terminate && Inv(s) && Runs(s, acts)
    ensures |acts| + Left(After(s, acts)) <= Left(s)
    decreases |acts|
  {
    if acts != [] {
      ApplyKeepsInv(s, acts[0]);
      StepLeaves(s, acts[0]);
      NothingPoppedAfterwards(s, [acts[0]]);
      ShutdownIsBounded(Apply(s, acts[0]), acts[1..]);
    }
  }

  /** Nor can it get stuck before every join has returned. */
  lemma ShutdownNeverStuck(s: State)
    requires s.terminate && Inv(s) && !s.main.Stopped?
    ensures exists a :: Enabled(s, a)
  {
    if s.main.Joining? && s.main.i < |s.workers| && !s.workers[s.main.i].Exited? {
      var i := if s.owner.ByWorker? then s.owner.i else s.main.i;
      assert Enabled(s, WorkerStep(i));
    } else {
      assert Enabled(s, MainStep);
    }
  }

  /**
    Clean shutdown: whatever the run before, every continuation from the setting of the flag is
    finite, and one that cannot be continued has joined every worker, and every worker has exited.
   */
  lemma CleanShutdown(n: nat, before: seq<Action>, later: seq<Action>)
    requires Runs(Init(n), before) && After(Init(n), before).terminate
    requires Runs(After(Init(n), before), later)
    ensures var s := After(Init(n), before);
      var s' := After(s, later);
      && |later| <= Left(s)
      && ((forall a :: !Enabled(s', a)) ==>
            s'.main.Stopped? && forall i :: 0 <= i < |s'.workers| ==> s'.workers[i].Exited?)
  {
    RunsKeepInv(Init(n), before);
    var s := After(Init(n), before);
    RunsKeepInv(s, later);
    NothingPoppedAfterwards(s, later);
    ShutdownIsBounded(s, later);
    var s' := After(s, later);
    if !s'.main.Stopped? {
      ShutdownNeverStuck(s');
    }
  }
}
