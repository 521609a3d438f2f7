/** The provider's event queue and its worker threads (`server.rs`, `ProviderEventQueue` and
    `spawn_event_worker`). Every queue method runs under the queue's lock, so it is one step; two
    workers may overlap, because `complete` clears `draining` before the old worker's last `pop`. */
module ProviderEvents {
  import opened Common
  import Runs

  type Event = nat
  type WorkerId = nat

  // ---------------------------------------------------------------- the queue

  datatype Queue = Queue(capacity: nat, pending: seq<Event>, admitted: nat, draining: bool)

  predicate Full(q: Queue) { q.admitted >= q.capacity }

  /** `try_enqueue` when there is room; the caller must start a worker when it was not draining. */
  function Enqueued(q: Queue, e: Event): Queue {
    q.(admitted := q.admitted + 1, pending := q.pending + [e], draining := true)
  }

  function Popped(q: Queue): Queue {
    if q.pending == [] then q else q.(pending := q.pending[1..])
  }

  function Completed(q: Queue): Queue {
    q.(admitted := if q.admitted == 0 then 0 else q.admitted - 1,
       draining := q.draining && q.pending != [])
  }

  function Aborted(q: Queue): Queue {
    q.(admitted := 0, draining := false, pending := [])
  }

  /** The queue object: each method is the body of one critical section. */
  class ProviderEventQueue {
    const capacity: nat
    var pending: seq<Event>
    var admitted: nat
    var draining: bool

    function View(): Queue
      reads this
    {
      Queue(capacity, pending, admitted, draining)
    }

    constructor (capacity: nat)
      ensures View() == Queue(if capacity < 1 then 1 else capacity, [], 0, false)
    {
      this.capacity := if capacity < 1 then 1 else capacity;
      pending, admitted, draining := [], 0, false;
    }

    /** `None` refuses; `Some(true)` tells the caller to start a worker. */
    method TryEnqueue(event: Event) returns (r: Option<bool>)
      modifies this
      ensures Full(old(View())) ==> r == None && View() == old(View())
      ensures !Full(old(View())) ==> r == Some(!old(draining)) && View() == Enqueued(old(View()), event)
    {
      if admitted >= capacity {
        return None;
      }
      admitted := admitted + 1;
      pending := pending + [event];
      if draining {
        r := Some(false);
      } else {
        draining := true;
        r := Some(true);
      }
    }

    method Pop() returns (r: Option<Event>)
      modifies this`pending
      ensures r == if old(pending) == [] then None else Some(old(pending)[0])
      ensures View() == Popped(old(View()))
    {
      if pending == [] {
        r := None;
      } else {
        r := Some(pending[0]);
        pending := pending[1..];
      }
    }

    method Complete()
      modifies this`admitted, this`draining
      ensures View() == Completed(old(View()))
    {
      if admitted > 0 {
        admitted := admitted - 1;
      }
      if pending == [] {
        draining := false;
      }
    }

    method Abort() returns (dropped: seq<Event>)
      modifies this
      ensures dropped == old(pending) && View() == Aborted(old(View()))
    {
      admitted := 0;
      draining := false;
      dropped := pending;
      pending := [];
    }
  }

  // ---------------------------------------------------------------- queue and workers together

  datatype Worker = Starting | Popping | Processing(event: Event)

  /** `enqueued` is every admitted event in admission order, `handed` every event a worker took. */
  datatype State = State(queue: Queue, workers: map<WorkerId, Worker>, used: set<WorkerId>,
                         enqueued: seq<Event>, handed: seq<Event>)

  datatype Action =
    | Enqueue(e: Event, w: WorkerId)
    | Start(w: WorkerId)
    | Pop(w: WorkerId)
    | Complete(w: WorkerId)

  predicate Enabled(s: State, a: Action) {
    match a
    case Enqueue(_, w) => w !in s.used
    case Start(w) => w in s.workers && s.workers[w].Starting?
    case Pop(w) => w in s.workers && s.workers[w].Popping?
    case Complete(w) => w in s.workers && s.workers[w].Processing?
  }

  function Apply(s: State, a: Action): State
    requires Enabled(s, a)
  {
    match a
    case Enqueue(e, w) =>
      if Full(s.queue) then s
      else if s.queue.draining then s.(queue := Enqueued(s.queue, e), enqueued := s.enqueued + [e])
      else s.(queue := Enqueued(s.queue, e), enqueued := s.enqueued + [e],
              workers := s.workers[w := Starting], used := s.used + {w})
    case Start(w) => s.(workers := s.workers[w := Popping])
    case Pop(w) =>
      if s.queue.pending == [] then s.(workers := s.workers - {w})
      else s.(queue := Popped(s.queue), workers := s.workers[w := Processing(s.queue.pending[0])],
              handed := s.handed + [s.queue.pending[0]])
    case Complete(w) => s.(queue := Completed(s.queue), workers := s.workers[w := Popping])
  }

  ghost predicate Next(s: State, t: State) {
    exists a :: Enabled(s, a) && t == Apply(s, a)
  }

  predicate Init(s: State) {
    s.queue.capacity >= 1 && s == State(Queue(s.queue.capacity, [], 0, false), map[], {}, [], [])
  }

  // ---------------------------------------------------------------- invariant

  ghost function Busy(workers: map<WorkerId, Worker>): set<WorkerId> {
    set w | w in workers && workers[w].Processing?
  }

  ghost function Ready(workers: map<WorkerId, Worker>): set<WorkerId> {
    set w | w in workers && !workers[w].Processing?
  }

  ghost predicate Inv(s: State) {
    && s.queue.admitted == |s.queue.pending| + |Busy(s.workers)|
    && s.queue.admitted <= s.queue.capacity
    && s.enqueued == s.handed + s.queue.pending
    && (s.queue.pending != [] ==> s.queue.draining)
    && (s.queue.draining ==> Busy(s.workers) != {} || (s.queue.pending != [] && Ready(s.workers) != {}))
    && s.workers.Keys <= s.used
  }

  lemma BusyMove(workers: map<WorkerId, Worker>, w: WorkerId, x: Worker)
    ensures Busy(workers[w := x]) == if x.Processing? then Busy(workers) + {w} else Busy(workers) - {w}
    ensures Ready(workers[w := x]) == if x.Processing? then Ready(workers) - {w} else Ready(workers) + {w}
    ensures Busy(workers - {w}) == Busy(workers) - {w} && Ready(workers - {w}) == Ready(workers) - {w}
  {
  }

  lemma EnqueueKeeps(s: State, e: Event, w: WorkerId)
    requires Inv(s) && Enabled(s, Enqueue(e, w))
    ensures Inv(Apply(s, Enqueue(e, w)))
  {
    BusyMove(s.workers, w, Starting);
    if !s.queue.draining { assert w in Ready(s.workers[w := Starting]); }
  }

  lemma PopKeeps(s: State, w: WorkerId)
    requires Inv(s) && Enabled(s, Pop(w))
    ensures Inv(Apply(s, Pop(w)))
  {
    if s.queue.pending == [] {
      BusyMove(s.workers, w, Popping);
    } else {
      BusyMove(s.workers, w, Processing(s.queue.pending[0]));
      assert s.enqueued == s.handed + [s.queue.pending[0]] + s.queue.pending[1..];
    }
  }

  lemma CompleteKeeps(s: State, w: WorkerId)
    requires Inv(s) && Enabled(s, Complete(w))
    ensures Inv(Apply(s, Complete(w)))
  {
    assert w in Busy(s.workers);
    BusyMove(s.workers, w, Popping);
  }

  lemma StepKeeps(s: State, t: State)
    requires Inv(s) && Next(s, t)
    ensures Inv(t)
  {
    var a :| Enabled(s, a) && t == Apply(s, a);
    match a
    case Enqueue(e, w) => EnqueueKeeps(s, e, w);
    case Start(w) => BusyMove(s.workers, w, Popping);
    case Pop(w) => PopKeeps(s, w);
    case Complete(w) => CompleteKeeps(s, w);
  }

  // ---------------------------------------------------------------- safety over every run

  lemma ReachableInv(s: State)
    requires Runs.Reachable(Init, Next, s)
    ensures Inv(s)
  {
    forall t, u | Inv(t) && Next(t, u) ensures Inv(u) { StepKeeps(t, u); }
    Runs.InEveryReachable(Init, Next, Inv, s);
  }

  /** In every interleaving of enqueuers and workers: admission is exactly what is queued or being
      processed and stays within capacity; events leave in the order they came in, each once; and a
      nonempty queue always has a live worker that will pop again. */
  lemma QueueSafety(s: State)
    requires Runs.Reachable(Init, Next, s)
    ensures s.queue.admitted == |s.queue.pending| + |Busy(s.workers)| <= s.queue.capacity
    ensures s.enqueued == s.handed + s.queue.pending
    ensures s.queue.pending != [] ==> s.workers != map[]
  {
    ReachableInv(s);
    if s.queue.pending != [] { NotStranded(s); }
  }

  /** In every reachable state an event is admitted, behind the others, if and only if fewer than `capacity` are
      queued or being processed; a worker is started for it exactly when none is draining. */
  lemma AdmittedExactly(s: State, e: Event, w: WorkerId)
    requires Runs.Reachable(Init, Next, s) && w !in s.used
    ensures var t := Apply(s, Enqueue(e, w));
            if |s.queue.pending| + |Busy(s.workers)| < s.queue.capacity then
              && t.enqueued == s.enqueued + [e] && t.queue.pending == s.queue.pending + [e]
              && (w in t.workers <==> !s.queue.draining)
            else t == s
  {
    ReachableInv(s);
  }

  lemma NotStranded(s: State)
    requires Inv(s) && s.queue.pending != []
    ensures s.workers != map[]
  {
    assert Busy(s.workers) != {} || Ready(s.workers) != {};
  }

  // ---------------------------------------------------------------- every queued event is handed out

  ghost function Unstarted(workers: map<WorkerId, Worker>): set<WorkerId> {
    set w | w in workers && workers[w].Starting?
  }

  ghost function Idle(workers: map<WorkerId, Worker>): set<WorkerId> {
    set w | w in workers && workers[w].Popping?
  }

  /** Bounds how many worker steps remain when nothing more is enqueued. */
  ghost function Work(s: State): nat {
    3 * |s.queue.pending| + 2 * |Busy(s.workers)| + 2 * |Unstarted(s.workers)| + |Idle(s.workers)|
  }

  lemma ReadyMove(workers: map<WorkerId, Worker>, w: WorkerId, x: Worker)
    ensures Unstarted(workers[w := x]) == if x.Starting? then Unstarted(workers) + {w} else Unstarted(workers) - {w}
    ensures Idle(workers[w := x]) == if x.Popping? then Idle(workers) + {w} else Idle(workers) - {w}
    ensures Unstarted(workers - {w}) == Unstarted(workers) - {w} && Idle(workers - {w}) == Idle(workers) - {w}
  {
  }

  ghost predicate WorkerStep(s: State, t: State) {
    exists a: Action :: !a.Enqueue? && Enabled(s, a) && t == Apply(s, a)
  }

  lemma WorkShrinks(s: State, a: Action)
    requires Enabled(s, a) && !a.Enqueue?
    ensures Work(Apply(s, a)) < Work(s)
  {
    var x := if a.Pop? && s.queue.pending != [] then Processing(s.queue.pending[0]) else Popping;
    BusyMove(s.workers, a.w, x);
    ReadyMove(s.workers, a.w, x);
    if a.Start? { assert a.w in Unstarted(s.workers); }
    if a.Pop? { assert a.w in Idle(s.workers); }
    if a.Complete? { assert a.w in Busy(s.workers); }
  }

  lemma {:induction false} WorkBoundsRun(run: seq<State>)
    requires Runs.IsRun(WorkerStep, run)
    ensures |run| - 1 + Work(run[|run| - 1]) <= Work(run[0])
    decreases |run|
  {
    if |run| > 1 {
      var prefix := run[..|run| - 1];
      var n := |run| - 2;
      assert WorkerStep(run[n], run[n + 1]);
      var a: Action :| !a.Enqueue? && Enabled(run[n], a) && run[n + 1] == Apply(run[n], a);
      WorkShrinks(run[n], a);
      WorkBoundsRun(prefix);
    }
  }

  lemma WorkersKeep(s: State, t: State)
    requires Inv(s) && WorkerStep(s, t)
    ensures Inv(t) && t.enqueued == s.enqueued
  {
    var a: Action :| !a.Enqueue? && Enabled(s, a) && t == Apply(s, a);
    assert Next(s, t);
    StepKeeps(s, t);
  }

  /** From any reachable state, however the workers are scheduled: they take a bounded number of
      steps, and when no worker can step every admitted event has been handed out, in order. */
  lemma EventsDrain(run: seq<State>)
    requires Runs.IsRun(WorkerStep, run) && Runs.Reachable(Init, Next, run[0])
    ensures |run| <= Work(run[0]) + 1
    ensures var last := run[|run| - 1];
            (forall t :: !WorkerStep(last, t)) ==> last.handed == run[0].enqueued && last.queue.admitted == 0
  {
    ReachableInv(run[0]);
    WorkBoundsRun(run);
    var last := run[|run| - 1];
    var start := run[0].enqueued;
    ghost var inv := (s: State) => Inv(s) && s.enqueued == start;
    forall s, t | inv(s) && WorkerStep(s, t) ensures inv(t) { WorkersKeep(s, t); }
    Runs.Invariant(WorkerStep, inv, run);
    assert inv(last);
    if forall t :: !WorkerStep(last, t) { NoStepNoWorker(last); }
  }

  lemma NoStepNoWorker(s: State)
    requires Inv(s) && forall t :: !WorkerStep(s, t)
    ensures s.workers == map[] && s.queue.pending == [] && s.queue.admitted == 0
  {
    if w :| w in s.workers {
      var a := match s.workers[w] case Starting => Start(w) case Popping => Pop(w) case Processing(_) => Complete(w);
      assert WorkerStep(s, Apply(s, a));
    }
    assert Busy(s.workers) == {} && Ready(s.workers) == {};
  }

  // ---------------------------------------------------------------- when a worker cannot be spawned

  /** `handle_event` after a failed spawn: the queue is emptied and its counters zeroed. */
  function AfterFailedSpawn(s: State, w: WorkerId): State
    requires w in s.workers && s.workers[w].Starting?
  {
    s.(queue := Aborted(s.queue), workers := s.workers - {w},
       enqueued := s.handed)
  }

  /** Zeroing the counter keeps admission exact if and only if no other worker is mid-event. */
  lemma AbortConservesExactlyWhenIdle(s: State, w: WorkerId)
    requires Inv(s) && w in s.workers && s.workers[w].Starting?
    ensures Inv(AfterFailedSpawn(s, w)) <==> Busy(s.workers) == {}
  {
    BusyMove(s.workers, w, Starting);
    if Busy(s.workers) != {} {
      assert |Busy(s.workers)| > 0;
    }
  }

  lemma Reach(s: State, a: Action)
    requires Runs.Reachable(Init, Next, s) && Enabled(s, a)
    ensures Runs.Reachable(Init, Next, Apply(s, a))
  {
    Runs.ReachStep(Init, Next, s, Apply(s, a));
  }

  /** One event handled, its worker about to pop again. */
  lemma OneHandled() returns (s: State)
    ensures Runs.Reachable(Init, Next, s)
    ensures s == State(Queue(2, [], 0, false), map[0 := Popping], {0}, [7], [7])
  {
    var s0 := State(Queue(2, [], 0, false), map[], {}, [], []);
    Runs.ReachStart(Init, Next, s0);
    Reach(s0, Enqueue(7, 0));
    var s1 := Apply(s0, Enqueue(7, 0));
    Reach(s1, Start(0));
    var s2 := Apply(s1, Start(0));
    Reach(s2, Pop(0));
    var s3 := Apply(s2, Pop(0));
    Reach(s3, Complete(0));
    s := Apply(s3, Complete(0));
  }

  /** A worker that cannot be spawned beside one that is mid-event is reachable, and zeroing the counter then
      loses count of the event in processing. */
  lemma FailedSpawnLosesCount() returns (s: State)
    ensures Runs.Reachable(Init, Next, s)
    ensures 1 in s.workers && s.workers[1].Starting? && Busy(s.workers) == {0}
    ensures var t := AfterFailedSpawn(s, 1); t.queue.admitted == 0 && Busy(t.workers) == {0}
  {
    var s0 := OneHandled();
    Reach(s0, Enqueue(8, 1));
    var s1 := Apply(s0, Enqueue(8, 1));
    Reach(s1, Pop(0));
    s := Apply(s1, Pop(0));
    assert s.workers == map[0 := Processing(8), 1 := Starting];
    assert AfterFailedSpawn(s, 1).workers == map[0 := Processing(8)];
  }
}
