/** The embedded Bun worker (`lenso-libbun-adapter`, `WorkerControl`): invokers and shutdown callers
    feed one bounded command channel; one worker thread owns the engine. */
module EmbeddedWorker {
  import opened Common
  import Runs

  type CallId = nat
  type CallerId = nat

  datatype Command = Call(id: CallId) | Shutdown

  datatype Worker =
    | Top                    // about to load the shutdown flag
    | Receiving              // in recv
    | Calling(id: CallId)    // inside engine.call
    | Replying(id: CallId)   // about to answer
    | Stopping               // left the loop, engine not shut down yet
    | Returning              // engine shut down, receiver still alive
    | Exited                 // receiver dropped, with every command still queued

  /** A `begin_shutdown` in progress: the winner of the swap still has to send. */
  datatype Closer = Sending | Taking

  /** `accepted` lists the calls the channel took, `given` those handed to the engine, `answered` those whose sender
      was used and `lost` those whose sender was dropped, in order. `lateCalls` counts engine calls begun after the flag. */
  datatype State = State(capacity: nat, queue: seq<Command>, flag: bool, sent: bool, closed: bool,
                         closers: map<CallerId, Closer>, joinStored: bool, joined: seq<CallerId>, worker: Worker,
                         accepted: seq<CallId>, answered: seq<CallId>, lost: seq<CallId>,
                         lateCalls: nat, engineShutdowns: nat, known: set<CallerId>, given: seq<CallId>)

  datatype Action =
    | Invoke(id: CallId)
    | Swap(c: CallerId)
    | TrySendShutdown(c: CallerId)
    | TakeJoin(c: CallerId)
    | DropSenders
    | LoadFlag
    | Recv
    | EngineCall
    | Reply
    | EngineShutdown
    | DropReceiver

  predicate Enabled(s: State, a: Action) {
    match a
    case Invoke(id) => !s.closed && id !in s.accepted
    case Swap(c) => !s.closed && c !in s.known
    case TrySendShutdown(c) => c in s.closers && s.closers[c].Sending?
    case TakeJoin(c) => c in s.closers && s.closers[c].Taking?
    case DropSenders => !s.closed && s.flag && s.closers == map[]
    case LoadFlag => s.worker.Top?
    case Recv => s.worker.Receiving? && (s.queue != [] || s.closed)
    case EngineCall => s.worker.Calling?
    case Reply => s.worker.Replying?
    case EngineShutdown => s.worker.Stopping?
    case DropReceiver => s.worker.Returning?
  }

  predicate Room(s: State) { !s.worker.Exited? && |s.queue| < s.capacity }

  function Calls(q: seq<Command>): seq<CallId> {
    if q == [] then [] else (if q[0].Call? then [q[0].id] else []) + Calls(q[1..])
  }

  function WorkerStep(s: State, a: Action): State
    requires Enabled(s, a) && IsWorker(a)
  {
    match a
    case LoadFlag => s.(worker := if s.flag then Stopping else Receiving)
    case Recv =>
      if s.queue == [] then s.(worker := Stopping)
      else if s.queue[0].Shutdown? then s.(worker := Stopping, queue := s.queue[1..])
      else s.(worker := Calling(s.queue[0].id), queue := s.queue[1..], given := s.given + [s.queue[0].id],
              lateCalls := s.lateCalls + (if s.flag then 1 else 0))
    case EngineCall => s.(worker := Replying(s.worker.id))
    case Reply => s.(worker := Top, answered := s.answered + [s.worker.id])
    case EngineShutdown => s.(worker := Returning, engineShutdowns := s.engineShutdowns + 1)
    case DropReceiver => s.(worker := Exited, lost := Calls(s.queue), queue := [])
  }

  function CallerStep(s: State, a: Action): State
    requires Enabled(s, a) && !IsWorker(a)
  {
    match a
    case Invoke(id) => if Room(s) then s.(queue := s.queue + [Call(id)], accepted := s.accepted + [id]) else s
    case Swap(c) =>
      s.(flag := true, closers := s.closers[c := if s.flag then Taking else Sending], known := s.known + {c})
    case TrySendShutdown(c) =>
      s.(queue := if Room(s) then s.queue + [Shutdown] else s.queue, closers := s.closers[c := Taking], sent := true)
    case TakeJoin(c) =>
      s.(closers := s.closers - {c}, joinStored := false, joined := if s.joinStored then s.joined + [c] else s.joined)
    case DropSenders => s.(closed := true)
  }

  predicate IsWorker(a: Action) {
    a.LoadFlag? || a.Recv? || a.EngineCall? || a.Reply? || a.EngineShutdown? || a.DropReceiver?
  }

  function Apply(s: State, a: Action): State
    requires Enabled(s, a)
  {
    if IsWorker(a) then WorkerStep(s, a) else CallerStep(s, a)
  }

  ghost predicate Next(s: State, t: State) {
    exists a :: Enabled(s, a) && t == Apply(s, a)
  }

  function Started(configured: nat): State {
    State(if configured == 0 then 1 else configured, [], false, false, false, map[], true, [], Top, [], [], [], 0, 0, {}, [])
  }

  ghost predicate Init(s: State) { exists configured :: s == Started(configured) }

  // ---------------------------------------------------------------- invariant

  /** The one winner of the swap: it is still to send exactly while the flag is set and `sent` is not. */
  ghost predicate ShutdownInv(s: State) {
    && s.capacity >= 1 && |s.queue| <= s.capacity
    && (s.sent ==> s.flag)
    && (s.flag && !s.sent ==> exists c :: c in s.closers && s.closers[c].Sending?)
    && (forall c :: c in s.closers && s.closers[c].Sending? ==> s.flag && !s.sent)
    && (forall c, d :: c in s.closers && d in s.closers && s.closers[c].Sending? && s.closers[d].Sending? ==> c == d)
    && (s.closed ==> s.sent)
    && (s.closers.Keys <= s.known)
    && (s.flag ==> s.known != {}) && (!s.flag ==> s.closers == map[])
    && (s.sent && s.worker.Receiving? ==> s.queue != [])
  }

  ghost predicate CountInv(s: State) {
    && s.lateCalls + (if s.flag && s.worker.Receiving? then 1 else 0) <= 1
    && (!s.flag ==> s.lateCalls == 0)
    && s.engineShutdowns == (if s.worker.Returning? || s.worker.Exited? then 1 else 0)
    && |s.joined| == (if s.joinStored then 0 else 1)
    && (s.worker.Stopping? || s.worker.Returning? || s.worker.Exited? ==> s.flag)
    && (s.flag && s.joinStored ==> s.closers != map[])
    && (Shutdown in s.queue ==> s.flag)
  }

  function Busy(w: Worker): seq<CallId> {
    if w.Calling? || w.Replying? then [w.id] else []
  }

  /** Every accepted call is answered, in the engine, queued or lost, and in that order. */
  ghost predicate Accounted(s: State) {
    && s.accepted == s.answered + Busy(s.worker) + Calls(s.queue) + s.lost
    && s.given == s.answered + Busy(s.worker)
    && (s.worker.Exited? ==> s.queue == [])
    && (!s.worker.Exited? ==> s.lost == [])
    && Distinct(s.accepted)
  }

  ghost predicate Inv(s: State) { ShutdownInv(s) && CountInv(s) && Accounted(s) }

  lemma {:induction false} CallsAppend(q: seq<Command>, c: Command)
    ensures Calls(q + [c]) == Calls(q) + (if c.Call? then [c.id] else [])
  {
    if q != [] {
      assert (q + [c])[1..] == q[1..] + [c];
      CallsAppend(q[1..], c);
    }
  }

  lemma ShutdownKept(s: State, a: Action)
    requires ShutdownInv(s) && Enabled(s, a)
    ensures ShutdownInv(Apply(s, a))
  {
    var t := Apply(s, a);
    if a.Swap? && !s.flag {
      assert a.c in t.closers && t.closers[a.c].Sending?;
    } else if a.TakeJoin? && s.flag && !s.sent {
      var c :| c in s.closers && s.closers[c].Sending?;
      assert c in t.closers && t.closers[c].Sending?;
    } else if a.Swap? && !s.sent {
      var c :| c in s.closers && s.closers[c].Sending?;
      assert c in t.closers && t.closers[c].Sending?;
    }
  }

  lemma CountByWorker(s: State, a: Action)
    requires ShutdownInv(s) && CountInv(s) && Enabled(s, a) && IsWorker(a)
    ensures CountInv(WorkerStep(s, a))
  {
  }

  lemma CountByCaller(s: State, a: Action)
    requires ShutdownInv(s) && CountInv(s) && Enabled(s, a) && !IsWorker(a)
    ensures CountInv(CallerStep(s, a))
  {
    var t := CallerStep(s, a);
    if a.Swap? || a.TrySendShutdown? { assert a.c in t.closers; }
  }

  lemma AccountedByCaller(s: State, a: Action)
    requires Accounted(s) && Enabled(s, a) && !IsWorker(a)
    ensures Accounted(CallerStep(s, a))
  {
    if a.Invoke? { CallsAppend(s.queue, Call(a.id)); }
    if a.TrySendShutdown? { CallsAppend(s.queue, Shutdown); }
  }

  lemma AccountedByRecv(s: State)
    requires Accounted(s) && Enabled(s, Recv) && s.queue != []
    ensures Accounted(WorkerStep(s, Recv))
  {
    var t := WorkerStep(s, Recv);
    assert Calls(s.queue) == Busy(t.worker) + Calls(t.queue);
    assert s.answered + [] + (Busy(t.worker) + Calls(t.queue)) == s.answered + Busy(t.worker) + Calls(t.queue);
  }

  lemma AccountedByWorker(s: State, a: Action)
    requires Accounted(s) && Enabled(s, a) && IsWorker(a) && (a.Recv? ==> s.queue == [])
    ensures Accounted(WorkerStep(s, a))
  {
    match a
    case Reply => assert s.answered + Busy(s.worker) == WorkerStep(s, a).answered + [];
    case DropReceiver =>
      assert s.answered + Busy(s.worker) + Calls(s.queue) + [] == s.answered + [] + [] + Calls(s.queue);
    case _ =>
  }

  lemma ReachableInv(s: State)
    requires Runs.Reachable(Init, Next, s)
    ensures Inv(s)
  {
    forall t, u | Inv(t) && Next(t, u) ensures Inv(u) {
      var a :| Enabled(t, a) && u == Apply(t, a);
      ShutdownKept(t, a);
      if IsWorker(a) { CountByWorker(t, a); } else { CountByCaller(t, a); }
      if a.Recv? && t.queue != [] { AccountedByRecv(t); }
      else if IsWorker(a) { AccountedByWorker(t, a); }
      else { AccountedByCaller(t, a); }
    }
    Runs.InEveryReachable(Init, Next, Inv, s);
  }

  // ---------------------------------------------------------------- theorems

  /** In every interleaving, a full queue included: the engine starts at most one call after the flag is
      set, is shut down at most once and exactly once when the worker has exited, and at most one caller
      gets the join handle. */
  lemma ShutdownOnce(s: State)
    requires Runs.Reachable(Init, Next, s)
    ensures s.lateCalls <= 1
    ensures s.engineShutdowns == (if s.worker.Returning? || s.worker.Exited? then 1 else 0)
    ensures |s.joined| <= 1 && (s.flag && s.closers == map[] ==> |s.joined| == 1)
    ensures s.worker.Exited? ==> s.flag
  {
    ReachableInv(s);
  }

  /** What is left for the worker once a shutdown has been signalled. */
  function StepsLeft(w: Worker): nat {
    match w
    case Receiving => 6
    case Calling(_) => 5
    case Replying(_) => 4
    case Top => 3
    case Stopping => 2
    case Returning => 1
    case Exited => 0
  }

  function WorkerAction(w: Worker): Action {
    match w
    case Receiving => Recv
    case Calling(_) => EngineCall
    case Replying(_) => Reply
    case Top => LoadFlag
    case Stopping => EngineShutdown
    case _ => DropReceiver
  }

  /** After the winner's `try_send`, whether or not the queue took it, the worker is never blocked: it
      does not wait on an empty queue, and until it exits it has a step. */
  lemma WorkerNeverBlocked(s: State)
    requires Runs.Reachable(Init, Next, s) && s.sent
    ensures s.worker.Receiving? ==> s.queue != []
    ensures !s.worker.Exited? ==> Enabled(s, WorkerAction(s.worker))
  {
    ReachableInv(s);
  }

  /** Each of the worker's steps after that takes it closer to its exit, at most six away, and nobody
      else's step takes it further. */
  lemma WorkerCountsDown(s: State, a: Action)
    requires Runs.Reachable(Init, Next, s) && s.sent && Enabled(s, a)
    ensures IsWorker(a) ==> StepsLeft(Apply(s, a).worker) < StepsLeft(s.worker) <= 6
    ensures !IsWorker(a) ==> Apply(s, a).worker == s.worker
    ensures Apply(s, a).sent
  {
    ReachableInv(s);
  }

  /** While the flag is set and nothing has been signalled yet, the winner of the swap can signal. */
  lemma WinnerWillSend(s: State)
    requires Runs.Reachable(Init, Next, s) && s.flag && !s.sent
    ensures exists c :: Enabled(s, TrySendShutdown(c))
  {
    ReachableInv(s);
    var c :| c in s.closers && s.closers[c].Sending?;
    assert Enabled(s, TrySendShutdown(c));
  }

  /** The arm of `recv` for a disconnected channel is never taken. */
  lemma NeverDisconnected(s: State)
    requires Runs.Reachable(Init, Next, s) && Enabled(s, Recv)
    ensures s.queue != []
  {
    ReachableInv(s);
  }

  /** Every accepted call is in exactly one place, answers come in the order of acceptance, and once the
      worker has exited each was answered once or had its sender dropped. */
  lemma EveryCallSettled(s: State)
    requires Runs.Reachable(Init, Next, s)
    ensures s.accepted == s.answered + Busy(s.worker) + Calls(s.queue) + s.lost && Distinct(s.accepted)
    ensures s.given == s.answered + Busy(s.worker)
    ensures s.worker.Exited? ==> s.accepted == s.answered + s.lost
  {
    ReachableInv(s);
    if s.worker.Exited? { assert s.answered + Busy(s.worker) + Calls(s.queue) == s.answered; }
  }

  /** In every reachable state a call is accepted, behind the others, if and only if the worker's receiver is alive
      and fewer than `capacity` commands are queued. */
  lemma AcceptedExactly(s: State, id: CallId)
    requires Runs.Reachable(Init, Next, s) && Enabled(s, Invoke(id))
    ensures var t := Apply(s, Invoke(id));
            if !s.worker.Exited? && |s.queue| < s.capacity then
              t.accepted == s.accepted + [id] && t.queue == s.queue + [Call(id)]
            else t == s
    ensures |s.queue| <= s.capacity && 1 <= s.capacity
  {
    ReachableInv(s);
  }

  /** What the worker takes from the channel decides: a call goes to the engine, a shutdown or a channel that nobody
      feeds any more ends the loop. */
  lemma RecvDecides(s: State)
    requires Enabled(s, Recv)
    ensures Apply(s, Recv).worker ==
            if s.queue != [] && s.queue[0].Call? then Calling(s.queue[0].id) else Stopping
    ensures Apply(s, Recv).queue == if s.queue == [] then [] else s.queue[1..]
    ensures Apply(s, Recv).lateCalls == if Apply(s, Recv).worker.Calling? && s.flag then s.lateCalls + 1 else s.lateCalls
    ensures Enabled(s, DropSenders) ==> Apply(s, DropSenders) == s.(closed := true)
  {
  }

  // ---------------------------------------------------------------- one caller at a time

  function Do(s: State, a: Action): State {
    if Enabled(s, a) then Apply(s, a) else s
  }

  function ShutdownCall(s: State, c: CallerId): State {
    Do(Do(Do(s, Swap(c)), TrySendShutdown(c)), TakeJoin(c))
  }

  lemma ShutdownCallAlone(s: State, c: CallerId)
    requires !s.closed && c !in s.known && s.closers == map[]
    ensures ShutdownCall(s, c) ==
            s.(flag := true, sent := s.sent || !s.flag, known := s.known + {c},
               queue := if !s.flag && Room(s) then s.queue + [Shutdown] else s.queue,
               joinStored := false, joined := if s.joinStored then s.joined + [c] else s.joined)
  {
    var s1 := Do(s, Swap(c));
    var s2 := Do(s1, TrySendShutdown(c));
    assert s2.closers == map[c := Taking];
    assert s2.closers - {c} == map[];
  }

  datatype Refusal = Accepted | ResourceExhausted | Unavailable

  /** `WorkerControl` as one caller at a time uses it. */
  class WorkerControl {
    const capacity: nat
    var commands: seq<Command>
    var shutdown: bool
    var join: bool
    var worker: Worker
    ghost var rest: State

    ghost function View(): State reads this {
      rest.(capacity := capacity, queue := commands, flag := shutdown, joinStored := join, worker := worker)
    }

    constructor (configured: nat)
      ensures View() == Started(configured) && !View().closed && View().closers == map[]
    {
      capacity := if configured == 0 then 1 else configured;
      commands, shutdown, join, worker, rest := [], false, true, Top, Started(configured);
    }

    /** The `try_send` of `invoke`: a refusal leaves everything as it was. */
    method Invoke(id: CallId) returns (r: Refusal)
      requires Enabled(View(), Action.Invoke(id))
      modifies this
      ensures View() == Apply(old(View()), Action.Invoke(id))
      ensures r.Accepted? <==> View().accepted == old(View().accepted) + [id]
      ensures !r.Accepted? ==> View() == old(View())
      ensures r.Unavailable? <==> worker.Exited?
      ensures r.Accepted? <==> !worker.Exited? && |old(commands)| < capacity
      ensures r.Accepted? ==> commands == old(commands) + [Call(id)]
    {
      if worker.Exited? { return Unavailable; }
      if |commands| >= capacity { return ResourceExhausted; }
      commands := commands + [Call(id)];
      rest := rest.(accepted := rest.accepted + [id]);
      return Accepted;
    }

    method BeginShutdown(c: CallerId) returns (handle: bool)
      requires !View().closed && c !in View().known && View().closers == map[]
      modifies this
      ensures View() == ShutdownCall(old(View()), c)
      ensures handle <==> old(join)
      ensures handle <==> View().joined == old(View().joined) + [c]
    {
      ShutdownCallAlone(View(), c);
      var was := shutdown;
      shutdown := true;
      if !was && !worker.Exited? && |commands| < capacity {
        commands := commands + [Shutdown];
      }
      handle := join;
      join := false;
      rest := rest.(sent := rest.sent || !was, known := rest.known + {c},
                    joined := if handle then rest.joined + [c] else rest.joined);
    }
  }
}
