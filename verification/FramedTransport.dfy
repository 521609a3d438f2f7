/** The framed transport's request registries (`transport/framed.rs`): callers, the reader thread and
    dropped calls share `pending`, `event_pending`, `cancelled` and `retired`, each behind its own lock.
    `cancel` takes the pending lock and the cancelled lock one after the other, so a reply may arrive
    between the two. */
module FramedTransport {
  import Runs
  import Ids = RetiredIds

  type Id = nat

  const MAX_CANCELLED_REQUEST_IDS: nat := 1024

  datatype Kind = Request | Event

  datatype Registries = Registries(pending: set<Id>, eventPending: set<Id>, cancelled: set<Id>, retired: set<Id>,
                                   capacity: nat, eventCapacity: nat)

  /** `unanswered` are the ids whose frame is on its way or was delivered and that the child has not
      answered; `cancelling` the calls between the two locks of `cancel`; `evicted` the unanswered ids
      that lost their place in `cancelled`; `used` every id ever admitted. */
  datatype State = State(r: Registries, alive: bool, violation: bool, cancelling: set<Id>,
                         unanswered: set<Id>, evicted: set<Id>, used: set<Id>)

  datatype Submission = Sent | QueueFull | WriterGone

  datatype Action =
    | Call(id: Id, kind: Kind, how: Submission)
    | TakePending(id: Id)
    | MarkCancelled(id: Id)
    | Reply(id: Id)
    | Die

  function Mine(r: Registries, kind: Kind): set<Id> { if kind.Request? then r.pending else r.eventPending }

  function Room(r: Registries, kind: Kind): nat { if kind.Request? then r.capacity else r.eventCapacity }

  /** `call_on`: the duplicate, capacity and replay refusals. */
  predicate Admissible(r: Registries, id: Id, kind: Kind) {
    && id !in Mine(r, kind) && id !in r.cancelled
    && |Mine(r, kind)| < Room(r, kind)
    && id !in r.retired
  }

  function Added(r: Registries, id: Id, kind: Kind): Registries {
    if kind.Request? then r.(pending := r.pending + {id}) else r.(eventPending := r.eventPending + {id})
  }

  predicate Awaited(s: State, id: Id) { id in s.r.pending || id in s.r.eventPending }

  /** The environment the transport is promised: ids are fresh, and the child answers each frame once. */
  predicate Enabled(s: State, a: Action) {
    match a
    case Call(id, _, _) => id !in s.used
    case TakePending(id) => Awaited(s, id)
    case MarkCancelled(id) => id in s.cancelling
    case Reply(id) => s.alive && id in s.unanswered
    case Die => true
  }

  function Without(r: Registries, id: Id): Registries {
    r.(pending := r.pending - {id}, eventPending := if id in r.pending then r.eventPending else r.eventPending - {id})
  }

  ghost function Retire(r: Registries, id: Id): Registries {
    r.(retired := Ids.EvictSmallest(r.retired, Ids.MAX_RETIRED_REQUEST_IDS) + {id})
  }

  ghost function MarkedCancelled(r: Registries, id: Id): Registries {
    Retire(r.(cancelled := Ids.EvictSmallest(r.cancelled, MAX_CANCELLED_REQUEST_IDS) + {id}), id)
  }

  function FailAll(r: Registries): Registries {
    r.(pending := {}, eventPending := {}, cancelled := {})
  }

  // ---------------------------------------------------------------- the object

  datatype CallResult = Accepted | Dead | Violation | Exhausted

  datatype Reception = Delivered | LateCancelled | Unexpected

  /** The transport as one caller at a time sees it; `cancel` is both of its critical sections. */
  class Transport {
    var pending: set<Id>
    var eventPending: set<Id>
    var cancelled: set<Id>
    var retired: set<Id>
    var alive: bool
    const capacity: nat
    const eventCapacity: nat

    function View(): Registries
      reads this
    {
      Registries(pending, eventPending, cancelled, retired, capacity, eventCapacity)
    }

    constructor (capacity: nat, eventCapacity: nat)
      ensures alive && View() == Registries({}, {}, {}, {}, if capacity < 1 then 1 else capacity,
                                            if eventCapacity < 1 then 1 else eventCapacity)
    {
      pending, eventPending, cancelled, retired, alive := {}, {}, {}, {}, true;
      this.capacity := if capacity < 1 then 1 else capacity;
      this.eventCapacity := if eventCapacity < 1 then 1 else eventCapacity;
    }

    /** A refusal, whatever its reason, leaves the registries as they were. */
    method CallOn(id: Id, kind: Kind, how: Submission) returns (result: CallResult)
      modifies this
      ensures result.Accepted? <==> old(alive) && Admissible(old(View()), id, kind) && how.Sent?
      ensures result.Accepted? ==> alive && View() == Added(old(View()), id, kind)
      ensures !result.Accepted? && alive ==> View() == old(View())
      ensures alive == (old(alive) && !(Admissible(old(View()), id, kind) && how.WriterGone?))
      ensures !alive && old(alive) ==> View() == FailAll(old(View()))
    {
      if !alive {
        return Dead;
      }
      if id in Mine(View(), kind) || id in cancelled {
        return Violation;
      }
      if |Mine(View(), kind)| >= Room(View(), kind) {
        return Exhausted;
      }
      if id in retired {
        return Violation;
      }
      if kind.Request? { pending := pending + {id}; } else { eventPending := eventPending + {id}; }
      match how
      case Sent =>
        return Accepted;
      case QueueFull =>
        if kind.Request? { pending := pending - {id}; } else { eventPending := eventPending - {id}; }
        return Exhausted;
      case WriterGone =>
        if kind.Request? { pending := pending - {id}; } else { eventPending := eventPending - {id}; }
        alive := false;
        pending, eventPending, cancelled := {}, {}, {};
        return Dead;
    }

    method Cancel(id: Id)
      modifies this
      ensures alive == old(alive)
      ensures View() == if id !in old(pending) && id !in old(eventPending) then old(View())
                        else if !alive then Without(old(View()), id)
                        else MarkedCancelled(Without(old(View()), id), id)
    {
      var removed := id in pending || id in eventPending;
      if id in pending { pending := pending - {id}; } else { eventPending := eventPending - {id}; }
      if !removed || !alive {
        return;
      }
      cancelled := Ids.Remember(cancelled, id, MAX_CANCELLED_REQUEST_IDS);
      retired := Ids.Remember(retired, id, Ids.MAX_RETIRED_REQUEST_IDS);
    }

    /** One response frame: deliver it, swallow it as late, or give the process up. */
    method OnResponse(id: Id) returns (reception: Reception)
      requires alive
      modifies this
      ensures reception == if id in old(pending) || id in old(eventPending) then Delivered
                           else if id in old(cancelled) then LateCancelled else Unexpected
      ensures alive == !reception.Unexpected?
      ensures View() == match reception
                        case Delivered => Retire(Without(old(View()), id), id)
                        case LateCancelled => Retire(old(View()).(cancelled := old(cancelled) - {id}), id)
                        case Unexpected => FailAll(old(View()))
    {
      if id in pending || id in eventPending {
        if id in pending { pending := pending - {id}; } else { eventPending := eventPending - {id}; }
        retired := Ids.Remember(retired, id, Ids.MAX_RETIRED_REQUEST_IDS);
        return Delivered;
      }
      if id in cancelled {
        cancelled := cancelled - {id};
        retired := Ids.Remember(retired, id, Ids.MAX_RETIRED_REQUEST_IDS);
        return LateCancelled;
      }
      alive := false;
      pending, eventPending, cancelled := {}, {}, {};
      return Unexpected;
    }
  }

  // ---------------------------------------------------------------- the steps

  ghost function CallStep(s: State, id: Id, kind: Kind, how: Submission): State {
    if !s.alive || !Admissible(s.r, id, kind) then s
    else
      match how
      case Sent =>
        s.(r := Added(s.r, id, kind), unanswered := s.unanswered + {id}, used := s.used + {id})
      case QueueFull => s
      case WriterGone => s.(alive := false, r := FailAll(s.r))
  }

  /** The second half of `cancel`: bounded insertion into `cancelled`, then `retired`. */
  ghost function MarkStep(s: State, id: Id): State {
    if !s.alive then s.(cancelling := s.cancelling - {id})
    else
      s.(cancelling := s.cancelling - {id}, r := MarkedCancelled(s.r, id),
         evicted := s.evicted + (s.r.cancelled - Ids.EvictSmallest(s.r.cancelled, MAX_CANCELLED_REQUEST_IDS)))
  }

  /** The reader on one response frame. */
  ghost function ReplyStep(s: State, id: Id): State {
    var s' := s.(unanswered := s.unanswered - {id}, evicted := s.evicted - {id});
    if Awaited(s, id) then s'.(r := Retire(Without(s.r, id), id))
    else if id in s.r.cancelled then s'.(r := Retire(s.r.(cancelled := s.r.cancelled - {id}), id))
    else s'.(violation := true, alive := false, r := FailAll(s.r))
  }

  ghost function Apply(s: State, a: Action): State
    requires Enabled(s, a)
  {
    match a
    case Call(id, kind, how) => CallStep(s, id, kind, how)
    case TakePending(id) =>
      s.(r := Without(s.r, id), cancelling := s.cancelling + {id})
    case MarkCancelled(id) => MarkStep(s, id)
    case Reply(id) => ReplyStep(s, id)
    case Die => s.(alive := false, r := FailAll(s.r))
  }

  ghost predicate Next(s: State, t: State) {
    exists a :: Enabled(s, a) && t == Apply(s, a)
  }

  predicate Init(s: State) {
    s == State(Registries({}, {}, {}, {}, s.r.capacity, s.r.eventCapacity), true, false, {}, {}, {}, {})
  }

  // ---------------------------------------------------------------- invariant

  predicate Placed(s: State, id: Id) {
    Awaited(s, id) || id in s.cancelling || id in s.r.cancelled || id in s.evicted
  }

  /** While the process is alive, an id is unanswered exactly when it is in one of five places, and it
      is never in two of them. */
  ghost predicate IdInv(s: State, id: Id) {
    && (s.alive ==> (id in s.unanswered <==> Placed(s, id)))
    && (id in s.r.pending ==> id !in s.r.eventPending)
    && (Awaited(s, id) ==> id !in s.cancelling && id !in s.r.cancelled && id !in s.evicted)
    && (id in s.cancelling ==> id !in s.r.cancelled && id !in s.evicted)
    && (id in s.r.cancelled ==> id !in s.evicted)
    && (id in s.unanswered || Placed(s, id) ==> id in s.used)
  }

  /** Only a late reply that finds neither registry breaks the transport. */
  ghost predicate Inv(s: State) {
    && (forall id :: IdInv(s, id))
    && |s.r.cancelled| <= MAX_CANCELLED_REQUEST_IDS
    && (s.violation ==> !s.alive)
  }

  lemma StepId(s: State, a: Action, id: Id)
    requires Enabled(s, a) && IdInv(s, id) && (a.Die? || IdInv(s, a.id))
    ensures IdInv(Apply(s, a), id)
  {
  }

  lemma StepKeeps(s: State, t: State)
    requires Inv(s) && Next(s, t)
    ensures Inv(t)
  {
    var a :| Enabled(s, a) && t == Apply(s, a);
    forall id ensures IdInv(t, id) { StepId(s, a, id); }
  }

  lemma ReachableInv(s: State)
    requires Runs.Reachable(Init, Next, s)
    ensures Inv(s)
  {
    forall t, u | Inv(t) && Next(t, u) ensures Inv(u) { StepKeeps(t, u); }
    forall t | Init(t) ensures Inv(t) { forall id ensures IdInv(t, id) {} }
    Runs.InEveryReachable(Init, Next, Inv, s);
  }

  // ---------------------------------------------------------------- what the reader tolerates

  /** In every reachable state, the reader declares a violation for a reply of the child if and only
      if its call is being cancelled at that moment, between the two locks, or was cancelled and then
      pushed out of the bounded `cancelled` set before the child answered. */
  lemma LateReplyTolerated(s: State, id: Id)
    requires Runs.Reachable(Init, Next, s) && Enabled(s, Reply(id))
    ensures Apply(s, Reply(id)).violation <==> id in s.cancelling || id in s.evicted
  {
    ReachableInv(s);
    assert IdInv(s, id);
  }

  /** Nothing is pushed out unless a call is cancelled while 1024 cancelled calls are unanswered. */
  lemma EvictionNeedsFullSet(s: State, a: Action)
    requires Runs.Reachable(Init, Next, s) && Enabled(s, a)
    ensures !(Apply(s, a).evicted <= s.evicted) <==>
      a.MarkCancelled? && s.alive && |s.r.cancelled| >= MAX_CANCELLED_REQUEST_IDS
    ensures s.alive ==> s.r.cancelled <= s.unanswered
  {
    ReachableInv(s);
    forall id | s.alive && id in s.r.cancelled ensures id in s.unanswered { assert IdInv(s, id); }
    if a.MarkCancelled? && s.alive && |s.r.cancelled| >= MAX_CANCELLED_REQUEST_IDS {
      var left := Ids.EvictSmallest(s.r.cancelled, MAX_CANCELLED_REQUEST_IDS);
      var e := Ids.Evicted(s.r.cancelled, left);
      assert IdInv(s, e);
      assert e in Apply(s, a).evicted;
    }
  }

  // ---------------------------------------------------------------- the promised environment

  /** No reply falls between the two locks of a cancellation, and at most 1024 cancelled calls are
      unanswered. */
  predicate Careful(s: State, a: Action) {
    && (a.Reply? ==> a.id !in s.cancelling)
    && (a.MarkCancelled? ==> |s.r.cancelled| < MAX_CANCELLED_REQUEST_IDS)
  }

  ghost predicate CarefulNext(s: State, t: State) {
    exists a :: Enabled(s, a) && Careful(s, a) && t == Apply(s, a)
  }

  /** In that environment every unanswered id is pending or cancelled, and no reply is ever taken for a
      protocol violation. */
  lemma CarefulNeverViolates(s: State)
    requires Runs.Reachable(Init, CarefulNext, s)
    ensures !s.violation
    ensures s.alive ==> forall id :: id in s.unanswered && id !in s.cancelling ==> Awaited(s, id) || id in s.r.cancelled
  {
    var inv := (t: State) => Inv(t) && t.evicted == {} && !t.violation;
    forall t, u | inv(t) && CarefulNext(t, u) ensures inv(u) {
      var a :| Enabled(t, a) && Careful(t, a) && u == Apply(t, a);
      assert Next(t, u);
      StepKeeps(t, u);
      if a.Reply? { assert IdInv(t, a.id); }
    }
    forall t | Init(t) ensures inv(t) { forall id ensures IdInv(t, id) {} }
    Runs.InEveryReachable(Init, CarefulNext, inv, s);
    forall id | s.alive && id in s.unanswered && id !in s.cancelling ensures Awaited(s, id) || id in s.r.cancelled {
      assert IdInv(s, id);
    }
  }

  /** The first condition cannot be dropped: one call, cancelled while its reply arrives between the two
      locks, makes the reader give the process up. */
  lemma ReplyDuringCancelViolates(capacity: nat, eventCapacity: nat) returns (s: State)
    requires capacity >= 1
    ensures Runs.Reachable(Init, Next, s) && s.violation && s.r.cancelled == {} && s.evicted == {}
  {
    s := State(Registries({}, {}, {}, {}, capacity, eventCapacity), true, false, {}, {}, {}, {});
    Runs.ReachStart(Init, Next, s);
    Advance(s, Call(7, Request, Sent));  s := Apply(s, Call(7, Request, Sent));
    Advance(s, TakePending(7));          s := Apply(s, TakePending(7));
    Advance(s, Reply(7));                s := Apply(s, Reply(7));
  }

  lemma Advance(s: State, a: Action)
    requires Runs.Reachable(Init, Next, s) && Enabled(s, a)
    ensures Runs.Reachable(Init, Next, Apply(s, a))
  {
    Runs.ReachStep(Init, Next, s, Apply(s, a));
  }

  // ---------------------------------------------------------------- capacities

  ghost predicate Within(s: State) { |s.r.pending| <= s.r.capacity && |s.r.eventPending| <= s.r.eventCapacity }

  lemma StepWithin(s: State, a: Action)
    requires Within(s) && Enabled(s, a)
    ensures Within(Apply(s, a))
  {
    if !a.Die? {
      assert |s.r.pending - {a.id}| <= |s.r.pending| && |s.r.eventPending - {a.id}| <= |s.r.eventPending|;
    }
  }

  /** In every run each registry stays within its capacity, and a call of a fresh id that is not refused by the
      writer is admitted whenever its registry has fewer entries. */
  lemma CapacityExactly(s: State, id: Id, kind: Kind)
    requires Runs.Reachable(Init, Next, s)
    ensures |s.r.pending| <= s.r.capacity && |s.r.eventPending| <= s.r.eventCapacity
    ensures s.alive && id !in s.used && id !in s.r.retired ==>
              var t := CallStep(s, id, kind, Sent);
              if kind.Request? then
                (id in t.r.pending <==> |s.r.pending| < s.r.capacity) && t.r.eventPending == s.r.eventPending
              else (id in t.r.eventPending <==> |s.r.eventPending| < s.r.eventCapacity) && t.r.pending == s.r.pending
  {
    forall t, u | Within(t) && Next(t, u) ensures Within(u) {
      var a :| Enabled(t, a) && u == Apply(t, a);
      StepWithin(t, a);
    }
    Runs.InEveryReachable(Init, Next, Within, s);
    ReachableInv(s);
    assert IdInv(s, id);
  }

  // ---------------------------------------------------------------- replays

  /** The machine with the ids it has finished with, in order. */
  datatype Traced = Traced(s: State, finished: seq<Id>)

  /** A reply to a waiting or cancelled call finishes with its id, and so does the second half of a cancellation. */
  predicate Finishes(s: State, a: Action) {
    match a
    case Reply(id) => id in s.r.pending || id in s.r.eventPending || id in s.r.cancelled
    case MarkCancelled(_) => s.alive
    case _ => false
  }

  ghost function Trace(t: Traced, a: Action): Traced
    requires Enabled(t.s, a)
  {
    Traced(Apply(t.s, a), if Finishes(t.s, a) then t.finished + [a.id] else t.finished)
  }

  ghost predicate TracedNext(t: Traced, u: Traced) {
    exists a :: Enabled(t.s, a) && u == Trace(t, a)
  }

  ghost predicate TracedInit(t: Traced) { Init(t.s) && t.finished == [] }

  ghost predicate Remembers(t: Traced) { t.s.r.retired == Ids.Registry(t.finished, Ids.MAX_RETIRED_REQUEST_IDS) }

  lemma StepRemembers(t: Traced, a: Action)
    requires Remembers(t) && Enabled(t.s, a)
    ensures Remembers(Trace(t, a))
  {
    RetiredStep(t.s, a);
    if Finishes(t.s, a) { OneMoreFinished(t.finished, a.id); }
  }

  lemma RetiredStep(s: State, a: Action)
    requires Enabled(s, a)
    ensures Apply(s, a).r.retired ==
            if Finishes(s, a) then Ids.EvictSmallest(s.r.retired, Ids.MAX_RETIRED_REQUEST_IDS) + {a.id} else s.r.retired
  {
  }

  lemma OneMoreFinished(finished: seq<Id>, id: Id)
    ensures Ids.Registry(finished + [id], Ids.MAX_RETIRED_REQUEST_IDS)
         == Ids.EvictSmallest(Ids.Registry(finished, Ids.MAX_RETIRED_REQUEST_IDS), Ids.MAX_RETIRED_REQUEST_IDS) + {id}
  {
    var longer := finished + [id];
    assert longer[..|longer| - 1] == finished && longer[|longer| - 1] == id;
  }

  /** In every run the retired ids are what the bounded memory keeps of those finished with, in their order; and a
      call is admitted, if the writer takes it, if and only if the process is alive, its id is not waiting in its
      registry, not among the cancelled or the retired, and the registry has room. */
  lemma ReplayExactly(t: Traced, id: Id, kind: Kind)
    requires Runs.Reachable(TracedInit, TracedNext, t)
    ensures t.s.r.retired == Ids.Registry(t.finished, Ids.MAX_RETIRED_REQUEST_IDS)
    ensures var r, u := t.s.r, CallStep(t.s, id, kind, Sent);
            u != t.s <==>
              && t.s.alive && id !in r.cancelled && id !in r.retired
              && (if kind.Request? then id !in r.pending && |r.pending| < r.capacity
                  else id !in r.eventPending && |r.eventPending| < r.eventCapacity)
  {
    forall u, v | Remembers(u) && TracedNext(u, v) ensures Remembers(v) {
      var a :| Enabled(u.s, a) && v == Trace(u, a);
      StepRemembers(u, a);
    }
    Runs.InEveryReachable(TracedInit, TracedNext, Remembers, t);
    Admitted(t.s, id, kind);
  }

  lemma Admitted(s: State, id: Id, kind: Kind)
    ensures CallStep(s, id, kind, Sent) != s <==> s.alive && Admissible(s.r, id, kind)
  {
    if s.alive && Admissible(s.r, id, kind) { assert id in Mine(CallStep(s, id, kind, Sent).r, kind); }
  }

  // ---------------------------------------------------------------- after death

  /** However the process ends, every call waiting then is failed: the step that gives it up empties the registries. */
  lemma DeathEmpties(s: State, t: State)
    requires Next(s, t) && s.alive && !t.alive
    ensures t.r.pending == {} && t.r.eventPending == {} && t.r.cancelled == {} && t.r.retired == s.r.retired
  {
    var a :| Enabled(s, a) && t == Apply(s, a);
  }

  /** The two halves of a cancellation without interruption are the transport object's. */
  lemma CancelAlone(s: State, id: Id)
    requires Awaited(s, id) && id !in s.cancelling
    ensures var t := MarkStep(Apply(s, TakePending(id)), id);
            && t.cancelling == s.cancelling
            && t.r == if s.alive then MarkedCancelled(Without(s.r, id), id) else Without(s.r, id)
  {
    assert s.cancelling + {id} - {id} == s.cancelling;
  }
}
