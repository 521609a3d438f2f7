/** Event publication across `adapter.rs` and the transports: each caller's ticket queue feeds one
    event registry whose capacity is the number of queues (`prepare_instance`). A framed call leaves the
    registry under one lock; a JSON-RPC call has a flag besides its entry, and `finish`, `cancel` and
    `fail_all` remove the two under two locks. */
module EventBound {
  import opened Common
  import Log = OpenLog
  import Runs
  import Tickets = EventTickets

  type QueueId = nat
  type RequestId = nat

  datatype Wire = Framed | JsonRpc

  /** The publication of one permit of one queue. */
  datatype Publication = Publication(queue: QueueId, permit: Tickets.PermitId)

  /** A publication's call: before the registry, in it, being rolled back after a refused send, or being
      cancelled by its drop after the flag was found. */
  datatype Phase = Entering | Waiting | RollingBack | Dropping
  datatype Call = Call(id: RequestId, phase: Phase)

  /** `pending` is the transport's `event_pending` registry, `flags` the event ids of `cancellations`, `calls`
      the calls publications still hold, `sent` and `finishing` the ids the worker has yet to finish and is
      finishing. History: `used` ids, whether one was `reused`, whether a `fail_all` has begun, and whether the
      registry `refused` a publication for capacity. */
  datatype State = State(wire: Wire, capacity: nat, queues: map<QueueId, Tickets.State>,
                         pending: map<RequestId, Publication>, flags: set<RequestId>, calls: map<Publication, Call>,
                         called: set<Publication>, sent: set<RequestId>, finishing: set<RequestId>,
                         used: set<RequestId>, reused: bool, failed: bool, refused: bool)

  datatype Action =
    | InQueue(q: QueueId, a: Tickets.Action)
    | Publish(x: Publication, id: RequestId)
    | Enter(x: Publication, accepted: bool)
    | RollBack(x: Publication)
    | Reply(id: RequestId)
    | BeginFinish(id: RequestId)
    | EndFinish(id: RequestId)
    | BeginFailAll
    | TakeAll
    | Answered(x: Publication)
    | Drop(x: Publication)
    | DropEntry(x: Publication)

  predicate Started(s: State, x: Publication) {
    && x.queue in s.queues && x.permit in s.queues[x.queue].permits
    && s.queues[x.queue].permits[x.permit].started
  }

  predicate InPhase(s: State, x: Publication, phase: Phase) { x in s.calls && s.calls[x].phase == phase }

  predicate Enabled(s: State, a: Action) {
    match a
    case InQueue(q, b) =>
      // the future drops its wire call before its permit
      q in s.queues && Tickets.Enabled(s.queues[q], b) && (b.Drop? ==> Publication(q, b.p) !in s.calls)
    case Publish(x, _) => Started(s, x) && x !in s.called
    case Enter(x, _) => InPhase(s, x, Entering)
    case RollBack(x) => InPhase(s, x, RollingBack)
    case Reply(id) => s.wire.Framed? && id in s.pending
    case BeginFinish(id) => s.wire.JsonRpc? && id in s.sent
    case EndFinish(id) => id in s.finishing
    case BeginFailAll => true
    case TakeAll => s.failed
    case Answered(x) =>
      // a call is answered only after its entry was taken out
      InPhase(s, x, Waiting) && !(s.calls[x].id in s.pending && s.pending[s.calls[x].id] == x)
    case Drop(x) => InPhase(s, x, Waiting)
    case DropEntry(x) => InPhase(s, x, Dropping)
  }

  function PublishStep(s: State, x: Publication, id: RequestId): State {
    var s' := s.(called := s.called + {x}, used := s.used + {id}, reused := s.reused || id in s.used);
    if id in s.flags then s'
    else s'.(calls := s.calls[x := Call(id, Entering)], flags := if s.wire.JsonRpc? then s.flags + {id} else s.flags)
  }

  predicate InRegistry(a: Action) { a.Reply? || a.BeginFinish? || a.EndFinish? || a.BeginFailAll? || a.TakeAll? }

  function RegistryStep(s: State, a: Action): State
    requires InRegistry(a)
  {
    match a
    case Reply(id) => s.(pending := s.pending - {id})
    case BeginFinish(id) => s.(sent := s.sent - {id}, finishing := s.finishing + {id}, flags := s.flags - {id})
    case EndFinish(id) => s.(finishing := s.finishing - {id}, pending := s.pending - {id})
    case BeginFailAll => s.(flags := {}, failed := true)
    case TakeAll => s.(pending := map[])
  }

  predicate OfCall(a: Action) { a.RollBack? || a.Answered? || a.Drop? || a.DropEntry? }

  function EndCall(s: State, x: Publication, takes: bool): State
    requires x in s.calls
  {
    s.(calls := s.calls - {x}, pending := if takes then s.pending - {s.calls[x].id} else s.pending)
  }

  function OfCallStep(s: State, a: Action): State
    requires OfCall(a) && a.x in s.calls
  {
    var id := s.calls[a.x].id;
    match a
    case RollBack(x) => EndCall(s, x, true).(flags := s.flags - {id})
    case Answered(x) => EndCall(s, x, false)
    case Drop(x) =>
      if s.wire.Framed? then EndCall(s, x, true)
      else if id in s.flags then s.(flags := s.flags - {id}, calls := s.calls[x := Call(id, Dropping)])
      else EndCall(s, x, false)
    case DropEntry(x) => EndCall(s, x, true)
  }

  function Apply(s: State, a: Action): State
    requires Enabled(s, a)
  {
    if a.InQueue? then s.(queues := s.queues[a.q := Tickets.Apply(s.queues[a.q], a.a)])
    else if a.Publish? then PublishStep(s, a.x, a.id)
    else if a.Enter? then Admit(s, a.x, a.accepted)
    else if InRegistry(a) then RegistryStep(s, a)
    else OfCallStep(s, a)
  }

  /** The registry has no room. */
  predicate NoRoom(s: State) { |s.pending| >= s.capacity }

  function TurnAway(s: State, x: Publication, full: bool): State
    requires x in s.calls
  {
    s.(calls := s.calls - {x}, flags := s.flags - {s.calls[x].id}, refused := s.refused || full)
  }

  function Insert(s: State, x: Publication, accepted: bool): State
    requires x in s.calls
  {
    var id := s.calls[x].id;
    if accepted then s.(pending := s.pending[id := x], calls := s.calls[x := Call(id, Waiting)], sent := s.sent + {id})
    else s.(pending := s.pending[id := x], calls := s.calls[x := Call(id, RollingBack)])
  }

  function Admit(s: State, x: Publication, accepted: bool): State
    requires InPhase(s, x, Entering)
  {
    if s.calls[x].id in s.pending then TurnAway(s, x, false)
    else if NoRoom(s) then TurnAway(s, x, true)
    else Insert(s, x, accepted)
  }

  ghost predicate Next(s: State, t: State) {
    exists a :: Enabled(s, a) && t == Apply(s, a)
  }

  /** One empty queue per event binding, and a registry sized to their number, at least one. */
  predicate Init(s: State) {
    && (forall q :: q in s.queues ==> Tickets.Init(s.queues[q]))
    && s.capacity == (if |s.queues| < 1 then 1 else |s.queues|)
    && s == State(s.wire, s.capacity, s.queues, map[], {}, map[], {}, {}, {}, {}, false, false, false)
  }

  /** No queue has handed out more than 2^64 tickets. */
  ghost predicate Unwrapped(s: State) {
    forall q :: q in s.queues ==> Tickets.Unwrapped(s.queues[q])
  }

  /** The entries whose publication still holds its call, and those that outlived it. */
  function Live(s: State): set<RequestId> { set id | id in s.pending && s.pending[id] in s.calls }

  function Leftover(s: State): set<RequestId> { set id | id in s.pending && s.pending[id] !in s.calls }

  // ---------------------------------------------------------------- invariant

  ghost predicate CallInv(s: State, x: Publication) {
    x in s.calls ==> x in s.called && Started(s, x) && s.calls[x].id in s.used
  }

  ghost predicate EntryInv(s: State, id: RequestId) {
    && (id in s.pending && s.pending[id] in s.calls ==>
          s.calls[s.pending[id]].id == id && !s.calls[s.pending[id]].phase.Entering?)
    && (id in s.pending ==> id in s.used && (s.pending[id] in s.called))
    && (s.wire.Framed? && id in s.pending ==> s.pending[id] in s.calls)
  }

  ghost predicate QueuesOk(queues: map<QueueId, Tickets.State>) {
    forall q :: q in queues ==> Tickets.Core(queues[q])
  }

  ghost predicate Registry(s: State) {
    && (forall x :: CallInv(s, x)) && (forall id :: EntryInv(s, id)) && s.capacity >= |s.queues| && s.capacity >= 1
  }

  ghost predicate Inv(s: State) { Unwrapped(s) ==> QueuesOk(s.queues) && Registry(s) }

  lemma InQueueCall(s: State, q: QueueId, b: Tickets.Action, x: Publication)
    requires Enabled(s, InQueue(q, b)) && Tickets.Core(s.queues[q]) && CallInv(s, x)
    ensures CallInv(Apply(s, InQueue(q, b)), x)
  {
    if x in s.calls && x.queue == q { Tickets.StaysStarted(s.queues[q], b, x.permit); }
  }

  /** What a step outside the queues leaves alone. */
  ghost predicate Kept(s: State, t: State) {
    && t.queues == s.queues && t.wire == s.wire && t.capacity == s.capacity && s.used <= t.used && s.called <= t.called
  }

  lemma PublishKept(s: State, x: Publication, id: RequestId)
    ensures Kept(s, PublishStep(s, x, id)) && PublishStep(s, x, id).refused == s.refused
  {
  }

  lemma EnterKept(s: State, x: Publication, accepted: bool)
    requires InPhase(s, x, Entering)
    ensures Kept(s, Admit(s, x, accepted))
  {
  }

  lemma StepKept(s: State, a: Action)
    requires Enabled(s, a) && !a.InQueue?
    ensures Kept(s, Apply(s, a)) && (!a.Enter? ==> Apply(s, a).refused == s.refused)
  {
    if a.Publish? { PublishKept(s, a.x, a.id); }
    else if a.Enter? { EnterKept(s, a.x, a.accepted); }
    else if InRegistry(a) { RegistryKept(s, a); }
    else { OfCallKept(s, a); }
  }

  lemma RegistryKept(s: State, a: Action)
    requires InRegistry(a)
    ensures Kept(s, RegistryStep(s, a)) && RegistryStep(s, a).refused == s.refused && RegistryStep(s, a).calls == s.calls
  {
  }

  lemma OfCallKept(s: State, a: Action)
    requires OfCall(a) && a.x in s.calls
    ensures Kept(s, OfCallStep(s, a)) && OfCallStep(s, a).refused == s.refused
    ensures forall y :: y in OfCallStep(s, a).calls ==> y in s.calls && OfCallStep(s, a).calls[y].id == s.calls[y].id
  {
  }

  lemma EnterCalls(s: State, x: Publication, accepted: bool)
    requires InPhase(s, x, Entering)
    ensures forall y :: y in Admit(s, x, accepted).calls ==> y in s.calls && Admit(s, x, accepted).calls[y].id == s.calls[y].id
  {
  }

  lemma CallStep(s: State, a: Action, x: Publication)
    requires Enabled(s, a) && !a.InQueue? && CallInv(s, x)
    ensures CallInv(Apply(s, a), x)
  {
    StepKept(s, a);
    if InRegistry(a) { RegistryKept(s, a); }
    else if OfCall(a) { OfCallKept(s, a); }
    else if a.Enter? { EnterCalls(s, a.x, a.accepted); }
  }

  lemma RegistryEntry(s: State, a: Action, id: RequestId)
    requires InRegistry(a) && EntryInv(s, id)
    ensures EntryInv(RegistryStep(s, a), id)
  {
  }

  lemma PublishEntry(s: State, x: Publication, i: RequestId, id: RequestId)
    requires x !in s.called && EntryInv(s, id)
    ensures EntryInv(PublishStep(s, x, i), id)
  {
  }

  lemma TurnAwayEntry(s: State, x: Publication, full: bool, id: RequestId)
    requires InPhase(s, x, Entering) && EntryInv(s, id)
    ensures EntryInv(TurnAway(s, x, full), id)
  {
  }

  lemma InsertEntry(s: State, x: Publication, accepted: bool, id: RequestId)
    requires InPhase(s, x, Entering) && EntryInv(s, id) && CallInv(s, x)
    ensures EntryInv(Insert(s, x, accepted), id)
  {
  }

  lemma EnterEntry(s: State, x: Publication, accepted: bool, id: RequestId)
    requires InPhase(s, x, Entering) && EntryInv(s, id) && CallInv(s, x)
    ensures EntryInv(Admit(s, x, accepted), id)
  {
    TurnAwayEntry(s, x, s.calls[x].id !in s.pending, id);
    InsertEntry(s, x, accepted, id);
  }

  /** The only entry of a call that ends is its own. */
  lemma EndEntry(s: State, x: Publication, takes: bool, id: RequestId)
    requires x in s.calls && EntryInv(s, id)
    requires takes || s.wire.JsonRpc? || !(s.calls[x].id in s.pending && s.pending[s.calls[x].id] == x)
    ensures EntryInv(EndCall(s, x, takes), id)
  {
  }

  lemma OfCallEntry(s: State, a: Action, id: RequestId)
    requires Enabled(s, a) && OfCall(a) && EntryInv(s, id)
    ensures EntryInv(OfCallStep(s, a), id)
  {
    match a
    case RollBack(x) => EndEntry(s, x, true, id);
    case Answered(x) => EndEntry(s, x, false, id);
    case Drop(x) => EndEntry(s, x, s.wire.Framed?, id);
    case DropEntry(x) => EndEntry(s, x, true, id);
  }

  lemma EntryStep(s: State, a: Action, id: RequestId)
    requires Enabled(s, a) && EntryInv(s, id) && (a.Enter? ==> CallInv(s, a.x))
    ensures EntryInv(Apply(s, a), id)
  {
    if a.Publish? { PublishEntry(s, a.x, a.id, id); }
    else if a.Enter? { EnterEntry(s, a.x, a.accepted, id); }
    else if InRegistry(a) { RegistryEntry(s, a, id); }
    else if OfCall(a) { OfCallEntry(s, a, id); }
  }

  lemma StepRegistry(s: State, a: Action)
    requires QueuesOk(s.queues) && Registry(s) && Enabled(s, a)
    ensures Registry(Apply(s, a))
  {
    var t := Apply(s, a);
    forall x ensures CallInv(t, x) {
      assert CallInv(s, x);
      if a.InQueue? { InQueueCall(s, a.q, a.a, x); } else { CallStep(s, a, x); }
    }
    forall id ensures EntryInv(t, id) {
      assert EntryInv(s, id);
      if a.Enter? { assert CallInv(s, a.x); }
      EntryStep(s, a, id);
    }
    if a.InQueue? { assert t.queues.Keys == s.queues.Keys; } else { StepKept(s, a); }
  }

  lemma StepQueues(s: State, q: QueueId, b: Tickets.Action)
    requires Enabled(s, InQueue(q, b)) && Unwrapped(Apply(s, InQueue(q, b))) && QueuesOk(s.queues)
    ensures QueuesOk(Apply(s, InQueue(q, b)).queues)
  {
    var t := Apply(s, InQueue(q, b));
    forall p | p in t.queues ensures Tickets.Core(t.queues[p]) {
      if p == q {
        assert Tickets.Next(s.queues[q], t.queues[q]);
        Tickets.StepKeeps(s.queues[q], t.queues[q]);
      }
    }
  }

  lemma StillUnwrapped(s: State, a: Action)
    requires Enabled(s, a) && Unwrapped(Apply(s, a))
    ensures Unwrapped(s)
  {
    var t := Apply(s, a);
    if a.InQueue? {
      forall p | p in s.queues ensures Tickets.Unwrapped(s.queues[p]) { assert Tickets.Unwrapped(t.queues[p]); }
    } else {
      StepKept(s, a);
    }
  }

  lemma ActionKeeps(s: State, a: Action)
    requires Inv(s) && Enabled(s, a)
    ensures Inv(Apply(s, a))
  {
    if Unwrapped(Apply(s, a)) {
      StillUnwrapped(s, a);
      StepRegistry(s, a);
      if a.InQueue? { StepQueues(s, a.q, a.a); } else { StepKept(s, a); }
    }
  }

  lemma InitInv(s: State)
    requires Init(s)
    ensures Inv(s)
  {
    forall q | q in s.queues ensures Tickets.Core(s.queues[q]) {}
    forall x ensures CallInv(s, x) {}
    forall id ensures EntryInv(s, id) {}
  }

  lemma ReachableInv(s: State)
    requires Runs.Reachable(Init, Next, s)
    ensures Inv(s)
  {
    forall t | Init(t) ensures Inv(t) { InitInv(t); }
    forall t, u | Inv(t) && Next(t, u) ensures Inv(u) {
      var a :| Enabled(t, a) && u == Apply(t, a);
      ActionKeeps(t, a);
    }
    Runs.InEveryReachable(Init, Next, Inv, s);
  }

  // ---------------------------------------------------------------- room for a caller

  /** A set that maps one-to-one into another is no larger. */
  lemma {:induction false} NoLarger(ids: set<RequestId>, f: map<RequestId, QueueId>, into: set<QueueId>)
    requires ids <= f.Keys
    requires forall i :: i in ids ==> f[i] in into
    requires forall i, j :: i in ids && j in ids && i != j ==> f[i] != f[j]
    ensures |ids| <= |into|
  {
    if i :| i in ids {
      NoLarger(ids - {i}, f, into - {f[i]});
    }
  }

  /** No queue has two started permits. */
  ghost predicate OneStarted(s: State) {
    forall x, y :: Started(s, x) && Started(s, y) && x.queue == y.queue ==> x == y
  }

  lemma QueuesHaveOneStarted(s: State)
    requires QueuesOk(s.queues)
    ensures OneStarted(s)
  {
    forall x, y | Started(s, x) && Started(s, y) && x.queue == y.queue ensures x == y {
      var q := s.queues[x.queue];
      assert Tickets.PermitInv(q, x.permit) && Tickets.PermitInv(q, y.permit);
    }
  }

  /** The queue of each live entry; different entries have different queues. */
  lemma QueueOfEntry(s: State) returns (f: map<RequestId, QueueId>)
    requires OneStarted(s) && Registry(s)
    ensures f.Keys == Live(s)
    ensures forall i :: i in f ==> f[i] == s.pending[i].queue && f[i] in s.queues
    ensures forall i, j :: i in f && j in f && i != j ==> f[i] != f[j]
  {
    f := map id | id in Live(s) :: s.pending[id].queue;
    forall i | i in f ensures CallInv(s, s.pending[i]) && EntryInv(s, i) {}
  }

  /** A publication that has not entered the registry leaves room for itself among the live entries. */
  lemma RoomForCaller(s: State, x: Publication)
    requires OneStarted(s) && Registry(s) && InPhase(s, x, Entering)
    ensures |Live(s)| < s.capacity
  {
    assert CallInv(s, x);
    var f := QueueOfEntry(s);
    forall i | i in f ensures f[i] != x.queue { assert CallInv(s, s.pending[i]) && EntryInv(s, i); }
    NoLarger(Live(s), f, s.queues.Keys - {x.queue});
    assert |s.queues.Keys - {x.queue}| == |s.queues| - 1;
  }

  lemma LiveAndLeftover(s: State)
    ensures |s.pending| == |Live(s)| + |Leftover(s)|
  {
    assert s.pending.Keys == Live(s) + Leftover(s);
  }

  /** In every run, for reused ids too, the live entries leave room for a publication: only entries that
      dropped calls left behind can have it refused. */
  lemma OnlyLeftoverRefuses(s: State, x: Publication)
    requires Runs.Reachable(Init, Next, s) && Unwrapped(s) && InPhase(s, x, Entering)
    ensures |Live(s)| < s.capacity
    ensures NoRoom(s) ==> Leftover(s) != {}
  {
    ReachableInv(s);
    QueuesHaveOneStarted(s);
    RoomForCaller(s, x);
    LiveAndLeftover(s);
  }

  // ---------------------------------------------------------------- when an entry is left over

  /** `cancel` returns early: the dropped call still has its entry, but its flag is gone. */
  predicate Orphans(s: State, a: Action) {
    a.Drop? && s.wire.JsonRpc? && InPhase(s, a.x, Waiting)
    && var id := s.calls[a.x].id;
       id !in s.flags && id in s.pending && s.pending[id] == a.x
  }

  /** The entry was live, or left over already. */
  ghost predicate NotOrphaned(s: State, t: State, id: RequestId) { id in Leftover(t) ==> id in Leftover(s) }

  lemma PublishOrphansNone(s: State, x: Publication, i: RequestId, id: RequestId)
    ensures NotOrphaned(s, PublishStep(s, x, i), id)
  {
  }

  lemma RegistryOrphansNone(s: State, a: Action, id: RequestId)
    requires InRegistry(a)
    ensures NotOrphaned(s, RegistryStep(s, a), id)
  {
  }

  lemma EnterOrphansNone(s: State, x: Publication, accepted: bool, id: RequestId)
    requires InPhase(s, x, Entering) && EntryInv(s, id)
    ensures NotOrphaned(s, TurnAway(s, x, s.calls[x].id !in s.pending), id)
    ensures NotOrphaned(s, Insert(s, x, accepted), id)
  {
  }

  lemma EndOrphansNone(s: State, x: Publication, takes: bool, id: RequestId)
    requires x in s.calls && EntryInv(s, id)
    requires takes || !(s.calls[x].id in s.pending && s.pending[s.calls[x].id] == x)
    ensures NotOrphaned(s, EndCall(s, x, takes), id)
  {
  }

  lemma OfCallOrphansNone(s: State, a: Action, id: RequestId)
    requires Enabled(s, a) && OfCall(a) && EntryInv(s, id) && !Orphans(s, a)
    ensures NotOrphaned(s, OfCallStep(s, a), id)
  {
    match a
    case RollBack(x) => EndOrphansNone(s, x, true, id);
    case Answered(x) => EndOrphansNone(s, x, false, id);
    case Drop(x) => if s.wire.Framed? || s.calls[x].id !in s.flags { EndOrphansNone(s, x, s.wire.Framed?, id); }
    case DropEntry(x) => EndOrphansNone(s, x, true, id);
  }

  lemma OtherStepOrphansNone(s: State, a: Action, id: RequestId)
    requires Enabled(s, a) && EntryInv(s, id) && !Orphans(s, a)
    ensures NotOrphaned(s, Apply(s, a), id)
  {
    if a.Publish? { PublishOrphansNone(s, a.x, a.id, id); }
    else if a.Enter? { EnterOrphansNone(s, a.x, a.accepted, id); }
    else if InRegistry(a) { RegistryOrphansNone(s, a, id); }
    else if OfCall(a) { OfCallOrphansNone(s, a, id); }
  }

  lemma OrphanIsLeft(s: State, a: Action)
    requires Enabled(s, a) && Orphans(s, a)
    ensures s.calls[a.x].id in Leftover(Apply(s, a)) && s.calls[a.x].id !in Leftover(s)
  {
  }

  /** What leaves an entry behind, exactly, in every run and for reused ids too: the drop of a call that
      waits under an entry whose flag another thread has removed. */
  lemma LeftBehindExactly(s: State, a: Action)
    requires Runs.Reachable(Init, Next, s) && Unwrapped(s) && Enabled(s, a)
    ensures Leftover(Apply(s, a)) <= Leftover(s) <==> !Orphans(s, a)
  {
    ReachableInv(s);
    if Orphans(s, a) {
      OrphanIsLeft(s, a);
    } else {
      forall id | id in Leftover(Apply(s, a)) ensures id in Leftover(s) {
        assert EntryInv(s, id);
        OtherStepOrphansNone(s, a, id);
      }
    }
  }

  // ---------------------------------------------------------------- nothing left over, nothing refused

  ghost predicate NextKeepingFlags(s: State, t: State) {
    exists a :: Enabled(s, a) && !Orphans(s, a) && t == Apply(s, a)
  }

  ghost predicate NoneLeft(s: State) { Inv(s) && (Unwrapped(s) ==> !s.refused && Leftover(s) == {}) }

  lemma NoneLeftStep(s: State, a: Action)
    requires NoneLeft(s) && Enabled(s, a) && !Orphans(s, a)
    ensures NoneLeft(Apply(s, a))
  {
    var t := Apply(s, a);
    ActionKeeps(s, a);
    if Unwrapped(t) {
      StillUnwrapped(s, a);
      forall id ensures id !in Leftover(t) { assert EntryInv(s, id); OtherStepOrphansNone(s, a, id); }
      assert Leftover(t) == {};
      NotRefused(s, a);
    }
  }

  lemma NotRefused(s: State, a: Action)
    requires Inv(s) && Unwrapped(s) && Enabled(s, a) && Leftover(s) == {} && !s.refused
    ensures !Apply(s, a).refused
  {
    if !a.InQueue? { StepKept(s, a); }
    if a.Enter? {
      QueuesHaveOneStarted(s);
      RoomForCaller(s, a.x);
      LiveAndLeftover(s);
    }
  }

  /** If no call is dropped while its entry has lost its flag, no publication is refused for capacity, on
      either wire, for reused ids and whatever fails. */
  lemma KeptFlagsNeverRefuse(s: State)
    requires Runs.Reachable(Init, NextKeepingFlags, s) && Unwrapped(s)
    ensures !s.refused && Leftover(s) == {} && |s.pending| <= s.capacity
  {
    forall t | Init(t) ensures NoneLeft(t) { InitInv(t); }
    forall t, u | NoneLeft(t) && NextKeepingFlags(t, u) ensures NoneLeft(u) {
      var a :| Enabled(t, a) && !Orphans(t, a) && u == Apply(t, a);
      NoneLeftStep(t, a);
    }
    Runs.InEveryReachable(Init, NextKeepingFlags, NoneLeft, s);
    QueuesHaveOneStarted(s);
    var f := QueueOfEntry(s);
    NoLarger(Live(s), f, s.queues.Keys);
    LiveAndLeftover(s);
  }

  ghost predicate NextPatient(s: State, t: State) {
    exists a :: Enabled(s, a) && !a.Drop? && t == Apply(s, a)
  }

  /** A host that drops no publication future before its answer sees no refusal. */
  lemma PatientHostNeverRefused(s: State)
    requires Runs.Reachable(Init, NextPatient, s) && Unwrapped(s)
    ensures !s.refused
  {
    forall t, u | NextPatient(t, u) ensures NextKeepingFlags(t, u) {
      var a :| Enabled(t, a) && !a.Drop? && u == Apply(t, a);
      assert !Orphans(t, a);
    }
    Runs.ReachMore(Init, NextPatient, NextKeepingFlags, s);
    KeptFlagsNeverRefuse(s);
  }

  /** A framed drop takes its entry with it, so no run on the framed wire takes the refusal. */
  lemma FramedNeverRefuses(s: State)
    requires Runs.Reachable(Init, Next, s) && Unwrapped(s) && s.wire.Framed?
    ensures !s.refused && Leftover(s) == {} && |s.pending| <= s.capacity
  {
    var run :| Runs.IsRun(Next, run) && Init(run[0]) && run[|run| - 1] == s;
    FramedRun(run);
    KeptFlagsNeverRefuse(s);
  }

  lemma WireKept(s: State, t: State)
    requires Next(s, t)
    ensures s.wire == t.wire
  {
    var a :| Enabled(s, a) && t == Apply(s, a);
    if !a.InQueue? { StepKept(s, a); }
  }

  lemma FramedRun(run: seq<State>)
    requires Runs.IsRun(Next, run) && run[|run| - 1].wire.Framed?
    ensures Runs.IsRun(NextKeepingFlags, run)
  {
    var same := (s: State, t: State) => s.wire == t.wire;
    forall s, t | Next(s, t) ensures same(s, t) { WireKept(s, t); }
    forall i | 0 <= i < |run| - 1 ensures NextKeepingFlags(run[i], run[i + 1]) {
      Runs.Ordered(Next, (s: State) => true, same, run, i, |run| - 1);
      assert Next(run[i], run[i + 1]);
      var a :| Enabled(run[i], a) && run[i + 1] == Apply(run[i], a);
      assert !Orphans(run[i], a);
    }
  }

  // ---------------------------------------------------------------- what is left over, and why

  /** A flag is missing only after `fail_all` or after the worker has begun to finish the call. */
  ghost predicate FlagExplained(s: State, x: Publication) {
    x in s.calls && s.wire.JsonRpc? ==>
      var id := s.calls[x].id;
      && id in s.used
      && (s.calls[x].phase.Entering? || s.calls[x].phase.RollingBack? ==> id !in s.sent && id !in s.finishing)
      && (s.calls[x].phase.Entering? && id !in s.flags ==> s.failed)
      && (s.calls[x].phase.Waiting? && id !in s.flags ==> s.failed || id !in s.sent)
  }

  ghost predicate EntryExplained(s: State, id: RequestId) {
    && (id in s.pending && s.wire.JsonRpc? ==>
          id in s.sent || id in s.finishing || InPhase(s, s.pending[id], RollingBack))
    && (id in Leftover(s) ==> id in s.finishing || s.failed)
    && (id in s.sent || id in s.finishing ==> id in s.used)
    && (id in s.finishing ==> id !in s.flags)
  }

  ghost predicate OneCall(s: State, x: Publication, y: Publication) {
    x in s.calls && y in s.calls && s.calls[x].id == s.calls[y].id ==> x == y
  }

  ghost predicate Explained(s: State) {
    && (forall x :: FlagExplained(s, x)) && (forall id :: EntryExplained(s, id))
    && (forall x, y :: OneCall(s, x, y)) && (forall x :: CallInv(s, x)) && (forall id :: EntryInv(s, id))
  }

  lemma OneCallStep(s: State, a: Action, x: Publication, y: Publication)
    requires Enabled(s, a) && OneCall(s, x, y) && (a.Publish? ==> a.id !in s.used)
    requires FlagUsed(s, x) && FlagUsed(s, y)
    ensures OneCall(Apply(s, a), x, y)
  {
    if InRegistry(a) { RegistryKept(s, a); }
    else if OfCall(a) { OfCallKept(s, a); }
    else if a.Enter? { EnterCalls(s, a.x, a.accepted); }
  }

  ghost predicate FlagUsed(s: State, x: Publication) { x in s.calls ==> s.calls[x].id in s.used }

  lemma RegistryExplains(s: State, a: Action, x: Publication)
    requires InRegistry(a) && Enabled(s, a) && FlagExplained(s, x)
    ensures FlagExplained(RegistryStep(s, a), x)
  {
  }

  lemma PublishExplains(s: State, a: Action, x: Publication)
    requires a.Publish? && a.id !in s.used && FlagExplained(s, x) && EntryExplained(s, a.id)
    ensures FlagExplained(PublishStep(s, a.x, a.id), x)
  {
  }

  lemma TurnAwayExplains(s: State, y: Publication, full: bool, x: Publication)
    requires InPhase(s, y, Entering) && FlagExplained(s, x) && OneCall(s, y, x)
    ensures FlagExplained(TurnAway(s, y, full), x)
  {
  }

  lemma InsertExplains(s: State, y: Publication, accepted: bool, x: Publication)
    requires InPhase(s, y, Entering) && FlagExplained(s, x) && OneCall(s, y, x)
    ensures FlagExplained(Insert(s, y, accepted), x)
  {
  }

  lemma OfCallExplains(s: State, a: Action, x: Publication)
    requires OfCall(a) && Enabled(s, a) && FlagExplained(s, x) && OneCall(s, a.x, x)
    ensures FlagExplained(OfCallStep(s, a), x)
  {
  }

  lemma RegistryEntryExplained(s: State, a: Action, id: RequestId)
    requires InRegistry(a) && Enabled(s, a) && EntryExplained(s, id)
    ensures EntryExplained(RegistryStep(s, a), id)
  {
  }

  lemma PublishEntryExplained(s: State, a: Action, id: RequestId)
    requires a.Publish? && Enabled(s, a) && EntryExplained(s, id) && EntryInv(s, id) && CallInv(s, a.x) && a.id !in s.used
    ensures EntryExplained(PublishStep(s, a.x, a.id), id)
  {
  }

  lemma TurnAwayEntryExplained(s: State, x: Publication, full: bool, id: RequestId)
    requires InPhase(s, x, Entering) && EntryExplained(s, id) && EntryInv(s, id)
    ensures EntryExplained(TurnAway(s, x, full), id)
  {
  }

  lemma InsertEntryExplained(s: State, x: Publication, accepted: bool, id: RequestId)
    requires InPhase(s, x, Entering) && EntryExplained(s, id) && EntryInv(s, id) && CallInv(s, x)
    ensures EntryExplained(Insert(s, x, accepted), id)
  {
  }

  lemma OfCallEntryExplained(s: State, a: Action, id: RequestId)
    requires OfCall(a) && Enabled(s, a) && EntryExplained(s, id) && EntryInv(s, id) && FlagExplained(s, a.x)
    ensures EntryExplained(OfCallStep(s, a), id)
  {
  }

  lemma StepFlagExplained(s: State, a: Action, x: Publication)
    requires Enabled(s, a) && Explained(s) && (a.Publish? ==> a.id !in s.used)
    ensures FlagExplained(Apply(s, a), x)
  {
    assert FlagExplained(s, x);
    if a.Publish? { assert EntryExplained(s, a.id); PublishExplains(s, a, x); }
    else if a.Enter? {
      assert OneCall(s, a.x, x);
      TurnAwayExplains(s, a.x, s.calls[a.x].id !in s.pending, x);
      InsertExplains(s, a.x, a.accepted, x);
    }
    else if InRegistry(a) { RegistryExplains(s, a, x); }
    else if OfCall(a) { assert OneCall(s, a.x, x); OfCallExplains(s, a, x); }
  }

  lemma StepEntryExplained(s: State, a: Action, id: RequestId)
    requires Enabled(s, a) && Explained(s) && (a.Publish? ==> a.id !in s.used)
    ensures EntryExplained(Apply(s, a), id)
  {
    assert EntryExplained(s, id) && EntryInv(s, id);
    if a.Publish? { assert CallInv(s, a.x); PublishEntryExplained(s, a, id); }
    else if a.Enter? {
      assert CallInv(s, a.x);
      TurnAwayEntryExplained(s, a.x, s.calls[a.x].id !in s.pending, id);
      InsertEntryExplained(s, a.x, a.accepted, id);
    }
    else if InRegistry(a) { RegistryEntryExplained(s, a, id); }
    else if OfCall(a) { assert FlagExplained(s, a.x); OfCallEntryExplained(s, a, id); }
  }

  /** The explanation is good as long as no id was used twice. */
  ghost predicate ExplainedInv(s: State) { Inv(s) && (Unwrapped(s) && !s.reused ==> Explained(s)) }

  lemma StepExplained(s: State, a: Action)
    requires ExplainedInv(s) && Enabled(s, a)
    ensures ExplainedInv(Apply(s, a))
  {
    var t := Apply(s, a);
    ActionKeeps(s, a);
    ReusedKept(s, a);
    if Unwrapped(t) && !t.reused {
      StillUnwrapped(s, a);
      forall x ensures FlagExplained(t, x) { StepFlagExplained(s, a, x); }
      forall id ensures EntryExplained(t, id) { StepEntryExplained(s, a, id); }
      forall x, y ensures OneCall(t, x, y) {
        assert CallInv(s, x) && CallInv(s, y) && OneCall(s, x, y);
        OneCallStep(s, a, x, y);
      }
    }
  }

  lemma ReusedKept(s: State, a: Action)
    requires Enabled(s, a)
    ensures Apply(s, a).reused == (s.reused || (a.Publish? && a.id in s.used))
  {
    if InRegistry(a) { RegistryReused(s, a); }
  }

  lemma RegistryReused(s: State, a: Action)
    requires InRegistry(a)
    ensures RegistryStep(s, a).reused == s.reused
  {
  }

  lemma ReachableExplained(s: State)
    requires Runs.Reachable(Init, Next, s) && Unwrapped(s) && !s.reused
    ensures Explained(s)
  {
    forall t | Init(t) ensures ExplainedInv(t) { InitInv(t); InitExplained(t); }
    forall t, u | ExplainedInv(t) && Next(t, u) ensures ExplainedInv(u) {
      var a :| Enabled(t, a) && u == Apply(t, a);
      StepExplained(t, a);
    }
    Runs.InEveryReachable(Init, Next, ExplainedInv, s);
  }

  /** What is left over is accounted for: with ids that are not used again, an entry outlives its call only
      while the worker's `finish` is between its two locks, or after a `fail_all` has begun. */
  lemma LeftoverExplained(s: State, id: RequestId)
    requires Runs.Reachable(Init, Next, s) && Unwrapped(s) && !s.reused && id in Leftover(s)
    ensures s.wire.JsonRpc? && (id in s.finishing || s.failed)
  {
    ReachableExplained(s);
    assert EntryExplained(s, id) && EntryInv(s, id);
  }

  // -- whose flag it is

  /** Before any `fail_all`, a flag belongs to a publication on its way to its entry or waiting under it. */
  ghost predicate FlagOwned(s: State, id: RequestId) {
    id in s.flags && !s.failed ==>
      exists x :: x in s.calls && s.calls[x].id == id && Owns(s, x)
  }

  ghost predicate Owns(s: State, x: Publication)
    requires x in s.calls
  {
    || s.calls[x].phase.Entering?
    || (!s.calls[x].phase.Dropping? && s.calls[x].id in s.pending && s.pending[s.calls[x].id] == x)
  }

  ghost predicate DropsFlagless(s: State, x: Publication) {
    x in s.calls && s.calls[x].phase.Dropping? ==> s.calls[x].id !in s.flags
  }

  ghost predicate FlagsInv(s: State) {
    (forall id :: FlagOwned(s, id)) && (forall x :: DropsFlagless(s, x)) && (s.wire.Framed? ==> s.flags == {})
  }

  /** The owner of a flag is still one after the step. */
  ghost predicate StillOwned(s: State, t: State, id: RequestId) {
    forall x :: x in s.calls && s.calls[x].id == id && Owns(s, x) ==> x in t.calls && t.calls[x].id == id && Owns(t, x)
  }

  lemma OwnedOn(s: State, t: State, id: RequestId)
    requires FlagOwned(s, id) && StillOwned(s, t, id) && (id in t.flags && !t.failed ==> id in s.flags && !s.failed)
    ensures FlagOwned(t, id)
  {
    if id in t.flags && !t.failed {
      var x :| x in s.calls && s.calls[x].id == id && Owns(s, x);
      assert x in t.calls && t.calls[x].id == id && Owns(t, x);
    }
  }

  lemma PublishOwned(s: State, a: Action, id: RequestId)
    requires Enabled(s, a) && a.Publish? && a.id !in s.used && a.x !in s.calls && FlagOwned(s, id)
    ensures FlagOwned(PublishStep(s, a.x, a.id), id)
  {
    var t := PublishStep(s, a.x, a.id);
    if id == a.id {
      if a.id !in s.flags { assert a.x in t.calls && t.calls[a.x].id == id && Owns(t, a.x); }
      else { OwnedOn(s, t, id); }
    } else {
      OwnedOn(s, t, id);
    }
  }

  lemma TurnAwayOwned(s: State, x: Publication, full: bool, id: RequestId)
    requires InPhase(s, x, Entering) && FlagOwned(s, id)
    ensures FlagOwned(TurnAway(s, x, full), id)
  {
    OwnedOnIf(s, TurnAway(s, x, full), id);
  }

  lemma OwnedOnIf(s: State, t: State, id: RequestId)
    requires FlagOwned(s, id) && (id in t.flags && !t.failed ==> id in s.flags && !s.failed && StillOwned(s, t, id))
    ensures FlagOwned(t, id)
  {
    if id in t.flags && !t.failed { OwnedOn(s, t, id); }
  }

  lemma InsertOwned(s: State, x: Publication, accepted: bool, id: RequestId)
    requires InPhase(s, x, Entering) && FlagOwned(s, id) && s.calls[x].id !in s.pending
    ensures FlagOwned(Insert(s, x, accepted), id)
  {
    OwnedOnIf(s, Insert(s, x, accepted), id);
  }

  lemma RegistryOwned(s: State, a: Action, id: RequestId)
    requires InRegistry(a) && Enabled(s, a) && FlagOwned(s, id) && EntryExplained(s, id) && (s.wire.Framed? ==> s.flags == {})
    ensures FlagOwned(RegistryStep(s, a), id)
  {
    OwnedOnIf(s, RegistryStep(s, a), id);
  }

  lemma OfCallOwned(s: State, a: Action, id: RequestId)
    requires OfCall(a) && Enabled(s, a) && FlagOwned(s, id) && DropsFlagless(s, a.x) && (s.wire.Framed? ==> s.flags == {})
    ensures FlagOwned(OfCallStep(s, a), id)
  {
    OwnedOnIf(s, OfCallStep(s, a), id);
  }

  lemma StepOwned(s: State, a: Action, id: RequestId)
    requires Enabled(s, a) && Explained(s) && FlagsInv(s) && (a.Publish? ==> a.id !in s.used)
    ensures FlagOwned(Apply(s, a), id)
  {
    assert FlagOwned(s, id) && EntryExplained(s, id);
    if a.InQueue? { OwnedOn(s, Apply(s, a), id); }
    else if a.Publish? { assert CallInv(s, a.x); PublishOwned(s, a, id); }
    else if a.Enter? {
      if s.calls[a.x].id in s.pending { TurnAwayOwned(s, a.x, false, id); }
      else if NoRoom(s) { TurnAwayOwned(s, a.x, true, id); }
      else { InsertOwned(s, a.x, a.accepted, id); }
    }
    else if InRegistry(a) { RegistryOwned(s, a, id); }
    else { assert DropsFlagless(s, a.x); OfCallOwned(s, a, id); }
  }

  lemma StepFlagless(s: State, a: Action, x: Publication)
    requires Enabled(s, a) && DropsFlagless(s, x) && FlagUsed(s, x) && (a.Publish? ==> a.id !in s.used)
    ensures DropsFlagless(Apply(s, a), x)
  {
    if InRegistry(a) { RegistryFlagless(s, a, x); } else if OfCall(a) { OfCallFlagless(s, a, x); }
  }

  lemma RegistryFlagless(s: State, a: Action, x: Publication)
    requires InRegistry(a) && DropsFlagless(s, x)
    ensures DropsFlagless(RegistryStep(s, a), x)
  {
  }

  lemma OfCallFlagless(s: State, a: Action, x: Publication)
    requires OfCall(a) && Enabled(s, a) && DropsFlagless(s, x)
    ensures DropsFlagless(OfCallStep(s, a), x)
  {
  }

  lemma FramedFlagless(s: State, a: Action)
    requires Enabled(s, a) && (s.wire.Framed? ==> s.flags == {})
    ensures Apply(s, a).wire.Framed? ==> Apply(s, a).flags == {}
  {
    if InRegistry(a) { RegistryFramed(s, a); } else if OfCall(a) { OfCallFramed(s, a); }
  }

  lemma RegistryFramed(s: State, a: Action)
    requires InRegistry(a)
    ensures RegistryStep(s, a).wire == s.wire && RegistryStep(s, a).flags <= s.flags
  {
  }

  lemma OfCallFramed(s: State, a: Action)
    requires OfCall(a) && a.x in s.calls
    ensures OfCallStep(s, a).wire == s.wire && OfCallStep(s, a).flags <= s.flags
  {
  }

  /** In every run whose ids are not used again, before any `fail_all`: every flag belongs to a publication that
      still holds its call and is on its way to its entry or waiting under it, so a publication that was refused,
      rolled back, answered or dropped leaves none. */
  lemma FlagsBelong(s: State, id: RequestId)
    requires Runs.Reachable(Init, Next, s) && Unwrapped(s) && !s.reused
    ensures id in s.flags && !s.failed ==> exists y :: y in s.calls && s.calls[y].id == id && Owns(s, y)
  {
    var inv := (t: State) => ExplainedInv(t) && (Unwrapped(t) && !t.reused ==> FlagsInv(t));
    forall t | Init(t) ensures inv(t) { InitInv(t); InitExplained(t); }
    forall t, u | inv(t) && Next(t, u) ensures inv(u) {
      var a :| Enabled(t, a) && u == Apply(t, a);
      StepExplained(t, a);
      ReusedKept(t, a);
      if Unwrapped(u) && !u.reused {
        StillUnwrapped(t, a);
        StepFlagsInv(t, a);
      }
    }
    Runs.InEveryReachable(Init, Next, inv, s);
    assert FlagOwned(s, id);
  }

  /** A publication whose id has a flag is refused at once, and any other is on its way. */
  lemma FlaggedIsRefused(s: State, x: Publication, id: RequestId)
    requires Enabled(s, Publish(x, id)) && x !in s.calls
    ensures var t := Apply(s, Publish(x, id));
            if id in s.flags then t.calls == s.calls && t.flags == s.flags && t.pending == s.pending
            else InPhase(t, x, Entering) && t.calls[x].id == id && (s.wire.JsonRpc? ==> id in t.flags)
  {
  }

  lemma StepFlagsInv(s: State, a: Action)
    requires Enabled(s, a) && Explained(s) && FlagsInv(s) && (a.Publish? ==> a.id !in s.used)
    ensures FlagsInv(Apply(s, a))
  {
    forall id ensures FlagOwned(Apply(s, a), id) { StepOwned(s, a, id); }
    forall x ensures DropsFlagless(Apply(s, a), x) { assert DropsFlagless(s, x) && CallInv(s, x); StepFlagless(s, a, x); }
    FramedFlagless(s, a);
  }

  /** The window, exactly: with ids that are not used again and before any `fail_all`, the drop of a call that
      waits under its entry leaves the entry behind if and only if the worker's `finish` of this very call is
      between its two locks. */
  lemma OrphansExactlyWhileFinishing(s: State, x: Publication)
    requires Runs.Reachable(Init, Next, s) && Unwrapped(s) && !s.reused && !s.failed
    requires InPhase(s, x, Waiting) && s.calls[x].id in s.pending && s.pending[s.calls[x].id] == x
    ensures Orphans(s, Drop(x)) <==> s.wire.JsonRpc? && s.calls[x].id in s.finishing
  {
    ReachableExplained(s);
    assert EntryExplained(s, s.calls[x].id) && FlagExplained(s, x);
  }

  lemma InitExplained(s: State)
    requires Init(s)
    ensures Explained(s)
  {
    forall x ensures FlagExplained(s, x) && CallInv(s, x) {}
    forall id ensures EntryExplained(s, id) && EntryInv(s, id) {}
  }

  // ---------------------------------------------------------------- the refusal, reached

  lemma Reach(s: State, a: Action)
    requires Runs.Reachable(Init, Next, s) && Enabled(s, a)
    ensures Runs.Reachable(Init, Next, Apply(s, a))
  {
    Runs.ReachStep(Init, Next, s, Apply(s, a));
  }

  const FIRST: Publication := Publication(0, 0)
  const SECOND: Publication := Publication(0, 1)

  // the states of one queue of two, as its permits come and go
  const EMPTY_QUEUE: Tickets.State := Tickets.State(Tickets.Queue(2, 0, 0, None, []), map[], 0, [])
  const ONE_PERMIT: Tickets.State :=
    Tickets.State(Tickets.Queue(2, 1, 1, Some(0), []), map[0 := Tickets.Permit(0, false, false, false)], 1, [])
  const TWO_PERMITS: Tickets.State :=
    Tickets.State(Tickets.Queue(2, 2, 2, Some(0), [Tickets.Waiter(1, 1)]),
                  map[0 := Tickets.Permit(0, false, false, false), 1 := Tickets.Permit(1, true, false, false)], 2, [])
  const ONE_STARTED: Tickets.State :=
    TWO_PERMITS.(permits := map[0 := Tickets.Permit(0, false, false, true), 1 := Tickets.Permit(1, true, false, false)],
                 starts := [0])
  const ONE_LEFT: Tickets.State :=
    Tickets.State(Tickets.Queue(2, 1, 2, Some(1), []), map[1 := Tickets.Permit(1, true, true, false)], 2, [0])
  const NEXT_STARTED: Tickets.State :=
    ONE_LEFT.(permits := map[1 := Tickets.Permit(1, true, true, true)], starts := [0, 1])

  lemma Acquires()
    ensures Tickets.Apply(EMPTY_QUEUE, Tickets.Acquire) == ONE_PERMIT
    ensures Tickets.Apply(ONE_PERMIT, Tickets.Acquire) == TWO_PERMITS
  {
  }

  lemma StartsFirst()
    ensures Tickets.Enabled(TWO_PERMITS, Tickets.Start(0)) && Tickets.Apply(TWO_PERMITS, Tickets.Start(0)) == ONE_STARTED
  {
  }

  lemma DropsFirst()
    ensures Tickets.Enabled(ONE_STARTED, Tickets.Drop(0)) && Tickets.Apply(ONE_STARTED, Tickets.Drop(0)) == ONE_LEFT
  {
    var fired := Tickets.Fire(ONE_STARTED.permits, Some(1));
    assert fired - {0} == ONE_LEFT.permits;
  }

  lemma StartsSecond()
    ensures Tickets.Enabled(ONE_LEFT, Tickets.Start(1)) && Tickets.Apply(ONE_LEFT, Tickets.Start(1)) == NEXT_STARTED
  {
  }

  lemma ReachQueue(s: State, a: Tickets.State, b: Tickets.Action, c: Tickets.State) returns (t: State)
    requires Runs.Reachable(Init, Next, s) && s.queues == map[0 := a] && Tickets.Enabled(a, b) && Tickets.Apply(a, b) == c
    requires b.Drop? ==> Publication(0, b.p) !in s.calls
    ensures Runs.Reachable(Init, Next, t) && t == s.(queues := map[0 := c])
  {
    Reach(s, InQueue(0, b));
    t := Apply(s, InQueue(0, b));
  }

  function Fresh(queue: Tickets.State): State {
    State(JsonRpc, 1, map[0 := queue], map[], {}, map[], {}, {}, {}, {}, false, false, false)
  }

  lemma TwoPermits() returns (s: State)
    ensures Runs.Reachable(Init, Next, s) && s == Fresh(ONE_STARTED)
  {
    var s0 := Fresh(EMPTY_QUEUE);
    assert |s0.queues| == 1 by { assert s0.queues.Keys == {0}; }
    Runs.ReachStart(Init, Next, s0);
    Acquires();
    var s1 := ReachQueue(s0, EMPTY_QUEUE, Tickets.Acquire, ONE_PERMIT);
    var s2 := ReachQueue(s1, ONE_PERMIT, Tickets.Acquire, TWO_PERMITS);
    StartsFirst();
    s := ReachQueue(s2, TWO_PERMITS, Tickets.Start(0), ONE_STARTED);
  }

  /** A started publication enters the registry and is sent. */
  lemma ReachWaiting(s: State, x: Publication, id: RequestId) returns (t: State)
    requires Runs.Reachable(Init, Next, s) && s.wire.JsonRpc? && Enabled(s, Publish(x, id)) && id !in s.used
    requires id !in s.flags && id !in s.pending && !NoRoom(s)
    ensures Runs.Reachable(Init, Next, t)
    ensures t == s.(called := s.called + {x}, used := s.used + {id}, flags := s.flags + {id}, sent := s.sent + {id},
                    pending := s.pending[id := x], calls := s.calls[x := Call(id, Waiting)])
  {
    var s1 := ReachEntering(s, x, id);
    Reach(s1, Enter(x, true));
    t := Insert(s1, x, true);
    assert t.calls == s.calls[x := Call(id, Waiting)];
  }

  lemma ReachEntering(s: State, x: Publication, id: RequestId) returns (t: State)
    requires Runs.Reachable(Init, Next, s) && Enabled(s, Publish(x, id)) && id !in s.used && id !in s.flags
    ensures Runs.Reachable(Init, Next, t) && InPhase(t, x, Entering)
    ensures t == s.(called := s.called + {x}, used := s.used + {id}, calls := s.calls[x := Call(id, Entering)],
                    flags := if s.wire.JsonRpc? then s.flags + {id} else s.flags)
  {
    Reach(s, Publish(x, id));
    t := PublishStep(s, x, id);
  }

  /** The first event is in the registry, its `finish` has removed the flag, and its future was dropped. */
  lemma DroppedWhileFinishing() returns (s: State)
    ensures Runs.Reachable(Init, Next, s)
    ensures s == Fresh(ONE_STARTED).(pending := map[0 := FIRST], called := {FIRST}, finishing := {0}, used := {0})
  {
    var s0 := TwoPermits();
    var s1 := ReachWaiting(s0, FIRST, 0);
    Reach(s1, BeginFinish(0));
    var s2 := RegistryStep(s1, BeginFinish(0));
    Reach(s2, Drop(FIRST));
    s := OfCallStep(s2, Drop(FIRST));
  }

  /** The first permit is dropped and the second gets its turn. */
  lemma ReachNextTurn(s: State) returns (t: State)
    requires Runs.Reachable(Init, Next, s) && s.queues == map[0 := ONE_STARTED] && FIRST !in s.calls
    ensures Runs.Reachable(Init, Next, t) && t == s.(queues := map[0 := NEXT_STARTED])
  {
    DropsFirst();
    var s1 := ReachQueue(s, ONE_STARTED, Tickets.Drop(0), ONE_LEFT);
    StartsSecond();
    t := ReachQueue(s1, ONE_LEFT, Tickets.Start(1), NEXT_STARTED);
  }

  lemma ReachRefused(s: State, x: Publication, id: RequestId) returns (t: State)
    requires Runs.Reachable(Init, Next, s) && Enabled(s, Publish(x, id)) && id !in s.used
    requires id !in s.flags && id !in s.pending && NoRoom(s)
    ensures Runs.Reachable(Init, Next, t) && t.refused && t.reused == s.reused && t.failed == s.failed
  {
    var s1 := ReachEntering(s, x, id);
    Reach(s1, Enter(x, true));
    t := TurnAway(s1, x, true);
  }

  /** The capacity refusal is reachable on the JSON-RPC wire, with fresh ids and a living process: the second
      publication of a queue finds the entry of the first, whose future was dropped while its `finish` was
      between the two locks. */
  lemma RefusalReachable() returns (s: State)
    ensures Runs.Reachable(Init, Next, s) && s.refused && !s.reused && !s.failed
  {
    var s0 := DroppedWhileFinishing();
    var s1 := ReachNextTurn(s0);
    assert |s1.pending| == 1 by { assert s1.pending.Keys == {0}; }
    s := ReachRefused(s1, SECOND, 1);
  }

  // ---------------------------------------------------------------- every orphan in a full registry refuses

  /** A permit that has called has started, and is the only one there ever was with its number. */
  ghost predicate CalledInv(s: State, x: Publication) {
    x in s.called ==>
      && x.queue in s.queues && x.permit < s.queues[x.queue].issued
      && (x.permit in s.queues[x.queue].permits ==> s.queues[x.queue].permits[x.permit].started)
  }

  ghost predicate IssuedInv(s: State) {
    && (forall x :: CalledInv(s, x))
    && (forall q, p :: q in s.queues && p in s.queues[q].permits ==> p < s.queues[q].issued)
  }

  /** Only a publication adds to what has called. */
  lemma CalledKept(s: State, a: Action)
    requires Enabled(s, a) && !a.Publish?
    ensures Apply(s, a).called == s.called
  {
    if InRegistry(a) { RegistryCalled(s, a); }
    else if OfCall(a) { OfCallCalled(s, a); }
  }

  lemma RegistryCalled(s: State, a: Action)
    requires InRegistry(a)
    ensures RegistryStep(s, a).called == s.called
  {
  }

  lemma OfCallCalled(s: State, a: Action)
    requires OfCall(a) && a.x in s.calls
    ensures OfCallStep(s, a).called == s.called
  {
  }

  lemma CalledInQueue(s: State, q: QueueId, b: Tickets.Action, x: Publication)
    requires CalledInv(s, x) && Enabled(s, InQueue(q, b))
    ensures CalledInv(Apply(s, InQueue(q, b)), x)
  {
  }

  lemma CalledStep(s: State, a: Action, x: Publication)
    requires IssuedInv(s) && Enabled(s, a)
    ensures CalledInv(Apply(s, a), x)
  {
    assert CalledInv(s, x);
    if a.InQueue? {
      CalledInQueue(s, a.q, a.a, x);
    } else {
      StepKept(s, a);
      if !a.Publish? { CalledKept(s, a); }
    }
  }

  lemma IssuedStep(s: State, a: Action)
    requires IssuedInv(s) && Enabled(s, a)
    ensures IssuedInv(Apply(s, a))
  {
    forall x ensures CalledInv(Apply(s, a), x) { CalledStep(s, a, x); }
    if !a.InQueue? { StepKept(s, a); }
  }

  lemma ReachableIssued(s: State)
    requires Runs.Reachable(Init, Next, s)
    ensures IssuedInv(s)
  {
    forall t, u | IssuedInv(t) && Next(t, u) ensures IssuedInv(u) {
      var a :| Enabled(t, a) && u == Apply(t, a);
      IssuedStep(t, a);
    }
    Runs.InEveryReachable(Init, Next, IssuedInv, s);
  }

  lemma {:induction false} Unused(ids: set<RequestId>) returns (id: RequestId)
    ensures forall i :: i in ids ==> i < id
  {
    id := 0;
    if i :| i in ids {
      var j := Unused(ids - {i});
      id := if i < j then j else i + 1;
      forall k | k in ids ensures k < id { assert k == i || k in ids - {i}; }
    }
  }

  lemma ReachTurn(s: State, y: Publication) returns (t: State)
    requires Runs.Reachable(Init, Next, s) && y.queue in s.queues && Tickets.Enabled(s.queues[y.queue], Tickets.Start(y.permit))
    ensures Runs.Reachable(Init, Next, t) && Started(t, y) && y !in t.called && t == s.(queues := t.queues)
  {
    ReachableIssued(s);
    assert CalledInv(s, y);
    Reach(s, InQueue(y.queue, Tickets.Start(y.permit)));
    t := Apply(s, InQueue(y.queue, Tickets.Start(y.permit)));
  }

  /** The permit whose call was dropped leaves, and another of its queue gets its turn. */
  lemma TurnPasses(s: State, x: Publication) returns (t: State, y: Publication)
    requires Runs.Reachable(Init, Next, s) && Unwrapped(s) && Started(s, x) && x !in s.calls
    ensures Runs.Reachable(Init, Next, t) && Started(t, y) && y !in t.called && t == s.(queues := t.queues)
  {
    ReachableInv(s);
    var q := x.queue;
    var p := Tickets.SomebodyNext(s.queues[q], x.permit);
    y := Publication(q, p);
    Reach(s, InQueue(q, Tickets.Drop(x.permit)));
    var s1 := Apply(s, InQueue(q, Tickets.Drop(x.permit)));
    if s1.queues[q].permits == map[] {
      Reach(s1, InQueue(q, Tickets.Acquire));
      s1 := Apply(s1, InQueue(q, Tickets.Acquire));
    }
    t := ReachTurn(s1, y);
  }

  /** The other half: from every reachable state with a full registry, a drop that leaves its entry behind
      can have the next publication of its queue refused. */
  lemma OrphanRefusesNext(s: State, x: Publication) returns (t: State)
    requires Runs.Reachable(Init, Next, s) && Unwrapped(s) && Orphans(s, Drop(x)) && NoRoom(s)
    ensures Runs.Reachable(Init, Next, t) && t.refused
  {
    var s1 := ReachDropped(s, x);
    var s2, y := TurnPasses(s1, x);
    t := ReachFreshRefused(s2, y);
  }

  lemma ReachDropped(s: State, x: Publication) returns (t: State)
    requires Runs.Reachable(Init, Next, s) && Unwrapped(s) && Orphans(s, Drop(x))
    ensures Runs.Reachable(Init, Next, t) && t == s.(calls := s.calls - {x}) && Started(t, x)
  {
    ReachableInv(s);
    assert CallInv(s, x);
    Reach(s, Drop(x));
    t := OfCallStep(s, Drop(x));
  }

  lemma ReachFreshRefused(s: State, y: Publication) returns (t: State)
    requires Runs.Reachable(Init, Next, s) && Started(s, y) && y !in s.called && NoRoom(s)
    ensures Runs.Reachable(Init, Next, t) && t.refused
  {
    var taken := s.used + s.flags + s.pending.Keys;
    var id := Unused(taken);
    assert id !in taken;
    t := ReachRefused(s, y, id);
  }

  // ---------------------------------------------------------------- what the registry holds

  type EntryLog = seq<Log.Entry<RequestId, Publication>>

  /** The system with what was put into and taken out of the registry, in order. */
  datatype Traced = Traced(s: State, log: EntryLog)

  /** A publication is entered when its id is not in the registry and there is room. A framed reply, the second half
      of a `finish`, of a roll-back or of a cancellation and a framed drop take one entry out; the second half of a
      `fail_all` takes all. */
  function Said(s: State, a: Action): EntryLog
    requires Enabled(s, a)
  {
    match a
    case Enter(x, _) =>
      if s.calls[x].id !in s.pending && |s.pending| < s.capacity then [Log.Opened(s.calls[x].id, x)] else []
    case RollBack(x) => [Log.Closed(s.calls[x].id)]
    case Reply(id) => [Log.Closed(id)]
    case EndFinish(id) => [Log.Closed(id)]
    case TakeAll => [Log.AllClosed]
    case Drop(x) => if s.wire.Framed? then [Log.Closed(s.calls[x].id)] else []
    case DropEntry(x) => [Log.Closed(s.calls[x].id)]
    case _ => []
  }

  function Trace(t: Traced, a: Action): Traced
    requires Enabled(t.s, a)
  {
    Traced(Apply(t.s, a), t.log + Said(t.s, a))
  }

  ghost predicate TracedNext(t: Traced, u: Traced) {
    exists a :: Enabled(t.s, a) && u == Trace(t, a)
  }

  ghost predicate TracedInit(t: Traced) { Init(t.s) && t.log == [] }

  ghost predicate LogMatches(t: Traced, id: RequestId, x: Publication) {
    id in t.s.pending && t.s.pending[id] == x <==> Log.IsOpen(t.log, id, x)
  }

  /** What a step makes of the registry, by what it said. */
  lemma PendingStep(s: State, a: Action)
    requires Enabled(s, a)
    ensures var p, said := Apply(s, a).pending, Said(s, a);
            if said == [] then p == s.pending
            else match said[0]
                 case Opened(id, x) => p == s.pending[id := x]
                 case Closed(id) => p == s.pending - {id}
                 case AllClosed => p == map[]
  {
    if a.Enter? { EnterPending(s, a.x, a.accepted); }
    else if OfCall(a) { OfCallPending(s, a); }
  }

  lemma EnterPending(s: State, x: Publication, accepted: bool)
    requires InPhase(s, x, Entering)
    ensures Admit(s, x, accepted).pending ==
            if s.calls[x].id !in s.pending && |s.pending| < s.capacity then s.pending[s.calls[x].id := x] else s.pending
  {
    TurnAwayPending(s, x, s.calls[x].id !in s.pending);
    InsertPending(s, x, accepted);
  }

  lemma TurnAwayPending(s: State, x: Publication, full: bool)
    requires x in s.calls
    ensures TurnAway(s, x, full).pending == s.pending
  {
  }

  lemma InsertPending(s: State, x: Publication, accepted: bool)
    requires x in s.calls
    ensures Insert(s, x, accepted).pending == s.pending[s.calls[x].id := x]
  {
  }

  lemma OfCallPending(s: State, a: Action)
    requires OfCall(a) && a.x in s.calls
    ensures OfCallStep(s, a).pending ==
            if a.RollBack? || a.DropEntry? || (a.Drop? && s.wire.Framed?) then s.pending - {s.calls[a.x].id} else s.pending
  {
  }

  /** In every run the registry holds exactly the publications that were entered and have not been taken out since. */
  lemma EntriesExactly(t: Traced, id: RequestId, x: Publication)
    requires Runs.Reachable(TracedInit, TracedNext, t)
    ensures id in t.s.pending && t.s.pending[id] == x <==> Log.IsOpen(t.log, id, x)
  {
    var inv := (u: Traced) => LogMatches(u, id, x);
    forall u, v | inv(u) && TracedNext(u, v) ensures inv(v) {
      var a :| Enabled(u.s, a) && v == Trace(u, a);
      PendingStep(u.s, a);
      Log.SaidAtMostOne(u.log, Said(u.s, a), id, x);
    }
    Runs.InEveryReachable(TracedInit, TracedNext, inv, t);
  }

  /** A `finish` without interruption takes the flag and the entry, a `fail_all` all of them, and a publication whose
      send is refused after it was entered leaves neither. */
  lemma OperationsAlone(s: State, id: RequestId, x: Publication)
    ensures Enabled(s, BeginFinish(id)) ==>
              var t := Apply(Apply(s, BeginFinish(id)), EndFinish(id));
              && t.pending == s.pending - {id} && t.flags == s.flags - {id} && t.sent == s.sent - {id}
              && t.finishing == s.finishing - {id} && t.calls == s.calls
    ensures var t := Apply(Apply(s, BeginFailAll), TakeAll); t.pending == map[] && t.flags == {} && t.calls == s.calls
    ensures InPhase(s, x, Entering) && s.calls[x].id !in s.pending && !NoRoom(s) ==>
              var t := Admit(s, x, false);
              InPhase(t, x, RollingBack) && t.sent == s.sent && RolledBackTo(s, x, OfCallStep(t, RollBack(x)))
  {
    if InPhase(s, x, Entering) && s.calls[x].id !in s.pending && !NoRoom(s) { RefusedSendAlone(s, x); }
  }

  ghost predicate RolledBackTo(s: State, x: Publication, t: State)
    requires x in s.calls
  {
    t.pending == s.pending && t.flags == s.flags - {s.calls[x].id} && t.calls == s.calls - {x}
  }

  lemma RefusedSendAlone(s: State, x: Publication)
    requires InPhase(s, x, Entering) && s.calls[x].id !in s.pending
    ensures var t := Insert(s, x, false);
            InPhase(t, x, RollingBack) && t.sent == s.sent && RolledBackTo(s, x, OfCallStep(t, RollBack(x)))
  {
    assert s.pending[s.calls[x].id := x] - {s.calls[x].id} == s.pending;
  }
}
