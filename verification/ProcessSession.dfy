/** `ProcessV1Session::request` and `cancel` (`process_v1/client.rs`) as clients of the terminal
    arbiter: every call is a thread that takes the arbiter's lock several times, and cancellations,
    deadlines and other calls may come in between. */
module ProcessSession {
  import opened Common
  import Runs
  import opened TerminalArbitration

  type CallId = nat

  datatype Outcome = Succeeded | WasCancelled | TimedOut | Protocol | Transport

  datatype Point =
    | Entered       // accepted and validated, not yet admitted
    | Admitted
    | Expiring      // found no time left
    | Sending
    | Failing       // the transport reported an error
    | Responding    // a valid response arrived
    | Classifying   // the arbiter refused the response

  datatype Call = Call(id: Id, deadline: Option<Instant>, at: Point)

  /** An outcome, with the call's deadline and the time it was returned at. */
  datatype Returned = Returned(id: Id, outcome: Outcome, deadline: Option<Instant>, at: Instant)

  /** `owner` remembers which call was admitted under an id; `kills` counts process-group retirements. */
  datatype Session = Session(arbiter: Arbiter, clock: Instant, accepting: bool, child: bool, kills: nat,
                             calls: map<CallId, Call>, returned: map<CallId, Returned>, owner: map<Id, CallId>)

  datatype Reception = Good | Invalid | Lost

  datatype Act =
    | Enter(c: CallId, id: Id)
    | TryAdmit(c: CallId, deadline: Option<Instant>)
    | CheckRemaining(c: CallId)
    | ExpireEarly(c: CallId)
    | Receive(c: CallId, how: Reception)
    | Fail(c: CallId)
    | Settle(c: CallId, pluginFailed: bool)
    | Classify(c: CallId)
    | CancelCall(id: Id)
    | RetireChild
    | Tick(now: Instant)

  predicate IsAt(s: Session, c: CallId, p: Point) { c in s.calls && s.calls[c].at == p }

  predicate Enabled(s: Session, a: Act) {
    match a
    case Enter(c, _) => s.accepting && c !in s.calls && c !in s.returned
    case TryAdmit(c, _) => IsAt(s, c, Entered)
    case CheckRemaining(c) => IsAt(s, c, Admitted)
    case ExpireEarly(c) => IsAt(s, c, Expiring)
    case Receive(c, _) => IsAt(s, c, Sending)
    case Fail(c) => IsAt(s, c, Failing)
    case Settle(c, _) => IsAt(s, c, Responding)
    case Classify(c) => IsAt(s, c, Classifying)
    case CancelCall(_) => true
    case RetireChild => true
    case Tick(now) => now >= s.clock
  }

  function Go(s: Session, c: CallId, p: Point): Session
    requires c in s.calls
  {
    s.(calls := s.calls[c := s.calls[c].(at := p)])
  }

  function Returning(s: Session, c: CallId, o: Outcome): Returned
    requires c in s.calls
  {
    Returned(s.calls[c].id, o, s.calls[c].deadline, s.clock)
  }

  function Return(s: Session, c: CallId, o: Outcome): Session
    requires c in s.calls
  {
    s.(calls := s.calls - {c}, returned := s.returned[c := Returning(s, c, o)])
  }

  /** `retire`: stop accepting, and kill the process group the first time. */
  function Retire(s: Session): Session {
    s.(accepting := false, child := false, kills := if s.child then s.kills + 1 else s.kills)
  }

  function AdmitStep(s: Session, c: CallId, deadline: Option<Instant>): Session
    requires IsAt(s, c, Entered)
  {
    var id := s.calls[c].id;
    var (b, r) := Admit(s.arbiter, id, deadline);
    if r.Err? then Return(s, c, Protocol)
    else s.(arbiter := b, calls := s.calls[c := Call(id, deadline, Admitted)], owner := s.owner[id := c])
  }

  function CheckStep(s: Session, c: CallId): Session
    requires IsAt(s, c, Admitted)
  {
    var d := s.calls[c].deadline;
    Go(s, c, if d.Some? && s.clock >= d.value then Expiring else Sending)
  }

  function ExpireStep(s: Session, c: CallId): Session
    requires IsAt(s, c, Expiring)
  {
    Return(s, c, TimedOut).(arbiter := Expire<()>(s.arbiter, s.calls[c].id, s.clock).0)
  }

  function ReceiveStep(s: Session, c: CallId, how: Reception): Session
    requires IsAt(s, c, Sending)
  {
    match how
    case Good => Go(s, c, Responding)
    case Invalid => Retire(Return(s, c, Protocol))
    case Lost => Go(s, c, Failing)
  }

  function FailStep(s: Session, c: CallId): Session
    requires IsAt(s, c, Failing)
  {
    var (b, r) := Expire<()>(s.arbiter, s.calls[c].id, s.clock);
    var s' := s.(arbiter := b);
    if r.Err? then Return(s', c, Protocol)
    else if r.value.Some? then Return(s', c, TimedOut)
    else Retire(Return(s', c, Transport))
  }

  function SettleStep(s: Session, c: CallId, pluginFailed: bool): Session
    requires IsAt(s, c, Responding)
  {
    var (b, r) := Respond(s.arbiter, s.calls[c].id, (), s.clock);
    var s' := s.(arbiter := b);
    match r
    case Ok(Response(_)) => var s'' := Return(s', c, Succeeded); if pluginFailed then Retire(s'') else s''
    case Ok(Cancelled) => Return(s', c, WasCancelled)
    case Ok(DeadlineExceeded) => Return(s', c, TimedOut)
    case Err(_) => Go(s', c, Classifying)
  }

  function ClassifyStep(s: Session, c: CallId): Session
    requires IsAt(s, c, Classifying)
  {
    var id := s.calls[c].id;
    if id in s.arbiter.retired && s.arbiter.retired[id].KindCancelled? then Return(s, c, WasCancelled)
    else if id in s.arbiter.retired && s.arbiter.retired[id].KindDeadlineExceeded? then Return(s, c, TimedOut)
    else Retire(Return(s, c, Protocol))
  }

  function Step(s: Session, a: Act): Session
    requires Enabled(s, a)
  {
    match a
    case Enter(c, id) => s.(calls := s.calls[c := Call(id, None, Entered)])
    case TryAdmit(c, deadline) => AdmitStep(s, c, deadline)
    case CheckRemaining(c) => CheckStep(s, c)
    case ExpireEarly(c) => ExpireStep(s, c)
    case Receive(c, how) => ReceiveStep(s, c, how)
    case Fail(c) => FailStep(s, c)
    case Settle(c, pluginFailed) => SettleStep(s, c, pluginFailed)
    case Classify(c) => ClassifyStep(s, c)
    case CancelCall(id) => s.(arbiter := Cancel<()>(s.arbiter, id).0)
    case RetireChild => Retire(s)
    case Tick(now) => s.(clock := now)
  }

  ghost predicate SessionNext(s: Session, t: Session) {
    exists a :: Enabled(s, a) && t == Step(s, a)
  }

  predicate SessionInit(s: Session) {
    && s.arbiter.maximum >= 1
    && s == Session(Arbiter(map[], map[], s.arbiter.maximum), s.clock, true, true, 0, map[], map[], map[])
  }

  // ---------------------------------------------------------------- invariant

  /** An admitted call owns its id, which is active with its deadline or retired by a cancellation. */
  ghost predicate CallOk(a: Arbiter, clock: Instant, owner: map<Id, CallId>, c: CallId, x: Call) {
    && (!x.at.Entered? ==>
          && x.id in owner && owner[x.id] == c
          && (if x.id in a.active then a.active[x.id].deadline == x.deadline
              else x.id in a.retired && a.retired[x.id].KindCancelled?))
    && (x.at.Expiring? ==> x.deadline.Some? && clock >= x.deadline.value)
  }

  predicate RetiredWithResponse(a: Arbiter, id: Id) { id in a.retired && a.retired[id].KindResponse? }

  /** What a returned outcome says about its id. */
  ghost predicate Agrees(a: Arbiter, x: Returned) {
    match x.outcome
    case Succeeded => RetiredWithResponse(a, x.id)
    case WasCancelled => x.id in a.retired && a.retired[x.id].KindCancelled?
    case TimedOut => Full(a) || (x.id in a.retired && !a.retired[x.id].KindResponse?)
    case _ => true
  }

  /** Success is returned before the call's deadline, a timeout at or after it. */
  ghost predicate InTime(x: Returned) {
    && (x.outcome.Succeeded? ==> !Past(x.deadline, x.at))
    && (x.outcome.TimedOut? ==> Past(x.deadline, x.at))
  }

  /** Only the owning call, returning success, retires an id with a response. */
  ghost predicate IdOk(a: Arbiter, owner: map<Id, CallId>, returned: map<CallId, Returned>, id: Id) {
    && (id in a.active || id in a.retired ==> id in owner)
    && (RetiredWithResponse(a, id) ==>
          owner[id] in returned && returned[owner[id]].id == id && returned[owner[id]].outcome.Succeeded?)
  }

  ghost predicate Inv(s: Session) {
    && ArbiterInv(s.arbiter)
    && (forall c :: c in s.calls ==> c !in s.returned && CallOk(s.arbiter, s.clock, s.owner, c, s.calls[c]))
    && (forall c :: c in s.returned ==> Agrees(s.arbiter, s.returned[c]) && InTime(s.returned[c]))
    && (forall id :: IdOk(s.arbiter, s.owner, s.returned, id))
    && s.kills == (if s.child then 0 else 1)
  }

  // ---------------------------------------------------------------- what one step may do

  /** The arbiter moved on, touching no id but one. */
  ghost predicate Touches(a: Arbiter, b: Arbiter, id: Id) {
    && ArbiterInv(b)
    && (Full(a) ==> Full(b))
    && (forall k :: k in a.retired ==> k in b.retired && b.retired[k] == a.retired[k])
    && (forall k :: k != id ==>
          && (k in b.active <==> k in a.active) && (k in a.active ==> b.active[k] == a.active[k])
          && (k in b.retired <==> k in a.retired))
  }

  lemma OperateTouches(a: Arbiter, x: Action)
    requires ArbiterInv(a)
    ensures Touches(a, Operate(a, x).0, x.id)
  {
    OperateKeeps(a, x);
    OperateMoves(a, x);
    forall k | k != x.id
      ensures var b := Operate(a, x).0;
        && (k in b.active <==> k in a.active) && (k in a.active ==> b.active[k] == a.active[k])
        && (k in b.retired <==> k in a.retired)
    {
      OperateFrame(a, x, k);
    }
  }

  ghost predicate SameFrame(s: Session, t: Session, c: CallId) {
    && c in s.calls && !s.calls[c].at.Entered?
    && Touches(s.arbiter, t.arbiter, s.calls[c].id)
    && t.owner == s.owner && t.clock == s.clock
    && t.kills == (if t.child then 0 else 1)
  }

  /** The call went on to another point and still owns its id. */
  ghost predicate Moved(s: Session, t: Session, c: CallId) {
    && SameFrame(s, t, c)
    && c in t.calls && t.calls == s.calls[c := t.calls[c]] && t.returned == s.returned
    && !t.calls[c].at.Entered? && t.calls[c].id == s.calls[c].id
    && CallOk(t.arbiter, t.clock, t.owner, c, t.calls[c])
  }

  /** The call returned an outcome that its id agrees with. */
  ghost predicate Finished(s: Session, t: Session, c: CallId) {
    && SameFrame(s, t, c)
    && c in t.returned && t.calls == s.calls - {c} && t.returned == s.returned[c := t.returned[c]]
    && t.returned[c].id == s.calls[c].id && Agrees(t.arbiter, t.returned[c]) && InTime(t.returned[c])
    && (RetiredWithResponse(t.arbiter, t.returned[c].id) ==> t.returned[c].outcome.Succeeded?)
  }

  lemma MoveKeeps(s: Session, t: Session, c: CallId)
    requires Inv(s) && Moved(s, t, c)
    ensures Inv(t)
  {
    assert CallOk(s.arbiter, s.clock, s.owner, c, s.calls[c]);
    forall d | d in t.calls ensures d !in t.returned && CallOk(t.arbiter, t.clock, t.owner, d, t.calls[d]) {
      assert d in s.calls;
    }
    forall id ensures IdOk(t.arbiter, t.owner, t.returned, id) { assert IdOk(s.arbiter, s.owner, s.returned, id); }
  }

  lemma FinishKeeps(s: Session, t: Session, c: CallId)
    requires Inv(s) && Finished(s, t, c)
    ensures Inv(t)
  {
    assert CallOk(s.arbiter, s.clock, s.owner, c, s.calls[c]);
    forall d | d in t.calls ensures d !in t.returned && CallOk(t.arbiter, t.clock, t.owner, d, t.calls[d]) {
      assert d in s.calls;
    }
    forall id ensures IdOk(t.arbiter, t.owner, t.returned, id) { assert IdOk(s.arbiter, s.owner, s.returned, id); }
  }

  // ---------------------------------------------------------------- the steps of an admitted call

  ghost predicate Ready(s: Session, c: CallId) {
    && c in s.calls && !s.calls[c].at.Entered? && ArbiterInv(s.arbiter)
    && CallOk(s.arbiter, s.clock, s.owner, c, s.calls[c])
    && s.kills == (if s.child then 0 else 1)
  }

  lemma GoMoves(s: Session, c: CallId, b: Arbiter, p: Point)
    requires Ready(s, c) && Touches(s.arbiter, b, s.calls[c].id) && !p.Entered?
    requires CallOk(b, s.clock, s.owner, c, s.calls[c].(at := p))
    ensures Moved(s, Go(s.(arbiter := b), c, p), c)
  {
  }

  lemma ReturnFinishes(s: Session, c: CallId, b: Arbiter, o: Outcome, retire: bool)
    requires Ready(s, c) && Touches(s.arbiter, b, s.calls[c].id)
    requires Agrees(b, Returning(s, c, o)) && InTime(Returning(s, c, o))
    requires RetiredWithResponse(b, s.calls[c].id) ==> o.Succeeded?
    ensures var t := Return(s.(arbiter := b), c, o); Finished(s, if retire then Retire(t) else t, c)
  {
  }

  /** An id that is active, or that only a cancellation can have retired. */
  ghost predicate Contended(a: Arbiter, id: Id) {
    ArbiterInv(a) && (id in a.active || (id in a.retired && a.retired[id].KindCancelled?))
  }

  lemma ExpireSays(a: Arbiter, id: Id, now: Instant)
    requires Contended(a, id)
    ensures var (b, r) := Expire<()>(a, id, now);
      && Touches(a, b, id)
      && if r.Ok? && r.value.Some?
         then && id in b.retired && b.retired[id].KindDeadlineExceeded?
              && id in a.active && Past(a.active[id].deadline, now)
         else b == a
  {
    NeverLateCancel(a, id, (), now);
    OperateTouches(a, DoExpire(id, now));
  }

  lemma RespondSays(a: Arbiter, id: Id, now: Instant)
    requires Contended(a, id)
    ensures var (b, r) := Respond(a, id, (), now);
      && Touches(a, b, id)
      && match r
         case Ok(Response(_)) => RetiredWithResponse(b, id) && id in a.active && !Past(a.active[id].deadline, now)
         case Ok(DeadlineExceeded) =>
           && id in b.retired && b.retired[id].KindDeadlineExceeded?
           && id in a.active && Past(a.active[id].deadline, now)
         case Ok(Cancelled) => false
         case Err(_) => b == a
  {
    NeverLateCancel(a, id, (), now);
    OperateTouches(a, DoRespond(id, now));
  }

  lemma ReceiveDoes(s: Session, c: CallId, how: Reception)
    requires Ready(s, c) && IsAt(s, c, Sending)
    ensures var t := ReceiveStep(s, c, how); Moved(s, t, c) || Finished(s, t, c)
  {
    if how.Invalid? { ReturnFinishes(s, c, s.arbiter, Protocol, true); }
    else { GoMoves(s, c, s.arbiter, if how.Good? then Responding else Failing); }
  }

  lemma ClassifyDoes(s: Session, c: CallId)
    requires Ready(s, c) && IsAt(s, c, Classifying)
    ensures Finished(s, ClassifyStep(s, c), c)
  {
    if s.calls[c].id in s.arbiter.retired { ReturnFinishes(s, c, s.arbiter, WasCancelled, false); }
    else { ReturnFinishes(s, c, s.arbiter, Protocol, true); }
  }

  lemma ExpireDoes(s: Session, c: CallId)
    requires Ready(s, c) && IsAt(s, c, Expiring)
    ensures Finished(s, ExpireStep(s, c), c)
  {
    var id := s.calls[c].id;
    ExpireSays(s.arbiter, id, s.clock);
    ReturnFinishes(s, c, Expire<()>(s.arbiter, id, s.clock).0, TimedOut, false);
  }

  lemma FailDoes(s: Session, c: CallId)
    requires Ready(s, c) && IsAt(s, c, Failing)
    ensures Finished(s, FailStep(s, c), c)
  {
    var (b, r) := Expire<()>(s.arbiter, s.calls[c].id, s.clock);
    ExpireSays(s.arbiter, s.calls[c].id, s.clock);
    if r.Err? { ReturnFinishes(s, c, b, Protocol, false); }
    else if r.value.Some? { ReturnFinishes(s, c, b, TimedOut, false); }
    else { ReturnFinishes(s, c, b, Transport, true); }
  }

  lemma SettleDoes(s: Session, c: CallId, pluginFailed: bool)
    requires Ready(s, c) && IsAt(s, c, Responding)
    ensures var t := SettleStep(s, c, pluginFailed); Moved(s, t, c) || Finished(s, t, c)
  {
    var (b, r) := Respond(s.arbiter, s.calls[c].id, (), s.clock);
    RespondSays(s.arbiter, s.calls[c].id, s.clock);
    if r.Err? { GoMoves(s, c, b, Classifying); }
    else if r.value.Response? { ReturnFinishes(s, c, b, Succeeded, pluginFailed); }
    else { ReturnFinishes(s, c, b, TimedOut, false); }
  }

  predicate OfAdmitted(a: Act) {
    a.CheckRemaining? || a.Receive? || a.Classify? || a.ExpireEarly? || a.Fail? || a.Settle?
  }

  lemma AdmittedDoes(s: Session, a: Act)
    requires Enabled(s, a) && OfAdmitted(a) && Ready(s, a.c)
    ensures Moved(s, Step(s, a), a.c) || Finished(s, Step(s, a), a.c)
  {
    match a
    case CheckRemaining(c) => GoMoves(s, c, s.arbiter, Step(s, a).calls[c].at);
    case Receive(c, how) => ReceiveDoes(s, c, how);
    case Classify(c) => ClassifyDoes(s, c);
    case ExpireEarly(c) => ExpireDoes(s, c);
    case Fail(c) => FailDoes(s, c);
    case Settle(c, pluginFailed) => SettleDoes(s, c, pluginFailed);
  }

  lemma AdmittedKeeps(s: Session, a: Act)
    requires Inv(s) && Enabled(s, a) && OfAdmitted(a)
    ensures Inv(Step(s, a))
  {
    assert Ready(s, a.c);
    AdmittedDoes(s, a);
    if Moved(s, Step(s, a), a.c) { MoveKeeps(s, Step(s, a), a.c); } else { FinishKeeps(s, Step(s, a), a.c); }
  }

  // ---------------------------------------------------------------- the other steps

  lemma AdmitCall(s: Session, c: CallId, deadline: Option<Instant>, d: CallId)
    requires IsAt(s, c, Entered) && ArbiterInv(s.arbiter) && d in AdmitStep(s, c, deadline).calls
    requires d in s.calls && CallOk(s.arbiter, s.clock, s.owner, d, s.calls[d])
    ensures var t := AdmitStep(s, c, deadline); CallOk(t.arbiter, t.clock, t.owner, d, t.calls[d])
  {
  }

  lemma AdmitId(s: Session, c: CallId, deadline: Option<Instant>, id: Id)
    requires IsAt(s, c, Entered) && c !in s.returned && IdOk(s.arbiter, s.owner, s.returned, id)
    ensures var t := AdmitStep(s, c, deadline); IdOk(t.arbiter, t.owner, t.returned, id)
  {
  }

  /** A refused admission returns, and leaves the arbiter alone. */
  lemma RefusedKeeps(s: Session, c: CallId, deadline: Option<Instant>)
    requires Inv(s) && IsAt(s, c, Entered) && Admit(s.arbiter, s.calls[c].id, deadline).1.Err?
    ensures Inv(AdmitStep(s, c, deadline))
  {
    var t := AdmitStep(s, c, deadline);
    assert t.arbiter == s.arbiter && t.owner == s.owner && t.calls == s.calls - {c};
    forall id ensures IdOk(t.arbiter, t.owner, t.returned, id) { AdmitId(s, c, deadline, id); }
  }

  /** What was returned agrees with an arbiter that has moved on. */
  lemma StillAgrees(a: Arbiter, b: Arbiter, id: Id, x: Returned)
    requires Touches(a, b, id) && Agrees(a, x)
    ensures Agrees(b, x)
  {
  }

  lemma AdmittedReturned(s: Session, c: CallId, deadline: Option<Instant>)
    requires Inv(s) && IsAt(s, c, Entered) && Admit(s.arbiter, s.calls[c].id, deadline).1.Ok?
    ensures var t := AdmitStep(s, c, deadline);
            ArbiterInv(t.arbiter) && forall d :: d in t.returned ==> Agrees(t.arbiter, t.returned[d]) && InTime(t.returned[d])
  {
    var id := s.calls[c].id;
    var b := Admit(s.arbiter, id, deadline).0;
    OperateTouches(s.arbiter, DoAdmit(id, deadline));
    forall d | d in s.returned ensures Agrees(b, s.returned[d]) { StillAgrees(s.arbiter, b, id, s.returned[d]); }
  }

  lemma AdmitKeeps(s: Session, c: CallId, deadline: Option<Instant>)
    requires Inv(s) && IsAt(s, c, Entered)
    ensures Inv(AdmitStep(s, c, deadline))
  {
    if Admit(s.arbiter, s.calls[c].id, deadline).1.Err? {
      RefusedKeeps(s, c, deadline);
    } else {
      var t := AdmitStep(s, c, deadline);
      AdmittedReturned(s, c, deadline);
      forall d | d in t.calls ensures CallOk(t.arbiter, t.clock, t.owner, d, t.calls[d]) { AdmitCall(s, c, deadline, d); }
      forall id ensures IdOk(t.arbiter, t.owner, t.returned, id) { AdmitId(s, c, deadline, id); }
    }
  }

  lemma CancelCallOk(a: Arbiter, id: Id, clock: Instant, owner: map<Id, CallId>, d: CallId, y: Call)
    requires ArbiterInv(a) && CallOk(a, clock, owner, d, y)
    ensures CallOk(Operate(a, DoCancel(id)).0, clock, owner, d, y)
  {
    if y.id != id { OperateFrame(a, DoCancel(id), y.id); }
  }

  lemma CancelIdOk(a: Arbiter, x: Id, owner: map<Id, CallId>, returned: map<CallId, Returned>, id: Id)
    requires ArbiterInv(a) && IdOk(a, owner, returned, id)
    ensures IdOk(Operate(a, DoCancel(x)).0, owner, returned, id)
  {
    if id != x { OperateFrame(a, DoCancel(x), id); }
  }

  lemma CancelKeeps(s: Session, x: Id)
    requires Inv(s)
    ensures Inv(Step(s, CancelCall(x)))
  {
    var t := Step(s, CancelCall(x));
    OperateTouches(s.arbiter, DoCancel(x));
    forall d | d in t.calls ensures CallOk(t.arbiter, t.clock, t.owner, d, t.calls[d]) {
      CancelCallOk(s.arbiter, x, s.clock, s.owner, d, s.calls[d]);
    }
    forall id ensures IdOk(t.arbiter, t.owner, t.returned, id) { CancelIdOk(s.arbiter, x, s.owner, s.returned, id); }
  }

  lemma EnvironmentKeeps(s: Session, a: Act)
    requires Inv(s) && Enabled(s, a) && (a.Enter? || a.RetireChild? || a.Tick?)
    ensures Inv(Step(s, a))
  {
    var t := Step(s, a);
    forall d | d in t.calls ensures d !in t.returned && CallOk(t.arbiter, t.clock, t.owner, d, t.calls[d]) {
      if d in s.calls { assert CallOk(s.arbiter, s.clock, s.owner, d, s.calls[d]); }
    }
    forall id ensures IdOk(t.arbiter, t.owner, t.returned, id) { assert IdOk(s.arbiter, s.owner, s.returned, id); }
  }

  lemma SessionKeeps(s: Session, t: Session)
    requires Inv(s) && SessionNext(s, t)
    ensures Inv(t)
  {
    var a :| Enabled(s, a) && t == Step(s, a);
    if OfAdmitted(a) { AdmittedKeeps(s, a); }
    else if a.TryAdmit? { AdmitKeeps(s, a.c, a.deadline); }
    else if a.CancelCall? { CancelKeeps(s, a.id); }
    else { EnvironmentKeeps(s, a); }
  }

  // ---------------------------------------------------------------- what a request promises

  /** In every interleaving: a request that returns success or cancellation has its id retired with
      that kind; one that reports a deadline has its id retired without a response, unless the arbiter
      is full; success is returned only before the request's deadline and a timeout only at or after it; an
      id retired with a response belongs to exactly one request, which returned success; and the child's
      process group is retired at most once. */
  lemma SessionSafety(s: Session)
    requires Runs.Reachable(SessionInit, SessionNext, s)
    ensures forall c :: c in s.returned ==> Agrees(s.arbiter, s.returned[c]) && InTime(s.returned[c])
    ensures forall id :: RetiredWithResponse(s.arbiter, id) ==>
      exists c :: c in s.returned && s.returned[c].id == id && s.returned[c].outcome.Succeeded?
    ensures s.kills <= 1
  {
    ReachableInv(s);
    forall id | RetiredWithResponse(s.arbiter, id)
      ensures exists c :: c in s.returned && s.returned[c].id == id && s.returned[c].outcome.Succeeded?
    {
      assert IdOk(s.arbiter, s.owner, s.returned, id);
    }
  }

  lemma ReachableInv(s: Session)
    requires Runs.Reachable(SessionInit, SessionNext, s)
    ensures Inv(s)
  {
    forall t, u | Inv(t) && SessionNext(t, u) ensures Inv(u) { SessionKeeps(t, u); }
    Runs.InEveryReachable(SessionInit, SessionNext, Inv, s);
  }

  lemma ActiveDecides(s: Session, c: CallId, pluginFailed: bool)
    requires IsAt(s, c, Responding) && ArbiterInv(s.arbiter) && s.calls[c].id in s.arbiter.active
    requires s.arbiter.active[s.calls[c].id].deadline == s.calls[c].deadline && |s.arbiter.retired| < s.arbiter.maximum
    ensures var t := SettleStep(s, c, pluginFailed);
            c in t.returned && t.returned[c].outcome == if Past(s.calls[c].deadline, s.clock) then TimedOut else Succeeded
  {
    AnswerDecided(s.arbiter, s.calls[c].id, (), s.clock);
  }

  lemma CancelledDecides(s: Session, c: CallId, pluginFailed: bool)
    requires IsAt(s, c, Responding) && ArbiterInv(s.arbiter) && s.calls[c].id !in s.arbiter.active
    requires s.calls[c].id in s.arbiter.retired && s.arbiter.retired[s.calls[c].id].KindCancelled?
    ensures var t := SettleStep(s, c, pluginFailed);
            && IsAt(t, c, Classifying) && t.arbiter == s.arbiter
            && c in ClassifyStep(t, c).returned && ClassifyStep(t, c).returned[c].outcome.WasCancelled?
  {
    RefusedExactly(s.arbiter, s.calls[c].id, (), s.clock, None);
  }

  /** A valid response settles by the clock: as long as the arbiter has room, the request of an id that is still
      active succeeds before its deadline and times out from then on; one whose id a cancellation has retired
      reports the cancellation. */
  lemma SettleDecides(s: Session, c: CallId, pluginFailed: bool)
    requires Runs.Reachable(SessionInit, SessionNext, s) && IsAt(s, c, Responding)
    ensures var t := SettleStep(s, c, pluginFailed);
            if s.calls[c].id !in s.arbiter.active then
              IsAt(t, c, Classifying) && c in ClassifyStep(t, c).returned && ClassifyStep(t, c).returned[c].outcome.WasCancelled?
            else |s.arbiter.retired| < s.arbiter.maximum ==>
              c in t.returned && t.returned[c].outcome == if Past(s.calls[c].deadline, s.clock) then TimedOut else Succeeded
  {
    ReachableInv(s);
    assert CallOk(s.arbiter, s.clock, s.owner, c, s.calls[c]);
    if s.calls[c].id !in s.arbiter.active { CancelledDecides(s, c, pluginFailed); }
    else if |s.arbiter.retired| < s.arbiter.maximum { ActiveDecides(s, c, pluginFailed); }
  }

  // ---------------------------------------------------------------- what the other steps decide

  /** Time is up exactly at the deadline; a lost connection is reported as a timeout if the deadline has passed and
      the arbiter can say so, as a protocol failure if it cannot, and as a transport failure otherwise; an invalid
      response is a protocol failure. */
  lemma StepDecides(s: Session, c: CallId)
    requires Runs.Reachable(SessionInit, SessionNext, s)
    ensures IsAt(s, c, Admitted) ==>
              CheckStep(s, c).calls[c].at == if Past(s.calls[c].deadline, s.clock) then Expiring else Sending
    ensures IsAt(s, c, Failing) ==>
              var x, t := s.calls[c], FailStep(s, c);
              c in t.returned && t.returned[c].outcome ==
                if x.id !in s.arbiter.active || !(s.arbiter.active[x.id].cancelled || Past(x.deadline, s.clock)) then Transport
                else if |s.arbiter.retired| < s.arbiter.maximum then TimedOut else Protocol
    ensures IsAt(s, c, Sending) ==>
              && IsAt(ReceiveStep(s, c, Good), c, Responding) && IsAt(ReceiveStep(s, c, Lost), c, Failing)
              && c in ReceiveStep(s, c, Invalid).returned && ReceiveStep(s, c, Invalid).returned[c].outcome.Protocol?
    ensures IsAt(s, c, Expiring) ==> c in ExpireStep(s, c).returned && ExpireStep(s, c).returned[c].outcome.TimedOut?
  {
    ReachableInv(s);
    if c in s.calls { assert CallOk(s.arbiter, s.clock, s.owner, c, s.calls[c]); }
    if IsAt(s, c, Failing) { FailDecides(s, c); }
  }

  /** What starts and stops a request: an accepted one is entered, and then admitted with its deadline or refused as a
      protocol failure, as the arbiter says; a cancellation retires an active id as cancelled if there is room. */
  lemma StartDecides(s: Session, c: CallId, id: Id, deadline: Option<Instant>)
    requires Runs.Reachable(SessionInit, SessionNext, s)
    ensures Enabled(s, Enter(c, id)) ==> IsAt(Step(s, Enter(c, id)), c, Entered) && Step(s, Enter(c, id)).calls[c].id == id
    ensures IsAt(s, c, Entered) ==>
              var t, x := AdmitStep(s, c, deadline), s.calls[c];
              if x.id in s.arbiter.active || x.id in s.arbiter.retired || |s.arbiter.retired| >= s.arbiter.maximum then
                c in t.returned && t.returned[c].outcome.Protocol? && t.arbiter == s.arbiter && t.child == s.child
              else
                && c in t.calls && t.calls[c] == Call(x.id, deadline, Admitted)
                && x.id in t.arbiter.active && t.arbiter.active[x.id].deadline == deadline
    ensures id in s.arbiter.active && |s.arbiter.retired| < s.arbiter.maximum ==>
              var t := Step(s, CancelCall(id));
              id in t.arbiter.retired && t.arbiter.retired[id].KindCancelled? && t.calls == s.calls
    ensures forall now :: now >= s.clock ==> Step(s, Tick(now)) == s.(clock := now)
  {
    ReachableInv(s);
    if IsAt(s, c, Entered) { AdmitDecides(s, c, deadline); }
  }

  lemma AdmitDecides(s: Session, c: CallId, deadline: Option<Instant>)
    requires IsAt(s, c, Entered) && ArbiterInv(s.arbiter)
    ensures var t, x := AdmitStep(s, c, deadline), s.calls[c];
            if x.id in s.arbiter.active || x.id in s.arbiter.retired || |s.arbiter.retired| >= s.arbiter.maximum then
              c in t.returned && t.returned[c].outcome.Protocol? && t.arbiter == s.arbiter && t.child == s.child
            else
              && c in t.calls && t.calls[c] == Call(x.id, deadline, Admitted)
              && x.id in t.arbiter.active && t.arbiter.active[x.id].deadline == deadline
  {
    RefusedExactly(s.arbiter, s.calls[c].id, (), s.clock, deadline);
  }

  lemma FailDecides(s: Session, c: CallId)
    requires IsAt(s, c, Failing) && ArbiterInv(s.arbiter) && CallOk(s.arbiter, s.clock, s.owner, c, s.calls[c])
    ensures var x, t := s.calls[c], FailStep(s, c);
            && c in t.returned
            && (t.returned[c].outcome ==
                  if x.id !in s.arbiter.active || !(s.arbiter.active[x.id].cancelled || Past(x.deadline, s.clock)) then Transport
                  else if |s.arbiter.retired| < s.arbiter.maximum then TimedOut else Protocol)
            && (t.child <==> s.child && !t.returned[c].outcome.Transport?)
            && (t.accepting <==> s.accepting && !t.returned[c].outcome.Transport?)
  {
    var x := s.calls[c];
    RefusedExactly(s.arbiter, x.id, (), s.clock, None);
    if x.id in s.arbiter.active && |s.arbiter.retired| < s.arbiter.maximum && !s.arbiter.active[x.id].cancelled {
      AnswerDecided(s.arbiter, x.id, (), s.clock);
    }
  }

  /** What gives the child up: a request to, an invalid response, a lost connection that is not a timeout, a plugin
      failure reported as success, and a response that the arbiter refused for want of room. */
  predicate Breaks(s: Session, a: Act)
    requires Enabled(s, a)
  {
    match a
    case RetireChild => true
    case Receive(_, how) => how.Invalid?
    case Fail(c) =>
      s.calls[c].id !in s.arbiter.active
      || !(s.arbiter.active[s.calls[c].id].cancelled || Past(s.calls[c].deadline, s.clock))
    case Settle(c, pluginFailed) =>
      && pluginFailed && s.calls[c].id in s.arbiter.active && |s.arbiter.retired| < s.arbiter.maximum
      && !Past(s.calls[c].deadline, s.clock)
    case Classify(c) => s.calls[c].id in s.arbiter.active
    case _ => false
  }

  lemma SettleBreaks(s: Session, c: CallId, pluginFailed: bool)
    requires IsAt(s, c, Responding) && ArbiterInv(s.arbiter) && CallOk(s.arbiter, s.clock, s.owner, c, s.calls[c])
    ensures var t := SettleStep(s, c, pluginFailed); var breaks := Breaks(s, Settle(c, pluginFailed));
            (t.child <==> s.child && !breaks) && (t.accepting <==> s.accepting && !breaks)
  {
    var x := s.calls[c];
    if x.id in s.arbiter.active && |s.arbiter.retired| < s.arbiter.maximum { AnswerBreaks(s, c, pluginFailed); }
    else { RefusedExactly(s.arbiter, x.id, (), s.clock, None); }
  }

  lemma AnswerBreaks(s: Session, c: CallId, pluginFailed: bool)
    requires IsAt(s, c, Responding) && ArbiterInv(s.arbiter) && CallOk(s.arbiter, s.clock, s.owner, c, s.calls[c])
    requires s.calls[c].id in s.arbiter.active && |s.arbiter.retired| < s.arbiter.maximum
    ensures var t := SettleStep(s, c, pluginFailed); var breaks := pluginFailed && !Past(s.calls[c].deadline, s.clock);
            (t.child <==> s.child && !breaks) && (t.accepting <==> s.accepting && !breaks)
  {
    AnswerDecided(s.arbiter, s.calls[c].id, (), s.clock);
  }

  /** In every reachable state a step gives the child up, and closes the session with it, if and only if it is one
      of these; so a session accepts requests exactly as long as it has its child. */
  lemma GivenUpExactly(s: Session, a: Act)
    requires Runs.Reachable(SessionInit, SessionNext, s) && Enabled(s, a)
    ensures Step(s, a).child <==> s.child && !Breaks(s, a)
    ensures s.accepting <==> s.child
  {
    var inv := (t: Session) => Inv(t) && (t.accepting <==> t.child);
    forall t, u | inv(t) && SessionNext(t, u) ensures inv(u) {
      SessionKeeps(t, u);
      var b :| Enabled(t, b) && u == Step(t, b);
      StepBreaks(t, b);
    }
    Runs.InEveryReachable(SessionInit, SessionNext, inv, s);
    StepBreaks(s, a);
  }

  lemma StepBreaks(s: Session, a: Act)
    requires Inv(s) && Enabled(s, a)
    ensures Step(s, a).child <==> s.child && !Breaks(s, a)
    ensures Step(s, a).accepting <==> s.accepting && !Breaks(s, a)
  {
    match a
    case Fail(c) => assert CallOk(s.arbiter, s.clock, s.owner, c, s.calls[c]); FailDecides(s, c);
    case Settle(c, pluginFailed) =>
      assert CallOk(s.arbiter, s.clock, s.owner, c, s.calls[c]);
      SettleBreaks(s, c, pluginFailed);
    case Classify(c) => assert CallOk(s.arbiter, s.clock, s.owner, c, s.calls[c]);
    case _ =>
  }
}
