/** Terminal arbitration of one child session (`process_v1/terminal.rs`): cancel, deadline and
    response race for an invocation, and exactly one of them may commit. */
module TerminalArbitration {
  import opened Common
  import Runs

  type Id = nat
  type Instant = int

  datatype Result<T> = Ok(value: T) | Err(error: TerminalError)

  datatype TerminalError = ReusedCorrelationId | UnknownCorrelationId | SecondTerminal | RetiredIdCapacity

  datatype Kind = KindCancelled | KindDeadlineExceeded | KindResponse

  datatype Terminal<T> = Cancelled | DeadlineExceeded | Response(response: T)

  function KindOf<T>(t: Terminal<T>): Kind {
    match t
    case Cancelled => KindCancelled
    case DeadlineExceeded => KindDeadlineExceeded
    case Response(_) => KindResponse
  }

  datatype Invocation = Invocation(deadline: Option<Instant>, cancelled: bool)

  datatype Arbiter = Arbiter(active: map<Id, Invocation>, retired: map<Id, Kind>, maximum: nat)

  predicate Full(a: Arbiter) { |a.retired| >= a.maximum }

  predicate Due(i: Invocation, now: Instant) { i.deadline.Some? && now >= i.deadline.value }

  // ---------------------------------------------------------------- the operations, as functions

  function Missing(a: Arbiter, id: Id): TerminalError {
    if id in a.retired then SecondTerminal else UnknownCorrelationId
  }

  function Admit(a: Arbiter, id: Id, deadline: Option<Instant>): (Arbiter, Result<()>) {
    if id in a.active || id in a.retired then (a, Err(ReusedCorrelationId))
    else if Full(a) then (a, Err(RetiredIdCapacity))
    else (a.(active := a.active[id := Invocation(deadline, false)]), Ok(()))
  }

  function Commit<T>(a: Arbiter, id: Id, t: Terminal<T>): (Arbiter, Result<Terminal<T>>) {
    if Full(a) then (a, Err(RetiredIdCapacity))
    else if id !in a.active then (a, Err(Missing(a, id)))
    else (a.(active := a.active - {id}, retired := a.retired[id := KindOf(t)]), Ok(t))
  }

  function Cancel<T>(a: Arbiter, id: Id): (Arbiter, Result<Option<Terminal<T>>>) {
    if id in a.retired || id !in a.active then (a, Ok(None))
    else
      var marked := a.(active := a.active[id := a.active[id].(cancelled := true)]);
      var (b, r) := Commit(marked, id, Terminal<T>.Cancelled);
      (b, if r.Ok? then Ok(Some(r.value)) else Err(r.error))
  }

  function Respond<T>(a: Arbiter, id: Id, response: T, now: Instant): (Arbiter, Result<Terminal<T>>) {
    if id !in a.active then (a, Err(Missing(a, id)))
    else
      Commit(a, id,
             if a.active[id].cancelled then Terminal<T>.Cancelled
             else if Due(a.active[id], now) then DeadlineExceeded
             else Response(response))
  }

  function Expire<T>(a: Arbiter, id: Id, now: Instant): (Arbiter, Result<Option<Terminal<T>>>) {
    if id !in a.active then (a, if id in a.retired then Ok(None) else Err(UnknownCorrelationId))
    else if a.active[id].cancelled || Due(a.active[id], now) then
      var (b, r) := Commit(a, id, if a.active[id].cancelled then Terminal<T>.Cancelled else DeadlineExceeded);
      (b, if r.Ok? then Ok(Some(r.value)) else Err(r.error))
    else (a, Ok(None))
  }

  // ---------------------------------------------------------------- the object

  class TerminalArbiter {
    var active: map<Id, Invocation>
    var retired: map<Id, Kind>
    const maximum: nat

    function View(): Arbiter
      reads this
    {
      Arbiter(active, retired, maximum)
    }

    constructor (maximum: nat)
      ensures View() == Arbiter(map[], map[], if maximum < 1 then 1 else maximum)
    {
      active, retired := map[], map[];
      this.maximum := if maximum < 1 then 1 else maximum;
    }

    method AdmitId(id: Id, deadline: Option<Instant>) returns (r: Result<()>)
      modifies this
      ensures (View(), r) == Admit(old(View()), id, deadline)
    {
      if id in active || id in retired {
        return Err(ReusedCorrelationId);
      }
      if |retired| >= maximum {
        return Err(RetiredIdCapacity);
      }
      active := active[id := Invocation(deadline, false)];
      r := Ok(());
    }

    method CancelId<T>(id: Id) returns (r: Result<Option<Terminal<T>>>)
      modifies this
      ensures (View(), r) == Cancel<T>(old(View()), id)
    {
      if id in retired {
        return Ok(None);
      }
      if id !in active {
        return Ok(None);
      }
      active := active[id := active[id].(cancelled := true)];
      var committed := CommitId(id, Terminal<T>.Cancelled);
      r := if committed.Ok? then Ok(Some(committed.value)) else Err(committed.error);
    }

    method RespondId<T>(id: Id, response: T, now: Instant) returns (r: Result<Terminal<T>>)
      modifies this
      ensures (View(), r) == Respond(old(View()), id, response, now)
    {
      if id !in active {
        return Err(Missing(View(), id));
      }
      var invocation := active[id];
      var terminal: Terminal<T>;
      if invocation.cancelled {
        terminal := Cancelled;
      } else if invocation.deadline.Some? && now >= invocation.deadline.value {
        terminal := DeadlineExceeded;
      } else {
        terminal := Response(response);
      }
      r := CommitId(id, terminal);
    }

    method ExpireId<T>(id: Id, now: Instant) returns (r: Result<Option<Terminal<T>>>)
      modifies this
      ensures (View(), r) == Expire<T>(old(View()), id, now)
    {
      if id !in active {
        return if id in retired then Ok(None) else Err(UnknownCorrelationId);
      }
      var committed;
      if active[id].cancelled {
        committed := CommitId(id, Terminal<T>.Cancelled);
      } else if active[id].deadline.Some? && now >= active[id].deadline.value {
        committed := CommitId(id, Terminal<T>.DeadlineExceeded);
      } else {
        return Ok(None);
      }
      r := if committed.Ok? then Ok(Some(committed.value)) else Err(committed.error);
    }

    method CommitId<T>(id: Id, terminal: Terminal<T>) returns (r: Result<Terminal<T>>)
      modifies this
      ensures (View(), r) == Commit(old(View()), id, terminal)
    {
      if |retired| >= maximum {
        return Err(RetiredIdCapacity);
      }
      if id !in active {
        return Err(Missing(View(), id));
      }
      active := active - {id};
      retired := retired[id := KindOf(terminal)];
      r := Ok(terminal);
    }
  }

  // ---------------------------------------------------------------- every run of operations

  /** `admitted` lists every admission and `terminals` every commit, in order; `deadlines` is what each id was
      admitted with and `commits` the operation that committed it. */
  datatype State = State(arbiter: Arbiter, admitted: seq<Id>, terminals: seq<Id>,
                         deadlines: map<Id, Option<Instant>>, commits: map<Id, Action>)

  datatype Action =
    | DoAdmit(id: Id, deadline: Option<Instant>)
    | DoCancel(id: Id)
    | DoRespond(id: Id, now: Instant)
    | DoExpire(id: Id, now: Instant)

  /** The arbiter after an operation, and whether the operation committed a terminal for its id. */
  function Operate(a: Arbiter, x: Action): (Arbiter, bool) {
    match x
    case DoAdmit(id, deadline) => (Admit(a, id, deadline).0, false)
    case DoCancel(id) => var (b, r) := Cancel<()>(a, id); (b, r.Ok? && r.value.Some?)
    case DoRespond(id, now) => var (b, r) := Respond(a, id, (), now); (b, r.Ok?)
    case DoExpire(id, now) => var (b, r) := Expire<()>(a, id, now); (b, r.Ok? && r.value.Some?)
  }

  function Apply(s: State, x: Action): State {
    var (b, committed) := Operate(s.arbiter, x);
    var admitted := x.DoAdmit? && Admit(s.arbiter, x.id, x.deadline).1.Ok?;
    State(b,
          if admitted then s.admitted + [x.id] else s.admitted,
          if committed then s.terminals + [x.id] else s.terminals,
          if admitted then s.deadlines[x.id := x.deadline] else s.deadlines,
          if committed then s.commits[x.id := x] else s.commits)
  }

  ghost predicate Next(s: State, t: State) {
    exists x :: t == Apply(s, x)
  }

  predicate Init(s: State) {
    s.arbiter.maximum >= 1 && s == State(Arbiter(map[], map[], s.arbiter.maximum), [], [], map[], map[])
  }

  ghost predicate ArbiterInv(a: Arbiter) {
    && a.active.Keys !! a.retired.Keys
    && |a.retired| <= a.maximum
    && (forall id :: id in a.active && a.active[id].cancelled ==> Full(a))
  }

  ghost predicate Inv(s: State) {
    && ArbiterInv(s.arbiter)
    && (forall id :: id in s.admitted <==> id in s.arbiter.active || id in s.arbiter.retired)
    && (forall id :: id in s.terminals <==> id in s.arbiter.retired)
    && Distinct(s.admitted) && Distinct(s.terminals)
    && |s.terminals| == |s.arbiter.retired|
  }

  lemma OperateKeeps(a: Arbiter, x: Action)
    requires ArbiterInv(a)
    ensures ArbiterInv(Operate(a, x).0)
    ensures forall id :: id in a.retired ==> id in Operate(a, x).0.retired && Operate(a, x).0.retired[id] == a.retired[id]
    ensures Operate(a, x).0.maximum == a.maximum
  {
  }

  /** An operation touches no id but its own. */
  lemma OperateFrame(a: Arbiter, x: Action, id: Id)
    requires id != x.id
    ensures var b := Operate(a, x).0;
      && (id in b.active <==> id in a.active) && (id in a.active ==> b.active[id] == a.active[id])
      && (id in b.retired <==> id in a.retired) && (id in a.retired ==> b.retired[id] == a.retired[id])
  {
  }

  predicate Admits(a: Arbiter, x: Action) {
    x.DoAdmit? && Admit(a, x.id, x.deadline).1.Ok?
  }

  /** Operation by operation: admit a new id, move an active id to the retired ones, or move nothing. */
  ghost predicate Moves(a: Arbiter, b: Arbiter, id: Id, admitted: bool, committed: bool) {
    if admitted then
      && !committed && id !in a.active && id !in a.retired
      && b.active.Keys == a.active.Keys + {id} && b.retired == a.retired
    else if committed then
      && id in a.active && !Full(a)
      && b.active.Keys == a.active.Keys - {id} && b.retired.Keys == a.retired.Keys + {id}
      && |b.retired| == |a.retired| + 1
    else b.active.Keys == a.active.Keys && b.retired == a.retired
  }

  lemma CommitMoves<T>(a: Arbiter, id: Id, t: Terminal<T>)
    requires a.active.Keys !! a.retired.Keys
    ensures Moves(a, Commit(a, id, t).0, id, false, Commit(a, id, t).1.Ok?)
  {
    var (b, r) := Commit(a, id, t);
    if r.Ok? { assert b.retired.Keys == a.retired.Keys + {id}; }
  }

  lemma AdmitMoves(a: Arbiter, x: Action)
    requires x.DoAdmit?
    ensures Moves(a, Operate(a, x).0, x.id, Admits(a, x), false)
  {
    assert Admits(a, x) ==> Operate(a, x).0.active.Keys == a.active.Keys + {x.id};
  }

  lemma CancelMoves(a: Arbiter, id: Id)
    requires a.active.Keys !! a.retired.Keys
    ensures Moves(a, Operate(a, DoCancel(id)).0, id, false, Operate(a, DoCancel(id)).1)
  {
    if id in a.active {
      var marked := a.(active := a.active[id := a.active[id].(cancelled := true)]);
      assert marked.active.Keys == a.active.Keys;
      CommitMoves(marked, id, Terminal<()>.Cancelled);
    }
  }

  lemma SettleMoves(a: Arbiter, x: Action)
    requires a.active.Keys !! a.retired.Keys && (x.DoRespond? || x.DoExpire?)
    ensures Moves(a, Operate(a, x).0, x.id, false, Operate(a, x).1)
  {
    CommitMoves(a, x.id, Terminal<()>.Cancelled);
    CommitMoves(a, x.id, Terminal<()>.DeadlineExceeded);
    CommitMoves(a, x.id, Terminal<()>.Response(()));
  }

  lemma OperateMoves(a: Arbiter, x: Action)
    requires a.active.Keys !! a.retired.Keys
    ensures Moves(a, Operate(a, x).0, x.id, Admits(a, x), Operate(a, x).1)
  {
    match x
    case DoAdmit(_, _) => AdmitMoves(a, x);
    case DoCancel(id) => CancelMoves(a, id);
    case _ => SettleMoves(a, x);
  }

  lemma AppendDistinct(ids: seq<Id>, id: Id)
    requires Distinct(ids) && id !in ids
    ensures Distinct(ids + [id]) && forall k :: k in ids + [id] <==> k in ids || k == id
  {
  }

  lemma StepKeeps(s: State, t: State)
    requires Inv(s) && Next(s, t)
    ensures Inv(t)
  {
    var x :| t == Apply(s, x);
    OperateKeeps(s.arbiter, x);
    OperateMoves(s.arbiter, x);
    if x.id !in s.admitted { AppendDistinct(s.admitted, x.id); }
    if x.id !in s.terminals { AppendDistinct(s.terminals, x.id); }
  }

  // ---------------------------------------------------------------- what the arbiter promises

  lemma ReachableInv(s: State)
    requires Runs.Reachable(Init, Next, s)
    ensures Inv(s)
  {
    forall t, u | Inv(t) && Next(t, u) ensures Inv(u) { StepKeeps(t, u); }
    Runs.InEveryReachable(Init, Next, Inv, s);
  }

  /** Over every run of operations: no id is admitted twice or given two terminals, active and retired
      ids are disjoint and together are the admitted ones, and commits never exceed the capacity. */
  lemma ArbiterSafety(s: State)
    requires Runs.Reachable(Init, Next, s)
    ensures Distinct(s.admitted) && Distinct(s.terminals)
    ensures s.arbiter.active.Keys !! s.arbiter.retired.Keys
    ensures forall id :: id in s.admitted <==> id in s.arbiter.active || id in s.arbiter.retired
    ensures forall id :: id in s.terminals <==> id in s.arbiter.retired
    ensures |s.terminals| == |s.arbiter.retired| <= s.arbiter.maximum
  {
    ReachableInv(s);
  }

  ghost predicate KeepsKinds(s: State, t: State) {
    forall id :: id in s.arbiter.retired ==> id in t.arbiter.retired && t.arbiter.retired[id] == s.arbiter.retired[id]
  }

  /** The kind an id was retired with never changes and is never evicted. */
  lemma RetiredForever(run: seq<State>, i: nat, j: nat)
    requires Runs.IsRun(Next, run) && Init(run[0]) && i <= j < |run|
    ensures KeepsKinds(run[i], run[j])
  {
    forall s, t | Inv(s) && Next(s, t) ensures Inv(t) && KeepsKinds(s, t) {
      StepKeeps(s, t);
      var x :| t == Apply(s, x);
      OperateKeeps(s.arbiter, x);
    }
    Runs.Ordered(Next, Inv, KeepsKinds, run, i, j);
  }

  /** A cancellation mark survives only on a full arbiter, where no terminal can commit any more, so
      a response or an expiry never turns into a cancellation. */
  lemma NeverLateCancel<T>(a: Arbiter, id: Id, response: T, now: Instant)
    requires ArbiterInv(a)
    ensures Respond(a, id, response, now).1 != Ok(Terminal<T>.Cancelled)
    ensures Expire<T>(a, id, now).1 != Ok(Some(Terminal<T>.Cancelled))
  {
    if id in a.active && a.active[id].cancelled { assert Full(a); }
  }

  // ---------------------------------------------------------------- the race of deadline and response

  /** The instant is not before the deadline. */
  predicate Past(deadline: Option<Instant>, now: Instant) {
    match deadline
    case None => false
    case Some(d) => d <= now
  }

  /** What may retire an id admitted with the deadline, and as what: a cancellation, a response before the
      deadline, or a response or an expiry at or after it. */
  ghost predicate Decided(deadline: Option<Instant>, x: Action, kind: Kind) {
    match x
    case DoAdmit(_, _) => false
    case DoCancel(_) => kind.KindCancelled?
    case DoRespond(_, now) => kind == if Past(deadline, now) then KindDeadlineExceeded else KindResponse
    case DoExpire(_, now) => Past(deadline, now) && kind.KindDeadlineExceeded?
  }

  ghost predicate IdDecided(s: State, id: Id) {
    && (id in s.arbiter.active ==> id in s.deadlines && s.deadlines[id] == s.arbiter.active[id].deadline)
    && (id in s.arbiter.retired ==>
          && id in s.deadlines && id in s.commits && s.commits[id].id == id
          && Decided(s.deadlines[id], s.commits[id], s.arbiter.retired[id]))
  }

  /** With room, the answer for an active id that is not marked is decided by the comparison, and by nothing
      else; the answered id is retired with the kind of its answer. */
  lemma AnswerDecided<T>(a: Arbiter, id: Id, response: T, now: Instant)
    requires id in a.active && !a.active[id].cancelled && |a.retired| < a.maximum && id !in a.retired
    ensures var past := Past(a.active[id].deadline, now);
            && Respond(a, id, response, now).1 == Ok(if past then Terminal<T>.DeadlineExceeded else Response(response))
            && Expire<T>(a, id, now).1 == Ok(if past then Some(Terminal<T>.DeadlineExceeded) else None)
            && Cancel<T>(a, id).1 == Ok(Some(Terminal<T>.Cancelled))
            && Respond(a, id, response, now).0.retired == a.retired[id := if past then KindDeadlineExceeded else KindResponse]
            && (!past ==> Expire<T>(a, id, now).0 == a)
  {
  }

  /** An operation that answers with an error or with nothing, and when: an id that is unknown, used again or
      retired already, or no room for one more terminal. Such an operation retires nothing. */
  lemma RefusedExactly<T>(a: Arbiter, id: Id, response: T, now: Instant, deadline: Option<Instant>)
    requires a.active.Keys !! a.retired.Keys
    ensures var known := id in a.active || id in a.retired; var room := |a.retired| < a.maximum;
            && Admit(a, id, deadline).1
               == (if known then Err(ReusedCorrelationId) else if room then Ok(()) else Err(RetiredIdCapacity))
            && (!known && room ==> Admit(a, id, deadline).0 == a.(active := a.active[id := Invocation(deadline, false)]))
            && (id !in a.active ==>
                  && Respond(a, id, response, now).1 == Err(if known then SecondTerminal else UnknownCorrelationId)
                  && Expire<T>(a, id, now).1 == (if known then Ok(None) else Err(UnknownCorrelationId))
                  && Cancel<T>(a, id).1 == Ok(None))
            && (id in a.active && !room ==>
                  && Respond(a, id, response, now).1 == Err(RetiredIdCapacity)
                  && Cancel<T>(a, id).1 == Err(RetiredIdCapacity)
                  && Cancel<T>(a, id).0.active[id].cancelled
                  && Expire<T>(a, id, now).1
                     == (if a.active[id].cancelled || Past(a.active[id].deadline, now) then Err(RetiredIdCapacity) else Ok(None)))
    ensures id !in a.active || |a.retired| >= a.maximum ==>
              Respond(a, id, response, now).0 == a && Expire<T>(a, id, now).0 == a && Cancel<T>(a, id).0.retired == a.retired
  {
  }

  lemma OwnDecided(s: State, x: Action)
    requires ArbiterInv(s.arbiter) && IdDecided(s, x.id)
    ensures IdDecided(Apply(s, x), x.id)
  {
    if x.DoAdmit? { AdmitDecided(s, x); }
    else if x.DoCancel? { CancelDecided(s, x); }
    else if x.DoRespond? { RespondDecided(s, x); }
    else { ExpireDecided(s, x); }
  }

  lemma AdmitDecided(s: State, x: Action)
    requires ArbiterInv(s.arbiter) && IdDecided(s, x.id) && x.DoAdmit?
    ensures IdDecided(Apply(s, x), x.id)
  {
    RefusedExactly(s.arbiter, x.id, (), 0, x.deadline);
  }

  lemma CancelDecided(s: State, x: Action)
    requires ArbiterInv(s.arbiter) && IdDecided(s, x.id) && x.DoCancel?
    ensures IdDecided(Apply(s, x), x.id)
  {
  }

  lemma RespondDecided(s: State, x: Action)
    requires ArbiterInv(s.arbiter) && IdDecided(s, x.id) && x.DoRespond?
    ensures IdDecided(Apply(s, x), x.id)
  {
    NeverLateCancel(s.arbiter, x.id, (), x.now);
  }

  lemma ExpireDecided(s: State, x: Action)
    requires ArbiterInv(s.arbiter) && IdDecided(s, x.id) && x.DoExpire?
    ensures IdDecided(Apply(s, x), x.id)
  {
    NeverLateCancel(s.arbiter, x.id, (), x.now);
  }

  lemma OtherDecided(s: State, x: Action, id: Id)
    requires id != x.id && IdDecided(s, id)
    ensures IdDecided(Apply(s, x), id)
  {
    OperateFrame(s.arbiter, x, id);
  }

  ghost predicate DecidedInv(s: State) { Inv(s) && forall id :: IdDecided(s, id) }

  /** Over every run of operations: an id is retired with a response if and only if a response was committed
      before its deadline, with a deadline if and only if a response or an expiry was committed at or after it,
      and as cancelled if and only if a cancellation was committed. */
  lemma DeadlineDecides(s: State, id: Id)
    requires Runs.Reachable(Init, Next, s) && id in s.arbiter.retired
    ensures id in s.deadlines && id in s.commits && s.commits[id].id == id
    ensures Decided(s.deadlines[id], s.commits[id], s.arbiter.retired[id])
  {
    forall t, u | DecidedInv(t) && Next(t, u) ensures DecidedInv(u) {
      StepKeeps(t, u);
      var x :| u == Apply(t, x);
      forall k ensures IdDecided(u, k) {
        if k == x.id { OwnDecided(t, x); } else { OtherDecided(t, x, k); }
      }
    }
    Runs.InEveryReachable(Init, Next, DecidedInv, s);
    assert IdDecided(s, id);
  }
}
