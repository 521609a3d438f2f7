/** What becomes of a JSON-RPC call (`transport/json_rpc.rs`): which operation takes its sender, and what the caller
    is told. */
module JsonRpcFates {
  import opened Common
  import opened JsonRpcSteps
  import R = JsonRpcRegistry
  import Runs

  /** The registry machine with a history: how each operation was begun, and which one took a sender out. */
  datatype Traced = Traced(s: State, begun: map<OpId, Action>, taker: map<Sender, OpId>)

  predicate Waits(s: State, x: Sender) { x in s.slots && Entry(s.r, s.slots[x]) == Some(x) }

  ghost function Trace(t: Traced, a: Action): Traced
    requires Enabled(t.s, a)
  {
    var u := Apply(t.s, a);
    if IsBegin(a) then Traced(u, if u.next > t.s.next then t.begun[t.s.next := a] else t.begun, t.taker)
    else Traced(u, t.begun, t.taker + (map x | x in t.s.slots && Waits(t.s, x) && !Waits(u, x) :: a.o))
  }

  ghost predicate TracedNext(t: Traced, u: Traced) {
    exists a :: Enabled(t.s, a) && u == Trace(t, a)
  }

  ghost predicate TracedInit(t: Traced) { t == Traced(NOTHING, map[], map[]) }

  // ---------------------------------------------------------------- operations are what they were begun as

  ghost predicate BegunAs(s: State, a: Action, op: Op) {
    match op
    case Admitting(slot, _) => a == BeginAdmit(slot)
    case Finishing(id, reply, _) => a.BeginFinish? && a.reply == reply && a.x in s.slots && s.slots[a.x].id == id
    case Cancelling(id, removal) => a == BeginCancel(id) && !removal.WithFlag?
    case FailingAll(error, _) => a == BeginFailAll(error)
  }

  ghost predicate OpBegun(t: Traced, o: OpId) {
    && (o in t.s.ops ==> o in t.begun && BegunAs(t.s, t.begun[o], t.s.ops[o]))
    && (o in t.begun ==> o < t.s.next)
    && (o in t.begun && t.begun[o].BeginFinish? ==> t.begun[o].x in t.s.slots)
  }

  /** A later stage of the same operation. */
  predicate Continues(a: Op, b: Op) {
    match a
    case Admitting(slot, _) => b.Admitting? && b.slot == slot
    case Finishing(id, reply, _) => b.Finishing? && b.id == id && b.reply == reply
    case Cancelling(id, _) => b.Cancelling? && b.id == id && !b.removal.WithFlag?
    case FailingAll(error, _) => b.FailingAll? && b.error == error
  }

  lemma AdmissionContinues(s: State, a: Action)
    requires Enabled(s, a) && IsAdmission(a) && !IsBegin(a)
    ensures a.o in s.ops && (a.o in Apply(s, a).ops ==> Continues(s.ops[a.o], Apply(s, a).ops[a.o]))
  {
  }

  lemma OpContinues(s: State, a: Action)
    requires Enabled(s, a) && !IsBegin(a)
    ensures a.o in s.ops && (a.o in Apply(s, a).ops ==> Continues(s.ops[a.o], Apply(s, a).ops[a.o]))
  {
    if IsAdmission(a) { AdmissionContinues(s, a); }
  }

  lemma NewBegun(s: State, a: Action)
    requires Enabled(s, a) && IsBegin(a) && OpInv(s, s.next)
    ensures s.next in Apply(s, a).ops ==> BegunAs(s, a, Apply(s, a).ops[s.next]) && Apply(s, a).next > s.next
    ensures Apply(s, a).slots == s.slots && Apply(s, a).fates == s.fates
    ensures forall x :: Waits(Apply(s, a), x) == Waits(s, x)
  {
  }

  lemma LoudNext(s: State, a: Action)
    requires Enabled(s, a) && !Quiet(s, a)
    ensures Apply(s, a).next == s.next
  {
  }

  lemma NextGrows(s: State, a: Action)
    requires Enabled(s, a)
    ensures Apply(s, a).next >= s.next
  {
    if Quiet(s, a) { QuietFrame(s, a); } else { LoudNext(s, a); }
  }

  lemma StepBegun(t: Traced, a: Action, o: OpId)
    requires Senders(t.s) && Enabled(t.s, a) && OpBegun(t, o)
    ensures OpBegun(Trace(t, a), o)
  {
    var s := t.s;
    StepOps(s, a);
    StepFates(s, a);
    NextGrows(s, a);
    assert OpInv(s, s.next);
    if IsBegin(a) { NewBegun(s, a); } else { OpContinues(s, a); }
    BegunStays(s, Apply(s, a));
  }

  lemma BegunStays(s: State, u: State)
    requires FatesKept(s, u)
    ensures forall a, op :: BegunAs(s, a, op) ==> BegunAs(u, a, op)
  {
  }

  // ---------------------------------------------------------------- fates

  /** What a sender in the slot is owed by an operation that was begun like this and takes it. */
  ghost predicate Deserved(s: State, slot: Slot, a: Action, fate: Fate) {
    match a
    case BeginAdmit(own) => own == slot && fate.Dropped?
    case BeginFinish(y, reply) => y in s.slots && s.slots[y].id == slot.id && fate == Answered(reply)
    case BeginCancel(id) => id == slot.id && fate.Dropped?
    case BeginFailAll(error) => fate == Failed(error)
    case _ => false
  }

  ghost predicate FateInv(t: Traced, x: Sender) {
    && (x in t.taker <==> x in t.s.fates)
    && (x in t.s.fates ==>
          && x in t.s.slots && t.taker[x] in t.begun
          && Deserved(t.s, t.s.slots[x], t.begun[t.taker[x]], t.s.fates[x]))
  }

  /** What a step does to a sender that it takes. */
  ghost predicate Takes(s: State, a: Action, x: Sender, fate: Fate) {
    Waits(s, x) && !IsBegin(a) && a.o in s.ops &&
    match s.ops[a.o]
    case Admitting(slot, _) => slot == s.slots[x] && fate.Dropped?
    case Finishing(id, reply, _) => id == s.slots[x].id && fate == Answered(reply)
    case Cancelling(id, _) => id == s.slots[x].id && fate.Dropped?
    case FailingAll(error, _) => fate == Failed(error)
  }

  lemma ConsumeTakes(s: State, slot: Slot, fate: Fate, x: Sender)
    requires Senders(s) && x !in s.fates && x in Consume(s, slot, fate).fates
    ensures Waits(s, x) && s.slots[x] == slot && Consume(s, slot, fate).fates[x] == fate
  {
    assert SlotInv(s, slot);
  }

  lemma AllTakes(s: State, kind: R.Kind, fate: Fate, x: Sender)
    requires Senders(s) && x !in s.fates && x in ConsumeAll(s, kind, fate).fates
    ensures Waits(s, x) && s.slots[x].kind == kind && ConsumeAll(s, kind, fate).fates[x] == fate
  {
    assert x in R.PendingOf(s.r, kind).Values;
    InMap(s, kind, x);
  }

  lemma RemovalTakes(s: State, a: Action, x: Sender)
    requires Senders(s) && Enabled(s, a) && (a.RollBackEntry? || a.TakeRequest? || a.TakeEvent?)
    requires x !in s.fates && x in Apply(s, a).fates
    ensures Takes(s, a, x, Apply(s, a).fates[x])
  {
    match a
    case RollBackEntry(o) => ConsumeTakes(s, s.ops[o].slot, Dropped, x);
    case TakeRequest(o) => ConsumeTakes(s, Slot(R.Request, s.ops[o].id), FateOf(s.ops[o]), x);
    case TakeEvent(o) => ConsumeTakes(s, Slot(R.Event, s.ops[o].id), FateOf(s.ops[o]), x);
  }

  lemma FailureTakes(s: State, a: Action, x: Sender)
    requires Senders(s) && Enabled(s, a) && (a.FailRequests? || a.FailEvents?)
    requires x !in s.fates && x in Apply(s, a).fates
    ensures Takes(s, a, x, Apply(s, a).fates[x])
  {
    AllTakes(s, if a.FailRequests? then R.Request else R.Event, Failed(s.ops[a.o].error), x);
  }

  lemma EnterTakesNone(s: State, a: Action)
    requires Enabled(s, a) && a.Enter?
    ensures Apply(s, a).fates == s.fates
  {
  }

  lemma StepTakes(s: State, a: Action, x: Sender)
    requires Senders(s) && Enabled(s, a) && x !in s.fates && x in Apply(s, a).fates
    ensures Takes(s, a, x, Apply(s, a).fates[x])
  {
    if a.Enter? { EnterTakesNone(s, a); }
    else if Quiet(s, a) { QuietFrame(s, a); }
    else if a.FailRequests? || a.FailEvents? { FailureTakes(s, a, x); }
    else { RemovalTakes(s, a, x); }
  }

  /** A step takes a sender out of its slot exactly when it settles it. */
  lemma TakenIsSettled(s: State, a: Action, x: Sender)
    requires Senders(s) && Enabled(s, a)
    ensures Waits(s, x) && !Waits(Apply(s, a), x) <==> x !in s.fates && x in Apply(s, a).fates
    ensures FatesKept(s, Apply(s, a))
  {
    StepFates(s, a);
    StepSenders(s, a);
    assert SenderInv(s, x) && SenderInv(Apply(s, a), x);
    if x !in s.fates && x in Apply(s, a).fates { StepTakes(s, a, x); }
  }

  lemma StepTaker(t: Traced, a: Action, x: Sender)
    requires Senders(t.s) && Enabled(t.s, a)
    ensures var u := Trace(t, a);
            && FatesKept(t.s, u.s) && u.s == Apply(t.s, a)
            && (x in u.taker <==> x in t.taker || (x !in t.s.fates && x in u.s.fates))
            && (x in t.taker && x in t.s.fates ==> u.taker[x] == t.taker[x])
            && (x !in t.s.fates && x in u.s.fates ==> !IsBegin(a) && u.taker[x] == a.o)
  {
    TakenIsSettled(t.s, a, x);
    if IsBegin(a) { assert OpInv(t.s, t.s.next); NewBegun(t.s, a); }
  }

  lemma StepFate(t: Traced, a: Action, x: Sender)
    requires Senders(t.s) && Enabled(t.s, a) && FateInv(t, x) && (forall o :: OpBegun(t, o))
    ensures FateInv(Trace(t, a), x)
  {
    StepTaker(t, a, x);
    if x in t.s.fates {
      assert OpBegun(t, t.taker[x]);
    } else if x in Apply(t.s, a).fates {
      StepTakes(t.s, a, x);
      assert OpBegun(t, a.o);
    }
  }

  ghost predicate TracedInv(t: Traced) {
    Senders(t.s) && (forall o :: OpBegun(t, o)) && (forall x :: FateInv(t, x))
  }

  lemma StepTraced(t: Traced, a: Action)
    requires TracedInv(t) && Enabled(t.s, a)
    ensures TracedInv(Trace(t, a))
  {
    StepSenders(t.s, a);
    forall o ensures OpBegun(Trace(t, a), o) { StepBegun(t, a, o); }
    forall x ensures FateInv(Trace(t, a), x) { StepFate(t, a, x); }
  }

  lemma StartTraced(t: Traced)
    requires TracedInit(t)
    ensures TracedInv(t)
  {
    Runs.ReachStart(Init, Next, NOTHING);
    ReachableSenders(NOTHING);
  }

  /** In every interleaving, for reused ids too: a sender was answered a reply if and only if a `finish` of its id
      begun with that reply took it out of its slot; it was failed with an error if and only if a `fail_all` of
      that error took it; and it was dropped if and only if a cancellation of its id or the roll-back of an
      admission to its slot took it. */
  lemma FateExactly(t: Traced, x: Sender)
    requires Runs.Reachable(TracedInit, TracedNext, t) && x in t.s.fates
    ensures x in t.s.slots && x in t.taker && t.taker[x] in t.begun
    ensures var a := t.begun[t.taker[x]];
            && (a.BeginFinish? ==> a.x in t.s.slots)
            && (forall v :: t.s.fates[x] == Answered(v) <==>
                  a.BeginFinish? && a.reply == v && t.s.slots[a.x].id == t.s.slots[x].id)
            && (forall e :: t.s.fates[x] == Failed(e) <==> a == BeginFailAll(e))
            && (t.s.fates[x] == Dropped <==> a == BeginCancel(t.s.slots[x].id) || a == BeginAdmit(t.s.slots[x]))
  {
    forall u | TracedInit(u) ensures TracedInv(u) { StartTraced(u); }
    forall u, v | TracedInv(u) && TracedNext(u, v) ensures TracedInv(v) {
      var a :| Enabled(u.s, a) && v == Trace(u, a);
      StepTraced(u, a);
    }
    Runs.InEveryReachable(TracedInit, TracedNext, TracedInv, t);
    assert FateInv(t, x);
  }

  /** The history adds nothing: every run of the machine is traced. */
  lemma {:induction false} EveryRunTraced(run: seq<State>) returns (traced: seq<Traced>)
    requires Runs.IsRun(Next, run) && Init(run[0])
    ensures Runs.IsRun(TracedNext, traced) && TracedInit(traced[0]) && |traced| == |run|
    ensures traced[|run| - 1].s == run[|run| - 1]
    decreases |run|
  {
    var n := |run| - 1;
    if n == 0 {
      traced := [Traced(run[0], map[], map[])];
    } else {
      assert Runs.IsRun(Next, run[..n]);
      var shorter := EveryRunTraced(run[..n]);
      assert Next(run[n - 1], run[n - 1 + 1]);
      var a :| Enabled(run[n - 1], a) && run[n] == Apply(run[n - 1], a);
      traced := shorter + [Trace(shorter[n - 1], a)];
      assert TracedNext(shorter[n - 1], traced[n]);
    }
  }

  // ---------------------------------------------------------------- a finished call was answered

  ghost predicate CarefulTracedNext(t: Traced, u: Traced) {
    exists a :: Enabled(t.s, a) && Careful(t.s, a) && u == Trace(t, a)
  }

  predicate Finish(t: Traced, o: OpId, x: Sender) { o in t.begun && t.begun[o].BeginFinish? && t.begun[o].x == x }

  predicate RolledBack(t: Traced, x: Sender) {
    x in t.taker && t.taker[x] in t.begun && t.begun[t.taker[x]].BeginAdmit?
  }

  /** A sender is rolled back by its own admission, which is over then; one that was sent never is, and is
      finished at most once. */
  ghost predicate SentOnce(t: Traced, x: Sender) {
    && (RolledBack(t, x) ==> x !in t.s.ops && x !in t.s.sent)
    && (x in t.s.sent || x in t.s.ops ==> forall o :: !Finish(t, o, x))
    && (forall o, p :: Finish(t, o, x) && Finish(t, p, x) ==> o == p)
    && (forall o :: Finish(t, o, x) ==> !RolledBack(t, x))
  }

  /** Until a `finish` has reached the map its call is in, the call may wait; from then on it is settled. */
  ghost predicate FinishInv(t: Traced, o: OpId) {
    o in t.begun && t.begun[o].BeginFinish? ==> Settling(t.s, o, t.begun[o].x)
  }

  ghost predicate Settling(s: State, o: OpId, x: Sender) {
    && x in s.slots
    && (|| x in s.fates
        || (&& o in s.ops && s.ops[o].Finishing?
            && (|| s.ops[o].removal.WithFlag? || s.ops[o].removal.WithoutFlag?
                || (s.ops[o].removal.NotRequest? && s.slots[x].kind.Event?))))
  }

  lemma RollBackKept(t: Traced, a: Action, x: Sender)
    requires TracedInv(t) && Enabled(t.s, a) && x in t.s.fates
    ensures RolledBack(Trace(t, a), x) <==> RolledBack(t, x)
  {
    assert FateInv(t, x) && OpBegun(t, t.taker[x]);
    StepTaker(t, a, x);
  }

  /** An admission that rolls back takes its own sender. */
  lemma OwnRollBack(t: Traced, a: Action, x: Sender)
    requires Clean(t.s) && TracedInv(t) && Enabled(t.s, a) && !RolledBack(t, x) && RolledBack(Trace(t, a), x)
    ensures a == RollBackEntry(x) && x in t.s.ops
  {
    var s := t.s;
    if x in s.fates {
      RollBackKept(t, a, x);
    } else {
      assert FateInv(t, x);
      StepTaker(t, a, x);
      assert OpBegun(t, a.o);
      OpContinues(s, a);
      StepTakes(s, a, x);
      assert Sole(s, x, a.o);
      OnlyRollBackTakes(s, a, x);
    }
  }

  lemma OnlyRollBackTakes(s: State, a: Action, x: Sender)
    requires Enabled(s, a) && !IsBegin(a) && x !in s.fates && x in Apply(s, a).fates && s.ops[a.o].Admitting?
    ensures a.RollBackEntry?
  {
    if a.Enter? { EnterTakesNone(s, a); } else if Quiet(s, a) { QuietFrame(s, a); }
  }

  lemma SentMoves(s: State, a: Action, x: Sender)
    requires Enabled(s, a)
    ensures x in Apply(s, a).sent ==> x in s.sent || (a.Send? && a.o == x)
    ensures a.BeginFinish? && a.x == x ==> x !in Apply(s, a).sent
  {
  }

  lemma FinishMoves(t: Traced, a: Action, o: OpId, x: Sender)
    requires Enabled(t.s, a) && OpBegun(t, o)
    ensures Finish(Trace(t, a), o, x) ==> Finish(t, o, x) || (a.BeginFinish? && a.x == x && o == t.s.next)
    ensures Finish(t, o, x) ==> Finish(Trace(t, a), o, x)
  {
  }

  /** What an operation of the sender itself and its finishing do to it. */
  lemma SentOps(s: State, a: Action, x: Sender)
    requires Enabled(s, a) && OpInv(s, s.next)
    ensures a == RollBackEntry(x) ==> x !in Apply(s, a).ops
    ensures a.Send? && a.o == x && x in Apply(s, a).sent && x !in s.sent ==> x !in Apply(s, a).ops
    ensures x in Apply(s, a).ops ==> x in s.ops || x == s.next
  {
    StepOps(s, a);
    if !IsBegin(a) { OpContinues(s, a); }
  }

  lemma StepRolledBack(t: Traced, a: Action, x: Sender)
    requires Clean(t.s) && TracedInv(t) && Enabled(t.s, a) && SentOnce(t, x) && RolledBack(Trace(t, a), x)
    ensures x !in Apply(t.s, a).ops && x !in Apply(t.s, a).sent
    ensures forall o :: !Finish(Trace(t, a), o, x)
  {
    var s := t.s;
    assert OpInv(s, s.next) && SentInv(s, x) && FateInv(t, x) && SenderInv(s, x);
    SentOps(s, a, x);
    SentMoves(s, a, x);
    if !RolledBack(t, x) { OwnRollBack(t, a, x); }
    forall o ensures !Finish(Trace(t, a), o, x) { assert OpBegun(t, o); FinishMoves(t, a, o, x); }
  }

  lemma StepSentOnce(t: Traced, a: Action, x: Sender)
    requires Clean(t.s) && TracedInv(t) && Enabled(t.s, a) && SentOnce(t, x)
    ensures SentOnce(Trace(t, a), x)
  {
    var s, u := t.s, Trace(t, a);
    assert OpInv(s, s.next) && SentInv(s, x) && SenderInv(s, x);
    SentOps(s, a, x);
    SentMoves(s, a, x);
    forall o
      ensures Finish(u, o, x) ==> (Finish(t, o, x) && x < s.next) || (a.BeginFinish? && a.x == x && o == s.next)
    {
      assert OpBegun(t, o);
      FinishMoves(t, a, o, x);
    }
    if RolledBack(u, x) { StepRolledBack(t, a, x); }
  }

  lemma NewFinish(t: Traced, a: Action)
    requires Enabled(t.s, a) && a.BeginFinish? && OpInv(t.s, t.s.next)
    ensures FinishInv(Trace(t, a), t.s.next)
  {
    NewBegun(t.s, a);
  }

  /** A `finish` that looks into a map settles the call it finds there, and the call it was begun for if that is
      in this map. */
  lemma FinishTakesRequest(s: State, o: OpId, x: Sender)
    requires Agreement(s) && Removes(s, o, WithoutFlag) && s.ops[o].Finishing? && x in s.slots && s.slots[x].id == s.ops[o].id
    ensures var t := FromRequests(s, o);
            x in t.fates || (o in t.ops && t.ops[o].Finishing? && t.ops[o].removal.NotRequest? && s.slots[x].kind.Event?)
  {
    assert SenderInv(s, x);
    if x !in s.fates {
      OneKind(s, s.ops[o].id);
      if s.slots[x].kind.Request? { assert s.slots[x] == Slot(R.Request, s.ops[o].id); }
      else { assert s.slots[x] == Slot(R.Event, s.ops[o].id); }
    }
  }

  lemma FinishTakesEvent(s: State, o: OpId, x: Sender)
    requires Senders(s) && Removes(s, o, NotRequest) && x in s.slots && s.slots[x] == Slot(R.Event, s.ops[o].id)
    ensures x in FromEvents(s, o).fates
  {
    assert SenderInv(s, x);
  }

  /** The other steps leave a `finish` where it was, or before the maps. */
  lemma FinishWaits(s: State, a: Action, o: OpId)
    requires Enabled(s, a) && o in s.ops && s.ops[o].Finishing? && OpInv(s, s.next) && OpInv(s, o)
    requires !s.ops[o].removal.Taken? && !(a.TakeRequest? && a.o == o) && !(a.TakeEvent? && a.o == o)
    ensures o in Apply(s, a).ops && Apply(s, a).ops[o].Finishing?
    ensures Apply(s, a).ops[o].removal == s.ops[o].removal || Apply(s, a).ops[o].removal.WithoutFlag?
  {
    StepOps(s, a);
  }

  lemma SettlingGoesOn(s: State, a: Action, o: OpId, x: Sender)
    requires Agreement(s) && Enabled(s, a) && Settling(s, o, x) && x in s.slots && x !in s.fates && s.slots[x].id == s.ops[o].id
    ensures Settling(Apply(s, a), o, x)
  {
    StepFates(s, a);
    assert OpInv(s, s.next) && OpInv(s, o);
    if a == TakeRequest(o) { FinishTakesRequest(s, o, x); }
    else if a == TakeEvent(o) { FinishTakesEvent(s, o, x); }
    else { FinishWaits(s, a, o); }
  }

  lemma OldFinish(t: Traced, a: Action, o: OpId)
    requires Clean(t.s) && TracedInv(t) && Enabled(t.s, a) && FinishInv(t, o)
    requires o in t.begun && t.begun[o].BeginFinish? && t.begun[o].x !in t.s.fates
    ensures FinishInv(Trace(t, a), o)
  {
    assert OpBegun(t, o);
    StepFates(t.s, a);
    SettlingGoesOn(t.s, a, o, t.begun[o].x);
  }

  lemma StepFinish(t: Traced, a: Action, o: OpId)
    requires Clean(t.s) && TracedInv(t) && Enabled(t.s, a) && FinishInv(t, o)
    ensures FinishInv(Trace(t, a), o)
  {
    StepFates(t.s, a);
    assert OpInv(t.s, t.s.next) && OpBegun(t, o);
    if o !in t.begun {
      if a.BeginFinish? { NewFinish(t, a); }
    } else if t.begun[o].BeginFinish? && t.begun[o].x !in t.s.fates {
      OldFinish(t, a, o);
    }
  }

  ghost predicate CarefulInv(t: Traced) {
    Clean(t.s) && TracedInv(t) && (forall x :: SentOnce(t, x)) && (forall o :: FinishInv(t, o))
  }

  lemma CarefulStep(t: Traced, a: Action)
    requires CarefulInv(t) && Enabled(t.s, a) && Careful(t.s, a)
    ensures CarefulInv(Trace(t, a))
  {
    CleanStep(t.s, a);
    StepTraced(t, a);
    forall x ensures SentOnce(Trace(t, a), x) { StepSentOnce(t, a, x); }
    forall o ensures FinishInv(Trace(t, a), o) { StepFinish(t, a, o); }
  }

  lemma CarefulStart(t: Traced)
    requires TracedInit(t)
    ensures CarefulInv(t)
  {
    StartTraced(t);
    Runs.ReachStart(Init, NextCareful, NOTHING);
    ReachableClean(NOTHING);
  }

  /** Under a careful host, a call whose `finish` has ended was answered the reply of that `finish`, unless a
      cancellation of its id or a `fail_all` took it before. */
  lemma FinishedIsAnswered(t: Traced, o: OpId)
    requires Runs.Reachable(TracedInit, CarefulTracedNext, t) && o in t.begun && t.begun[o].BeginFinish? && o !in t.s.ops
    ensures var x := t.begun[o].x;
            && x in t.s.fates && x in t.s.slots && x in t.taker && t.taker[x] in t.begun
            && var taking := t.begun[t.taker[x]];
               || t.s.fates[x] == Answered(t.begun[o].reply)
               || (taking == BeginCancel(t.s.slots[x].id) && t.s.fates[x] == Dropped)
               || (taking.BeginFailAll? && t.s.fates[x] == Failed(taking.error))
  {
    forall u | TracedInit(u) ensures CarefulInv(u) { CarefulStart(u); }
    forall u, v | CarefulInv(u) && CarefulTracedNext(u, v) ensures CarefulInv(v) {
      var a :| Enabled(u.s, a) && Careful(u.s, a) && v == Trace(u, a);
      CarefulStep(u, a);
    }
    Runs.InEveryReachable(TracedInit, CarefulTracedNext, CarefulInv, t);
    var x := t.begun[o].x;
    assert FinishInv(t, o) && FateInv(t, x) && SentOnce(t, x) && Finish(t, o, x);
    var p := t.taker[x];
    if t.begun[p].BeginFinish? {
      assert Sole(t.s, x, t.begun[p].x);
      assert Finish(t, p, x);
    }
  }

  // ---------------------------------------------------------------- whose flag is raised

  predicate Raises(a: Action) { a.BeginCancel? || a.BeginFailAll? }

  ghost predicate RaisedInv(t: Traced, x: Sender) {
    && (x in t.s.took ==> x < t.s.next && t.s.took[x] in t.begun)
    && (x in t.s.raised <==> x in t.s.took && Raises(t.begun[t.s.took[x]]))
    && (Admits(t.s, x, Checked) ==> x !in t.s.took)
  }

  ghost predicate FlagBegun(t: Traced, id: Id) {
    id in t.s.r.cancellations ==>
      var x := t.s.r.cancellations[id];
      x in t.begun && t.begun[x].BeginAdmit? && t.begun[x].slot.id == id && x !in t.s.took && !Admits(t.s, x, Checked)
  }

  predicate TouchesFlags(a: Action) {
    a.Flag? || a.Enter? || a.RollBackFlag? || a.Unflag? || a.BeginCancel? || a.BeginFailAll?
  }

  lemma AdmissionFlagsKept(s: State, a: Action)
    requires Enabled(s, a) && !TouchesFlags(a) && IsAdmission(a)
    ensures var u := Apply(s, a); u.r.cancellations == s.r.cancellations && u.took == s.took && u.raised == s.raised
  {
  }

  lemma FlagsKept(s: State, a: Action)
    requires Enabled(s, a) && !TouchesFlags(a)
    ensures var u := Apply(s, a); u.r.cancellations == s.r.cancellations && u.took == s.took && u.raised == s.raised
  {
    if IsAdmission(a) { AdmissionFlagsKept(s, a); }
    else if a.FailRequests? || a.FailEvents? { FailFlagsKept(s, a); }
  }

  lemma FailFlagsKept(s: State, a: Action)
    requires Enabled(s, a) && (a.FailRequests? || a.FailEvents?)
    ensures var u := Apply(s, a); u.r.cancellations == s.r.cancellations && u.took == s.took && u.raised == s.raised
  {
  }

  ghost predicate SameFlags(s: State, u: State) {
    u.r.cancellations == s.r.cancellations && u.took == s.took && u.raised == s.raised
  }

  /** The flag of the id, if there is one, is gone. */
  ghost predicate Unflags(s: State, u: State, id: Id, o: OpId, raises: bool) {
    && u.r.cancellations == s.r.cancellations - {id}
    && (if id !in s.r.cancellations then u.took == s.took && u.raised == s.raised
        else && u.took == s.took[s.r.cancellations[id] := o]
             && u.raised == if raises then s.raised + {s.r.cancellations[id]} else s.raised)
  }

  lemma AdmissionUnflags(s: State, o: OpId, capacity: nat)
    ensures Admits(s, o, Flagged) ==>
              SameFlags(s, SetEntry(s, o, capacity)) || Unflags(s, SetEntry(s, o, capacity), s.ops[o].slot.id, o, false)
    ensures Admits(s, o, Refused) ==> Unflags(s, UndoFlag(s, o), s.ops[o].slot.id, o, false)
  {
  }

  lemma RemovalUnflags(s: State, o: OpId, id: Id)
    ensures Removes(s, o, WithFlag) ==> Unflags(s, FinishFlag(s, o), s.ops[o].id, o, false)
    ensures Unflags(s, StartCancel(s, id), id, s.next, true)
  {
    if id !in s.r.cancellations { assert s.r.cancellations - {id} == s.r.cancellations; }
  }

  lemma CheckedMoves(s: State, a: Action, x: Sender)
    requires Enabled(s, a)
    ensures Admits(Apply(s, a), x, Checked) ==> (Admits(s, x, Checked) && !(a.Flag? && a.o == x)) || x == s.next
  {
    StepOps(s, a);
    if !IsBegin(a) && a.o == x { NotCheckedAgain(s, a); }
  }

  lemma NotCheckedAgain(s: State, a: Action)
    requires Enabled(s, a) && !IsBegin(a)
    ensures !Admits(Apply(s, a), a.o, Checked)
  {
    if !IsAdmission(a) { OpContinues(s, a); }
  }

  /** One step further, with what was known of the operations kept. */
  ghost predicate Later(t: Traced, u: Traced, x: Sender) {
    && u.s.next >= t.s.next && (forall p :: p in t.begun ==> p < t.s.next && p in u.begun && u.begun[p] == t.begun[p])
    && (Admits(u.s, x, Checked) ==> Admits(t.s, x, Checked) || x == t.s.next)
  }

  lemma SameRaised(t: Traced, u: Traced, x: Sender, id: Id)
    requires SameFlags(t.s, u.s) && Later(t, u, x)
    ensures RaisedInv(t, x) ==> RaisedInv(u, x)
    ensures FlagBegun(t, id) && (id in t.s.r.cancellations ==> x == t.s.r.cancellations[id]) ==> FlagBegun(u, id)
  {
  }

  lemma FlagRaised(t: Traced, u: Traced, o: OpId, x: Sender, id: Id)
    requires Later(t, u, x) && Admits(t.s, o, Checked) && RaisedInv(t, o) && OpBegun(t, o) && !Admits(u.s, o, Checked)
    requires u.s.took == t.s.took && u.s.raised == t.s.raised
    requires u.s.r.cancellations == t.s.r.cancellations[t.s.ops[o].slot.id := o]
    ensures RaisedInv(t, x) ==> RaisedInv(u, x)
    ensures FlagBegun(t, id) && (id in u.s.r.cancellations ==> x == u.s.r.cancellations[id]) ==> FlagBegun(u, id)
  {
  }

  lemma UnflagsRaised(t: Traced, u: Traced, gone: Id, o: OpId, raises: bool, x: Sender, id: Id)
    requires Later(t, u, x) && Unflags(t.s, u.s, gone, o, raises) && FlagBegun(t, gone)
    requires gone in t.s.r.cancellations ==> o in u.begun && (Raises(u.begun[o]) <==> raises)
    ensures RaisedInv(t, x) ==> RaisedInv(u, x)
    ensures FlagBegun(t, id) && (id in u.s.r.cancellations ==> x == u.s.r.cancellations[id]) ==> FlagBegun(u, id)
  {
  }

  lemma ClearRaised(t: Traced, u: Traced, x: Sender)
    requires Later(t, u, x) && u.s.r.cancellations == map[] && (forall i :: FlagBegun(t, i))
    requires t.s.next in u.begun && Raises(u.begun[t.s.next])
    requires u.s.took == t.s.took + (map y | y in t.s.r.cancellations.Values :: t.s.next)
    requires u.s.raised == t.s.raised + t.s.r.cancellations.Values
    ensures RaisedInv(t, x) ==> RaisedInv(u, x)
  {
    if x in t.s.r.cancellations.Values {
      var id :| id in t.s.r.cancellations && t.s.r.cancellations[id] == x;
      assert FlagBegun(t, id);
    }
  }

  ghost predicate FlagsTraced(t: Traced) { (forall x :: RaisedInv(t, x)) && (forall id :: FlagBegun(t, id)) }

  lemma StepLater(t: Traced, a: Action, x: Sender)
    requires TracedInv(t) && Enabled(t.s, a)
    ensures Later(t, Trace(t, a), x)
  {
    NextGrows(t.s, a);
    CheckedMoves(t.s, a, x);
    forall p | p in t.begun ensures p < t.s.next { assert OpBegun(t, p); }
  }

  lemma StepFlagTraced(t: Traced, a: Action, x: Sender, id: Id)
    requires TracedInv(t) && FlagsTraced(t) && Enabled(t.s, a) && a.Flag?
    ensures RaisedInv(Trace(t, a), x)
    ensures (id in Apply(t.s, a).r.cancellations ==> x == Apply(t.s, a).r.cancellations[id]) ==> FlagBegun(Trace(t, a), id)
  {
    var u := Trace(t, a);
    StepLater(t, a, x);
    assert RaisedInv(t, x) && FlagBegun(t, id) && RaisedInv(t, a.o) && OpBegun(t, a.o);
    NotCheckedAgain(t.s, a);
    if t.s.ops[a.o].slot.id in t.s.r.cancellations { SameRaised(t, u, x, id); } else { FlagRaised(t, u, a.o, x, id); }
  }

  lemma StepUnflagTraced(t: Traced, a: Action, x: Sender, id: Id)
    requires TracedInv(t) && FlagsTraced(t) && Enabled(t.s, a)
    requires a.Enter? || a.RollBackFlag? || a.Unflag? || a.BeginCancel?
    ensures RaisedInv(Trace(t, a), x)
    ensures (id in Apply(t.s, a).r.cancellations ==> x == Apply(t.s, a).r.cancellations[id]) ==> FlagBegun(Trace(t, a), id)
  {
    var s, u := t.s, Trace(t, a);
    StepLater(t, a, x);
    assert RaisedInv(t, x) && FlagBegun(t, id) && OpInv(s, s.next);
    if a.BeginCancel? {
      RemovalUnflags(s, 0, a.id);
      assert FlagBegun(t, a.id);
      UnflagsRaised(t, u, a.id, s.next, true, x, id);
    } else {
      assert OpBegun(t, a.o);
      var gone := if a.Unflag? then s.ops[a.o].id else s.ops[a.o].slot.id;
      assert FlagBegun(t, gone);
      if a.Unflag? { RemovalUnflags(s, a.o, 0); } else { AdmissionUnflags(s, a.o, if a.Enter? then a.capacity else 0); }
      if SameFlags(s, u.s) { SameRaised(t, u, x, id); } else { UnflagsRaised(t, u, gone, a.o, false, x, id); }
    }
  }

  lemma StepFlagsTraced(t: Traced, a: Action)
    requires TracedInv(t) && FlagsTraced(t) && Enabled(t.s, a)
    ensures FlagsTraced(Trace(t, a))
  {
    var s, u := t.s, Trace(t, a);
    forall x, id
      ensures RaisedInv(u, x) && ((id in u.s.r.cancellations ==> x == u.s.r.cancellations[id]) ==> FlagBegun(u, id))
    {
      assert RaisedInv(t, x) && FlagBegun(t, id);
      if a.Flag? { StepFlagTraced(t, a, x, id); }
      else if a.BeginFailAll? { StepLater(t, a, x); ClearRaised(t, u, x); }
      else if TouchesFlags(a) { StepUnflagTraced(t, a, x, id); }
      else { StepLater(t, a, x); FlagsKept(s, a); SameRaised(t, u, x, id); }
    }
    forall id ensures FlagBegun(u, id) {
      if id in u.s.r.cancellations { var x := u.s.r.cancellations[id]; assert RaisedInv(u, x); }
    }
  }

  /** In every interleaving: the flag of a call is raised if and only if a cancellation or a `fail_all` removed it,
      so the flag of a call that was finished or rolled back stays down. */
  lemma RaisedExactly(t: Traced, x: Sender)
    requires Runs.Reachable(TracedInit, TracedNext, t)
    ensures x in t.s.took ==> t.s.took[x] in t.begun
    ensures x in t.s.raised <==> x in t.s.took && Raises(t.begun[t.s.took[x]])
  {
    var inv := (u: Traced) => TracedInv(u) && FlagsTraced(u);
    forall u | TracedInit(u) ensures inv(u) { StartTraced(u); }
    forall u, v | inv(u) && TracedNext(u, v) ensures inv(v) {
      var a :| Enabled(u.s, a) && v == Trace(u, a);
      StepTraced(u, a);
      StepFlagsTraced(u, a);
    }
    Runs.InEveryReachable(TracedInit, TracedNext, inv, t);
    assert RaisedInv(t, x);
  }
}
