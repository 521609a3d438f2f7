/** The JSON-RPC transport's call registries under concurrency (`transport/json_rpc.rs`): `call`, `finish`,
    `cancel` and `fail_all` on different threads, each split at its locks. One registry stands for the calls
    and their events; the stream registry is the same one without events. */
module JsonRpcSteps {
  import opened Common
  import Ids = RetiredIds
  import R = JsonRpcRegistry
  import Runs

  type Id = R.Id
  type Sender = R.Sender
  type OpId = nat
  type Reply = nat
  type Failure = nat

  datatype Slot = Slot(kind: R.Kind, id: Id)

  /** What became of a response sender. */
  datatype Fate = Answered(reply: Reply) | Failed(error: Failure) | Dropped

  /** An admission after its retired test: before the flag, between flag and entry, before `try_send`, and in
      the two halves of the rollback. */
  datatype Admission = Checked | Flagged | Entered | Refused | Unflagged

  /** A removal: before the flag, between the flag and the request map, between the two maps, before the id
      is remembered. */
  datatype Removal = WithFlag | WithoutFlag | NotRequest | Taken

  /** An operation in progress. The number of an admission also names its sender. */
  datatype Op =
    | Admitting(slot: Slot, admission: Admission)
    | Finishing(id: Id, reply: Reply, removal: Removal)
    | Cancelling(id: Id, removal: Removal)
    | FailingAll(error: Failure, requestsTaken: bool)

  /** `slots` remembers where each sender was entered and `sent` which calls the worker has yet to finish.
      History: `took` is the operation that removed a call's flag, `bare` the senders entered after that
      operation had passed their map, `torn` those taken out while their flag was still there. */
  datatype State = State(r: R.Registry, ops: map<OpId, Op>, next: OpId, slots: map<Sender, Slot>,
                         fates: map<Sender, Fate>, sent: set<Sender>, raised: set<Sender>,
                         took: map<Sender, OpId>, bare: set<Sender>, torn: set<Sender>, kinds: map<Id, R.Kind>)

  function Entry(r: R.Registry, slot: Slot): Option<Sender> {
    var m := R.PendingOf(r, slot.kind);
    if slot.id in m then Some(m[slot.id]) else None
  }

  function FlagOf(s: State, id: Id): Option<Sender> {
    if id in s.r.cancellations then Some(s.r.cancellations[id]) else None
  }

  /** The operation will still take out whatever is in the slot. */
  predicate Owes(op: Op, slot: Slot) {
    match op
    case Admitting(own, admission) => own == slot && admission.Unflagged?
    case Finishing(id, _, removal) => id == slot.id && (removal.WithoutFlag? || (removal.NotRequest? && slot.kind.Event?))
    case Cancelling(id, removal) => id == slot.id && (removal.WithoutFlag? || (removal.NotRequest? && slot.kind.Event?))
    case FailingAll(_, requestsTaken) => !requestsTaken || slot.kind.Event?
  }

  /** The call's flag was taken by an operation that will still take its sender. */
  predicate Owed(s: State, x: Sender, slot: Slot) {
    x in s.took && s.took[x] in s.ops && Owes(s.ops[s.took[x]], slot)
  }

  // ---------------------------------------------------------------- what one critical section does

  function InsertFlag(s: State, id: Id, x: Sender): State {
    s.(r := s.r.(cancellations := s.r.cancellations[id := x]))
  }

  /** Remove the flag of an id, whosever it is. */
  function RemoveFlag(s: State, id: Id, taker: OpId): State {
    if id in s.r.cancellations
    then s.(r := s.r.(cancellations := s.r.cancellations - {id}), took := s.took[s.r.cancellations[id] := taker])
    else s
  }

  function InsertEntry(s: State, slot: Slot, x: Sender): State {
    s.(r := R.WithPending(s.r, slot.kind, R.PendingOf(s.r, slot.kind)[slot.id := x]), slots := s.slots[x := slot],
       bare := if FlagOf(s, slot.id) == Some(x) || Owed(s, x, slot) then s.bare else s.bare + {x})
  }

  /** Take the sender out of a slot and use or drop it. */
  function Consume(s: State, slot: Slot, fate: Fate): State {
    match Entry(s.r, slot)
    case None => s
    case Some(x) =>
      s.(r := R.WithPending(s.r, slot.kind, R.PendingOf(s.r, slot.kind) - {slot.id}), fates := s.fates[x := fate],
         torn := if FlagOf(s, slot.id) == Some(x) then s.torn + {x} else s.torn)
  }

  /** Clear every flag. */
  function ClearFlags(s: State, taker: OpId): State {
    s.(r := s.r.(cancellations := map[]), raised := s.raised + s.r.cancellations.Values,
       took := s.took + (map x | x in s.r.cancellations.Values :: taker))
  }

  function Flaggeds(s: State, m: map<Id, Sender>): set<Sender> {
    set id | id in m && FlagOf(s, id) == Some(m[id]) :: m[id]
  }

  /** Take one map whole. */
  function ConsumeAll(s: State, kind: R.Kind, fate: Fate): State {
    var m := R.PendingOf(s.r, kind);
    s.(r := R.WithPending(s.r, kind, map[]), fates := s.fates + (map x | x in m.Values :: fate),
       torn := s.torn + Flaggeds(s, m))
  }

  function Put(s: State, o: OpId, op: Op): State { s.(ops := s.ops[o := op]) }

  function End(s: State, o: OpId): State { s.(ops := s.ops - {o}) }

  function New(s: State, op: Op): State { s.(ops := s.ops[s.next := op], next := s.next + 1) }

  // ---------------------------------------------------------------- the steps

  datatype Action =
    | BeginAdmit(slot: Slot)
    | Flag(o: OpId)
    | Enter(o: OpId, capacity: nat)
    | Send(o: OpId, outcome: R.Outcome)
    | RollBackFlag(o: OpId)
    | RollBackEntry(o: OpId)
    | BeginFinish(x: Sender, reply: Reply)
    | Unflag(o: OpId)
    | BeginCancel(id: Id)
    | TakeRequest(o: OpId)
    | TakeEvent(o: OpId)
    | Remember(o: OpId)
    | BeginFailAll(error: Failure)
    | FailRequests(o: OpId)
    | FailEvents(o: OpId)

  predicate Admits(s: State, o: OpId, admission: Admission) {
    o in s.ops && s.ops[o].Admitting? && s.ops[o].admission == admission
  }

  predicate Removes(s: State, o: OpId, removal: Removal) {
    o in s.ops && (s.ops[o].Finishing? || s.ops[o].Cancelling?) && s.ops[o].removal == removal
  }

  predicate Enabled(s: State, a: Action) {
    match a
    case BeginAdmit(_) => true
    case Flag(o) => Admits(s, o, Checked)
    case Enter(o, _) => Admits(s, o, Flagged)
    case Send(o, _) => Admits(s, o, Entered)
    case RollBackFlag(o) => Admits(s, o, Refused)
    case RollBackEntry(o) => Admits(s, o, Unflagged)
    case BeginFinish(x, _) => x in s.sent && x in s.slots
    case Unflag(o) => Removes(s, o, WithFlag)
    case BeginCancel(_) => true
    case TakeRequest(o) => Removes(s, o, WithoutFlag)
    case TakeEvent(o) => Removes(s, o, NotRequest)
    case Remember(o) => Removes(s, o, Taken)
    case BeginFailAll(_) => true
    case FailRequests(o) => Failing(s, o, false)
    case FailEvents(o) => Failing(s, o, true)
  }

  /** `Enter` would find the id pending already. */
  predicate Duplicate(s: State, slot: Slot) { Entry(s.r, slot).Some? }

  predicate Refuses(s: State, slot: Slot, capacity: nat) {
    Duplicate(s, slot) || |R.PendingOf(s.r, slot.kind)| >= capacity
  }

  // -- one function per step

  function StartAdmit(s: State, slot: Slot): State {
    if slot.id in s.r.retired then s.(next := s.next + 1)
    else New(s, Admitting(slot, Checked)).(kinds := s.kinds[slot.id := slot.kind])
  }

  function SetFlag(s: State, o: OpId): State
    requires Admits(s, o, Checked)
  {
    var slot := s.ops[o].slot;
    if slot.id in s.r.cancellations then End(s, o)
    else Put(InsertFlag(s, slot.id, o), o, Admitting(slot, Flagged))
  }

  function SetEntry(s: State, o: OpId, capacity: nat): State
    requires Admits(s, o, Flagged)
  {
    var slot := s.ops[o].slot;
    if Refuses(s, slot, capacity) then End(RemoveFlag(s, slot.id, o), o)
    else Put(InsertEntry(s, slot, o), o, Admitting(slot, Entered))
  }

  function Submit(s: State, o: OpId, outcome: R.Outcome): State
    requires Admits(s, o, Entered)
  {
    if outcome.Sent? then End(s, o).(sent := s.sent + {o}) else Put(s, o, Admitting(s.ops[o].slot, Refused))
  }

  function UndoFlag(s: State, o: OpId): State
    requires Admits(s, o, Refused)
  {
    Put(RemoveFlag(s, s.ops[o].slot.id, o), o, Admitting(s.ops[o].slot, Unflagged))
  }

  function UndoEntry(s: State, o: OpId): State
    requires Admits(s, o, Unflagged)
  {
    End(Consume(s, s.ops[o].slot, Dropped), o)
  }

  function Advance(op: Op, removal: Removal): Op
    requires op.Finishing? || op.Cancelling?
  {
    op.(removal := removal)
  }

  function FateOf(op: Op): Fate { if op.Finishing? then Answered(op.reply) else Dropped }

  function StartFinish(s: State, x: Sender, reply: Reply): State
    requires x in s.slots
  {
    New(s, Finishing(s.slots[x].id, reply, WithFlag)).(sent := s.sent - {x})
  }

  function FinishFlag(s: State, o: OpId): State
    requires Removes(s, o, WithFlag)
  {
    Put(RemoveFlag(s, s.ops[o].id, o), o, Advance(s.ops[o], WithoutFlag))
  }

  function StartCancel(s: State, id: Id): State {
    if id !in s.r.cancellations then s
    else New(RemoveFlag(s, id, s.next), Cancelling(id, WithoutFlag)).(raised := s.raised + {s.r.cancellations[id]})
  }

  function FromRequests(s: State, o: OpId): State
    requires Removes(s, o, WithoutFlag)
  {
    var op := s.ops[o];
    if op.id in s.r.pending then Put(Consume(s, Slot(R.Request, op.id), FateOf(op)), o, Advance(op, Taken))
    else Put(s, o, Advance(op, NotRequest))
  }

  function FromEvents(s: State, o: OpId): State
    requires Removes(s, o, NotRequest)
  {
    Put(Consume(s, Slot(R.Event, s.ops[o].id), FateOf(s.ops[o])), o, Advance(s.ops[o], Taken))
  }

  ghost function Retire(s: State, o: OpId): State
    requires Removes(s, o, Taken)
  {
    End(s, o).(r := s.r.(retired := Ids.EvictSmallest(s.r.retired, Ids.MAX_RETIRED_REQUEST_IDS) + {s.ops[o].id}))
  }

  function StartFail(s: State, error: Failure): State {
    New(ClearFlags(s, s.next), FailingAll(error, false))
  }

  predicate Failing(s: State, o: OpId, requestsTaken: bool) {
    o in s.ops && s.ops[o].FailingAll? && s.ops[o].requestsTaken == requestsTaken
  }

  function AllRequests(s: State, o: OpId): State
    requires Failing(s, o, false)
  {
    Put(ConsumeAll(s, R.Request, Failed(s.ops[o].error)), o, FailingAll(s.ops[o].error, true))
  }

  function AllEvents(s: State, o: OpId): State
    requires Failing(s, o, true)
  {
    End(ConsumeAll(s, R.Event, Failed(s.ops[o].error)), o)
  }

  ghost function Apply(s: State, a: Action): State
    requires Enabled(s, a)
  {
    match a
    case BeginAdmit(slot) => StartAdmit(s, slot)
    case Flag(o) => SetFlag(s, o)
    case Enter(o, capacity) => SetEntry(s, o, capacity)
    case Send(o, outcome) => Submit(s, o, outcome)
    case RollBackFlag(o) => UndoFlag(s, o)
    case RollBackEntry(o) => UndoEntry(s, o)
    case BeginFinish(x, reply) => StartFinish(s, x, reply)
    case Unflag(o) => FinishFlag(s, o)
    case BeginCancel(id) => StartCancel(s, id)
    case TakeRequest(o) => FromRequests(s, o)
    case TakeEvent(o) => FromEvents(s, o)
    case Remember(o) => Retire(s, o)
    case BeginFailAll(error) => StartFail(s, error)
    case FailRequests(o) => AllRequests(s, o)
    case FailEvents(o) => AllEvents(s, o)
  }

  ghost predicate Next(s: State, t: State) {
    exists a :: Enabled(s, a) && t == Apply(s, a)
  }

  const NOTHING: State := State(R.EMPTY, map[], 0, map[], map[], {}, {}, map[], {}, {}, map[])

  ghost predicate Init(s: State) { s == NOTHING }

  // ---------------------------------------------------------------- every sender is consumed once

  /** An entered sender is in its own slot or has met its fate, never both. */
  ghost predicate SenderInv(s: State, x: Sender) {
    && (x in s.slots ==> x < s.next && (x in s.fates <==> Entry(s.r, s.slots[x]) != Some(x)))
    && (x in s.fates ==> x in s.slots)
  }

  ghost predicate SlotInv(s: State, slot: Slot) {
    Entry(s.r, slot).Some? ==>
      Entry(s.r, slot).value in s.slots && s.slots[Entry(s.r, slot).value] == slot
  }

  predicate Early(op: Op) { op.Admitting? && (op.admission.Checked? || op.admission.Flagged?) }

  ghost predicate OpInv(s: State, o: OpId) {
    o in s.ops ==> o < s.next && (Early(s.ops[o]) ==> o !in s.slots)
  }

  ghost predicate Senders(s: State) {
    (forall x :: SenderInv(s, x)) && (forall slot :: SlotInv(s, slot)) && (forall o :: OpInv(s, o))
  }

  /** The maps, the slots, the fates and every operation but one are the same. */
  ghost predicate Frame(s: State, t: State, o: OpId) {
    && t.r.pending == s.r.pending && t.r.events == s.r.events && t.slots == s.slots && t.fates == s.fates
    && t.bare == s.bare && t.torn == s.torn && t.next >= s.next
    && (forall p :: p != o ==> (p in t.ops <==> p in s.ops) && (p in s.ops ==> t.ops[p] == s.ops[p]))
  }

  lemma FrameKeeps(s: State, t: State, o: OpId)
    requires Senders(s) && Frame(s, t, o) && OpInv(t, o)
    ensures Senders(t)
  {
    forall x ensures SenderInv(t, x) { assert SenderInv(s, x); }
    forall slot ensures SlotInv(t, slot) { assert SlotInv(s, slot); }
    forall p ensures OpInv(t, p) { assert OpInv(s, p); }
  }

  lemma EntryOther(r: R.Registry, slot: Slot, m: map<Id, Sender>, other: Slot)
    ensures other.kind != slot.kind ==> Entry(R.WithPending(r, slot.kind, m), other) == Entry(r, other)
    ensures other.kind == slot.kind ==>
              Entry(R.WithPending(r, slot.kind, m), other) == if other.id in m then Some(m[other.id]) else None
  {
  }

  lemma InsertKeeps(s: State, slot: Slot, x: Sender, op: Op)
    requires Senders(s) && x in s.ops && x !in s.slots && Entry(s.r, slot).None? && !Early(op)
    ensures Senders(Put(InsertEntry(s, slot, x), x, op))
  {
    var t := Put(InsertEntry(s, slot, x), x, op);
    var m := R.PendingOf(s.r, slot.kind)[slot.id := x];
    assert OpInv(s, x);
    forall other ensures Entry(t.r, other) == if other == slot then Some(x) else Entry(s.r, other) {
      EntryOther(s.r, slot, m, other);
    }
    forall y ensures SenderInv(t, y) { assert SenderInv(s, y); }
    forall other ensures SlotInv(t, other) { assert SlotInv(s, other); }
    forall o ensures OpInv(t, o) { assert OpInv(s, o); }
  }

  lemma ConsumeEntries(s: State, slot: Slot, fate: Fate, other: Slot)
    ensures Entry(Consume(s, slot, fate).r, other) == if other == slot then None else Entry(s.r, other)
  {
    EntryOther(s.r, slot, R.PendingOf(s.r, slot.kind) - {slot.id}, other);
  }

  lemma ConsumeKeeps(s: State, slot: Slot, fate: Fate)
    requires Senders(s)
    ensures Senders(Consume(s, slot, fate))
  {
    var t := Consume(s, slot, fate);
    assert SlotInv(s, slot);
    forall o ensures OpInv(t, o) { assert OpInv(s, o); }
    forall other ensures SlotInv(t, other) { assert SlotInv(s, other); ConsumeEntries(s, slot, fate, other); }
    forall y ensures SenderInv(t, y) {
      assert SenderInv(s, y);
      if y in s.slots { ConsumeEntries(s, slot, fate, s.slots[y]); }
    }
  }

  lemma AllEntries(s: State, kind: R.Kind, fate: Fate, other: Slot)
    ensures Entry(ConsumeAll(s, kind, fate).r, other) == if other.kind == kind then None else Entry(s.r, other)
  {
    EntryOther(s.r, Slot(kind, 0), map[], other);
  }

  /** A sender is in a map exactly when it waits in a slot of that kind. */
  lemma InMap(s: State, kind: R.Kind, x: Sender)
    requires Senders(s)
    ensures x in R.PendingOf(s.r, kind).Values <==> x in s.slots && s.slots[x].kind == kind && Entry(s.r, s.slots[x]) == Some(x)
  {
    var m := R.PendingOf(s.r, kind);
    if x in m.Values {
      var id :| id in m && m[id] == x;
      assert SlotInv(s, Slot(kind, id));
    }
  }

  lemma AllKeeps(s: State, kind: R.Kind, fate: Fate)
    requires Senders(s)
    ensures Senders(ConsumeAll(s, kind, fate))
  {
    var t := ConsumeAll(s, kind, fate);
    forall o ensures OpInv(t, o) { assert OpInv(s, o); }
    forall other ensures SlotInv(t, other) { assert SlotInv(s, other); AllEntries(s, kind, fate, other); }
    forall y ensures SenderInv(t, y) {
      assert SenderInv(s, y);
      InMap(s, kind, y);
      if y in s.slots { AllEntries(s, kind, fate, s.slots[y]); }
    }
  }

  /** The steps that take nothing out and put nothing in. */
  predicate Quiet(s: State, a: Action) {
    match a
    case Enter(o, capacity) => o in s.ops && s.ops[o].Admitting? && Refuses(s, s.ops[o].slot, capacity)
    case RollBackEntry(_) => false
    case TakeRequest(o) => o in s.ops && (s.ops[o].Finishing? || s.ops[o].Cancelling?) && s.ops[o].id !in s.r.pending
    case TakeEvent(_) => false
    case FailRequests(_) => false
    case FailEvents(_) => false
    case _ => true
  }

  function Changed(s: State, a: Action): OpId {
    if a.BeginAdmit? || a.BeginFinish? || a.BeginCancel? || a.BeginFailAll? then s.next else a.o
  }

  lemma FramePut(s: State, u: State, o: OpId, op: Op)
    requires Frame(s, u, o)
    ensures Frame(s, Put(u, o, op), o) && Frame(s, End(u, o), o)
    ensures u.next == o ==> Frame(s, New(u, op), o)
  {
  }

  lemma FrameFlags(s: State, id: Id, x: Sender, o: OpId)
    ensures Frame(s, s, o) && Frame(s, InsertFlag(s, id, x), o) && Frame(s, RemoveFlag(s, id, x), o)
    ensures Frame(s, ClearFlags(s, x), o)
  {
  }

  lemma AdmitFrame(s: State, a: Action)
    requires Enabled(s, a) && Quiet(s, a)
    requires a.BeginAdmit? || a.Flag? || a.Enter? || a.Send? || a.RollBackFlag?
    ensures Frame(s, Apply(s, a), Changed(s, a))
  {
    var o := Changed(s, a);
    match a
    case BeginAdmit(slot) =>
      FrameFlags(s, 0, 0, o);
      FramePut(s, s, o, Admitting(slot, Checked));
    case Flag(_) => FlagStepFrame(s, o);
    case Enter(_, capacity) => RefusedFrame(s, o, capacity);
    case Send(_, _) =>
      FrameFlags(s, 0, 0, o);
      FramePut(s, s, o, Admitting(s.ops[o].slot, Refused));
    case RollBackFlag(_) => UndoFlagFrame(s, o);
  }

  lemma FlagStepFrame(s: State, o: OpId)
    requires Admits(s, o, Checked)
    ensures Frame(s, SetFlag(s, o), o)
  {
    var slot := s.ops[o].slot;
    FrameFlags(s, slot.id, o, o);
    FramePut(s, s, o, Admitting(slot, Flagged));
    FramePut(s, InsertFlag(s, slot.id, o), o, Admitting(slot, Flagged));
  }

  lemma RefusedFrame(s: State, o: OpId, capacity: nat)
    requires Admits(s, o, Flagged) && Refuses(s, s.ops[o].slot, capacity)
    ensures Frame(s, SetEntry(s, o, capacity), o)
  {
    FrameFlags(s, s.ops[o].slot.id, o, o);
    FramePut(s, RemoveFlag(s, s.ops[o].slot.id, o), o, s.ops[o]);
  }

  lemma UndoFlagFrame(s: State, o: OpId)
    requires Admits(s, o, Refused)
    ensures Frame(s, UndoFlag(s, o), o)
  {
    FrameFlags(s, s.ops[o].slot.id, o, o);
    FramePut(s, RemoveFlag(s, s.ops[o].slot.id, o), o, Admitting(s.ops[o].slot, Unflagged));
  }

  lemma RemoveFrame(s: State, a: Action)
    requires Enabled(s, a) && Quiet(s, a)
    requires a.BeginFinish? || a.Unflag? || a.BeginCancel? || a.TakeRequest? || a.Remember? || a.BeginFailAll?
    ensures Frame(s, Apply(s, a), Changed(s, a))
  {
    var o := Changed(s, a);
    match a
    case BeginFinish(x, reply) =>
      FrameFlags(s, 0, 0, o);
      FramePut(s, s, o, Finishing(s.slots[x].id, reply, WithFlag));
    case Unflag(_) =>
      FrameFlags(s, s.ops[o].id, o, o);
      FramePut(s, RemoveFlag(s, s.ops[o].id, o), o, Advance(s.ops[o], WithoutFlag));
    case BeginCancel(id) =>
      FrameFlags(s, id, o, o);
      FramePut(s, RemoveFlag(s, id, o), o, Cancelling(id, WithoutFlag));
    case TakeRequest(_) =>
      FrameFlags(s, 0, 0, o);
      FramePut(s, s, o, Advance(s.ops[o], NotRequest));
    case Remember(_) =>
      FrameFlags(s, 0, 0, o);
      FramePut(s, s, o, s.ops[o]);
    case BeginFailAll(error) =>
      FrameFlags(s, 0, o, o);
      FramePut(s, ClearFlags(s, o), o, FailingAll(error, false));
  }

  lemma QuietFrame(s: State, a: Action)
    requires Enabled(s, a) && Quiet(s, a)
    ensures Frame(s, Apply(s, a), Changed(s, a))
  {
    if a.BeginAdmit? || a.Flag? || a.Enter? || a.Send? || a.RollBackFlag? { AdmitFrame(s, a); } else { RemoveFrame(s, a); }
  }

  lemma QuietOp(s: State, a: Action)
    requires Enabled(s, a) && Quiet(s, a) && OpInv(s, Changed(s, a)) && SenderInv(s, s.next)
    ensures OpInv(Apply(s, a), Changed(s, a))
  {
  }

  lemma QuietSenders(s: State, a: Action)
    requires Senders(s) && Enabled(s, a) && Quiet(s, a)
    ensures Senders(Apply(s, a))
  {
    assert OpInv(s, Changed(s, a)) && SenderInv(s, s.next);
    QuietFrame(s, a);
    QuietOp(s, a);
    FrameKeeps(s, Apply(s, a), Changed(s, a));
  }

  /** Then one operation moves on or ends. */
  lemma ThenMoves(u: State, o: OpId, op: Op)
    requires Senders(u) && o in u.ops && !Early(op)
    ensures Senders(Put(u, o, op)) && Senders(End(u, o))
  {
    assert OpInv(u, o);
    FrameKeeps(u, Put(u, o, op), o);
    FrameKeeps(u, End(u, o), o);
  }

  lemma LoudSenders(s: State, a: Action)
    requires Senders(s) && Enabled(s, a) && !Quiet(s, a)
    ensures Senders(Apply(s, a))
  {
    match a
    case Enter(o, capacity) =>
      assert OpInv(s, o);
      InsertKeeps(s, s.ops[o].slot, o, Admitting(s.ops[o].slot, Entered));
    case RollBackEntry(o) =>
      ConsumeKeeps(s, s.ops[o].slot, Dropped);
      ThenMoves(Consume(s, s.ops[o].slot, Dropped), o, FailingAll(0, true));
    case TakeRequest(o) =>
      ConsumeKeeps(s, Slot(R.Request, s.ops[o].id), FateOf(s.ops[o]));
      ThenMoves(Consume(s, Slot(R.Request, s.ops[o].id), FateOf(s.ops[o])), o, Advance(s.ops[o], Taken));
    case TakeEvent(o) =>
      ConsumeKeeps(s, Slot(R.Event, s.ops[o].id), FateOf(s.ops[o]));
      ThenMoves(Consume(s, Slot(R.Event, s.ops[o].id), FateOf(s.ops[o])), o, Advance(s.ops[o], Taken));
    case FailRequests(o) =>
      AllKeeps(s, R.Request, Failed(s.ops[o].error));
      ThenMoves(ConsumeAll(s, R.Request, Failed(s.ops[o].error)), o, FailingAll(s.ops[o].error, true));
    case FailEvents(o) =>
      AllKeeps(s, R.Event, Failed(s.ops[o].error));
      ThenMoves(ConsumeAll(s, R.Event, Failed(s.ops[o].error)), o, FailingAll(s.ops[o].error, true));
  }

  lemma StepSenders(s: State, a: Action)
    requires Senders(s) && Enabled(s, a)
    ensures Senders(Apply(s, a))
  {
    if Quiet(s, a) { QuietSenders(s, a); } else { LoudSenders(s, a); }
  }

  lemma ReachableSenders(s: State)
    requires Runs.Reachable(Init, Next, s)
    ensures Senders(s)
  {
    forall t, u | Senders(t) && Next(t, u) ensures Senders(u) {
      var a :| Enabled(t, a) && u == Apply(t, a);
      StepSenders(t, a);
    }
    assert Senders(NOTHING) by {
      forall x ensures SenderInv(NOTHING, x) && OpInv(NOTHING, x) {}
      forall slot ensures SlotInv(NOTHING, slot) {}
    }
    Runs.InEveryReachable(Init, Next, Senders, s);
  }

  /** In every interleaving at the locks, for reused ids and any number of `fail_all`s: an entered sender is
      in the one slot it was put into, or has met its fate, never both, and no slot holds another's. */
  lemma SenderWaitsOrSettled(s: State, x: Sender)
    requires Runs.Reachable(Init, Next, s) && x in s.slots
    ensures x in s.fates <==> Entry(s.r, s.slots[x]) != Some(x)
    ensures forall slot :: Entry(s.r, slot) == Some(x) ==> slot == s.slots[x]
  {
    ReachableSenders(s);
    assert SenderInv(s, x);
    forall slot | Entry(s.r, slot) == Some(x) ensures slot == s.slots[x] { assert SlotInv(s, slot); }
  }

  ghost predicate FatesKept(s: State, t: State) {
    && (forall x :: x in s.fates ==> x in t.fates && t.fates[x] == s.fates[x])
    && (forall x :: x in s.slots ==> x in t.slots && t.slots[x] == s.slots[x])
  }

  lemma ConsumeFates(s: State, slot: Slot, fate: Fate)
    requires Senders(s)
    ensures FatesKept(s, Consume(s, slot, fate))
  {
    assert SlotInv(s, slot);
    if Entry(s.r, slot).Some? { assert SenderInv(s, Entry(s.r, slot).value); }
  }

  lemma AllFates(s: State, kind: R.Kind, fate: Fate)
    requires Senders(s)
    ensures FatesKept(s, ConsumeAll(s, kind, fate))
  {
    forall x | x in s.fates ensures x !in R.PendingOf(s.r, kind).Values {
      assert SenderInv(s, x);
      InMap(s, kind, x);
    }
  }

  lemma LoudFates(s: State, a: Action)
    requires Senders(s) && Enabled(s, a) && !Quiet(s, a)
    ensures FatesKept(s, Apply(s, a))
  {
    match a
    case Enter(o, _) => assert OpInv(s, o);
    case RollBackEntry(o) => ConsumeFates(s, s.ops[o].slot, Dropped);
    case TakeRequest(o) => ConsumeFates(s, Slot(R.Request, s.ops[o].id), FateOf(s.ops[o]));
    case TakeEvent(o) => ConsumeFates(s, Slot(R.Event, s.ops[o].id), FateOf(s.ops[o]));
    case FailRequests(o) => AllFates(s, R.Request, Failed(s.ops[o].error));
    case FailEvents(o) => AllFates(s, R.Event, Failed(s.ops[o].error));
  }

  lemma StepFates(s: State, a: Action)
    requires Senders(s) && Enabled(s, a)
    ensures FatesKept(s, Apply(s, a))
  {
    if Quiet(s, a) { QuietFrame(s, a); } else { LoudFates(s, a); }
  }

  /** A sender is consumed once: in every run its slot and its fate, once met, are final. */
  lemma ConsumedOnce(run: seq<State>, i: nat, j: nat)
    requires Runs.IsRun(Next, run) && Init(run[0]) && i <= j < |run|
    ensures FatesKept(run[i], run[j])
  {
    forall s, t | Senders(s) && Next(s, t) ensures Senders(t) && FatesKept(s, t) {
      var a :| Enabled(s, a) && t == Apply(s, a);
      StepSenders(s, a);
      StepFates(s, a);
    }
    Runs.ReachStart(Init, Next, run[0]);
    ReachableSenders(run[0]);
    Runs.Ordered(Next, Senders, FatesKept, run, i, j);
  }

  // ---------------------------------------------------------------- agreement up to the operations in progress

  /** One admission of an id at a time, and always of the same kind; ids may be used again. */
  ghost predicate Solo(s: State, a: Action) {
    a.BeginAdmit? ==>
      && (forall o :: o in s.ops && s.ops[o].Admitting? ==> s.ops[o].slot.id != a.slot.id)
      && (a.slot.id in s.kinds ==> s.kinds[a.slot.id] == a.slot.kind)
  }

  ghost predicate NextSolo(s: State, t: State) {
    exists a :: Enabled(s, a) && Solo(s, a) && t == Apply(s, a)
  }

  /** A flag belongs to an admission on its way to the entry, to a waiting call, or to a torn one. */
  ghost predicate FlagInv(s: State, id: Id) {
    id in s.r.cancellations ==>
      var x := s.r.cancellations[id];
      || (Admits(s, x, Flagged) && s.ops[x].slot.id == id)
      || (x in s.slots && s.slots[x].id == id && (Entry(s.r, s.slots[x]) == Some(x) || x in s.torn))
  }

  /** A waiting call has its own flag, or an operation that took the flag will take the call, or it is bare. */
  ghost predicate EntryInv(s: State, slot: Slot) {
    Entry(s.r, slot).Some? ==>
      var x := Entry(s.r, slot).value;
      FlagOf(s, slot.id) == Some(x) || x in s.bare || Owed(s, x, slot)
  }

  /** An admission past its flag finds its own flag or none, and keeps the kind of its id. */
  ghost predicate AdmissionInv(s: State, o: OpId) {
    o in s.ops && s.ops[o].Admitting? ==>
      var op := s.ops[o];
      && op.slot.id in s.kinds && s.kinds[op.slot.id] == op.slot.kind
      && (!op.admission.Checked? && op.slot.id in s.r.cancellations ==> s.r.cancellations[op.slot.id] == o)
      && (!Early(op) ==> o in s.slots && s.slots[o] == op.slot)
  }

  predicate SameId(a: Op, b: Op) { a.Admitting? && b.Admitting? && a.slot.id == b.slot.id }

  ghost predicate OneAdmission(s: State) {
    forall o, p :: o in s.ops && p in s.ops && SameId(s.ops[o], s.ops[p]) ==> o == p
  }

  ghost predicate HistoryInv(s: State, x: Sender) {
    && (x in s.slots ==> s.slots[x].id in s.kinds && s.kinds[s.slots[x].id] == s.slots[x].kind)
    && (x in s.bare ==> x in s.slots && FlagOf(s, s.slots[x].id) != Some(x))
    && (x in s.torn ==> x in s.fates)
    && (x in s.took ==> s.took[x] < s.next)
  }

  ghost predicate Agreement(s: State) {
    && Senders(s) && OneAdmission(s)
    && (forall id :: FlagInv(s, id)) && (forall slot :: EntryInv(s, slot))
    && (forall o :: AdmissionInv(s, o)) && (forall x :: HistoryInv(s, x))
  }

  predicate AdmitQuiet(s: State, a: Action) {
    Quiet(s, a) && (a.BeginAdmit? || a.Flag? || a.Enter? || a.Send? || a.RollBackFlag?)
  }

  // -- the steps that take nothing out and put nothing in

  /** A flag that stays keeps its owner's place; a new one belongs to the operation that changed. */
  lemma FlagFrame(s: State, t: State, o: OpId, id: Id)
    requires Frame(s, t, o) && FlagInv(s, id)
    requires || FlagOf(t, id).None?
             || (FlagOf(t, id) == Some(o) && Admits(t, o, Flagged) && t.ops[o].slot.id == id)
             || (FlagOf(t, id) == FlagOf(s, id) && !(FlagOf(s, id) == Some(o) && Admits(s, o, Flagged)))
    ensures FlagInv(t, id)
  {
    if FlagOf(t, id).Some? && FlagOf(t, id) == FlagOf(s, id) && s.r.cancellations[id] in s.slots {
      var slot := s.slots[s.r.cancellations[id]];
      assert Entry(t.r, slot) == Entry(s.r, slot);
    }
  }

  lemma AdmitFlag(s: State, a: Action, id: Id)
    requires Enabled(s, a) && AdmitQuiet(s, a) && FlagInv(s, id) && OpInv(s, Changed(s, a))
    ensures FlagInv(Apply(s, a), id)
  {
    var o := Changed(s, a);
    AdmitFrame(s, a);
    FlagFrame(s, Apply(s, a), o, id);
  }

  lemma RemoveFlagInv(s: State, a: Action, id: Id)
    requires Enabled(s, a) && Quiet(s, a) && !AdmitQuiet(s, a) && FlagInv(s, id) && OpInv(s, s.next)
    ensures FlagInv(Apply(s, a), id)
  {
    RemoveFrame(s, a);
    FlagFrame(s, Apply(s, a), Changed(s, a), id);
  }

  /** A waiting call keeps its flag, or loses it to an operation that will take the call. */
  lemma EntryFrame(s: State, t: State, o: OpId, slot: Slot)
    requires Frame(s, t, o) && EntryInv(s, slot)
    requires Entry(s.r, slot).Some? ==>
               var x := Entry(s.r, slot).value;
               && (FlagOf(s, slot.id) == Some(x) ==> FlagOf(t, slot.id) == Some(x) || Owed(t, x, slot))
               && (Owed(s, x, slot) ==> Owed(t, x, slot))
    ensures EntryInv(t, slot)
  {
    assert Entry(t.r, slot) == Entry(s.r, slot);
  }

  lemma AdmitEntry(s: State, a: Action, slot: Slot)
    requires Enabled(s, a) && AdmitQuiet(s, a) && EntryInv(s, slot) && SlotInv(s, slot)
    requires OpInv(s, s.next) && (!a.BeginAdmit? ==> OpInv(s, a.o) && AdmissionInv(s, a.o))
    ensures EntryInv(Apply(s, a), slot)
  {
    AdmitFrame(s, a);
    EntryFrame(s, Apply(s, a), Changed(s, a), slot);
  }

  /** The flag of another id never belongs to the call in the slot. */
  lemma FlagElsewhere(s: State, slot: Slot, id: Id)
    requires FlagInv(s, id) && SlotInv(s, slot) && id != slot.id && Entry(s.r, slot).Some?
    requires OpInv(s, Entry(s.r, slot).value)
    ensures FlagOf(s, id) != Entry(s.r, slot)
  {
  }

  /** A flag is taken by an operation that will take whatever waits under the id. */
  lemma UnflagEntry(s: State, id: Id, o: OpId, t: State, slot: Slot)
    requires Frame(s, t, o) && EntryInv(s, slot) && SlotInv(s, slot) && FlagInv(s, id)
    requires Entry(s.r, slot).Some? ==> OpInv(s, Entry(s.r, slot).value)
    requires t.r.cancellations == s.r.cancellations - {id}
    requires t.took == if id in s.r.cancellations then s.took[s.r.cancellations[id] := o] else s.took
    requires o in t.ops && (slot.id == id ==> Owes(t.ops[o], slot))
    requires o in s.ops ==> !Owes(s.ops[o], slot)
    ensures EntryInv(t, slot)
  {
    if Entry(s.r, slot).Some? && id != slot.id { FlagElsewhere(s, slot, id); }
    EntryFrame(s, t, o, slot);
  }

  lemma FinishEntry(s: State, a: Action, slot: Slot)
    requires Enabled(s, a) && (a.Unflag? || (a.BeginCancel? && a.id in s.r.cancellations)) && EntryInv(s, slot) && SlotInv(s, slot)
    requires OpInv(s, s.next) && (forall id :: FlagInv(s, id)) && (forall o :: OpInv(s, o))
    ensures EntryInv(Apply(s, a), slot)
  {
    RemoveFrame(s, a);
    var id := if a.Unflag? then s.ops[a.o].id else a.id;
    assert FlagInv(s, id);
    if Entry(s.r, slot).Some? { assert OpInv(s, Entry(s.r, slot).value); }
    UnflagEntry(s, id, Changed(s, a), Apply(s, a), slot);
  }

  lemma RemoveEntry(s: State, a: Action, slot: Slot)
    requires Enabled(s, a) && Quiet(s, a) && (a.BeginFinish? || a.TakeRequest? || a.Remember?)
    requires EntryInv(s, slot) && OpInv(s, s.next)
    ensures EntryInv(Apply(s, a), slot)
  {
    RemoveFrame(s, a);
    EntryFrame(s, Apply(s, a), Changed(s, a), slot);
  }

  lemma ClearEntry(s: State, a: Action, slot: Slot)
    requires a.BeginFailAll? && EntryInv(s, slot) && OpInv(s, s.next)
    ensures EntryInv(Apply(s, a), slot)
  {
    if slot.id in s.r.cancellations { assert s.r.cancellations[slot.id] in s.r.cancellations.Values; }
    RemoveFrame(s, a);
    EntryFrame(s, Apply(s, a), Changed(s, a), slot);
  }

  /** A flag stays, goes, or is set by the operation that changed. */
  ghost predicate FlagMoves(s: State, t: State, o: OpId, id: Id) {
    || FlagOf(t, id).None? || FlagOf(t, id) == FlagOf(s, id)
    || (FlagOf(t, id) == Some(o) && Admits(t, o, Flagged) && Admits(s, o, Checked) && t.ops[o].slot.id == id)
  }

  lemma AdmitFlagMoves(s: State, a: Action, id: Id)
    requires Enabled(s, a) && AdmitQuiet(s, a)
    ensures FlagMoves(s, Apply(s, a), Changed(s, a), id)
  {
  }

  lemma RemoveFlagMoves(s: State, a: Action, id: Id)
    requires Enabled(s, a) && Quiet(s, a) && !AdmitQuiet(s, a)
    ensures FlagMoves(s, Apply(s, a), Changed(s, a), id)
  {
  }

  /** Who took a flag was known before, or is the operation that changed. */
  ghost predicate TookBefore(s: State, a: Action, t: State, x: Sender) {
    x in t.took ==> (x in s.took && t.took[x] == s.took[x]) || (t.took[x] == Changed(s, a) && Changed(s, a) < t.next)
                    || (t.took[x] in s.ops)
  }

  lemma AdmitTook(s: State, a: Action, x: Sender)
    requires Enabled(s, a) && AdmitQuiet(s, a)
    ensures TookBefore(s, a, Apply(s, a), x)
  {
  }

  lemma TookMoves(s: State, a: Action, x: Sender)
    requires Enabled(s, a) && Quiet(s, a)
    ensures TookBefore(s, a, Apply(s, a), x)
  {
    if AdmitQuiet(s, a) { AdmitTook(s, a, x); }
  }

  lemma KindsMove(s: State, a: Action, id: Id)
    requires Enabled(s, a) && Quiet(s, a) && Solo(s, a) && id in s.kinds
    ensures id in Apply(s, a).kinds && Apply(s, a).kinds[id] == s.kinds[id]
  {
  }

  /** The changed admission: what its own step makes of it. */
  lemma AdmissionMoves(s: State, a: Action)
    requires Enabled(s, a) && AdmitQuiet(s, a) && AdmissionInv(s, Changed(s, a)) && OpInv(s, s.next)
    ensures AdmissionInv(Apply(s, a), Changed(s, a))
  {
  }

  /** The changed operation keeps its id, or is new and alone with it. */
  lemma SameIdKept(s: State, a: Action)
    requires Enabled(s, a) && AdmitQuiet(s, a) && Solo(s, a)
    ensures var t, o := Apply(s, a), Changed(s, a);
            o in t.ops && t.ops[o].Admitting? ==>
              (o in s.ops && SameId(s.ops[o], t.ops[o])) || (forall p :: p in s.ops && p != o ==> !SameId(s.ops[p], t.ops[o]))
  {
    if !a.BeginAdmit? { KeepsSubject(s, a); }
  }

  lemma NotAdmitting(s: State, a: Action)
    requires Enabled(s, a) && Quiet(s, a) && !AdmitQuiet(s, a) && OpInv(s, s.next)
    ensures Changed(s, a) in Apply(s, a).ops ==> !Apply(s, a).ops[Changed(s, a)].Admitting?
  {
  }

  lemma QuietOne(s: State, a: Action)
    requires Enabled(s, a) && Quiet(s, a) && Solo(s, a) && OneAdmission(s) && OpInv(s, s.next)
    ensures OneAdmission(Apply(s, a))
  {
    QuietFrame(s, a);
    if AdmitQuiet(s, a) { SameIdKept(s, a); } else { NotAdmitting(s, a); }
  }

  lemma QuietAdmission(s: State, a: Action, p: OpId)
    requires Enabled(s, a) && Quiet(s, a) && Solo(s, a) && AdmissionInv(s, p) && OpInv(s, s.next)
    requires OneAdmission(Apply(s, a))
    ensures AdmissionInv(Apply(s, a), p)
  {
    var t, o := Apply(s, a), Changed(s, a);
    QuietFrame(s, a);
    if p == o {
      if AdmitQuiet(s, a) { AdmissionMoves(s, a); } else { NotAdmitting(s, a); }
    } else if p in t.ops && t.ops[p].Admitting? {
      var id := t.ops[p].slot.id;
      KindsMove(s, a, id);
      if AdmitQuiet(s, a) { AdmitFlagMoves(s, a, id); } else { RemoveFlagMoves(s, a, id); }
      assert Admits(t, o, Flagged) && SameId(t.ops[p], t.ops[o]) ==> p == o;
    }
  }

  lemma QuietHistory(s: State, a: Action, x: Sender)
    requires Enabled(s, a) && Quiet(s, a) && Solo(s, a) && HistoryInv(s, x) && OpInv(s, Changed(s, a))
    requires x in s.took ==> s.took[x] < s.next
    requires forall o :: OpInv(s, o)
    ensures HistoryInv(Apply(s, a), x)
  {
    QuietFrame(s, a);
    TookMoves(s, a, x);
    if x in s.slots {
      var id := s.slots[x].id;
      KindsMove(s, a, id);
      if AdmitQuiet(s, a) { AdmitFlagMoves(s, a, id); } else { RemoveFlagMoves(s, a, id); }
    }
    assert forall o :: o in s.ops ==> o < s.next by { forall o | o in s.ops ensures o < s.next { assert OpInv(s, o); } }
  }

  lemma QuietAgrees(s: State, a: Action)
    requires Agreement(s) && Enabled(s, a) && Quiet(s, a) && Solo(s, a)
    ensures Agreement(Apply(s, a))
  {
    var t, o := Apply(s, a), Changed(s, a);
    assert OpInv(s, o) && OpInv(s, s.next);
    QuietSenders(s, a);
    QuietOne(s, a);
    forall p ensures AdmissionInv(t, p) { QuietAdmission(s, a, p); }
    forall x ensures HistoryInv(t, x) { assert HistoryInv(s, x); QuietHistory(s, a, x); }
    forall id ensures FlagInv(t, id) { if AdmitQuiet(s, a) { AdmitFlag(s, a, id); } else { RemoveFlagInv(s, a, id); } }
    forall slot ensures EntryInv(t, slot) {
      assert SlotInv(s, slot);
      if AdmitQuiet(s, a) {
        if !a.BeginAdmit? { assert OpInv(s, a.o) && AdmissionInv(s, a.o); }
        AdmitEntry(s, a, slot);
      } else if a.BeginFailAll? { ClearEntry(s, a, slot); }
      else if a.Unflag? || (a.BeginCancel? && a.id in s.r.cancellations) { FinishEntry(s, a, slot); }
      else if a.BeginCancel? { assert t == s; }
      else { RemoveEntry(s, a, slot); }
    }
  }

  // -- a sender entered

  lemma InsertEntries(s: State, slot: Slot, x: Sender, other: Slot)
    ensures Entry(InsertEntry(s, slot, x).r, other) == if other == slot then Some(x) else Entry(s.r, other)
  {
    EntryOther(s.r, slot, R.PendingOf(s.r, slot.kind)[slot.id := x], other);
  }

  lemma InsertFlagInv(s: State, o: OpId, id: Id)
    requires Admits(s, o, Flagged) && OpInv(s, o) && FlagInv(s, id) && Entry(s.r, s.ops[o].slot).None?
    ensures FlagInv(Put(InsertEntry(s, s.ops[o].slot, o), o, Admitting(s.ops[o].slot, Entered)), id)
  {
    var slot := s.ops[o].slot;
    InsertEntries(s, slot, o, slot);
    if id in s.r.cancellations && s.r.cancellations[id] in s.slots {
      InsertEntries(s, slot, o, s.slots[s.r.cancellations[id]]);
    }
  }

  lemma InsertEntryInv(s: State, o: OpId, other: Slot)
    requires Admits(s, o, Flagged) && EntryInv(s, other) && Entry(s.r, s.ops[o].slot).None?
    ensures EntryInv(Put(InsertEntry(s, s.ops[o].slot, o), o, Admitting(s.ops[o].slot, Entered)), other)
  {
    InsertEntries(s, s.ops[o].slot, o, other);
  }

  lemma InsertAgrees(s: State, o: OpId)
    requires Agreement(s) && Admits(s, o, Flagged) && Entry(s.r, s.ops[o].slot).None?
    ensures Agreement(Put(InsertEntry(s, s.ops[o].slot, o), o, Admitting(s.ops[o].slot, Entered)))
  {
    var slot := s.ops[o].slot;
    var t := Put(InsertEntry(s, slot, o), o, Admitting(slot, Entered));
    assert OpInv(s, o) && AdmissionInv(s, o);
    InsertKeeps(s, slot, o, Admitting(slot, Entered));
    forall id ensures FlagInv(t, id) { InsertFlagInv(s, o, id); }
    forall other ensures EntryInv(t, other) { InsertEntryInv(s, o, other); }
    forall p ensures AdmissionInv(t, p) { assert AdmissionInv(s, p); }
    forall x ensures HistoryInv(t, x) { assert HistoryInv(s, x); }
  }

  // -- a sender taken out

  lemma ConsumeFlagInv(s: State, slot: Slot, fate: Fate, id: Id)
    requires FlagInv(s, id) && SlotInv(s, slot)
    ensures FlagInv(Consume(s, slot, fate), id)
  {
    if id in s.r.cancellations && s.r.cancellations[id] in s.slots {
      ConsumeEntries(s, slot, fate, s.slots[s.r.cancellations[id]]);
    }
  }

  /** An operation other than an admission on its way to the entry moves on or ends. */
  lemma MoveFlagInv(u: State, o: OpId, op: Op, id: Id)
    requires FlagInv(u, id) && o in u.ops && !Early(u.ops[o])
    ensures FlagInv(Put(u, o, op), id) && FlagInv(End(u, o), id)
  {
  }

  /** What an operation owed besides the slot it took is empty. */
  lemma ConsumeEntryInv(s: State, slot: Slot, fate: Fate, o: OpId, t: State, other: Slot)
    requires EntryInv(s, other) && o in s.ops
    requires Owes(s.ops[o], other) && other != slot ==> Entry(s.r, other).None?
    requires t.ops - {o} == s.ops - {o} && t.took == s.took && t.bare == s.bare
    requires t.r == Consume(s, slot, fate).r
    ensures EntryInv(t, other)
  {
    ConsumeEntries(s, slot, fate, other);
    if Entry(t.r, other).Some? {
      var x := Entry(t.r, other).value;
      if Owed(s, x, other) {
        assert s.took[x] in s.ops - {o} && (s.ops - {o})[s.took[x]] == s.ops[s.took[x]];
        assert s.took[x] in t.ops - {o} && (t.ops - {o})[s.took[x]] == t.ops[s.took[x]];
      }
    }
  }

  lemma OpsBut(u: State, o: OpId, op: Op)
    ensures Put(u, o, op).ops - {o} == u.ops - {o} && End(u, o).ops - {o} == u.ops - {o}
  {
  }

  lemma TakenAgrees(s: State, slot: Slot, fate: Fate, o: OpId, op: Op, t: State)
    requires Agreement(s) && o in s.ops && !Early(s.ops[o]) && !op.Admitting?
    requires t == Put(Consume(s, slot, fate), o, op) || t == End(Consume(s, slot, fate), o)
    requires forall other :: Owes(s.ops[o], other) && other != slot ==> Entry(s.r, other).None?
    ensures Agreement(t)
  {
    assert SlotInv(s, slot) && OpInv(s, o);
    var u := Consume(s, slot, fate);
    ConsumeKeeps(s, slot, fate);
    ThenMoves(u, o, op);
    forall id ensures FlagInv(t, id) { ConsumeFlagInv(s, slot, fate, id); MoveFlagInv(u, o, op, id); }
    TakenEntries(s, slot, fate, o, op, t);
    MovedOn(s, t, o);
    forall x ensures HistoryInv(t, x) { assert HistoryInv(s, x); ConsumeHistory(s, slot, fate, x); }
  }

  lemma TakenEntries(s: State, slot: Slot, fate: Fate, o: OpId, op: Op, t: State)
    requires Agreement(s) && o in s.ops
    requires t == Put(Consume(s, slot, fate), o, op) || t == End(Consume(s, slot, fate), o)
    requires forall other :: Owes(s.ops[o], other) && other != slot ==> Entry(s.r, other).None?
    ensures forall other :: EntryInv(t, other)
  {
    OpsBut(Consume(s, slot, fate), o, op);
    assert SlotInv(s, slot);
    forall other ensures EntryInv(t, other) { ConsumeEntryInv(s, slot, fate, o, t, other); }
  }

  lemma ConsumeHistory(s: State, slot: Slot, fate: Fate, x: Sender)
    requires HistoryInv(s, x)
    ensures HistoryInv(Consume(s, slot, fate), x)
  {
  }

  /** The flags, slots and kinds stay, and one operation that is no admission any more moved on or ended. */
  lemma MovedOn(s: State, t: State, o: OpId)
    requires OneAdmission(s) && (forall p :: AdmissionInv(s, p))
    requires t.r.cancellations == s.r.cancellations && t.slots == s.slots && t.kinds == s.kinds
    requires (forall p :: p != o && p in t.ops ==> p in s.ops && t.ops[p] == s.ops[p])
    requires o in t.ops ==> !t.ops[o].Admitting?
    ensures OneAdmission(t) && (forall p :: AdmissionInv(t, p))
  {
    forall p ensures AdmissionInv(t, p) { assert AdmissionInv(s, p); }
  }

  // -- a map taken whole

  lemma TornWithAll(s: State, kind: R.Kind, id: Id)
    requires id in s.r.cancellations && Entry(s.r, Slot(kind, id)) == Some(s.r.cancellations[id])
    ensures s.r.cancellations[id] in Flaggeds(s, R.PendingOf(s.r, kind))
  {
    var m := R.PendingOf(s.r, kind);
    assert id in m && FlagOf(s, id) == Some(m[id]);
  }

  lemma AllWaiting(s: State, kind: R.Kind, fate: Fate, slot: Slot, x: Sender)
    requires FlagOf(s, slot.id) == Some(x) == Entry(s.r, slot)
    ensures Entry(ConsumeAll(s, kind, fate).r, slot) == Some(x) || x in ConsumeAll(s, kind, fate).torn
  {
    AllEntries(s, kind, fate, slot);
    if slot.kind == kind { TornWithAll(s, kind, slot.id); }
  }

  lemma AllFrame(s: State, kind: R.Kind, fate: Fate)
    ensures var t := ConsumeAll(s, kind, fate);
            && t.r.cancellations == s.r.cancellations && t.ops == s.ops && t.slots == s.slots && s.torn <= t.torn
  {
  }

  /** A flag keeps its owner while nothing but entries goes, and the owner of one that goes is torn. */
  lemma FlagOutlives(s: State, t: State, id: Id)
    requires FlagInv(s, id) && t.r.cancellations == s.r.cancellations && t.ops == s.ops && t.slots == s.slots && s.torn <= t.torn
    requires id in s.r.cancellations && s.r.cancellations[id] in s.slots ==>
               var x := s.r.cancellations[id];
               Entry(s.r, s.slots[x]) == Some(x) && s.slots[x].id == id ==> Entry(t.r, s.slots[x]) == Some(x) || x in t.torn
    ensures FlagInv(t, id)
  {
  }

  lemma AllFlagInv(s: State, kind: R.Kind, fate: Fate, id: Id)
    requires FlagInv(s, id)
    ensures FlagInv(ConsumeAll(s, kind, fate), id)
  {
    AllFrame(s, kind, fate);
    if id in s.r.cancellations && s.r.cancellations[id] in s.slots {
      var x := s.r.cancellations[id];
      if s.slots[x].id == id && Entry(s.r, s.slots[x]) == Some(x) { AllWaiting(s, kind, fate, s.slots[x], x); }
    }
    FlagOutlives(s, ConsumeAll(s, kind, fate), id);
  }

  lemma AllEntryInv(s: State, kind: R.Kind, fate: Fate, o: OpId, t: State, other: Slot)
    requires EntryInv(s, other) && o in s.ops
    requires Owes(s.ops[o], other) && other.kind != kind ==> o in t.ops && Owes(t.ops[o], other)
    requires t.ops - {o} == s.ops - {o} && t.took == s.took && t.bare == s.bare
    requires t.r == ConsumeAll(s, kind, fate).r
    ensures EntryInv(t, other)
  {
    AllEntries(s, kind, fate, other);
    if Entry(t.r, other).Some? {
      var x := Entry(t.r, other).value;
      if Owed(s, x, other) && s.took[x] != o {
        assert s.took[x] in s.ops - {o} && (s.ops - {o})[s.took[x]] == s.ops[s.took[x]];
        assert s.took[x] in t.ops - {o} && (t.ops - {o})[s.took[x]] == t.ops[s.took[x]];
      }
    }
  }

  lemma AllHistory(s: State, kind: R.Kind, fate: Fate, x: Sender)
    requires HistoryInv(s, x)
    ensures HistoryInv(ConsumeAll(s, kind, fate), x)
  {
    var m := R.PendingOf(s.r, kind);
    if x in Flaggeds(s, m) {
      var id :| id in m && FlagOf(s, id) == Some(m[id]) && m[id] == x;
      assert x in m.Values;
    }
  }

  lemma AllAgrees(s: State, a: Action)
    requires Agreement(s) && Enabled(s, a) && (a.FailRequests? || a.FailEvents?)
    ensures Agreement(Apply(s, a))
  {
    var kind := if a.FailRequests? then R.Request else R.Event;
    var fate := Failed(s.ops[a.o].error);
    var t, u := Apply(s, a), ConsumeAll(s, kind, fate);
    assert t.ops - {a.o} == s.ops - {a.o};
    LoudSenders(s, a);
    MovedOn(s, t, a.o);
    forall id ensures FlagInv(t, id) { AllFlagInv(s, kind, fate, id); MoveFlagInv(u, a.o, FailingAll(s.ops[a.o].error, true), id); }
    forall other ensures EntryInv(t, other) { AllEntryInv(s, kind, fate, a.o, t, other); }
    forall x ensures HistoryInv(t, x) { assert HistoryInv(s, x); AllHistory(s, kind, fate, x); }
  }

  // -- every step

  /** A request and an event with one id never wait together. */
  lemma OneKind(s: State, id: Id)
    requires Agreement(s)
    ensures Entry(s.r, Slot(R.Request, id)).None? || Entry(s.r, Slot(R.Event, id)).None?
  {
    var a, b := Slot(R.Request, id), Slot(R.Event, id);
    assert SlotInv(s, a) && SlotInv(s, b);
    if Entry(s.r, a).Some? { assert HistoryInv(s, Entry(s.r, a).value); }
    if Entry(s.r, b).Some? { assert HistoryInv(s, Entry(s.r, b).value); }
  }

  lemma LoudAgrees(s: State, a: Action)
    requires Agreement(s) && Enabled(s, a) && !Quiet(s, a)
    ensures Agreement(Apply(s, a))
  {
    match a
    case Enter(o, _) => InsertAgrees(s, o);
    case RollBackEntry(o) =>
      TakenAgrees(s, s.ops[o].slot, Dropped, o, FailingAll(0, true), Apply(s, a));
    case TakeRequest(o) =>
      OneKind(s, s.ops[o].id);
      TakenAgrees(s, Slot(R.Request, s.ops[o].id), FateOf(s.ops[o]), o, Advance(s.ops[o], Taken), Apply(s, a));
    case TakeEvent(o) =>
      TakenAgrees(s, Slot(R.Event, s.ops[o].id), FateOf(s.ops[o]), o, Advance(s.ops[o], Taken), Apply(s, a));
    case _ => AllAgrees(s, a);
  }

  lemma NothingAgrees()
    ensures Agreement(NOTHING)
  {
    forall x ensures SenderInv(NOTHING, x) && OpInv(NOTHING, x) && AdmissionInv(NOTHING, x) && HistoryInv(NOTHING, x) {}
    forall slot ensures SlotInv(NOTHING, slot) && EntryInv(NOTHING, slot) {}
    forall id ensures FlagInv(NOTHING, id) {}
  }

  lemma ReachableAgreement(s: State)
    requires Runs.Reachable(Init, NextSolo, s)
    ensures Agreement(s)
  {
    NothingAgrees();
    forall t, u | Agreement(t) && NextSolo(t, u) ensures Agreement(u) {
      var a :| Enabled(t, a) && Solo(t, a) && u == Apply(t, a);
      if Quiet(t, a) { QuietAgrees(t, a); } else { LoudAgrees(t, a); }
    }
    Runs.InEveryReachable(Init, NextSolo, Agreement, s);
  }

  // ---------------------------------------------------------------- theorems

  /** In every interleaving with one admission of an id at a time, the maps agree up to the operations in
      progress: a flag belongs to an admission before its entry, to the call that waits under it, or to a torn
      call; a waiting call has its own flag, or an operation in progress that took the flag will take the
      call, or it is bare; and no id waits as a request and as an event. */
  lemma AgreeUpToProgress(s: State, slot: Slot)
    requires Runs.Reachable(Init, NextSolo, s)
    ensures FlagInv(s, slot.id) && EntryInv(s, slot)
    ensures s.r.pending.Keys !! s.r.events.Keys
  {
    ReachableAgreement(s);
    forall id | id in s.r.pending ensures id !in s.r.events { OneKind(s, id); }
  }

  /** Some bare call still waits, or some flag's call is torn. */
  ghost predicate Broken(s: State) {
    || (exists x :: x in s.bare && x in s.slots && x !in s.fates)
    || (exists id :: id in s.r.cancellations && s.r.cancellations[id] in s.torn)
  }

  lemma FlagsAreEntries(s: State)
    requires Agreement(s) && s.ops == map[] && !Broken(s)
    ensures s.r.cancellations == s.r.pending + s.r.events
  {
    forall id ensures id in s.r.cancellations <==> id in s.r.pending + s.r.events
      ensures id in s.r.cancellations ==> s.r.cancellations[id] == (s.r.pending + s.r.events)[id]
    {
      var a, b := Slot(R.Request, id), Slot(R.Event, id);
      assert FlagInv(s, id) && EntryInv(s, a) && EntryInv(s, b) && SlotInv(s, a) && SlotInv(s, b);
      OneKind(s, id);
      if Entry(s.r, a).Some? { assert SenderInv(s, Entry(s.r, a).value); }
      if Entry(s.r, b).Some? { assert SenderInv(s, Entry(s.r, b).value); }
    }
  }

  lemma BrokenDisagrees(s: State)
    requires Agreement(s) && Broken(s)
    ensures !R.Agree(s.r)
  {
    if x :| x in s.bare && x in s.slots && x !in s.fates {
      assert SenderInv(s, x) && HistoryInv(s, x);
      OneKind(s, s.slots[x].id);
      assert s.slots[x].id in s.r.pending + s.r.events;
    } else {
      var id :| id in s.r.cancellations && s.r.cancellations[id] in s.torn;
      var x := s.r.cancellations[id];
      assert HistoryInv(s, x) && SenderInv(s, x) && FlagInv(s, id);
      if R.Agree(s.r) { TornSlot(s, id); }
    }
  }

  lemma TornSlot(s: State, id: Id)
    requires Agreement(s) && R.Agree(s.r) && id in s.r.cancellations
    ensures s.r.cancellations[id] !in s.fates
  {
    var x := s.r.cancellations[id];
    assert id in s.r.pending + s.r.events;
    var slot := Slot(if id in s.r.events then R.Event else R.Request, id);
    assert SlotInv(s, slot) && SenderInv(s, x);
  }

  /** Between operations the flags are the disjoint union of the pending maps, entry by entry, if and only if
      no bare call waits and no flag is left of a torn one. */
  lemma QuiescentAgreement(s: State)
    requires Runs.Reachable(Init, NextSolo, s) && s.ops == map[]
    ensures R.Agree(s.r) <==> !Broken(s)
  {
    ReachableAgreement(s);
    if Broken(s) {
      BrokenDisagrees(s);
    } else {
      FlagsAreEntries(s);
      AgreeUpToProgress(s, Slot(R.Request, 0));
    }
  }

  /** The duplicate-pending refusal, exactly: it is taken if and only if an earlier call with this id still
      waits, and then the flag of that call is gone and a `finish`, a `cancel` or a `fail_all` is between the
      flag and the call, or the call is bare. */
  lemma DuplicateExactly(s: State, o: OpId)
    requires Runs.Reachable(Init, NextSolo, s) && Admits(s, o, Flagged)
    ensures Duplicate(s, s.ops[o].slot) <==> exists x :: x in s.slots && s.slots[x] == s.ops[o].slot && x !in s.fates
    ensures Duplicate(s, s.ops[o].slot) ==>
              var x := Entry(s.r, s.ops[o].slot).value;
              x != o && FlagOf(s, s.ops[o].slot.id) != Some(x)
              && (x in s.bare || (Owed(s, x, s.ops[o].slot) && !s.ops[s.took[x]].Admitting?))
  {
    ReachableAgreement(s);
    var slot := s.ops[o].slot;
    assert OpInv(s, o) && AdmissionInv(s, o) && SlotInv(s, slot) && EntryInv(s, slot);
    if Duplicate(s, slot) {
      var x := Entry(s.r, slot).value;
      assert SenderInv(s, x) && HistoryInv(s, x);
      if Owed(s, x, slot) && s.ops[s.took[x]].Admitting? { assert SameId(s.ops[s.took[x]], s.ops[o]); }
    }
    if x :| x in s.slots && s.slots[x] == slot && x !in s.fates { assert SenderInv(s, x); }
  }

  // ---------------------------------------------------------------- when nothing is bare or torn

  predicate IsRemoval(op: Op) { op.Finishing? || op.Cancelling? }

  /** Ids are not used again and a call is cancelled only after it was returned, which a host can see to; and
      `fail_all` and admissions keep out of each other's way, which it cannot when a process dies by itself. */
  ghost predicate Careful(s: State, a: Action) {
    match a
    case BeginAdmit(slot) => slot.id !in s.kinds && forall o :: o in s.ops ==> !s.ops[o].FailingAll?
    case BeginCancel(id) => forall o :: o in s.ops && s.ops[o].Admitting? ==> s.ops[o].slot.id != id
    case BeginFailAll(_) => forall o :: o in s.ops ==> !s.ops[o].Admitting?
    case _ => true
  }

  ghost predicate NextCareful(s: State, t: State) {
    exists a :: Enabled(s, a) && Careful(s, a) && t == Apply(s, a)
  }

  /** Each operation in progress and the flags it knows of. */
  ghost predicate KnowsFlags(s: State, o: OpId) {
    o in s.ops ==>
      match s.ops[o]
      case Admitting(slot, admission) =>
        (&& (admission.Flagged? || admission.Entered? || admission.Refused? ==> FlagOf(s, slot.id) == Some(o))
         && (admission.Unflagged? ==> slot.id !in s.r.cancellations))
      case Finishing(id, _, removal) => id in s.kinds && (!removal.WithFlag? ==> id !in s.r.cancellations)
      case Cancelling(id, removal) => id in s.kinds && (!removal.WithFlag? ==> id !in s.r.cancellations)
      case FailingAll(_, _) => s.r.cancellations == map[]
  }

  /** An admission shares neither the registry with a `fail_all` nor its id with a removal. */
  ghost predicate Apart(a: Op, b: Op) {
    a.Admitting? ==> !b.FailingAll? && (IsRemoval(b) ==> b.id != a.slot.id)
  }

  ghost predicate SentInv(s: State, x: Sender) { x in s.sent ==> x in s.slots && x !in s.ops }

  /** Nobody else ever used the id. */
  ghost predicate Sole(s: State, x: Sender, o: OpId) {
    && (x in s.slots && o in s.slots && s.slots[x].id == s.slots[o].id ==> x == o)
    && (x in s.slots && o in s.ops && s.ops[o].Admitting? && s.slots[x].id == s.ops[o].slot.id ==> x == o)
  }

  ghost predicate Clean(s: State) {
    && Agreement(s) && s.bare == {} && s.torn == {}
    && (forall o :: KnowsFlags(s, o)) && (forall x :: SentInv(s, x)) && (forall x, o :: Sole(s, x, o))
    && (forall o, p :: o in s.ops && p in s.ops ==> Apart(s.ops[o], s.ops[p]))
  }

  lemma CarefulIsSolo(s: State, a: Action)
    requires Agreement(s) && Careful(s, a)
    ensures Solo(s, a)
  {
    forall o | o in s.ops && s.ops[o].Admitting? ensures AdmissionInv(s, o) {}
  }

  lemma CleanStepIntact(s: State, a: Action)
    requires Clean(s) && Enabled(s, a)
    ensures Apply(s, a).bare == {} && Apply(s, a).torn == {}
  {
    if Quiet(s, a) {
      QuietFrame(s, a);
    } else {
      assert KnowsFlags(s, a.o);
      if a.FailRequests? || a.FailEvents? {
        assert Flaggeds(s, R.PendingOf(s.r, if a.FailRequests? then R.Request else R.Event)) == {};
      }
    }
  }

  lemma CleanSent(s: State, a: Action, x: Sender)
    requires Enabled(s, a) && SentInv(s, x) && OpInv(s, s.next) && SenderInv(s, x)
    requires a.Send? ==> AdmissionInv(s, a.o)
    ensures SentInv(Apply(s, a), x)
  {
    if IsAdmission(a) { AdmissionSent(s, a, x); }
  }

  predicate IsAdmission(a: Action) {
    a.BeginAdmit? || a.Flag? || a.Enter? || a.Send? || a.RollBackFlag? || a.RollBackEntry?
  }

  lemma AdmissionSent(s: State, a: Action, x: Sender)
    requires Enabled(s, a) && IsAdmission(a) && SentInv(s, x) && OpInv(s, s.next) && SenderInv(s, x)
    requires a.Send? ==> AdmissionInv(s, a.o)
    ensures SentInv(Apply(s, a), x)
  {
  }

  lemma StepOps(s: State, a: Action)
    requires Enabled(s, a)
    ensures forall p :: p != Changed(s, a) ==>
              (p in Apply(s, a).ops <==> p in s.ops) && (p in s.ops ==> Apply(s, a).ops[p] == s.ops[p])
  {
    if Quiet(s, a) { QuietFrame(s, a); }
  }

  /** What an operation is about does not change. */
  predicate SameSubject(a: Op, b: Op) {
    match a
    case Admitting(slot, _) => b.Admitting? && b.slot == slot
    case Finishing(id, _, _) => b.Finishing? && b.id == id
    case Cancelling(id, _) => b.Cancelling? && b.id == id
    case FailingAll(_, _) => b.FailingAll?
  }

  predicate IsBegin(a: Action) { a.BeginAdmit? || a.BeginFinish? || a.BeginCancel? || a.BeginFailAll? }

  lemma KeepsSubject(s: State, a: Action)
    requires Enabled(s, a) && !IsBegin(a)
    ensures a.o in s.ops
    ensures a.o in Apply(s, a).ops ==> SameSubject(s.ops[a.o], Apply(s, a).ops[a.o])
  {
  }

  lemma NewSubject(s: State, a: Action)
    requires Enabled(s, a) && IsBegin(a) && OpInv(s, s.next)
    ensures s.next in Apply(s, a).ops ==>
              var op := Apply(s, a).ops[s.next];
              match a
              case BeginAdmit(slot) => op == Admitting(slot, Checked)
              case BeginFinish(x, reply) => op == Finishing(s.slots[x].id, reply, WithFlag)
              case BeginCancel(id) => op == Cancelling(id, WithoutFlag) && id in s.r.cancellations
              case _ => op.FailingAll?
  {
  }

  lemma FlagKinds(s: State, id: Id)
    requires Agreement(s) && id in s.r.cancellations
    ensures id in s.kinds
  {
    var x := s.r.cancellations[id];
    assert FlagInv(s, id) && AdmissionInv(s, x) && HistoryInv(s, x);
  }

  lemma NewApart(s: State, a: Action, p: OpId)
    requires Clean(s) && Enabled(s, a) && Careful(s, a) && IsBegin(a) && p in s.ops && s.next in Apply(s, a).ops
    ensures Apart(Apply(s, a).ops[s.next], s.ops[p]) && Apart(s.ops[p], Apply(s, a).ops[s.next])
  {
    assert OpInv(s, s.next) && KnowsFlags(s, p);
    NewSubject(s, a);
    if a.BeginFinish? { assert Sole(s, a.x, p) && SentInv(s, a.x); }
  }

  lemma CleanApart(s: State, a: Action)
    requires Clean(s) && Enabled(s, a) && Careful(s, a)
    ensures forall o, p :: o in Apply(s, a).ops && p in Apply(s, a).ops ==> Apart(Apply(s, a).ops[o], Apply(s, a).ops[p])
  {
    var t, c := Apply(s, a), Changed(s, a);
    assert OpInv(s, s.next);
    StepOps(s, a);
    if IsBegin(a) { NewSubject(s, a); } else { KeepsSubject(s, a); }
    forall o, p | o in t.ops && p in t.ops ensures Apart(t.ops[o], t.ops[p]) {
      if IsBegin(a) {
        if o == c && p != c { NewApart(s, a, p); }
        if p == c && o != c { NewApart(s, a, o); }
      }
    }
  }

  lemma CleanSole(s: State, a: Action, x: Sender, o: OpId)
    requires Clean(s) && Enabled(s, a) && Careful(s, a)
    ensures Sole(Apply(s, a), x, o)
  {
    var t := Apply(s, a);
    assert OpInv(s, s.next) && Sole(s, x, o) && Sole(s, o, x) && HistoryInv(s, x) && SenderInv(s, s.next);
    StepOps(s, a);
    if IsBegin(a) { NewSubject(s, a); } else { KeepsSubject(s, a); }
    if a.Enter? && !Quiet(s, a) { assert OpInv(s, a.o); } else { SlotsKept(s, a); }
  }

  lemma SlotsKept(s: State, a: Action)
    requires Enabled(s, a) && !(a.Enter? && !Quiet(s, a))
    ensures Apply(s, a).slots == s.slots
  {
    if Quiet(s, a) { QuietFrame(s, a); }
  }

  // -- flags under careful steps

  /** The one id whose flag a step may change, unless it clears them all. */
  function TouchedId(s: State, a: Action): Option<Id>
    requires Enabled(s, a)
  {
    match a
    case Flag(o) => Some(s.ops[o].slot.id)
    case Enter(o, _) => Some(s.ops[o].slot.id)
    case RollBackFlag(o) => Some(s.ops[o].slot.id)
    case Unflag(o) => Some(s.ops[o].id)
    case BeginCancel(id) => Some(id)
    case _ => None
  }

  lemma FlagStays(s: State, a: Action, id: Id)
    requires Enabled(s, a) && !a.BeginFailAll? && TouchedId(s, a) != Some(id)
    ensures FlagOf(Apply(s, a), id) == FlagOf(s, id)
  {
    if !Quiet(s, a) { LoudFlags(s, a); }
    else if AdmitQuiet(s, a) { AdmitFlagStays(s, a, id); }
    else { RemoveFlagStays(s, a, id); }
  }

  lemma AdmitFlagStays(s: State, a: Action, id: Id)
    requires Enabled(s, a) && AdmitQuiet(s, a) && TouchedId(s, a) != Some(id)
    ensures FlagOf(Apply(s, a), id) == FlagOf(s, id)
  {
  }

  lemma RemoveFlagStays(s: State, a: Action, id: Id)
    requires Enabled(s, a) && Quiet(s, a) && !AdmitQuiet(s, a) && !a.BeginFailAll? && TouchedId(s, a) != Some(id)
    ensures FlagOf(Apply(s, a), id) == FlagOf(s, id)
  {
  }

  lemma KindsGrow(s: State, a: Action, id: Id)
    requires Enabled(s, a) && id in s.kinds
    ensures id in Apply(s, a).kinds
  {
  }

  /** Only `Flag` sets a flag. */
  lemma OnlyFlagSets(s: State, a: Action, id: Id)
    requires Enabled(s, a) && !a.Flag? && id !in s.r.cancellations && OpInv(s, s.next)
    ensures id !in Apply(s, a).r.cancellations
  {
    if !Quiet(s, a) { LoudFlags(s, a); }
    else if AdmitQuiet(s, a) { AdmitFlagMoves(s, a, id); }
    else { RemoveFlagMoves(s, a, id); }
  }

  lemma LoudFlags(s: State, a: Action)
    requires Enabled(s, a) && !Quiet(s, a)
    ensures Apply(s, a).r.cancellations == s.r.cancellations
  {
    if a.FailRequests? || a.FailEvents? { FailFlags(s, a); }
  }

  lemma FailFlags(s: State, a: Action)
    requires Enabled(s, a) && (a.FailRequests? || a.FailEvents?)
    ensures Apply(s, a).r.cancellations == s.r.cancellations
  {
  }

  lemma KnowsOther(s: State, a: Action, p: OpId)
    requires Clean(s) && Enabled(s, a) && Careful(s, a) && p != Changed(s, a) && p in s.ops
    ensures KnowsFlags(Apply(s, a), p)
  {
    var t := Apply(s, a);
    StepOps(s, a);
    assert KnowsFlags(s, p) && OpInv(s, s.next);
    if !IsBegin(a) { assert a.o in s.ops && Apart(s.ops[p], s.ops[a.o]) && Apart(s.ops[a.o], s.ops[p]); }
    match s.ops[p]
    case Admitting(slot, _) =>
      assert forall q :: q in s.ops && SameId(s.ops[p], s.ops[q]) ==> p == q;
      FlagStays(s, a, slot.id);
    case Finishing(id, _, _) =>
      KindsGrow(s, a, id);
      if a.Flag? { FlagStays(s, a, id); } else if id !in s.r.cancellations { OnlyFlagSets(s, a, id); }
    case Cancelling(id, _) =>
      KindsGrow(s, a, id);
      if a.Flag? { FlagStays(s, a, id); } else if id !in s.r.cancellations { OnlyFlagSets(s, a, id); }
    case FailingAll(_, _) =>
      forall id ensures id !in t.r.cancellations { OnlyFlagSets(s, a, id); }
  }

  lemma KnowsRollback(s: State, a: Action)
    requires Enabled(s, a) && KnowsFlags(s, Changed(s, a)) && OpInv(s, s.next)
    requires a.Send? || a.RollBackFlag? || a.RollBackEntry?
    ensures KnowsFlags(Apply(s, a), Changed(s, a))
  {
  }

  lemma KnowsAdmission(s: State, a: Action)
    requires Enabled(s, a) && KnowsFlags(s, Changed(s, a)) && OpInv(s, s.next)
    requires IsAdmission(a)
    ensures KnowsFlags(Apply(s, a), Changed(s, a))
  {
    if a.Send? || a.RollBackFlag? || a.RollBackEntry? { KnowsRollback(s, a); }
  }

  lemma KnowsRemoval(s: State, a: Action)
    requires Agreement(s) && Enabled(s, a) && KnowsFlags(s, Changed(s, a))
    requires a.BeginFinish? || a.Unflag? || a.BeginCancel? || a.TakeRequest? || a.TakeEvent? || a.Remember?
    ensures KnowsFlags(Apply(s, a), Changed(s, a))
  {
    assert OpInv(s, s.next);
    if a.BeginFinish? { assert HistoryInv(s, a.x); }
    if a.BeginCancel? && a.id in s.r.cancellations { FlagKinds(s, a.id); }
  }

  lemma KnowsFailure(s: State, a: Action)
    requires Enabled(s, a) && KnowsFlags(s, Changed(s, a)) && (a.BeginFailAll? || a.FailRequests? || a.FailEvents?)
    ensures KnowsFlags(Apply(s, a), Changed(s, a))
  {
  }

  lemma CleanKnows(s: State, a: Action, p: OpId)
    requires Clean(s) && Enabled(s, a) && Careful(s, a)
    ensures KnowsFlags(Apply(s, a), p)
  {
    assert OpInv(s, s.next);
    StepOps(s, a);
    if p == Changed(s, a) {
      assert KnowsFlags(s, p);
      if a.BeginAdmit? || a.Flag? || a.Enter? || a.Send? || a.RollBackFlag? || a.RollBackEntry? { KnowsAdmission(s, a); }
      else if a.BeginFailAll? || a.FailRequests? || a.FailEvents? { KnowsFailure(s, a); }
      else { KnowsRemoval(s, a); }
    } else if p in s.ops {
      KnowsOther(s, a, p);
    }
  }

  lemma CleanStep(s: State, a: Action)
    requires Clean(s) && Enabled(s, a) && Careful(s, a)
    ensures Clean(Apply(s, a))
  {
    var t := Apply(s, a);
    CarefulIsSolo(s, a);
    if Quiet(s, a) { QuietAgrees(s, a); } else { LoudAgrees(s, a); }
    CleanStepIntact(s, a);
    CleanApart(s, a);
    forall p ensures KnowsFlags(t, p) { CleanKnows(s, a, p); }
    forall x, o ensures Sole(t, x, o) { CleanSole(s, a, x, o); }
    forall x ensures SentInv(t, x) {
      assert OpInv(s, s.next) && SenderInv(s, x) && SentInv(s, x);
      if a.Send? { assert AdmissionInv(s, a.o); }
      CleanSent(s, a, x);
    }
  }

  lemma ReachableClean(s: State)
    requires Runs.Reachable(Init, NextCareful, s)
    ensures Clean(s)
  {
    NothingAgrees();
    assert Clean(NOTHING);
    forall t, u | Clean(t) && NextCareful(t, u) ensures Clean(u) {
      var a :| Enabled(t, a) && Careful(t, a) && u == Apply(t, a);
      CleanStep(t, a);
    }
    Runs.InEveryReachable(Init, NextCareful, Clean, s);
  }

  lemma SoleEntry(s: State, o: OpId)
    requires o in s.ops && s.ops[o].Admitting? && SlotInv(s, s.ops[o].slot) && forall x :: Sole(s, x, o)
    ensures Entry(s.r, s.ops[o].slot).Some? ==> Entry(s.r, s.ops[o].slot).value == o
  {
    if Entry(s.r, s.ops[o].slot).Some? { assert Sole(s, Entry(s.r, s.ops[o].slot).value, o); }
  }

  /** With such a host nothing is ever bare or torn and no admission is refused as a duplicate; so between
      operations the flags are the disjoint union of the pending maps, entry by entry. */
  lemma CarefulHostAgrees(s: State, o: OpId)
    requires Runs.Reachable(Init, NextCareful, s)
    ensures s.bare == {} && s.torn == {}
    ensures Admits(s, o, Flagged) ==> !Duplicate(s, s.ops[o].slot)
    ensures s.ops == map[] ==> R.Agree(s.r)
  {
    ReachableClean(s);
    if Admits(s, o, Flagged) {
      var slot := s.ops[o].slot;
      assert OpInv(s, o) && SlotInv(s, slot);
      SoleEntry(s, o);
    }
    if s.ops == map[] {
      FlagsAreEntries(s);
      forall id | id in s.r.pending ensures id !in s.r.events { OneKind(s, id); }
    }
  }

  // ---------------------------------------------------------------- the windows, reached

  lemma Reach(s: State, a: Action)
    requires Runs.Reachable(Init, NextSolo, s) && Enabled(s, a) && Solo(s, a)
    ensures Runs.Reachable(Init, NextSolo, Apply(s, a))
  {
    Runs.ReachStep(Init, NextSolo, s, Apply(s, a));
  }

  /** One request, checked and flagged. */
  lemma ReachFlagged(s: State, slot: Slot) returns (t: State)
    requires Runs.Reachable(Init, NextSolo, s) && s.next !in s.ops && Solo(s, BeginAdmit(slot))
    requires slot.id !in s.r.retired && slot.id !in s.r.cancellations
    ensures Runs.Reachable(Init, NextSolo, t)
    ensures t == InsertFlag(New(s, Admitting(slot, Flagged)), slot.id, s.next).(kinds := s.kinds[slot.id := slot.kind])
  {
    var o := s.next;
    Reach(s, BeginAdmit(slot));
    var s1 := StartAdmit(s, slot);
    Reach(s1, Flag(o));
    t := SetFlag(s1, o);
  }

  /** It enters its map and is sent. */
  lemma ReachSent(s: State, o: OpId) returns (t: State)
    requires Runs.Reachable(Init, NextSolo, s) && Admits(s, o, Flagged)
    requires !Duplicate(s, s.ops[o].slot)
    ensures Runs.Reachable(Init, NextSolo, t)
    ensures t == End(InsertEntry(s, s.ops[o].slot, o), o).(sent := s.sent + {o})
  {
    var capacity := |R.PendingOf(s.r, s.ops[o].slot.kind)| + 1;
    Reach(s, Enter(o, capacity));
    var s1 := SetEntry(s, o, capacity);
    Reach(s1, Send(o, R.Sent));
    t := Submit(s1, o, R.Sent);
    assert t.ops == InsertEntry(s, s.ops[o].slot, o).ops - {o};
  }

  const FIRST: Slot := Slot(R.Request, 0)

  /** The duplicate-pending refusal is reachable: the id is used again while the `finish` of its first call is
      between the two locks. */
  lemma DuplicateReachable() returns (s: State)
    ensures Runs.Reachable(Init, NextSolo, s)
    ensures Admits(s, 2, Flagged) && Duplicate(s, s.ops[2].slot) && Removes(s, 1, WithoutFlag) && s.bare == {}
  {
    Runs.ReachStart(Init, NextSolo, NOTHING);
    var s1 := ReachFlagged(NOTHING, FIRST);
    var s2 := ReachSent(s1, 0);
    Reach(s2, BeginFinish(0, 7));
    var s3 := StartFinish(s2, 0, 7);
    Reach(s3, Unflag(1));
    var s4 := FinishFlag(s3, 1);
    s := ReachFlagged(s4, FIRST);
  }

  /** The two takes of a `fail_all`. */
  lemma ReachFailed(s: State, o: OpId) returns (t: State)
    requires Runs.Reachable(Init, NextSolo, s) && Failing(s, o, false)
    ensures Runs.Reachable(Init, NextSolo, t)
    ensures t.ops == s.ops - {o} && t.r == s.r.(pending := map[], events := map[]) && t.slots == s.slots
    ensures t.next == s.next && t.kinds == s.kinds && forall x :: x in s.r.pending.Values ==> x in t.fates
  {
    Reach(s, FailRequests(o));
    var s1 := AllRequests(s, o);
    Reach(s1, FailEvents(o));
    t := AllEvents(s1, o);
  }

  /** A `fail_all` between the flag and the entry of an admission leaves a call that waits without a flag, with
      no operation in progress: cancelling it does nothing. */
  lemma BareReachable() returns (s: State)
    ensures Runs.Reachable(Init, NextSolo, s) && s.ops == map[]
    ensures Entry(s.r, FIRST) == Some(0) && StartCancel(s, 0) == s && !R.Agree(s.r)
  {
    Runs.ReachStart(Init, NextSolo, NOTHING);
    var s1 := ReachFlagged(NOTHING, FIRST);
    Reach(s1, BeginFailAll(0));
    var s2 := StartFail(s1, 0);
    var s3 := ReachFailed(s2, 1);
    assert s3.r.cancellations == map[] && s3.ops == map[0 := Admitting(FIRST, Flagged)];
    s := ReachSent(s3, 0);
    assert s.r.pending == map[0 := 0] && s.r.cancellations == map[];
    assert 0 in s.r.pending + s.r.events;
  }

  /** The mirror: a call admitted between the two locks of a `fail_all` is failed and leaves its flag. */
  lemma TornReachable() returns (s: State)
    ensures Runs.Reachable(Init, NextSolo, s) && s.ops == map[]
    ensures FlagOf(s, 0) == Some(1) && 1 in s.fates && !R.Agree(s.r)
  {
    Runs.ReachStart(Init, NextSolo, NOTHING);
    Reach(NOTHING, BeginFailAll(0));
    var s1 := StartFail(NOTHING, 0);
    assert s1.ops == map[0 := FailingAll(0, false)] && s1.r == R.EMPTY;
    var s2 := ReachFlagged(s1, FIRST);
    var s3 := ReachSent(s2, 1);
    assert s3.r.pending[0] == 1 && s3.r.cancellations[0] == 1;
    assert s3.ops == map[0 := FailingAll(0, false)];
    s := ReachFailed(s3, 0);
    assert 1 in s3.r.pending.Values;
    assert 0 !in s.r.pending + s.r.events;
  }

  /** Why an id must keep its kind: the `finish` of an event whose id has meanwhile entered as a request takes
      the request and leaves the event waiting, without a flag and without anybody to take it. */
  lemma KindsMustStay() returns (s: State)
    ensures Runs.Reachable(Init, Next, s) && !EntryInv(s, Slot(R.Event, 0))
  {
    Runs.ReachStart(Init, NextSolo, NOTHING);
    var s1 := ReachFlagged(NOTHING, Slot(R.Event, 0));
    var s2 := ReachSent(s1, 0);
    Reach(s2, BeginFinish(0, 7));
    var s3 := StartFinish(s2, 0, 7);
    Reach(s3, Unflag(1));
    var s4 := FinishFlag(s3, 1);
    Runs.ReachMore(Init, NextSolo, Next, s4);
    s := RequestTaken(s4);
  }

  lemma ReachAny(s: State, a: Action)
    requires Runs.Reachable(Init, Next, s) && Enabled(s, a)
    ensures Runs.Reachable(Init, Next, Apply(s, a))
  {
    Runs.ReachStep(Init, Next, s, Apply(s, a));
  }

  predicate FinishingEvent(s: State) {
    && s.next == 2 && s.ops == map[1 := Finishing(0, 7, WithoutFlag)]
    && s.r == R.EMPTY.(events := map[0 := 0]) && s.took == map[0 := 1] && s.bare == {}
  }

  lemma RequestFlagged(s: State) returns (t: State)
    requires Runs.Reachable(Init, Next, s) && FinishingEvent(s)
    ensures Runs.Reachable(Init, Next, t) && t.took == s.took && t.bare == {}
    ensures t.r == s.r.(cancellations := map[0 := 2])
    ensures t.ops == map[1 := Finishing(0, 7, WithoutFlag), 2 := Admitting(FIRST, Flagged)]
  {
    ReachAny(s, BeginAdmit(FIRST));
    var s1 := StartAdmit(s, FIRST);
    ReachAny(s1, Flag(2));
    t := SetFlag(s1, 2);
  }

  lemma RequestEntered(s: State) returns (t: State)
    requires Runs.Reachable(Init, Next, s) && FinishingEvent(s)
    ensures Runs.Reachable(Init, Next, t) && t.took == map[0 := 1] && t.bare == {}
    ensures t.r == s.r.(cancellations := map[0 := 2], pending := map[0 := 2])
    ensures 1 in t.ops && t.ops[1] == Finishing(0, 7, WithoutFlag)
  {
    var s1 := RequestFlagged(s);
    ReachAny(s1, Enter(2, 1));
    t := SetEntry(s1, 2, 1);
  }

  lemma RequestTaken(s: State) returns (t: State)
    requires Runs.Reachable(Init, Next, s) && FinishingEvent(s)
    ensures Runs.Reachable(Init, Next, t) && !EntryInv(t, Slot(R.Event, 0))
  {
    var s1 := RequestEntered(s);
    ReachAny(s1, TakeRequest(1));
    t := FromRequests(s1, 1);
    assert t.r.events == map[0 := 0] && t.r.cancellations == map[0 := 2];
    assert t.ops[1] == Finishing(0, 7, Taken);
  }

  /** A `fail_all` settles every sender that was entered before it took the sender's map. */
  lemma FailAllSettles(s: State, o: OpId, x: Sender)
    requires Runs.Reachable(Init, Next, s) && x in s.slots
    ensures Failing(s, o, false) && s.slots[x].kind.Request? ==> x in AllRequests(s, o).fates
    ensures Failing(s, o, true) && s.slots[x].kind.Event? ==> x in AllEvents(s, o).fates
  {
    ReachableSenders(s);
    assert SenderInv(s, x);
    InMap(s, s.slots[x].kind, x);
  }

  // ---------------------------------------------------------------- one thread at a time

  ghost function Do(s: State, a: Action): State {
    if Enabled(s, a) then Apply(s, a) else s
  }

  ghost function Uninterrupted(s: State, slot: Slot, capacity: nat, outcome: R.Outcome): State {
    var o := s.next;
    Do(Do(Do(Do(Do(Do(s, BeginAdmit(slot)), Flag(o)), Enter(o, capacity)), Send(o, outcome)), RollBackFlag(o)), RollBackEntry(o))
  }

  /** The steps of one admission without interruption are the call the registry object makes. */
  lemma AdmissionAlone(s: State, slot: Slot, capacity: nat, outcome: R.Outcome)
    requires s.next !in s.ops
    ensures Uninterrupted(s, slot, capacity, outcome).r == R.Call(s.r, slot.kind, slot.id, s.next, capacity, outcome).0
  {
    BegunAlone(s, slot);
    FlaggedAlone(s, slot);
    AdmissionFrom(s.r, Begun(s, slot), s.next, slot, capacity, outcome);
  }

  /** From the flag on, for the registry `r` that the admission found. */
  lemma AdmissionFrom(r: R.Registry, s: State, o: OpId, slot: Slot, capacity: nat, outcome: R.Outcome)
    requires if slot.id in r.retired || slot.id in r.cancellations then s.r == r && o !in s.ops
             else Admits(s, o, Flagged) && s.ops[o].slot == slot && s.r == r.(cancellations := r.cancellations[slot.id := o])
    ensures Do(Do(Do(Do(s, Enter(o, capacity)), Send(o, outcome)), RollBackFlag(o)), RollBackEntry(o)).r
         == R.Call(r, slot.kind, slot.id, o, capacity, outcome).0
  {
    if slot.id in r.retired || slot.id in r.cancellations {
      Idle(s, o, capacity, outcome);
    } else {
      EnteredAlone(s, o, slot, capacity, outcome);
    }
  }

  function Begun(s: State, slot: Slot): State {
    var t := StartAdmit(s, slot);
    if Admits(t, s.next, Checked) then SetFlag(t, s.next) else t
  }

  /** The retired test and the flag: the admission is over, or has its flag. */
  lemma FlaggedAlone(s: State, slot: Slot)
    requires s.next !in s.ops
    ensures var o, t := s.next, Begun(s, slot);
            if slot.id in s.r.retired || slot.id in s.r.cancellations then t.r == s.r && o !in t.ops
            else Admits(t, o, Flagged) && t.ops[o].slot == slot && t.r == s.r.(cancellations := s.r.cancellations[slot.id := o])
  {
  }

  lemma BegunAlone(s: State, slot: Slot)
    ensures Do(Do(s, BeginAdmit(slot)), Flag(s.next)) == Begun(s, slot)
  {
    assert Do(s, BeginAdmit(slot)) == StartAdmit(s, slot);
  }

  lemma EnteredAlone(s: State, o: OpId, slot: Slot, capacity: nat, outcome: R.Outcome)
    requires Admits(s, o, Flagged) && s.ops[o].slot == slot && FlagOf(s, slot.id) == Some(o)
    ensures Do(Do(Do(Do(s, Enter(o, capacity)), Send(o, outcome)), RollBackFlag(o)), RollBackEntry(o)).r
         == R.Enter(s.r, slot.kind, slot.id, o, capacity, outcome).0
  {
    var s1 := Do(s, Enter(o, capacity));
    if Refuses(s, slot, capacity) {
      Idle(s1, o, capacity, outcome);
    } else {
      InsertEntries(s, slot, o, slot);
      var s2 := Do(s1, Send(o, outcome));
      if outcome.Sent? {
        Idle(s2, o, capacity, outcome);
      } else {
        assert s2.r == s1.r && s2.ops[o] == Admitting(slot, Refused);
        RolledBack(s2, o, slot);
      }
    }
  }

  /** Once the admission is over, its remaining steps do nothing. */
  lemma Idle(s: State, o: OpId, capacity: nat, outcome: R.Outcome)
    requires o !in s.ops
    ensures Do(s, Enter(o, capacity)) == s && Do(s, Send(o, outcome)) == s && Do(s, RollBackFlag(o)) == s && Do(s, RollBackEntry(o)) == s
  {
  }

  lemma RolledBack(s: State, o: OpId, slot: Slot)
    requires o in s.ops && s.ops[o] == Admitting(slot, Refused) && FlagOf(s, slot.id) == Some(o) && Entry(s.r, slot) == Some(o)
    ensures Do(Do(s, RollBackFlag(o)), RollBackEntry(o)).r ==
            R.WithPending(s.r.(cancellations := s.r.cancellations - {slot.id}), slot.kind, R.PendingOf(s.r, slot.kind) - {slot.id})
  {
    var s1 := UndoFlag(s, o);
    assert Do(s, RollBackFlag(o)) == s1 && s1.ops[o] == Admitting(slot, Unflagged);
    assert Do(s1, RollBackEntry(o)) == UndoEntry(s1, o);
  }

  /** Looking into the two maps and remembering the id, by one thread. */
  ghost function Taking(s: State, o: OpId): State { Do(Do(Do(s, TakeRequest(o)), TakeEvent(o)), Remember(o)) }

  lemma TakeAlone(s: State, o: OpId)
    requires Removes(s, o, WithoutFlag)
    ensures var t := Do(Do(s, TakeRequest(o)), TakeEvent(o)); var id := s.ops[o].id;
            && Removes(t, o, Taken) && t.ops[o].id == id
            && t.r == s.r.(pending := s.r.pending - {id},
                           events := if id in s.r.pending then s.r.events else s.r.events - {id})
            && t.fates == match R.Holding(s.r, id)
                          case Some(x) => s.fates[x := FateOf(s.ops[o])]
                          case None => s.fates
  {
    var id := s.ops[o].id;
    var s1 := FromRequests(s, o);
    assert Do(s, TakeRequest(o)) == s1;
    if id in s.r.pending {
      assert Do(s1, TakeEvent(o)) == s1;
    } else {
      assert s.r.pending - {id} == s.r.pending;
      assert Do(s1, TakeEvent(o)) == FromEvents(s1, o);
      if id !in s.r.events { assert s.r.events - {id} == s.r.events; }
    }
  }

  lemma TakingAlone(s: State, o: OpId, r: R.Registry)
    requires Removes(s, o, WithoutFlag) && s.r == r.(cancellations := r.cancellations - {s.ops[o].id})
    ensures Taking(s, o).r == R.Remove(r, s.ops[o].id)
    ensures Taking(s, o).fates == match R.Holding(r, s.ops[o].id)
                                  case Some(x) => s.fates[x := FateOf(s.ops[o])]
                                  case None => s.fates
  {
    TakeAlone(s, o);
    var t := Do(Do(s, TakeRequest(o)), TakeEvent(o));
    assert Do(t, Remember(o)) == Retire(t, o);
  }

  /** A `finish` without interruption is the registry object's, and answers the sender that it removes. */
  lemma FinishAlone(s: State, x: Sender, reply: Reply)
    requires s.next !in s.ops && x in s.sent && x in s.slots
    ensures var o, id := s.next, s.slots[x].id; var t := Taking(Do(Do(s, BeginFinish(x, reply)), Unflag(o)), o);
            && t.r == R.Remove(s.r, id)
            && t.fates == match R.Holding(s.r, id) case Some(y) => s.fates[y := Answered(reply)] case None => s.fates
  {
    var o := s.next;
    var s1 := StartFinish(s, x, reply);
    assert Do(s, BeginFinish(x, reply)) == s1 && Removes(s1, o, WithFlag);
    var s2 := FinishFlag(s1, o);
    assert Do(s1, Unflag(o)) == s2;
    FlagGone(s1, s.slots[x].id, o);
    TakingAlone(s2, o, s.r);
  }

  lemma FlagGone(s: State, id: Id, o: OpId)
    ensures RemoveFlag(s, id, o).r == s.r.(cancellations := s.r.cancellations - {id})
    ensures RemoveFlag(s, id, o).fates == s.fates
  {
    if id !in s.r.cancellations { assert s.r.cancellations - {id} == s.r.cancellations; }
  }

  /** So is a `cancel`: it drops the sender and raises the flag, if the flag is there. */
  lemma CancelAlone(s: State, id: Id)
    requires s.next !in s.ops
    ensures var t := Taking(Do(s, BeginCancel(id)), s.next);
            if id !in s.r.cancellations then t == s
            else && t.r == R.Remove(s.r, id)
                 && t.fates == match R.Holding(s.r, id) case Some(y) => s.fates[y := Dropped] case None => s.fates
  {
    var s1 := StartCancel(s, id);
    assert Do(s, BeginCancel(id)) == s1;
    if id in s.r.cancellations {
      FlagGone(s, id, s.next);
      TakingAlone(s1, s.next, s.r);
    }
  }

  /** And a `fail_all`: every map is empty and every waiting sender has the error. */
  lemma FailAllAlone(s: State, error: Failure)
    requires s.next !in s.ops
    ensures var o := s.next; var t := Do(Do(Do(s, BeginFailAll(error)), FailRequests(o)), FailEvents(o));
            && t.r == R.Emptied(s.r) && t.raised == s.raised + s.r.cancellations.Values
            && t.fates == s.fates + (map x | x in s.r.pending.Values :: Failed(error)) + (map x | x in s.r.events.Values :: Failed(error))
  {
    var o := s.next;
    var s1 := StartFail(s, error);
    assert Do(s, BeginFailAll(error)) == s1;
    FailingAlone(s1, o, error);
  }

  lemma FailingAlone(s: State, o: OpId, error: Failure)
    requires Failing(s, o, false) && s.ops[o].error == error
    ensures var t := Do(Do(s, FailRequests(o)), FailEvents(o));
            && t.r == s.r.(pending := map[], events := map[]) && t.raised == s.raised
            && t.fates == s.fates + (map x | x in s.r.pending.Values :: Failed(error)) + (map x | x in s.r.events.Values :: Failed(error))
  {
    var s1 := AllRequests(s, o);
    assert Do(s, FailRequests(o)) == s1;
    assert Do(s1, FailEvents(o)) == AllEvents(s1, o);
  }

  // ---------------------------------------------------------------- capacities

  /** Every admission is made with the capacity of its map. */
  predicate Capped(s: State, a: Action, requests: nat, events: nat) {
    a.Enter? && Enabled(s, a) ==> a.capacity == if s.ops[a.o].slot.kind.Event? then events else requests
  }

  ghost predicate WithinCaps(s: State, requests: nat, events: nat) {
    |s.r.pending| <= requests && |s.r.events| <= events
  }

  lemma FewerEntries(s: State, slot: Slot, fate: Fate)
    ensures |Consume(s, slot, fate).r.pending| <= |s.r.pending| && |Consume(s, slot, fate).r.events| <= |s.r.events|
  {
    var m := R.PendingOf(s.r, slot.kind);
    assert (m - {slot.id}).Keys == m.Keys - {slot.id};
    assert |m - {slot.id}| == |(m - {slot.id}).Keys| && |m| == |m.Keys|;
  }

  lemma EntersExactly(s: State, o: OpId, capacity: nat)
    requires Admits(s, o, Flagged)
    ensures var slot := s.ops[o].slot;
            Admits(SetEntry(s, o, capacity), o, Entered) <==>
              slot.id !in R.PendingOf(s.r, slot.kind) && |R.PendingOf(s.r, slot.kind)| < capacity
  {
  }

  lemma OneMoreEntry(m: map<Id, Sender>, id: Id, x: Sender)
    requires id !in m
    ensures |m[id := x]| == |m| + 1
  {
    assert m[id := x].Keys == m.Keys + {id};
  }

  lemma EntersWithin(s: State, o: OpId, capacity: nat, requests: nat, events: nat)
    requires Admits(s, o, Flagged) && WithinCaps(s, requests, events)
    requires capacity == if s.ops[o].slot.kind.Event? then events else requests
    ensures WithinCaps(SetEntry(s, o, capacity), requests, events)
  {
    var slot := s.ops[o].slot;
    if Refuses(s, slot, capacity) {
      RefusedFrame(s, o, capacity);
    } else {
      OneMoreEntry(R.PendingOf(s.r, slot.kind), slot.id, o);
    }
  }

  lemma StepWithin(s: State, a: Action, requests: nat, events: nat)
    requires WithinCaps(s, requests, events) && Enabled(s, a) && Capped(s, a, requests, events)
    ensures WithinCaps(Apply(s, a), requests, events)
  {
    match a
    case Enter(o, capacity) => EntersWithin(s, o, capacity, requests, events);
    case RollBackEntry(o) => FewerEntries(s, s.ops[o].slot, Dropped);
    case TakeRequest(o) => FewerEntries(s, Slot(R.Request, s.ops[o].id), FateOf(s.ops[o]));
    case TakeEvent(o) => FewerEntries(s, Slot(R.Event, s.ops[o].id), FateOf(s.ops[o]));
    case FailRequests(_) =>
    case FailEvents(_) =>
    case _ => QuietFrame(s, a);
  }

  /** In every run whose admissions use the capacities of the two maps, the maps stay within them; and an admission
      with its flag enters its map if and only if its id does not wait there and the map has fewer entries. */
  lemma CapacityExactly(s: State, requests: nat, events: nat, o: OpId)
    requires Runs.Reachable(Init, (t, u) => exists a :: Enabled(t, a) && Capped(t, a, requests, events) && u == Apply(t, a), s)
    ensures |s.r.pending| <= requests && |s.r.events| <= events
    ensures Admits(s, o, Flagged) ==>
              var slot := s.ops[o].slot; var capacity := if slot.kind.Event? then events else requests;
              Admits(SetEntry(s, o, capacity), o, Entered) <==>
                slot.id !in R.PendingOf(s.r, slot.kind) && |R.PendingOf(s.r, slot.kind)| < capacity
  {
    var next := (t, u) => exists a :: Enabled(t, a) && Capped(t, a, requests, events) && u == Apply(t, a);
    var inv := t => WithinCaps(t, requests, events);
    forall t, u | inv(t) && next(t, u) ensures inv(u) {
      var a :| Enabled(t, a) && Capped(t, a, requests, events) && u == Apply(t, a);
      StepWithin(t, a, requests, events);
    }
    Runs.InEveryReachable(Init, next, inv, s);
    if Admits(s, o, Flagged) { EntersExactly(s, o, if s.ops[o].slot.kind.Event? then events else requests); }
  }
}
