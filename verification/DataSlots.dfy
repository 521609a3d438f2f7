/** Admission to the Process V1 data listener (`process-v1.ts`): a bounded semaphore whose releases
    hand the slot straight to the next waiter. Code between two `await` points runs alone, so each
    stretch between them is one step. */
module DataSlots {
  import opened Common
  import Runs

  type Id = nat

  datatype Limits = Limits(maxConcurrent: nat, queueCapacity: nat, maxRetired: nat)

  /** The closure variables of `startProcessV1`; `active` maps an id to its cancelled flag. */
  datatype Server = Server(limits: Limits, active: map<Id, bool>, retired: set<Id>, accepting: bool,
                           running: nat, waiters: seq<Id>)

  datatype Verdict = Closed | Duplicate | RetiredFull | Busy | Unknown | GotSlot | MustWait | NotAcquired

  /** The checks of the data listener, in source order, up to the first `await`. */
  function Arrival(v: Server, id: Id, known: bool): Verdict {
    if !v.accepting then Closed
    else if id in v.active || id in v.retired then Duplicate
    else if |v.retired| >= v.limits.maxRetired then RetiredFull
    else if |v.active| >= v.limits.maxConcurrent && |v.waiters| >= v.limits.queueCapacity then Busy
    else if !known then Unknown
    else if v.running < v.limits.maxConcurrent then GotSlot
    else if |v.waiters| >= v.limits.queueCapacity then NotAcquired
    else MustWait
  }

  function Arrived(v: Server, id: Id, known: bool): Server {
    match Arrival(v, id, known)
    case Closed => v
    case Duplicate => v.(accepting := false)
    case RetiredFull => v.(accepting := false)
    case Busy => v
    case Unknown => v.(accepting := false)
    case GotSlot => v.(active := v.active[id := false], running := v.running + 1)
    case NotAcquired => v.(active := v.active[id := false])
    case MustWait => v.(active := v.active[id := false], waiters := v.waiters + [id])
  }

  /** `releaseDataSlot`: the slot goes to the longest waiter, or back to the pool. */
  function Released(v: Server): Server {
    if v.waiters != [] then v.(waiters := v.waiters[1..])
    else v.(running := if v.running == 0 then 0 else v.running - 1)
  }

  /** The `finally` block of the listener. */
  function Finished(v: Server, id: Id): Server {
    Released(v.(active := v.active - {id}, retired := v.retired + {id}))
  }

  class ProcessV1Server {
    const limits: Limits
    var active: map<Id, bool>
    var retired: set<Id>
    var accepting: bool
    var running: nat
    var waiters: seq<Id>

    function View(): Server
      reads this
    {
      Server(limits, active, retired, accepting, running, waiters)
    }

    constructor (limits: Limits)
      ensures View() == Server(limits, map[], {}, true, 0, [])
    {
      this.limits := limits;
      active, retired, accepting, running, waiters := map[], {}, true, 0, [];
    }

    method Arrive(id: Id, known: bool) returns (verdict: Verdict)
      modifies this
      ensures verdict == Arrival(old(View()), id, known) && View() == Arrived(old(View()), id, known)
    {
      if !accepting {
        return Closed;
      }
      if id in active || id in retired {
        accepting := false;
        return Duplicate;
      }
      if |retired| >= limits.maxRetired {
        accepting := false;
        return RetiredFull;
      }
      if |active| >= limits.maxConcurrent {
        if |waiters| >= limits.queueCapacity {
          return Busy;
        }
      }
      if !known {
        accepting := false;
        return Unknown;
      }
      active := active[id := false];
      verdict := AcquireDataSlot(id);
    }

    /** Takes a free slot, refuses when the queue is full, or queues the request. */
    method AcquireDataSlot(id: Id) returns (verdict: Verdict)
      modifies this`running, this`waiters
      ensures verdict == if old(running) < limits.maxConcurrent then GotSlot
                         else if |old(waiters)| >= limits.queueCapacity then NotAcquired else MustWait
      ensures running == if verdict.GotSlot? then old(running) + 1 else old(running)
      ensures waiters == if verdict.MustWait? then old(waiters) + [id] else old(waiters)
    {
      if running < limits.maxConcurrent {
        running := running + 1;
        return GotSlot;
      }
      if |waiters| >= limits.queueCapacity {
        return NotAcquired;
      }
      waiters := waiters + [id];
      verdict := MustWait;
    }

    /** Runs a finished request's `finally` block; `woken` is the waiter that now holds the slot. */
    method Finish(id: Id) returns (woken: seq<Id>)
      modifies this
      ensures View() == Finished(old(View()), id)
      ensures woken == if old(waiters) == [] then [] else [old(waiters)[0]]
    {
      active := active - {id};
      retired := retired + {id};
      if waiters != [] {
        woken := [waiters[0]];
        waiters := waiters[1..];
      } else {
        woken := [];
        running := if running == 0 then 0 else running - 1;
      }
    }
  }

  // ---------------------------------------------------------------- requests between await points

  datatype Phase = Waiting | Granted | Invoking | Denied

  /** `queued` lists the requests that had to wait, in arrival order, `woken` those handed a slot by a
      release, and `invoked` every request that reached a provider. */
  datatype State = State(server: Server, phase: map<Id, Phase>, queued: seq<Id>, woken: seq<Id>, invoked: seq<Id>)

  datatype Action =
    | Arrive(id: Id, known: bool)
    | Resume(id: Id, valid: bool)
    | Complete(id: Id, failed: bool)
    | Deny(id: Id)
    | CancelOne(id: Id)
    | Shutdown

  predicate Enabled(s: State, a: Action) {
    match a
    case Arrive(_, _) => true
    case Resume(id, _) => id in s.phase && s.phase[id].Granted?
    case Complete(id, _) => id in s.phase && s.phase[id].Invoking?
    case Deny(id) => id in s.phase && s.phase[id].Denied?
    case CancelOne(id) => id in s.server.active
    case Shutdown => true
  }

  function Enter(s: State, id: Id, known: bool): State {
    var s' := s.(server := Arrived(s.server, id, known));
    match Arrival(s.server, id, known)
    case GotSlot => s'.(phase := s.phase[id := Granted])
    case MustWait => s'.(phase := s.phase[id := Waiting], queued := s.queued + [id])
    case NotAcquired => s'.(phase := s.phase[id := Denied])
    case _ => s'
  }

  /** A request leaves; the release wakes the first waiter. */
  function Leave(s: State, id: Id, failed: bool): State
    requires id in s.phase
  {
    var v := s.server.(accepting := s.server.accepting && !failed);
    var rest := s.phase - {id};
    if v.waiters == [] then s.(server := Finished(v, id), phase := rest)
    else s.(server := Finished(v, id), phase := rest[v.waiters[0] := Granted], woken := s.woken + [v.waiters[0]])
  }

  function Apply(s: State, a: Action): State
    requires Enabled(s, a)
  {
    match a
    case Arrive(id, known) => Enter(s, id, known)
    case Resume(id, valid) =>
      if id in s.server.active && s.server.active[id] then Leave(s, id, false)
      else if !valid then Leave(s, id, true)
      else s.(phase := s.phase[id := Invoking], invoked := s.invoked + [id])
    case Complete(id, failed) => Leave(s, id, failed)
    case Deny(id) =>
      s.(server := s.server.(active := s.server.active - {id}, retired := s.server.retired + {id}),
         phase := s.phase - {id})
    case CancelOne(id) => s.(server := s.server.(active := s.server.active[id := true]))
    case Shutdown =>
      s.(server := s.server.(accepting := false, active := map id | id in s.server.active :: true))
  }

  ghost predicate Next(s: State, t: State) {
    exists a :: Enabled(s, a) && t == Apply(s, a)
  }

  predicate Init(s: State) {
    s == State(Server(s.server.limits, map[], {}, true, 0, []), map[], [], [], [])
  }

  // ---------------------------------------------------------------- invariant

  ghost function Holders(phase: map<Id, Phase>): set<Id> {
    set id | id in phase && (phase[id].Granted? || phase[id].Invoking?)
  }

  ghost predicate Slots(s: State) {
    && s.server.running == |Holders(s.phase)| <= s.server.limits.maxConcurrent
    && (s.server.waiters != [] ==> s.server.running == s.server.limits.maxConcurrent)
    && |s.server.waiters| <= s.server.limits.queueCapacity
    && s.queued == s.woken + s.server.waiters
  }

  ghost predicate Phases(s: State) {
    && s.phase.Keys == s.server.active.Keys
    && s.server.active.Keys !! s.server.retired
    && Distinct(s.server.waiters)
    && (forall id :: id in s.server.waiters <==> id in s.phase && s.phase[id].Waiting?)
    && (forall id :: id in s.phase ==> !s.phase[id].Denied?)
    && |s.server.active| == |Holders(s.phase)| + |s.server.waiters|
  }

  /** How many ids the listener refuses to see again. */
  function Remembered(v: Server): nat { |v.retired| + |v.active| }

  ghost predicate Ids(s: State) {
    && Distinct(s.invoked)
    && (forall id :: id in s.invoked ==> id in s.server.retired || (id in s.phase && s.phase[id].Invoking?))
    && (|| Remembered(s.server) == 0
        || (&& s.server.limits.maxRetired > 0
            && Remembered(s.server) <= s.server.limits.maxRetired - 1
                                       + s.server.limits.maxConcurrent + s.server.limits.queueCapacity))
  }

  ghost predicate Inv(s: State) { Slots(s) && Phases(s) && Ids(s) }

  // ---------------------------------------------------------------- steps

  lemma HoldersAfter(phase: map<Id, Phase>, id: Id, p: Phase)
    ensures Holders(phase[id := p]) ==
      if p.Granted? || p.Invoking? then Holders(phase) + {id} else Holders(phase) - {id}
    ensures Holders(phase - {id}) == Holders(phase) - {id}
  {
  }

  /** An active request beyond the free slots implies the listener's own check: no request is denied
      a slot after it was admitted. */
  lemma NeverDenied(s: State, id: Id, known: bool)
    requires Slots(s) && Phases(s)
    ensures !Arrival(s.server, id, known).NotAcquired?
  {
  }

  /** The phase table after a newcomer. */
  lemma NewPhase(s: State, id: Id, p: Phase)
    requires Phases(s) && id !in s.server.active
    ensures id !in s.phase && id !in s.server.waiters && id !in Holders(s.phase)
    ensures |Holders(s.phase[id := p])| == |Holders(s.phase)| + (if p.Granted? then 1 else if p.Invoking? then 1 else 0)
    ensures |s.server.active[id := false]| == |s.server.active| + 1
  {
    HoldersAfter(s.phase, id, p);
    assert s.server.active[id := false].Keys == s.server.active.Keys + {id};
  }

  lemma GotSlotPhases(s: State, id: Id, known: bool)
    requires Phases(s) && Arrival(s.server, id, known).GotSlot?
    ensures Phases(Enter(s, id, known))
  {
    NewPhase(s, id, Granted);
  }

  lemma WaitPhases(s: State, id: Id, known: bool)
    requires Phases(s) && Arrival(s.server, id, known).MustWait?
    ensures Phases(Enter(s, id, known))
  {
    NewPhase(s, id, Waiting);
    var ws := s.server.waiters;
    assert forall k :: k in ws + [id] <==> k in ws || k == id;
  }

  lemma AdmittedSlots(s: State, id: Id, known: bool)
    requires Slots(s) && (Arrival(s.server, id, known).GotSlot? || Arrival(s.server, id, known).MustWait?)
    requires |Holders(Enter(s, id, known).phase)| == |Holders(s.phase)|
                                                     + (if Arrival(s.server, id, known).GotSlot? then 1 else 0)
    ensures Slots(Enter(s, id, known))
  {
  }

  lemma AdmittedIds(s: State, id: Id, known: bool)
    requires Ids(s) && (Arrival(s.server, id, known).GotSlot? || Arrival(s.server, id, known).MustWait?)
    requires id !in s.phase && |s.server.active[id := false]| == |s.server.active| + 1
    requires |s.server.active| <= s.server.limits.maxConcurrent + s.server.limits.queueCapacity - 1
    ensures Ids(Enter(s, id, known))
  {
  }

  lemma ArriveKeeps(s: State, id: Id, known: bool)
    requires Inv(s)
    ensures Inv(Enter(s, id, known))
  {
    NeverDenied(s, id, known);
    var r := Arrival(s.server, id, known);
    if r.GotSlot? {
      NewPhase(s, id, Granted);
      GotSlotPhases(s, id, known);
      AdmittedSlots(s, id, known);
      AdmittedIds(s, id, known);
    } else if r.MustWait? {
      NewPhase(s, id, Waiting);
      WaitPhases(s, id, known);
      AdmittedSlots(s, id, known);
      AdmittedIds(s, id, known);
    }
  }

  /** A holder leaves with nobody waiting: its slot goes back. */
  lemma LeaveFreesSlot(s: State, id: Id, failed: bool)
    requires Inv(s) && id in Holders(s.phase) && s.server.waiters == []
    ensures Inv(Leave(s, id, failed))
  {
    HoldersAfter(s.phase, id, Waiting);
    var t := Leave(s, id, failed);
    assert t.server.active.Keys == s.server.active.Keys - {id};
  }

  /** The slot changes hands: as many holders as before. */
  lemma HandedHolders(s: State, id: Id, failed: bool)
    requires Phases(s) && id in Holders(s.phase) && s.server.waiters != []
    ensures Holders(Leave(s, id, failed).phase) == Holders(s.phase) - {id} + {s.server.waiters[0]}
    ensures |Holders(Leave(s, id, failed).phase)| == |Holders(s.phase)|
  {
    var w := s.server.waiters[0];
    HoldersAfter(s.phase, id, Waiting);
    HoldersAfter(s.phase - {id}, w, Granted);
    assert w in s.server.waiters;
    assert w !in Holders(s.phase);
  }

  lemma DropHead(ws: seq<Id>)
    requires ws != [] && Distinct(ws)
    ensures Distinct(ws[1..]) && forall k :: k in ws[1..] <==> k in ws && k != ws[0]
  {
    assert ws == [ws[0]] + ws[1..];
  }

  /** The phases after the hand-over, one id at a time. */
  lemma HandedPhase(s: State, id: Id, failed: bool, k: Id)
    requires Phases(s) && id in Holders(s.phase) && s.server.waiters != []
    requires s.server.waiters[0] in s.server.waiters && id != s.server.waiters[0]
    ensures var t := Leave(s, id, failed); var w := s.server.waiters[0];
            && (k in t.phase <==> (k in s.phase && k != id))
            && (k in t.phase ==> t.phase[k] == if k == w then Granted else s.phase[k])
  {
    assert s.server.waiters[0] in s.phase;
  }

  lemma HandedPhases(s: State, id: Id, failed: bool)
    requires Phases(s) && id in Holders(s.phase) && s.server.waiters != []
    ensures Phases(Leave(s, id, failed))
  {
    var t, w := Leave(s, id, failed), s.server.waiters[0];
    HandedHolders(s, id, failed);
    DropHead(s.server.waiters);
    assert w in s.server.waiters && id != w;
    assert t.server.active == s.server.active - {id} && t.server.retired == s.server.retired + {id};
    assert t.server.waiters == s.server.waiters[1..];
    forall k ensures k in t.phase <==> k in t.server.active { HandedPhase(s, id, failed, k); }
    forall k ensures k in t.server.waiters <==> k in t.phase && t.phase[k].Waiting? { HandedPhase(s, id, failed, k); }
    forall k | k in t.phase ensures !t.phase[k].Denied? { HandedPhase(s, id, failed, k); }
    assert t.phase.Keys == t.server.active.Keys;
    assert (s.server.active - {id}).Keys == s.server.active.Keys - {id};
  }

  lemma HandedSlots(s: State, id: Id, failed: bool)
    requires Slots(s) && id in s.phase && s.server.waiters != []
    requires |Holders(Leave(s, id, failed).phase)| == |Holders(s.phase)|
    ensures Slots(Leave(s, id, failed))
  {
    assert s.server.waiters == [s.server.waiters[0]] + s.server.waiters[1..];
  }

  lemma HandedIds(s: State, id: Id, failed: bool)
    requires Phases(s) && Ids(s) && id in Holders(s.phase) && s.server.waiters != []
    ensures Ids(Leave(s, id, failed))
  {
    var t := Leave(s, id, failed);
    assert s.server.waiters[0] in s.server.waiters;
    assert t.server.active.Keys == s.server.active.Keys - {id};
  }

  /** A holder leaves with requests waiting: the first of them holds its slot at once. */
  lemma LeaveHandsSlot(s: State, id: Id, failed: bool)
    requires Inv(s) && id in Holders(s.phase) && s.server.waiters != []
    ensures Inv(Leave(s, id, failed))
  {
    HandedHolders(s, id, failed);
    HandedPhases(s, id, failed);
    HandedSlots(s, id, failed);
    HandedIds(s, id, failed);
  }

  lemma LeaveKeeps(s: State, id: Id, failed: bool)
    requires Inv(s) && id in Holders(s.phase)
    ensures Inv(Leave(s, id, failed))
  {
    if s.server.waiters == [] { LeaveFreesSlot(s, id, failed); } else { LeaveHandsSlot(s, id, failed); }
  }

  lemma InvokePhases(s: State, id: Id)
    requires Phases(s) && id in s.phase && s.phase[id].Granted?
    ensures Phases(s.(phase := s.phase[id := Invoking], invoked := s.invoked + [id]))
    ensures Holders(s.phase[id := Invoking]) == Holders(s.phase)
  {
    var t := s.(phase := s.phase[id := Invoking], invoked := s.invoked + [id]);
    HoldersAfter(s.phase, id, Invoking);
    assert id in Holders(s.phase);
    assert Holders(t.phase) == Holders(s.phase);
    assert t.phase.Keys == s.phase.Keys;
    forall k ensures k in t.server.waiters <==> k in t.phase && t.phase[k].Waiting? { assert k in t.phase <==> k in s.phase; }
  }

  lemma InvokeKeeps(s: State, id: Id)
    requires Inv(s) && id in s.phase && s.phase[id].Granted?
    ensures Inv(s.(phase := s.phase[id := Invoking], invoked := s.invoked + [id]))
  {
    InvokePhases(s, id);
  }

  lemma StepKeeps(s: State, a: Action)
    requires Inv(s) && Enabled(s, a)
    ensures Inv(Apply(s, a))
  {
    match a
    case Arrive(id, known) => ArriveKeeps(s, id, known);
    case Resume(id, valid) =>
      if s.server.active[id] { LeaveKeeps(s, id, false); }
      else if !valid { LeaveKeeps(s, id, true); }
      else { InvokeKeeps(s, id); }
    case Complete(id, failed) => LeaveKeeps(s, id, failed);
    case Deny(_) =>
    case CancelOne(id) =>
      assert s.server.active[id := true].Keys == s.server.active.Keys;
    case Shutdown =>
      assert (map id | id in s.server.active :: true).Keys == s.server.active.Keys;
  }

  // ---------------------------------------------------------------- what the listener promises

  lemma ReachableInv(s: State)
    requires Runs.Reachable(Init, Next, s)
    ensures Inv(s)
  {
    forall t, u | Inv(t) && Next(t, u) ensures Inv(u) {
      var a :| Enabled(t, a) && u == Apply(t, a);
      StepKeeps(t, a);
    }
    Runs.InEveryReachable(Init, Next, Inv, s);
  }

  /** In every interleaving: the running count is the number of slot holders and within its limit;
      requests wait only while every slot is taken; holders and waiters are exactly the active ids;
      slots are handed to waiters in arrival order; no id reaches a provider twice; no admitted
      request is denied its slot; and active and retired ids together stay bounded. */
  lemma SlotSafety(s: State)
    requires Runs.Reachable(Init, Next, s)
    ensures s.server.running == |Holders(s.phase)| <= s.server.limits.maxConcurrent
    ensures s.server.waiters != [] ==> s.server.running == s.server.limits.maxConcurrent
    ensures forall id :: id in s.server.active <==> id in Holders(s.phase) || id in s.server.waiters
    ensures s.queued == s.woken + s.server.waiters
    ensures Distinct(s.invoked)
    ensures forall id, known :: !Arrival(s.server, id, known).NotAcquired?
    ensures s.server.limits.maxRetired > 0 ==> Remembered(s.server) <= s.server.limits.maxRetired - 1
                                               + s.server.limits.maxConcurrent + s.server.limits.queueCapacity
    ensures s.server.limits.maxRetired == 0 ==> Remembered(s.server) == 0
  {
    ReachableInv(s);
    forall id, known ensures !Arrival(s.server, id, known).NotAcquired? { NeverDenied(s, id, known); }
  }

  // ---------------------------------------------------------------- who is admitted, and until when

  /** The listener would take the request. */
  predicate Takes(v: Server, id: Id, known: bool) {
    && v.accepting && id !in v.active && id !in v.retired && known
    && |v.retired| < v.limits.maxRetired
    && (|v.active| < v.limits.maxConcurrent || |v.waiters| < v.limits.queueCapacity)
  }

  /** In every reachable state: an arriving request is admitted if and only if the listener accepts, its id was
      never seen, its provider is known, the retired ids leave room, and a slot or a place in the queue is free;
      it starts at once if a slot is free and waits behind the others if not. */
  lemma AdmittedExactly(s: State, id: Id, known: bool)
    requires Runs.Reachable(Init, Next, s)
    ensures var t := Apply(s, Arrive(id, known));
            if !Takes(s.server, id, known) then
              t.phase == s.phase && t.queued == s.queued && t.server.(accepting := s.server.accepting) == s.server
            else if |Holders(s.phase)| < s.server.limits.maxConcurrent then
              t.phase == s.phase[id := Granted] && t.queued == s.queued
            else t.phase == s.phase[id := Waiting] && t.queued == s.queued + [id]
  {
    ReachableInv(s);
    NeverDenied(s, id, known);
  }

  /** What makes the listener stop: a shutdown, a request that is used again, unknown or one too many to remember,
      an invalid payload, or a failed request. */
  predicate Closes(s: State, a: Action) {
    match a
    case Arrive(id, known) =>
      || id in s.server.active || id in s.server.retired || |s.server.retired| >= s.server.limits.maxRetired
      || (!known && (|s.server.active| < s.server.limits.maxConcurrent || |s.server.waiters| < s.server.limits.queueCapacity))
    case Resume(id, valid) => !valid && !(id in s.server.active && s.server.active[id])
    case Complete(_, failed) => failed
    case Shutdown => true
    case _ => false
  }

  lemma AcceptingStep(s: State, a: Action)
    requires Enabled(s, a)
    ensures Apply(s, a).server.accepting <==> s.server.accepting && !Closes(s, a)
  {
    if a.Arrive? { AcceptingArrival(s, a.id, a.known); }
  }

  lemma AcceptingArrival(s: State, id: Id, known: bool)
    ensures Enter(s, id, known).server.accepting <==> s.server.accepting && !Closes(s, Arrive(id, known))
  {
  }

  /** Nothing new since: whatever is active, waiting or invoked was active before. */
  ghost predicate NothingNew(s: State, t: State) {
    && !t.server.accepting && t.queued == s.queued
    && (forall id :: id in t.phase ==> id in s.phase)
    && (forall id :: id in t.invoked ==> id in s.invoked || id in s.phase)
  }

  lemma ClosedArrives(s: State, id: Id, known: bool)
    requires !s.server.accepting
    ensures Enter(s, id, known) == s
  {
  }

  lemma ClosedStep(s: State, t: State)
    requires Inv(s) && Next(s, t) && !s.server.accepting
    ensures NothingNew(s, t)
  {
    var a :| Enabled(s, a) && t == Apply(s, a);
    AcceptingStep(s, a);
    if a.Arrive? { ClosedArrives(s, a.id, a.known); }
    forall id | id in t.phase ensures id in s.phase {
      if s.server.waiters != [] { assert s.server.waiters[0] in s.server.waiters; }
    }
  }

  /** From the step that closes the listener on, in every run, no id is admitted, none is queued, and only
      requests admitted before reach a provider. */
  lemma ClosedForever(run: seq<State>, i: nat, j: nat)
    requires Runs.IsRun(Next, run) && Init(run[0]) && i <= j < |run| && !run[i].server.accepting
    ensures NothingNew(run[i], run[j])
  {
    forall t, u | Inv(t) && Next(t, u) ensures Inv(u) {
      var a :| Enabled(t, a) && u == Apply(t, a);
      StepKeeps(t, a);
    }
    var from := run[i];
    var since := s => NothingNew(from, s);
    forall s, t | Inv(s) && since(s) && Next(s, t) ensures since(t) {
      ClosedStep(s, t);
      StillNothing(from, s, t);
    }
    Runs.Onward(Next, Inv, since, run, i, j);
  }

  lemma StillNothing(r: State, s: State, t: State)
    requires NothingNew(r, s) && NothingNew(s, t)
    ensures NothingNew(r, t)
  {
  }

  // ---------------------------------------------------------------- cancellation

  /** Marked, and not at its provider. */
  predicate Marked(s: State, id: Id) {
    && (id in s.server.active ==> s.server.active[id] && !(id in s.phase && s.phase[id].Invoking?))
    && id !in s.invoked && (id in s.server.active || id in s.server.retired)
  }

  lemma MarkedStep(s: State, t: State, id: Id)
    requires Inv(s) && Next(s, t) && Marked(s, id)
    ensures Marked(t, id)
  {
    var a :| Enabled(s, a) && t == Apply(s, a);
    match a
    case Arrive(other, known) => NeverDenied(s, other, known); ArriveMarked(s, other, known, id);
    case Resume(other, valid) =>
      if s.server.active[other] { LeaveMarked(s, other, false, id); }
      else if !valid { LeaveMarked(s, other, true, id); }
    case Complete(other, failed) => LeaveMarked(s, other, failed, id);
    case _ =>
  }

  lemma ArriveMarked(s: State, other: Id, known: bool, id: Id)
    requires Phases(s) && Marked(s, id) && !Arrival(s.server, other, known).NotAcquired?
    ensures Marked(Enter(s, other, known), id)
  {
  }

  lemma LeaveMarked(s: State, other: Id, failed: bool, id: Id)
    requires Phases(s) && Marked(s, id) && other in s.phase
    ensures Marked(Leave(s, other, failed), id)
  {
  }

  lemma CancelMarks(s: State, id: Id)
    requires Inv(s) && id in s.phase && !s.phase[id].Invoking?
    ensures Marked(Apply(s, CancelOne(id)), id) && Marked(Apply(s, Shutdown), id)
  {
  }

  /** A request that is cancelled, or caught by a shutdown, while it waits or before it resumes never reaches its
      provider. */
  lemma CancelledNeverInvoked(run: seq<State>, i: nat, j: nat, id: Id)
    requires Runs.IsRun(Next, run) && Init(run[0]) && i < j < |run|
    requires run[i + 1] == Apply(run[i], Shutdown) || (Enabled(run[i], CancelOne(id)) && run[i + 1] == Apply(run[i], CancelOne(id)))
    requires id in run[i].phase && !run[i].phase[id].Invoking?
    ensures id !in run[j].invoked
  {
    forall t, u | Inv(t) && Next(t, u) ensures Inv(u) {
      var a :| Enabled(t, a) && u == Apply(t, a);
      StepKeeps(t, a);
    }
    Runs.Invariant(Next, Inv, run);
    CancelMarks(run[i], id);
    var since := s => Marked(s, id);
    forall s, t | Inv(s) && since(s) && Next(s, t) ensures since(t) { MarkedStep(s, t, id); }
    Runs.Onward(Next, Inv, since, run, i + 1, j);
  }
}
