/** The Authoring V2 server inside a Bun child (`v2.ts`, `BunAuthoringServer`), as the interleavings of its
    handlers at their `await` points: each step is what runs between two of them. */
module AuthoringChild {
  import opened Common
  import Log = OpenLog
  import Runs

  type Id = nat
  type StreamId = nat
  type OutboundId = nat
  type HostStreamId = nat

  datatype Limits = Limits(maxRetiredIds: nat, maxActiveInvocations: nat, maxUnfinishedExecutions: nat,
                           maxActiveOutboundCalls: nat)

  // ---------------------------------------------------------------- calls into the plugin

  datatype Work = Invocation | Opening
  datatype Active = Active(work: Work, aborted: bool)

  /** `invoked` lists the ids whose provider was called, in order. */
  datatype Inbound = Inbound(active: map<Id, Active>, retired: set<Id>, streams: set<StreamId>, nextStreamId: StreamId,
                             invoked: seq<Id>)

  datatype Admission = Admitted | ReusedId | RetiredIdsExhausted | ResourceExhausted

  predicate Known(s: Inbound, id: Id) { id in s.active || id in s.retired }

  /** `#invoke` and `#openStream` up to the first `await`. */
  function Admit(s: Inbound, limits: Limits, work: Work, id: Id): (Inbound, Admission) {
    if Known(s, id) then (s, ReusedId)
    else if |s.retired| >= limits.maxRetiredIds then
      (s, if work.Invocation? then RetiredIdsExhausted else ResourceExhausted)
    else if |s.active| >= limits.maxActiveInvocations then (s, ResourceExhausted)
    else if work.Opening? && |s.streams| >= limits.maxUnfinishedExecutions then (s, ResourceExhausted)
    else (s.(active := s.active[id := Active(work, false)], invoked := s.invoked + [id]), Admitted)
  }

  /** The provider's promise has settled; `produced` says whether it produced a stream. */
  function Complete(s: Inbound, id: Id, produced: bool): Inbound
    requires id in s.active
  {
    var retired := s.(active := s.active - {id}, retired := s.retired + {id});
    if s.active[id].work.Opening? && produced && !s.active[id].aborted
    then retired.(streams := s.streams + {s.nextStreamId}, nextStreamId := s.nextStreamId + 1)
    else retired
  }

  /** `#cancel`. */
  function Abort(s: Inbound, id: Id): Inbound {
    if id in s.active then s.(active := s.active[id := s.active[id].(aborted := true)]) else s
  }

  // ---------------------------------------------------------------- calls out to the host

  datatype Callback = Plain | OpeningStream | Action

  /** `calls` is the counter `#activeOutboundCalls`; `waiting` are the callbacks not settled yet. */
  datatype Outbound = Outbound(calls: nat, waiting: map<OutboundId, Callback>, streams: set<HostStreamId>,
                               nextId: OutboundId)

  predicate Refused(s: Outbound, limits: Limits, callback: Callback) {
    || s.calls >= limits.maxActiveOutboundCalls
    || (callback.OpeningStream? && |s.streams| >= limits.maxUnfinishedExecutions)
  }

  /** A callback up to its `await`; a stream action takes its id before the test. */
  function Begin(s: Outbound, limits: Limits, callback: Callback): Outbound {
    if Refused(s, limits, callback) then (if callback.Action? then s.(nextId := s.nextId + 1) else s)
    else s.(calls := s.calls + 1, waiting := s.waiting[s.nextId := callback], nextId := s.nextId + 1)
  }

  /** The callback has settled: an open may have produced a stream, anything else may have ended one. */
  function Settle(s: Outbound, id: OutboundId, stream: Option<HostStreamId>): Outbound
    requires id in s.waiting && s.calls > 0
  {
    var t := s.(calls := s.calls - 1, waiting := s.waiting - {id});
    if stream.None? then t
    else if s.waiting[id].OpeningStream? then t.(streams := s.streams + {stream.value})
    else t.(streams := s.streams - {stream.value})
  }

  // ---------------------------------------------------------------- the server

  datatype State = State(limits: Limits, inbound: Inbound, outbound: Outbound, stopAttempted: bool)

  datatype Step =
    | Enter(work: Work, id: Id)
    | Finish(id: Id, produced: bool)
    | Cancel(id: Id)
    | EndStream(ended: StreamId)
    | BeginCallback(callback: Callback)
    | SettleCallback(outboundId: OutboundId, stream: Option<HostStreamId>)
    | DropOutboundStream(host: HostStreamId)
    | Stop

  predicate Enabled(s: State, a: Step) {
    match a
    case Finish(id, _) => id in s.inbound.active
    case SettleCallback(id, _) => id in s.outbound.waiting && s.outbound.calls > 0
    case Stop => !s.stopAttempted
    case _ => true
  }

  predicate Idle(s: State) { s.inbound.active == map[] && s.outbound.calls == 0 }

  function Apply(s: State, a: Step): State
    requires Enabled(s, a)
  {
    match a
    case Enter(work, id) => s.(inbound := Admit(s.inbound, s.limits, work, id).0)
    case Finish(id, produced) => s.(inbound := Complete(s.inbound, id, produced))
    case Cancel(id) => s.(inbound := Abort(s.inbound, id))
    case EndStream(stream) => s.(inbound := s.inbound.(streams := s.inbound.streams - {stream}))
    case BeginCallback(callback) => s.(outbound := Begin(s.outbound, s.limits, callback))
    case SettleCallback(id, stream) => s.(outbound := Settle(s.outbound, id, stream))
    case DropOutboundStream(host) => s.(outbound := s.outbound.(streams := s.outbound.streams - {host}))
    case Stop =>
      if !Idle(s) then s.(stopAttempted := true)
      else s.(stopAttempted := true, inbound := s.inbound.(streams := {}), outbound := s.outbound.(streams := {}))
  }

  ghost predicate Next(s: State, t: State) {
    exists a :: Enabled(s, a) && t == Apply(s, a)
  }

  const NOTHING_IN: Inbound := Inbound(map[], {}, {}, 0, [])
  const NOTHING_OUT: Outbound := Outbound(0, map[], {}, 0)

  function Started(limits: Limits): State { State(limits, NOTHING_IN, NOTHING_OUT, false) }

  ghost predicate Init(s: State) { s == Started(s.limits) }

  // ---------------------------------------------------------------- invariant

  function Opens(active: map<Id, Active>): set<Id> { set id | id in active && active[id].work.Opening? }

  function OpeningCallbacks(waiting: map<OutboundId, Callback>): set<OutboundId> {
    set id | id in waiting && waiting[id].OpeningStream?
  }

  /** Ids whose provider was called are active or retired, never both, and none was called twice. */
  ghost predicate IdsInv(s: Inbound) {
    && s.active.Keys !! s.retired
    && (forall id :: Known(s, id) <==> id in s.invoked)
    && Distinct(s.invoked)
    && (forall stream :: stream in s.streams ==> stream < s.nextStreamId)
  }

  ghost predicate BoundsInv(s: Inbound, limits: Limits) {
    && |s.active| <= limits.maxActiveInvocations
    && (Untouched(s) || |s.active| + |s.retired| <= limits.maxRetiredIds + limits.maxActiveInvocations - 1)
    && (|s.streams| + |Opens(s.active)| == 0
        || |s.streams| + |Opens(s.active)| <= limits.maxUnfinishedExecutions + limits.maxActiveInvocations - 1)
  }

  predicate Untouched(s: Inbound) { s.active == map[] && s.retired == {} }

  ghost predicate OutboundInv(s: Outbound, limits: Limits) {
    && s.calls == |s.waiting| <= limits.maxActiveOutboundCalls
    && (forall id :: id in s.waiting ==> id < s.nextId)
    && (|s.streams| + |OpeningCallbacks(s.waiting)| == 0
        || |s.streams| + |OpeningCallbacks(s.waiting)|
           <= limits.maxUnfinishedExecutions + limits.maxActiveOutboundCalls - 1)
  }

  ghost predicate Inv(s: State) {
    IdsInv(s.inbound) && BoundsInv(s.inbound, s.limits) && OutboundInv(s.outbound, s.limits)
  }

  // -- sizes under the updates

  lemma SubsetSize<T>(a: set<T>, b: set<T>)
    requires a <= b
    ensures |a| <= |b|
  {
    if a != {} {
      var x :| x in a;
      SubsetSize(a - {x}, b - {x});
    }
  }

  lemma OneMoreActive(active: map<Id, Active>, id: Id, entry: Active)
    requires id !in active
    ensures |active[id := entry]| == |active| + 1
    ensures |Opens(active[id := entry])| == |Opens(active)| + (if entry.work.Opening? then 1 else 0)
  {
    assert active[id := entry] - {id} == active;
    OneLessActive(active[id := entry], id);
  }

  lemma OpensAreActive(active: map<Id, Active>)
    ensures |Opens(active)| <= |active|
  {
    SubsetSize(Opens(active), active.Keys);
  }

  lemma OneLessActive(active: map<Id, Active>, id: Id)
    requires id in active
    ensures |active - {id}| == |active| - 1
    ensures |Opens(active - {id})| == |Opens(active)| - (if active[id].work.Opening? then 1 else 0)
  {
    assert (active - {id}).Keys == active.Keys - {id};
    assert Opens(active - {id}) == Opens(active) - (if active[id].work.Opening? then {id} else {});
  }

  lemma AdmitIds(s: Inbound, limits: Limits, work: Work, id: Id)
    requires IdsInv(s)
    ensures IdsInv(Admit(s, limits, work, id).0)
  {
  }

  lemma AdmitBounds(s: Inbound, limits: Limits, work: Work, id: Id)
    requires BoundsInv(s, limits)
    ensures BoundsInv(Admit(s, limits, work, id).0, limits)
  {
    OpensAreActive(s.active);
    if id !in s.active { OneMoreActive(s.active, id, Active(work, false)); }
  }

  lemma CompleteIds(s: Inbound, id: Id, produced: bool)
    requires IdsInv(s) && id in s.active
    ensures IdsInv(Complete(s, id, produced))
  {
    assert Known(s, id);
    forall k ensures Known(Complete(s, id, produced), k) <==> k in s.invoked { assert Known(s, k) <==> k in s.invoked; }
  }

  lemma CompleteBounds(s: Inbound, limits: Limits, id: Id, produced: bool)
    requires IdsInv(s) && BoundsInv(s, limits) && id in s.active
    ensures BoundsInv(Complete(s, id, produced), limits)
  {
    OneLessActive(s.active, id);
    assert s.nextStreamId !in s.streams;
    assert id in Opens(s.active) <==> s.active[id].work.Opening?;
  }

  lemma AbortKeeps(s: Inbound, limits: Limits, id: Id)
    requires IdsInv(s) && BoundsInv(s, limits)
    ensures IdsInv(Abort(s, id)) && BoundsInv(Abort(s, id), limits)
  {
    var t := Abort(s, id);
    assert t.active.Keys == s.active.Keys && Opens(t.active) == Opens(s.active);
    assert |t.active| == |t.active.Keys| == |s.active|;
    forall k ensures Known(t, k) <==> k in t.invoked { assert Known(s, k) <==> k in s.invoked; }
  }

  lemma FewerStreams(s: Inbound, limits: Limits, streams: set<StreamId>)
    requires IdsInv(s) && BoundsInv(s, limits) && streams <= s.streams
    ensures IdsInv(s.(streams := streams)) && BoundsInv(s.(streams := streams), limits)
  {
    var t := s.(streams := streams);
    SubsetSize(streams, s.streams);
    forall k ensures Known(t, k) <==> k in t.invoked { assert Known(s, k) <==> k in s.invoked; }
  }

  lemma OneLessWaiting(waiting: map<OutboundId, Callback>, id: OutboundId)
    requires id in waiting
    ensures |waiting - {id}| == |waiting| - 1
    ensures |OpeningCallbacks(waiting - {id})| ==
            |OpeningCallbacks(waiting)| - (if waiting[id].OpeningStream? then 1 else 0)
  {
    assert (waiting - {id}).Keys == waiting.Keys - {id};
    assert OpeningCallbacks(waiting - {id}) ==
           OpeningCallbacks(waiting) - (if waiting[id].OpeningStream? then {id} else {});
  }

  lemma OneMoreWaiting(waiting: map<OutboundId, Callback>, id: OutboundId, callback: Callback)
    requires id !in waiting
    ensures |waiting[id := callback]| == |waiting| + 1
    ensures |OpeningCallbacks(waiting[id := callback])| ==
            |OpeningCallbacks(waiting)| + (if callback.OpeningStream? then 1 else 0)
  {
    assert waiting[id := callback] - {id} == waiting;
    OneLessWaiting(waiting[id := callback], id);
  }

  lemma BeginKeeps(s: Outbound, limits: Limits, callback: Callback)
    requires OutboundInv(s, limits)
    ensures OutboundInv(Begin(s, limits, callback), limits)
  {
    OneMoreWaiting(s.waiting, s.nextId, callback);
    SubsetSize(OpeningCallbacks(s.waiting), s.waiting.Keys);
  }

  lemma SettleKeeps(s: Outbound, limits: Limits, id: OutboundId, stream: Option<HostStreamId>)
    requires OutboundInv(s, limits) && id in s.waiting && s.calls > 0
    ensures OutboundInv(Settle(s, id, stream), limits)
  {
    OneLessWaiting(s.waiting, id);
    SubsetSize(Settle(s, id, stream).streams, s.streams + (if stream.Some? then {stream.value} else {}));
    assert id in OpeningCallbacks(s.waiting) <==> s.waiting[id].OpeningStream?;
    if stream.Some? { SubsetSize(s.streams - {stream.value}, s.streams); }
  }

  lemma FewerOutbound(s: Outbound, limits: Limits, streams: set<HostStreamId>)
    requires OutboundInv(s, limits) && streams <= s.streams
    ensures OutboundInv(s.(streams := streams), limits)
  {
    SubsetSize(streams, s.streams);
  }

  lemma StepKeeps(s: State, a: Step)
    requires Inv(s) && Enabled(s, a)
    ensures Inv(Apply(s, a))
  {
    match a
    case Enter(work, id) =>
      AdmitIds(s.inbound, s.limits, work, id);
      AdmitBounds(s.inbound, s.limits, work, id);
    case Finish(id, produced) =>
      CompleteIds(s.inbound, id, produced);
      CompleteBounds(s.inbound, s.limits, id, produced);
    case Cancel(id) => AbortKeeps(s.inbound, s.limits, id);
    case EndStream(ended) => FewerStreams(s.inbound, s.limits, s.inbound.streams - {ended});
    case BeginCallback(callback) => BeginKeeps(s.outbound, s.limits, callback);
    case SettleCallback(id, stream) => SettleKeeps(s.outbound, s.limits, id, stream);
    case DropOutboundStream(host) => FewerOutbound(s.outbound, s.limits, s.outbound.streams - {host});
    case Stop =>
      FewerStreams(s.inbound, s.limits, {});
      FewerOutbound(s.outbound, s.limits, {});
  }

  lemma ReachableInv(s: State)
    requires Runs.Reachable(Init, Next, s)
    ensures Inv(s)
  {
    forall t, u | Inv(t) && Next(t, u) ensures Inv(u) {
      var a :| Enabled(t, a) && u == Apply(t, a);
      StepKeeps(t, a);
    }
    Runs.InEveryReachable(Init, Next, Inv, s);
  }

  // ---------------------------------------------------------------- theorems

  /** At every `await` point: an id whose provider was called is active or retired, never both and never
      neither; no provider is called twice for one id; and active and retired ids stay within
      `max_retired_ids + max_active_invocations - 1`. */
  lemma NoIdInvokedTwice(s: State)
    requires Runs.Reachable(Init, Next, s)
    ensures s.inbound.active.Keys !! s.inbound.retired
    ensures forall id :: id in s.inbound.invoked <==> id in s.inbound.active || id in s.inbound.retired
    ensures Distinct(s.inbound.invoked)
    ensures |s.inbound.active| <= s.limits.maxActiveInvocations
    ensures |s.inbound.active| + |s.inbound.retired| == 0
         || |s.inbound.active| + |s.inbound.retired| <= s.limits.maxRetiredIds + s.limits.maxActiveInvocations - 1
  {
    ReachableInv(s);
    forall id ensures id in s.inbound.invoked <==> id in s.inbound.active || id in s.inbound.retired {
      assert Known(s.inbound, id) <==> id in s.inbound.invoked;
    }
  }

  /** Open streams and pending opens are bounded, on the side of the plugin and on that of its host. */
  lemma StreamsBounded(s: State)
    requires Runs.Reachable(Init, Next, s)
    ensures var open := |s.inbound.streams| + |Opens(s.inbound.active)|;
            open == 0 || open <= s.limits.maxUnfinishedExecutions + s.limits.maxActiveInvocations - 1
    ensures var open := |s.outbound.streams| + |OpeningCallbacks(s.outbound.waiting)|;
            open == 0 || open <= s.limits.maxUnfinishedExecutions + s.limits.maxActiveOutboundCalls - 1
  {
    ReachableInv(s);
  }

  /** The outbound counter is the number of callbacks waiting and stays within its limit; so a settled
      callback always finds it positive, and a stop succeeds only when none is waiting. */
  lemma OutboundCallsCounted(s: State)
    requires Runs.Reachable(Init, Next, s)
    ensures s.outbound.calls == |s.outbound.waiting| <= s.limits.maxActiveOutboundCalls
    ensures s.outbound.waiting != map[] ==> s.outbound.calls > 0
    ensures Idle(s) <==> s.inbound.active == map[] && s.outbound.waiting == map[]
  {
    ReachableInv(s);
  }

  lemma Reach(s: State, a: Step)
    requires Runs.Reachable(Init, Next, s) && Enabled(s, a)
    ensures Runs.Reachable(Init, Next, Apply(s, a))
  {
    Runs.ReachStep(Init, Next, s, Apply(s, a));
  }

  /** The number of open streams alone is not bounded by `max_unfinished_executions`: the test is made
      when an open begins, so opens that overlap can each add one. */
  lemma StreamsCanExceedLimit() returns (s: State)
    ensures Runs.Reachable(Init, Next, s)
    ensures |s.inbound.streams| == 2 > s.limits.maxUnfinishedExecutions == 1
  {
    var s0 := Started(Limits(10, 2, 1, 1));
    Runs.ReachStart(Init, Next, s0);
    var s1 := Apply(s0, Enter(Opening, 0));
    Reach(s0, Enter(Opening, 0));
    var s2 := Apply(s1, Enter(Opening, 1));
    Reach(s1, Enter(Opening, 1));
    assert s2.inbound.active == map[0 := Active(Opening, false), 1 := Active(Opening, false)];
    var s3 := Apply(s2, Finish(0, true));
    Reach(s2, Finish(0, true));
    s := Apply(s3, Finish(1, true));
    Reach(s3, Finish(1, true));
    assert s.inbound.streams == {0, 1};
  }

  // ---------------------------------------------------------------- exactly when open streams exceed the limit

  /** The opens that will still produce a stream if their provider does. */
  function LiveOpens(active: map<Id, Active>): set<Id> {
    set id | id in active && active[id] == Active(Opening, false)
  }

  function Potential(s: Inbound): nat { |s.streams| + |LiveOpens(s.active)| }

  /** A provider's promise settles. */
  ghost predicate Finishes(s: Inbound, t: Inbound) {
    exists id, produced :: id in s.active && t == Complete(s, id, produced)
  }

  /** Some run of settling promises, and nothing else, opens more than `limit` streams. */
  ghost predicate CanExceed(s: Inbound, limit: nat) {
    exists run: seq<Inbound> :: Runs.IsRun(Finishes, run) && run[0] == s && |run[|run| - 1].streams| > limit
  }

  lemma LiveAfter(active: map<Id, Active>, id: Id)
    requires id in active
    ensures LiveOpens(active - {id}) == LiveOpens(active) - {id}
  {
  }

  lemma PotentialKept(s: Inbound, id: Id, produced: bool)
    requires id in s.active && s.nextStreamId !in s.streams
    ensures Potential(Complete(s, id, produced)) <= Potential(s)
    ensures id in LiveOpens(s.active) && produced ==> Potential(Complete(s, id, produced)) == Potential(s)
  {
    LiveAfter(s.active, id);
    assert id in LiveOpens(s.active) ==> |LiveOpens(s.active) - {id}| == |LiveOpens(s.active)| - 1;
    assert id !in LiveOpens(s.active) ==> LiveOpens(s.active) - {id} == LiveOpens(s.active);
  }

  lemma FreshStream(s: Inbound, id: Id, produced: bool)
    requires IdsInv(s) && id in s.active
    ensures IdsInv(Complete(s, id, produced)) && s.nextStreamId !in s.streams
  {
    CompleteIds(s, id, produced);
  }

  lemma RunWithinPotential(run: seq<Inbound>)
    requires Runs.IsRun(Finishes, run) && IdsInv(run[0])
    ensures |run[|run| - 1].streams| <= Potential(run[0])
  {
    var bound := Potential(run[0]);
    var inv := (s: Inbound) => IdsInv(s) && Potential(s) <= bound;
    forall s, t | inv(s) && Finishes(s, t) ensures inv(t) {
      var id, produced :| id in s.active && t == Complete(s, id, produced);
      FreshStream(s, id, produced);
      PotentialKept(s, id, produced);
    }
    Runs.Invariant(Finishes, inv, run);
  }

  /** Let every live open produce its stream. */
  lemma {:induction false} FinishAll(s: Inbound) returns (run: seq<Inbound>)
    requires IdsInv(s)
    ensures Runs.IsRun(Finishes, run) && run[0] == s && |run[|run| - 1].streams| == Potential(s)
    decreases |LiveOpens(s.active)|
  {
    if LiveOpens(s.active) == {} {
      run := [s];
    } else {
      var id :| id in LiveOpens(s.active);
      var t := Complete(s, id, true);
      FreshStream(s, id, true);
      PotentialKept(s, id, true);
      LiveAfter(s.active, id);
      var rest := FinishAll(t);
      run := [s] + rest;
      assert Finishes(s, t);
      forall i | 0 <= i < |run| - 1 ensures Finishes(run[i], run[i + 1]) {
        if i > 0 { assert Finishes(rest[i - 1], rest[i - 1 + 1]); }
      }
    }
  }

  /** In every reachable state: settling promises can take the open streams over the limit if and only if
      streams and live opens together are over it. So an open admitted where they have reached the limit can
      always end over it, and one admitted below never does by itself. */
  lemma ExceedsExactly(s: State)
    requires Runs.Reachable(Init, Next, s)
    ensures CanExceed(s.inbound, s.limits.maxUnfinishedExecutions) <==>
            Potential(s.inbound) > s.limits.maxUnfinishedExecutions
  {
    ReachableInv(s);
    var limit := s.limits.maxUnfinishedExecutions;
    if CanExceed(s.inbound, limit) {
      var run: seq<Inbound> :| Runs.IsRun(Finishes, run) && run[0] == s.inbound && |run[|run| - 1].streams| > limit;
      RunWithinPotential(run);
    }
    if Potential(s.inbound) > limit {
      var run := FinishAll(s.inbound);
      assert Runs.IsRun(Finishes, run) && run[0] == s.inbound && |run[|run| - 1].streams| > limit;
    }
  }

  lemma AdmittedPotential(s: Inbound, limits: Limits, id: Id)
    requires Admit(s, limits, Opening, id).1.Admitted?
    ensures Potential(Admit(s, limits, Opening, id).0) == Potential(s) + 1
  {
    var active := s.active[id := Active(Opening, false)];
    assert active - {id} == s.active;
    LiveAfter(active, id);
    assert id in LiveOpens(active);
    assert |LiveOpens(active) - {id}| == |LiveOpens(active)| - 1;
  }

  /** What a host can check before the call: an admitted open makes an excess possible if and only if streams
      and live opens had reached the limit. */
  lemma AdmittedOpenExceedsExactly(s: State, id: Id)
    requires Runs.Reachable(Init, Next, s) && Admit(s.inbound, s.limits, Opening, id).1.Admitted?
    ensures CanExceed(Apply(s, Enter(Opening, id)).inbound, s.limits.maxUnfinishedExecutions) <==>
            Potential(s.inbound) >= s.limits.maxUnfinishedExecutions
  {
    AdmittedPotential(s.inbound, s.limits, id);
    Reach(s, Enter(Opening, id));
    ExceedsExactly(Apply(s, Enter(Opening, id)));
  }

  /** The host's own check before an open. */
  predicate Considerate(s: State, a: Step) {
    && (a.Enter? && a.work.Opening? ==>
          |s.inbound.streams| + |Opens(s.inbound.active)| < s.limits.maxUnfinishedExecutions)
    && (a.BeginCallback? && a.callback.OpeningStream? ==>
          |s.outbound.streams| + |OpeningCallbacks(s.outbound.waiting)| < s.limits.maxUnfinishedExecutions)
  }

  ghost predicate NextConsiderate(s: State, t: State) {
    exists a :: Enabled(s, a) && Considerate(s, a) && t == Apply(s, a)
  }

  ghost predicate WithinLimit(s: State) {
    && |s.inbound.streams| + |Opens(s.inbound.active)| <= s.limits.maxUnfinishedExecutions
    && |s.outbound.streams| + |OpeningCallbacks(s.outbound.waiting)| <= s.limits.maxUnfinishedExecutions
  }

  lemma InboundWithin(s: State, a: Step)
    requires Inv(s) && WithinLimit(s) && Enabled(s, a) && Considerate(s, a)
    requires a.Enter? || a.Finish? || a.Cancel? || a.EndStream?
    ensures WithinLimit(Apply(s, a))
  {
    match a
    case Enter(work, id) => if id !in s.inbound.active { OneMoreActive(s.inbound.active, id, Active(work, false)); }
    case Finish(id, _) =>
      OneLessActive(s.inbound.active, id);
      assert s.inbound.nextStreamId !in s.inbound.streams;
    case Cancel(id) => assert Opens(Abort(s.inbound, id).active) == Opens(s.inbound.active);
    case EndStream(ended) => SubsetSize(s.inbound.streams - {ended}, s.inbound.streams);
  }

  lemma OutboundWithin(s: State, a: Step)
    requires Inv(s) && WithinLimit(s) && Enabled(s, a) && Considerate(s, a)
    requires a.BeginCallback? || a.SettleCallback? || a.DropOutboundStream? || a.Stop?
    ensures WithinLimit(Apply(s, a))
  {
    match a
    case BeginCallback(callback) => OneMoreWaiting(s.outbound.waiting, s.outbound.nextId, callback);
    case SettleCallback(id, stream) => SettleSizes(s.outbound, id, stream);
    case DropOutboundStream(host) => SubsetSize(s.outbound.streams - {host}, s.outbound.streams);
    case Stop =>
  }

  lemma SettleSizes(s: Outbound, id: OutboundId, stream: Option<HostStreamId>)
    requires id in s.waiting && s.calls > 0
    ensures var t := Settle(s, id, stream);
            |t.streams| + |OpeningCallbacks(t.waiting)| <= |s.streams| + |OpeningCallbacks(s.waiting)|
  {
    OneLessWaiting(s.waiting, id);
    assert id in OpeningCallbacks(s.waiting) <==> s.waiting[id].OpeningStream?;
    if stream.Some? { SubsetSize(s.streams - {stream.value}, s.streams); }
  }

  /** With that check before every open, the open streams of both sides never exceed
      `max_unfinished_executions`. */
  lemma ConsiderateStaysWithin(s: State)
    requires Runs.Reachable(Init, NextConsiderate, s)
    ensures |s.inbound.streams| <= s.limits.maxUnfinishedExecutions
    ensures |s.outbound.streams| <= s.limits.maxUnfinishedExecutions
  {
    var inv := (t: State) => Inv(t) && WithinLimit(t);
    forall t | Init(t) ensures inv(t) { assert Opens(t.inbound.active) == {} && OpeningCallbacks(t.outbound.waiting) == {}; }
    forall t, u | inv(t) && NextConsiderate(t, u) ensures inv(u) {
      var a :| Enabled(t, a) && Considerate(t, a) && u == Apply(t, a);
      StepKeeps(t, a);
      if a.Enter? || a.Finish? || a.Cancel? || a.EndStream? { InboundWithin(t, a); } else { OutboundWithin(t, a); }
    }
    Runs.InEveryReachable(Init, NextConsiderate, inv, s);
  }

  // -- the host's side

  function OutboundPotential(s: Outbound): nat { |s.streams| + |OpeningCallbacks(s.waiting)| }

  /** A callback of the plugin settles. */
  ghost predicate Settles(s: Outbound, t: Outbound) {
    exists id, stream :: id in s.waiting && s.calls > 0 && t == Settle(s, id, stream)
  }

  ghost predicate OutboundCanExceed(s: Outbound, limit: nat) {
    exists run: seq<Outbound> :: Runs.IsRun(Settles, run) && run[0] == s && |run[|run| - 1].streams| > limit
  }

  lemma SettlesWithinPotential(run: seq<Outbound>)
    requires Runs.IsRun(Settles, run)
    ensures |run[|run| - 1].streams| <= OutboundPotential(run[0])
  {
    var bound := OutboundPotential(run[0]);
    var inv := (s: Outbound) => OutboundPotential(s) <= bound;
    forall s, t | inv(s) && Settles(s, t) ensures inv(t) {
      var id, stream :| id in s.waiting && s.calls > 0 && t == Settle(s, id, stream);
      SettleSizes(s, id, stream);
    }
    Runs.Invariant(Settles, inv, run);
  }

  /** Some id is not in a finite set of them. */
  lemma {:induction false} Unused(ids: set<HostStreamId>) returns (unused: HostStreamId)
    ensures forall id :: id in ids ==> id < unused
  {
    if ids == {} {
      unused := 0;
    } else {
      var id :| id in ids;
      var rest := Unused(ids - {id});
      unused := if rest <= id then id + 1 else rest;
      forall other | other in ids ensures other < unused { assert other != id ==> other in ids - {id}; }
    }
  }

  /** Let every open the host was asked for succeed, each with an id of its own. */
  lemma {:induction false} SettleAll(s: Outbound) returns (run: seq<Outbound>)
    requires s.calls == |s.waiting|
    ensures Runs.IsRun(Settles, run) && run[0] == s && |run[|run| - 1].streams| == OutboundPotential(s)
    decreases |OpeningCallbacks(s.waiting)|
  {
    if OpeningCallbacks(s.waiting) == {} {
      run := [s];
    } else {
      var id :| id in OpeningCallbacks(s.waiting);
      var unused := Unused(s.streams);
      OneLessWaiting(s.waiting, id);
      assert s.waiting.Keys != {};
      var t := Settle(s, id, Some(unused));
      var rest := SettleAll(t);
      run := [s] + rest;
      assert Settles(s, t);
      forall i | 0 <= i < |run| - 1 ensures Settles(run[i], run[i + 1]) {
        if i > 0 { assert Settles(rest[i - 1], rest[i - 1 + 1]); }
      }
    }
  }

  /** The same for the streams the plugin opens at its host. */
  lemma OutboundExceedsExactly(s: State)
    requires Runs.Reachable(Init, Next, s)
    ensures OutboundCanExceed(s.outbound, s.limits.maxUnfinishedExecutions) <==>
            OutboundPotential(s.outbound) > s.limits.maxUnfinishedExecutions
  {
    ReachableInv(s);
    var limit := s.limits.maxUnfinishedExecutions;
    if OutboundCanExceed(s.outbound, limit) {
      var run: seq<Outbound> :| Runs.IsRun(Settles, run) && run[0] == s.outbound && |run[|run| - 1].streams| > limit;
      SettlesWithinPotential(run);
    }
    if OutboundPotential(s.outbound) > limit {
      var run := SettleAll(s.outbound);
      assert Runs.IsRun(Settles, run) && run[0] == s.outbound && |run[|run| - 1].streams| > limit;
    }
  }

  /** And they can exceed the limit too. */
  lemma OutboundStreamsCanExceedLimit() returns (s: State)
    ensures Runs.Reachable(Init, Next, s)
    ensures |s.outbound.streams| == 2 > s.limits.maxUnfinishedExecutions == 1
  {
    var s0 := Started(Limits(10, 2, 1, 2));
    Runs.ReachStart(Init, Next, s0);
    var s1 := Apply(s0, BeginCallback(OpeningStream));
    Reach(s0, BeginCallback(OpeningStream));
    var s2 := Apply(s1, BeginCallback(OpeningStream));
    Reach(s1, BeginCallback(OpeningStream));
    assert s2.outbound.waiting == map[0 := OpeningStream, 1 := OpeningStream] && s2.outbound.calls == 2;
    var s3 := Apply(s2, SettleCallback(0, Some(0)));
    Reach(s2, SettleCallback(0, Some(0)));
    s := Apply(s3, SettleCallback(1, Some(1)));
    Reach(s3, SettleCallback(1, Some(1)));
    assert s.outbound.streams == {0, 1};
  }

  // ---------------------------------------------------------------- the server object

  /** The streams of a map, one by one. */
  method CancelEach(streams: set<StreamId>) returns (cancelled: set<StreamId>)
    ensures cancelled == streams
  {
    cancelled := {};
    var left := streams;
    while left != {}
      invariant left + cancelled == streams
    {
      var stream :| stream in left;
      cancelled := cancelled + {stream};
      left := left - {stream};
    }
  }

  class BunAuthoringServer {
    const limits: Limits
    var active: map<Id, Active>
    var retired: set<Id>
    var streams: set<StreamId>
    var nextStreamId: StreamId
    var activeOutboundCalls: nat
    var outboundStreams: set<HostStreamId>
    var nextOutboundId: OutboundId
    var stopAttempted: bool
    ghost var invoked: seq<Id>
    ghost var waiting: map<OutboundId, Callback>

    ghost function View(): State reads this {
      State(limits, Inbound(active, retired, streams, nextStreamId, invoked),
            Outbound(activeOutboundCalls, waiting, outboundStreams, nextOutboundId), stopAttempted)
    }

    constructor (limits: Limits)
      ensures Init(View()) && this.limits == limits
    {
      this.limits := limits;
      active, retired, streams, nextStreamId, invoked := map[], {}, {}, 0, [];
      activeOutboundCalls, waiting, outboundStreams, nextOutboundId := 0, map[], {}, 0;
      stopAttempted := false;
    }

    method Invoke(id: Id) returns (admission: Admission)
      modifies this
      ensures View() == Apply(old(View()), Enter(Invocation, id))
      ensures admission == Admit(old(View()).inbound, limits, Invocation, id).1
      ensures admission.ReusedId? <==> id in old(active) || id in old(retired)
      ensures admission.RetiredIdsExhausted? <==> !admission.ReusedId? && |old(retired)| >= limits.maxRetiredIds
      ensures admission.Admitted? <==>
                !admission.ReusedId? && |old(retired)| < limits.maxRetiredIds && |old(active)| < limits.maxActiveInvocations
      ensures active == if admission.Admitted? then old(active)[id := Active(Invocation, false)] else old(active)
    {
      if id in active || id in retired { return ReusedId; }
      if |retired| >= limits.maxRetiredIds { return RetiredIdsExhausted; }
      if |active| >= limits.maxActiveInvocations { return ResourceExhausted; }
      active := active[id := Active(Invocation, false)];
      invoked := invoked + [id];
      return Admitted;
    }

    method OpenStream(id: Id) returns (admission: Admission)
      modifies this
      ensures View() == Apply(old(View()), Enter(Opening, id))
      ensures admission == Admit(old(View()).inbound, limits, Opening, id).1
      ensures admission.ReusedId? <==> id in old(active) || id in old(retired)
      ensures !admission.RetiredIdsExhausted?
      ensures admission.Admitted? <==>
                && !admission.ReusedId? && |old(retired)| < limits.maxRetiredIds
                && |old(active)| < limits.maxActiveInvocations && |streams| < limits.maxUnfinishedExecutions
      ensures active == if admission.Admitted? then old(active)[id := Active(Opening, false)] else old(active)
    {
      if id in active || id in retired { return ReusedId; }
      if |retired| >= limits.maxRetiredIds || |active| >= limits.maxActiveInvocations
         || |streams| >= limits.maxUnfinishedExecutions { return ResourceExhausted; }
      active := active[id := Active(Opening, false)];
      invoked := invoked + [id];
      return Admitted;
    }

    /** What follows the provider's promise, in `#runInvocation` or `#openStream`. */
    method Settled(id: Id, produced: bool) returns (stream: Option<StreamId>)
      requires id in active
      modifies this
      ensures View() == Apply(old(View()), Finish(id, produced))
      ensures stream.Some? ==> streams == old(streams) + {stream.value} && old(active)[id] == Active(Opening, false)
      ensures stream.None? ==> streams == old(streams)
    {
      stream := None;
      if active[id].work.Opening? && produced && !active[id].aborted {
        stream := Some(nextStreamId);
        nextStreamId := nextStreamId + 1;
        streams := streams + {stream.value};
      }
      active := active - {id};
      retired := retired + {id};
    }

    method BeginOutbound(callback: Callback) returns (id: Option<OutboundId>)
      modifies this
      ensures View() == Apply(old(View()), BeginCallback(callback))
      ensures id.Some? <==> !Refused(old(View()).outbound, limits, callback)
      ensures id.Some? <==>
                && old(activeOutboundCalls) < limits.maxActiveOutboundCalls
                && (callback.OpeningStream? ==> |outboundStreams| < limits.maxUnfinishedExecutions)
      ensures id.Some? ==> id.value == old(nextOutboundId) && waiting == old(waiting)[id.value := callback]
      ensures nextOutboundId == old(nextOutboundId) + (if id.Some? || callback.Action? then 1 else 0)
    {
      var taken := nextOutboundId;
      if callback.Action? { nextOutboundId := nextOutboundId + 1; }
      if activeOutboundCalls >= limits.maxActiveOutboundCalls { return None; }
      if callback.OpeningStream? && |outboundStreams| >= limits.maxUnfinishedExecutions { return None; }
      activeOutboundCalls := activeOutboundCalls + 1;
      if !callback.Action? { nextOutboundId := nextOutboundId + 1; }
      waiting := waiting[taken := callback];
      return Some(taken);
    }

    /** The `finally` of a callback, with what it found about a stream before that. */
    method EndOutbound(id: OutboundId, opening: bool, stream: Option<HostStreamId>)
      requires id in waiting && activeOutboundCalls > 0 && (opening <==> waiting[id].OpeningStream?)
      modifies this
      ensures View() == Apply(old(View()), SettleCallback(id, stream))
    {
      if stream.Some? {
        outboundStreams := if opening then outboundStreams + {stream.value} else outboundStreams - {stream.value};
      }
      activeOutboundCalls := activeOutboundCalls - 1;
      waiting := waiting - {id};
    }

    /** The part of `#stop` before the hook; every open stream of either side is cancelled. */
    method Stop() returns (ok: bool, cancelled: set<StreamId>)
      requires !stopAttempted
      modifies this
      ensures View() == Apply(old(View()), Step.Stop)
      ensures ok <==> old(active) == map[] && old(activeOutboundCalls) == 0
      ensures cancelled == if ok then old(streams) else {}
    {
      stopAttempted := true;
      cancelled := {};
      if |active| > 0 || activeOutboundCalls > 0 { return false, {}; }
      CancelOutbound();
      cancelled := CancelEach(streams);
      streams := {};
      ok := true;
    }

    method CancelOutbound()
      modifies `outboundStreams
      ensures outboundStreams == {}
    {
      while outboundStreams != {}
        modifies `outboundStreams
      {
        var host :| host in outboundStreams;
        outboundStreams := outboundStreams - {host};
      }
    }
  }

  // ---------------------------------------------------------------- which streams are open

  type StreamLog = seq<Log.Entry<nat, ()>>

  /** The server with what was said of streams, in order: `inLog` of those the plugin opened for its host, `outLog`
      of those it opened there. */
  datatype Traced = Traced(s: State, inLog: StreamLog, outLog: StreamLog)

  /** A step's word on the host's streams: an open that settles with a stream opens it unless it was cancelled, and
      gives it the next number. */
  function SaidInbound(s: State, a: Step): StreamLog
    requires Enabled(s, a)
  {
    match a
    case Finish(id, produced) =>
      if produced && s.inbound.active[id] == Active(Opening, false) then [Log.Opened(s.inbound.nextStreamId, ())] else []
    case EndStream(stream) => [Log.Closed(stream)]
    case Stop => if s.inbound.active == map[] && s.outbound.calls == 0 then [Log.AllClosed] else []
    case _ => []
  }

  /** And on those opened at the host: an open that settles with a stream opens it, anything else that settles
      with one, or drops it, ends it. */
  function SaidOutbound(s: State, a: Step): StreamLog
    requires Enabled(s, a)
  {
    match a
    case SettleCallback(id, Some(stream)) =>
      [if s.outbound.waiting[id].OpeningStream? then Log.Opened(stream, ()) else Log.Closed(stream)]
    case DropOutboundStream(stream) => [Log.Closed(stream)]
    case Stop => if s.inbound.active == map[] && s.outbound.calls == 0 then [Log.AllClosed] else []
    case _ => []
  }

  function Trace(t: Traced, a: Step): Traced
    requires Enabled(t.s, a)
  {
    Traced(Apply(t.s, a), t.inLog + SaidInbound(t.s, a), t.outLog + SaidOutbound(t.s, a))
  }

  ghost predicate TracedNext(t: Traced, u: Traced) {
    exists a :: Enabled(t.s, a) && u == Trace(t, a)
  }

  ghost predicate TracedInit(t: Traced) { Init(t.s) && t.inLog == [] && t.outLog == [] }

  ghost predicate LogsMatch(t: Traced, stream: nat) {
    && (stream in t.s.inbound.streams <==> Log.IsOpen(t.inLog, stream, ()))
    && (stream in t.s.outbound.streams <==> Log.IsOpen(t.outLog, stream, ()))
  }

  lemma StepLogs(t: Traced, a: Step, stream: nat)
    requires Enabled(t.s, a) && LogsMatch(t, stream)
    ensures LogsMatch(Trace(t, a), stream)
  {
    Log.SaidAtMostOne(t.inLog, SaidInbound(t.s, a), stream, ());
    Log.SaidAtMostOne(t.outLog, SaidOutbound(t.s, a), stream, ());
  }

  /** In every run, on both sides: the open streams are exactly those that were opened and have not ended since. */
  lemma OpenStreamsExactly(t: Traced, stream: nat)
    requires Runs.Reachable(TracedInit, TracedNext, t)
    ensures stream in t.s.inbound.streams <==> Log.IsOpen(t.inLog, stream, ())
    ensures stream in t.s.outbound.streams <==> Log.IsOpen(t.outLog, stream, ())
  {
    var inv := (u: Traced) => LogsMatch(u, stream);
    forall u, v | inv(u) && TracedNext(u, v) ensures inv(v) {
      var a :| Enabled(u.s, a) && v == Trace(u, a);
      StepLogs(u, a, stream);
    }
    Runs.InEveryReachable(TracedInit, TracedNext, inv, t);
  }

  // ---------------------------------------------------------------- cancelled opens

  /** Cancelled while active, and still so, or over. */
  predicate Cancelled(s: State, id: Id) {
    (id in s.inbound.active ==> s.inbound.active[id].aborted) && Known(s.inbound, id)
  }

  lemma StaysCancelled(s: State, t: State, id: Id)
    requires Inv(s) && Next(s, t) && Cancelled(s, id)
    ensures Cancelled(t, id)
  {
    var a :| Enabled(s, a) && t == Apply(s, a);
  }

  /** An open that is cancelled before its promise settles opens no stream, whenever it settles and whatever it
      produced. */
  lemma CancelledOpensNothing(run: seq<State>, i: nat, j: nat, id: Id, produced: bool)
    requires Runs.IsRun(Next, run) && Init(run[0]) && i < j < |run|
    requires id in run[i].inbound.active && run[i + 1] == Apply(run[i], Cancel(id)) && id in run[j].inbound.active
    ensures Apply(run[j], Finish(id, produced)).inbound.streams == run[j].inbound.streams
  {
    forall s, t | Inv(s) && Next(s, t) ensures Inv(t) {
      var a :| Enabled(s, a) && t == Apply(s, a);
      StepKeeps(s, a);
    }
    var since := s => Cancelled(s, id);
    forall s, t | Inv(s) && since(s) && Next(s, t) ensures since(t) { StaysCancelled(s, t, id); }
    Runs.Onward(Next, Inv, since, run, i + 1, j);
  }
}
