/** The call registries of the JSON-RPC transport (`transport/json_rpc.rs`): a cancellation flag and a
    response sender per call, kept in separate maps behind separate locks. */
module JsonRpcRegistry {
  import opened Common
  import Ids = RetiredIds

  type Id = Ids.Id
  type Sender = nat

  datatype Kind = Request | Event
  datatype Outcome = Sent | Full | Closed
  datatype CallResult = Admitted | Violation | DuplicatePending | Exhausted | Stopped

  /** One set of maps; the stream registry is the one without events. A flag is named by the sender of
      the same call. */
  datatype Registry = Registry(cancellations: map<Id, Sender>, pending: map<Id, Sender>, events: map<Id, Sender>,
                               retired: set<Id>)

  const EMPTY: Registry := Registry(map[], map[], map[], {})

  function PendingOf(r: Registry, kind: Kind): map<Id, Sender> {
    if kind.Event? then r.events else r.pending
  }

  function WithPending(r: Registry, kind: Kind, m: map<Id, Sender>): Registry {
    if kind.Event? then r.(events := m) else r.(pending := m)
  }

  // ---------------------------------------------------------------- one call's admission

  /** Up to the release of the cancellation lock. */
  function Flag(r: Registry, id: Id, sender: Sender): Option<Registry> {
    if id in r.retired || id in r.cancellations then None
    else Some(r.(cancellations := r.cancellations[id := sender]))
  }

  /** From the pending lock on. */
  function Enter(r: Registry, kind: Kind, id: Id, sender: Sender, capacity: nat, outcome: Outcome)
    : (Registry, CallResult)
  {
    var without := r.(cancellations := r.cancellations - {id});
    if id in PendingOf(r, kind) then (without, DuplicatePending)
    else if |PendingOf(r, kind)| >= capacity then (without, Exhausted)
    else
      var inserted := PendingOf(r, kind)[id := sender];
      match outcome
      case Sent => (WithPending(r, kind, inserted), Admitted)
      case Full => (WithPending(without, kind, inserted - {id}), Exhausted)
      case Closed => (WithPending(without, kind, inserted - {id}), Stopped)
  }

  function Call(r: Registry, kind: Kind, id: Id, sender: Sender, capacity: nat, outcome: Outcome)
    : (Registry, CallResult)
  {
    match Flag(r, id, sender)
    case None => (r, Violation)
    case Some(flagged) => Enter(flagged, kind, id, sender, capacity, outcome)
  }

  /** The sender that removing this id from the pending maps yields. */
  function Holding(r: Registry, id: Id): Option<Sender> {
    if id in r.pending then Some(r.pending[id]) else if id in r.events then Some(r.events[id]) else None
  }

  ghost function Remove(r: Registry, id: Id): Registry {
    Registry(r.cancellations - {id}, r.pending - {id}, if id in r.pending then r.events else r.events - {id},
             Ids.EvictSmallest(r.retired, Ids.MAX_RETIRED_REQUEST_IDS) + {id})
  }

  // ---------------------------------------------------------------- agreement of the maps

  /** Every flag belongs to a pending call, every pending call has its own flag, and no id is pending
      twice. */
  ghost predicate Agree(r: Registry) {
    r.pending.Keys !! r.events.Keys && r.cancellations == r.pending + r.events
  }

  /** A refusal, for whatever reason, leaves every map as it was. */
  lemma RefusalChangesNothing(r: Registry, kind: Kind, id: Id, sender: Sender, capacity: nat, outcome: Outcome)
    ensures var (r', result) := Call(r, kind, id, sender, capacity, outcome); !result.Admitted? ==> r' == r
  {
    if id !in r.cancellations {
      assert r.cancellations[id := sender] - {id} == r.cancellations;
    }
    if id !in PendingOf(r, kind) {
      assert PendingOf(r, kind)[id := sender] - {id} == PendingOf(r, kind);
    }
  }

  /** While the maps agree, the second membership test of an uninterrupted call never finds the id. */
  lemma NeverDuplicate(r: Registry, kind: Kind, id: Id, sender: Sender, capacity: nat, outcome: Outcome)
    requires Agree(r)
    ensures !Call(r, kind, id, sender, capacity, outcome).1.DuplicatePending?
  {
    assert id in PendingOf(r, kind) ==> id in r.cancellations;
  }

  lemma RemoveAgrees(r: Registry, id: Id)
    requires Agree(r)
    ensures Agree(Remove(r, id))
    ensures Holding(r, id) == if id in r.cancellations then Some(r.cancellations[id]) else None
  {
  }

  function Emptied(r: Registry): Registry { EMPTY.(retired := r.retired) }

  // ---------------------------------------------------------------- the registry object

  /** One channel's maps, updated in place. The caller supplies the sender it made and uses or drops the
      ones it gets back. */
  class CallRegistry {
    var cancellations: map<Id, Sender>
    var pending: map<Id, Sender>
    var eventPending: map<Id, Sender>
    var retired: set<Id>

    function View(): Registry reads this { Registry(cancellations, pending, eventPending, retired) }

    constructor ()
      ensures View() == EMPTY
    {
      cancellations, pending, eventPending, retired := map[], map[], map[], {};
    }

    /** `outcome` is what the worker's channel says to `try_send`. */
    method Admit(kind: Kind, id: Id, sender: Sender, capacity: nat, outcome: Outcome) returns (result: CallResult)
      modifies this
      ensures (View(), result) == Call(old(View()), kind, id, sender, capacity, outcome)
      ensures var waiting := if kind.Event? then old(eventPending) else old(pending);
              && (result.Violation? <==> id in old(retired) || id in old(cancellations))
              && (result.DuplicatePending? <==> !result.Violation? && id in waiting)
              && (result.Exhausted? <==>
                    !result.Violation? && id !in waiting && (|waiting| >= capacity || outcome.Full?))
              && (result.Stopped? <==> !result.Violation? && id !in waiting && |waiting| < capacity && outcome.Closed?)
      ensures result.Admitted? ==>
                && cancellations == old(cancellations)[id := sender] && retired == old(retired)
                && pending == (if kind.Event? then old(pending) else old(pending)[id := sender])
                && eventPending == (if kind.Event? then old(eventPending)[id := sender] else old(eventPending))
      ensures !result.Admitted? ==> View() == old(View())
    {
      RefusalChangesNothing(View(), kind, id, sender, capacity, outcome);
      if id in retired || id in cancellations { return Violation; }
      cancellations := cancellations[id := sender];
      var waiting := if kind.Event? then eventPending else pending;
      if id in waiting {
        cancellations := cancellations - {id};
        return DuplicatePending;
      }
      if |waiting| >= capacity {
        cancellations := cancellations - {id};
        return Exhausted;
      }
      waiting := waiting[id := sender];
      if outcome.Sent? {
        if kind.Event? { eventPending := waiting; } else { pending := waiting; }
        return Admitted;
      }
      cancellations := cancellations - {id};
      waiting := waiting - {id};
      if kind.Event? { eventPending := waiting; } else { pending := waiting; }
      return if outcome.Full? then Exhausted else Stopped;
    }

    /** Remove the sender from the one map or else from the other. */
    method TakeWaiting(id: Id) returns (sender: Option<Sender>)
      modifies `pending, `eventPending
      ensures sender == Holding(old(View()), id)
      ensures pending == old(pending) - {id}
      ensures eventPending == if id in old(pending) then old(eventPending) else old(eventPending) - {id}
    {
      if id in pending {
        sender := Some(pending[id]);
        pending := pending - {id};
      } else if id in eventPending {
        sender := Some(eventPending[id]);
        eventPending := eventPending - {id};
        assert pending == pending - {id};
      } else {
        sender := None;
        assert pending == pending - {id} && eventPending == eventPending - {id};
      }
    }

    method Cancel(id: Id) returns (raised: Option<Sender>, dropped: Option<Sender>)
      modifies this
      ensures View() == if id in old(cancellations) then Remove(old(View()), id) else old(View())
      ensures cancellations == old(cancellations) - {id}
      ensures raised.Some? ==>
                && pending == old(pending) - {id} && id in retired
                && dropped == (if id in old(pending) then Some(old(pending)[id])
                               else if id in old(eventPending) then Some(old(eventPending)[id]) else None)
      ensures raised == if id in old(cancellations) then Some(old(cancellations)[id]) else None
      ensures Agree(old(View())) ==> dropped == raised
    {
      RemoveIfAgrees(View(), id);
      raised, dropped := None, None;
      if id in cancellations {
        raised := Some(cancellations[id]);
        cancellations := cancellations - {id};
        dropped := TakeWaiting(id);
        retired := Ids.Remember(retired, id, Ids.MAX_RETIRED_REQUEST_IDS);
      }
    }

    method Finish(id: Id) returns (answered: Option<Sender>)
      modifies this
      ensures View() == Remove(old(View()), id)
      ensures cancellations == old(cancellations) - {id} && pending == old(pending) - {id} && id in retired
      ensures eventPending == if id in old(pending) then old(eventPending) else old(eventPending) - {id}
      ensures answered == if id in old(pending) then Some(old(pending)[id])
                          else if id in old(eventPending) then Some(old(eventPending)[id]) else None
    {
      cancellations := cancellations - {id};
      answered := TakeWaiting(id);
      retired := Ids.Remember(retired, id, Ids.MAX_RETIRED_REQUEST_IDS);
    }

    /** Every flag is raised and every waiting sender is used, once per entry. */
    method FailAll() returns (raised: set<Sender>, failed: seq<Sender>)
      modifies this
      ensures View() == Emptied(old(View()))
      ensures raised == old(cancellations).Values
      ensures |failed| == |old(pending)| + |old(eventPending)|
      ensures forall x :: x in failed <==> x in old(pending).Values || x in old(eventPending).Values
    {
      raised := cancellations.Values;
      cancellations := map[];
      var taken := pending;
      pending := map[];
      var first := Each(taken);
      taken := eventPending;
      eventPending := map[];
      var second := Each(taken);
      failed := first + second;
    }
  }

  lemma RemoveIfAgrees(r: Registry, id: Id)
    ensures Agree(r) ==> Holding(r, id) == if id in r.cancellations then Some(r.cancellations[id]) else None
  {
    if Agree(r) { RemoveAgrees(r, id); }
  }

  /** The senders of a map that was taken, one by one. */
  method Each(taken: map<Id, Sender>) returns (senders: seq<Sender>)
    ensures |senders| == |taken|
    ensures forall x :: x in senders <==> x in taken.Values
  {
    senders := [];
    var left := taken;
    while left != map[]
      invariant left.Keys <= taken.Keys && |senders| + |left| == |taken|
      invariant forall id :: id in left ==> taken[id] == left[id]
      invariant forall id :: id in taken ==> id in left || taken[id] in senders
      invariant forall x :: x in senders ==> x in taken.Values
      decreases |left|
    {
      var id :| id in left;
      assert (left - {id}).Keys == left.Keys - {id};
      assert |left - {id}| == |left| - 1;
      senders := senders + [left[id]];
      left := left - {id};
    }
  }
}
