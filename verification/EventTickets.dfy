/** The host's per-caller event queue (`adapter.rs`, `BunEventQueue` and `BunEventPermit`): a ticket
    queue whose permits may be dropped at any moment, started or not. */
module EventTickets {
  import opened Common
  import Runs

  type PermitId = nat

  const TICKETS: nat := 0x1_0000_0000_0000_0000

  // ---------------------------------------------------------------- the queue

  /** A queued ticket with the sending half of its permit's turn channel. */
  datatype Waiter = Waiter(ticket: nat, permit: PermitId)

  datatype Queue = Queue(capacity: nat, active: nat, nextTicket: nat, serving: Option<nat>, waiters: seq<Waiter>)

  predicate Full(q: Queue) { q.active >= q.capacity }

  /** `try_acquire` when there is room: the new permit serves at once or queues behind the others. */
  function Acquired(q: Queue, p: PermitId): Queue {
    var ticket := q.nextTicket;
    var q' := q.(active := q.active + 1, nextTicket := (ticket + 1) % TICKETS);
    if q.serving.None? then q'.(serving := Some(ticket))
    else q'.(waiters := q.waiters + [Waiter(ticket, p)])
  }

  /** The queue without the first entry of a ticket. */
  function Forget(ws: seq<Waiter>, ticket: nat): seq<Waiter> {
    if ws == [] then [] else if ws[0].ticket == ticket then ws[1..] else [ws[0]] + Forget(ws[1..], ticket)
  }

  /** `release`: hand the turn to the first waiter, or forget a queued ticket. */
  function Released(q: Queue, ticket: nat, started: bool): Queue {
    var q' := q.(active := if q.active == 0 then 0 else q.active - 1);
    if started || q.serving == Some(ticket) then
      if q.serving != Some(ticket) then q'
      else if q.waiters == [] then q'.(serving := None)
      else q'.(serving := Some(q.waiters[0].ticket), waiters := q.waiters[1..])
    else q'.(waiters := Forget(q.waiters, ticket))
  }

  /** The permit whose turn channel `release` fires. */
  function Signalled(q: Queue, ticket: nat): Option<PermitId> {
    if q.serving == Some(ticket) && q.waiters != [] then Some(q.waiters[0].permit) else None
  }

  class BunEventQueue {
    const capacity: nat
    var active: nat
    var nextTicket: nat
    var serving: Option<nat>
    var waiters: seq<Waiter>

    function View(): Queue
      reads this
    {
      Queue(capacity, active, nextTicket, serving, waiters)
    }

    constructor (capacity: nat)
      ensures View() == Queue(capacity, 0, 0, None, [])
    {
      this.capacity := capacity;
      active, nextTicket, serving, waiters := 0, 0, None, [];
    }

    /** `None` refuses; otherwise the ticket and whether the permit must wait for its turn. */
    method TryAcquire(permit: PermitId) returns (r: Option<(nat, bool)>)
      modifies this
      ensures Full(old(View())) ==> r == None && View() == old(View())
      ensures !Full(old(View())) ==>
        r == Some((old(nextTicket), old(serving).Some?)) && View() == Acquired(old(View()), permit)
    {
      if active >= capacity {
        return None;
      }
      active := active + 1;
      var ticket := nextTicket;
      nextTicket := (nextTicket + 1) % TICKETS;
      if serving.None? {
        serving := Some(ticket);
        r := Some((ticket, false));
      } else {
        waiters := waiters + [Waiter(ticket, permit)];
        r := Some((ticket, true));
      }
    }

    method Release(ticket: nat, started: bool) returns (fired: Option<PermitId>)
      modifies this
      ensures fired == Signalled(old(View()), ticket) && View() == Released(old(View()), ticket, started)
    {
      fired := None;
      if active > 0 {
        active := active - 1;
      }
      if started || serving == Some(ticket) {
        if serving != Some(ticket) {
          return;
        }
        if waiters != [] {
          serving := Some(waiters[0].ticket);
          fired := Some(waiters[0].permit);
          waiters := waiters[1..];
        } else {
          serving := None;
        }
      } else {
        waiters := RemoveWaiter(waiters, ticket);
      }
    }
  }

  /** The search for a queued ticket and its removal. */
  method RemoveWaiter(ws: seq<Waiter>, ticket: nat) returns (left: seq<Waiter>)
    ensures left == Forget(ws, ticket)
  {
    var i := 0;
    while i < |ws| && ws[i].ticket != ticket
      invariant i <= |ws| && Forget(ws, ticket) == ws[..i] + Forget(ws[i..], ticket)
    {
      ForgetNext(ws, i, ticket);
      i := i + 1;
    }
    if i == |ws| { return ws; }
    return ws[..i] + ws[i + 1..];
  }

  lemma ForgetNext(ws: seq<Waiter>, i: nat, ticket: nat)
    requires i < |ws| && ws[i].ticket != ticket
    ensures ws[..i] + Forget(ws[i..], ticket) == ws[..i + 1] + Forget(ws[i + 1..], ticket)
  {
    assert ws[i..][1..] == ws[i + 1..];
    assert ws[..i + 1] == ws[..i] + [ws[i]];
  }

  // ---------------------------------------------------------------- queue and permits together

  /** `waits` is the receiving half of the turn channel, `fired` whether it has been signalled. */
  datatype Permit = Permit(ticket: nat, waits: bool, fired: bool, started: bool)

  /** Permits are numbered by acquisition. `starts` lists them in the order they got their turn. */
  datatype State = State(queue: Queue, permits: map<PermitId, Permit>, issued: nat, starts: seq<PermitId>)

  datatype Action = Acquire | Start(p: PermitId) | Drop(p: PermitId)

  /** A turn channel resolves when it is fired, or when its sending half is gone. */
  predicate Resolved(s: State, p: PermitId)
    requires p in s.permits
  {
    var x := s.permits[p];
    !x.waits || x.fired || forall i :: 0 <= i < |s.queue.waiters| ==> s.queue.waiters[i].permit != p
  }

  predicate Enabled(s: State, a: Action) {
    match a
    case Acquire => true
    case Start(p) => p in s.permits && !s.permits[p].started && Resolved(s, p)
    case Drop(p) => p in s.permits
  }

  function Fire(permits: map<PermitId, Permit>, p: Option<PermitId>): map<PermitId, Permit> {
    if p.Some? && p.value in permits then permits[p.value := permits[p.value].(fired := true)] else permits
  }

  function Apply(s: State, a: Action): State
    requires Enabled(s, a)
  {
    match a
    case Acquire =>
      if Full(s.queue) then s
      else s.(queue := Acquired(s.queue, s.issued), issued := s.issued + 1,
              permits := s.permits[s.issued := Permit(s.queue.nextTicket, s.queue.serving.Some?, false, false)])
    case Start(p) =>
      s.(permits := s.permits[p := s.permits[p].(started := true)], starts := s.starts + [p])
    case Drop(p) =>
      var x := s.permits[p];
      s.(queue := Released(s.queue, x.ticket, x.started),
         permits := Fire(s.permits, Signalled(s.queue, x.ticket)) - {p})
  }

  ghost predicate Next(s: State, t: State) {
    exists a :: Enabled(s, a) && t == Apply(s, a)
  }

  predicate Init(s: State) {
    s == State(Queue(s.queue.capacity, 0, 0, None, []), map[], 0, [])
  }

  // ---------------------------------------------------------------- invariant

  ghost predicate Sorted(ws: seq<Waiter>) {
    forall i, j :: 0 <= i < j < |ws| ==> ws[i].ticket < ws[j].ticket
  }

  /** A live permit is the one being served, whose turn has come, or a waiter, whose turn has not. */
  ghost predicate PermitInv(s: State, p: PermitId)
    requires p in s.permits
  {
    var x := s.permits[p];
    && p < s.issued
    && x.ticket == p
    && (if s.queue.serving == Some(p) then !x.waits || x.fired
        else Waiter(p, p) in s.queue.waiters && x.waits && !x.fired && !x.started)
  }

  ghost predicate QueueInv(s: State) {
    var q := s.queue;
    && q.nextTicket == s.issued % TICKETS
    && (q.serving.None? ==> q.waiters == [])
    && (q.serving.Some? ==> q.serving.value in s.permits)
    && (forall w :: w in q.waiters ==> w.permit == w.ticket && w.ticket in s.permits && q.serving.value < w.ticket)
    && Sorted(q.waiters)
    && q.active == |s.permits| == |q.waiters| + (if q.serving.Some? then 1 else 0)
    && q.active <= q.capacity
  }

  ghost predicate StartsInv(s: State) {
    && (forall i, j :: 0 <= i < j < |s.starts| ==> s.starts[i] < s.starts[j])
    && (forall i :: 0 <= i < |s.starts| ==> s.starts[i] < s.issued)
    && (forall i, p :: 0 <= i < |s.starts| && p in s.permits ==>
          s.starts[i] < p || (s.starts[i] == p && s.permits[p].started))
  }

  /** At most 2^64 acquisitions have been made, so no ticket has been reused. */
  ghost predicate Unwrapped(s: State) { s.issued <= TICKETS }

  ghost predicate Core(s: State) {
    QueueInv(s) && StartsInv(s) && forall p :: p in s.permits ==> PermitInv(s, p)
  }

  ghost predicate Inv(s: State) { Unwrapped(s) ==> Core(s) }

  lemma AcquirePermit(s: State, q: PermitId)
    requires QueueInv(s) && s.issued < TICKETS && !Full(s.queue) && (q in s.permits ==> PermitInv(s, q))
    requires q in Apply(s, Acquire).permits
    ensures PermitInv(Apply(s, Acquire), q)
  {
    assert s.queue.nextTicket == s.issued;
  }

  lemma AcquireGrows(s: State)
    requires !Full(s.queue) && s.issued !in s.permits
    ensures Apply(s, Acquire).permits.Keys == s.permits.Keys + {s.issued}
    ensures |Apply(s, Acquire).permits| == |s.permits| + 1
  {
    var t := Apply(s, Acquire);
    assert t.permits.Keys == s.permits.Keys + {s.issued};
    assert |t.permits| == |t.permits.Keys|;
  }

  lemma AcquireQueue(s: State)
    requires QueueInv(s) && s.issued < TICKETS && !Full(s.queue)
    requires forall q :: q in s.permits ==> q < s.issued
    ensures QueueInv(Apply(s, Acquire))
  {
    assert s.queue.nextTicket == s.issued;
    AcquireGrows(s);
    var ws := s.queue.waiters;
    forall w | w in ws ensures w.ticket < s.issued && w.ticket in Apply(s, Acquire).permits {}
    forall i | 0 <= i < |ws| ensures ws[i].ticket < s.issued { assert ws[i] in ws; }
  }

  lemma AcquireKeeps(s: State)
    requires Core(s) && Unwrapped(Apply(s, Acquire))
    ensures Core(Apply(s, Acquire))
  {
    var t := Apply(s, Acquire);
    if !Full(s.queue) {
      forall q | q in s.permits ensures q < s.issued { assert PermitInv(s, q); }
      AcquireQueue(s);
      forall q | q in t.permits ensures PermitInv(t, q) { AcquirePermit(s, q); }
    }
  }

  /** Only the serving permit's turn can resolve. */
  lemma WaiterUnresolved(s: State, p: PermitId)
    requires Core(s) && p in s.permits && s.queue.serving != Some(p)
    ensures !Resolved(s, p)
  {
    assert PermitInv(s, p);
  }

  lemma StartKeeps(s: State, p: PermitId)
    requires Core(s) && Enabled(s, Start(p))
    ensures Core(Apply(s, Start(p)))
  {
    var t := Apply(s, Start(p));
    if s.queue.serving != Some(p) { WaiterUnresolved(s, p); }
    forall q | q in t.permits ensures PermitInv(t, q) && p <= q { assert PermitInv(s, q); }
  }

  lemma DropShrinks(s: State, p: PermitId)
    requires Enabled(s, Drop(p))
    ensures Apply(s, Drop(p)).permits.Keys == s.permits.Keys - {p}
    ensures |Apply(s, Drop(p)).permits| == |s.permits| - 1
  {
    var t := Apply(s, Drop(p));
    assert t.permits.Keys == s.permits.Keys - {p};
    assert |t.permits| == |t.permits.Keys|;
  }

  lemma DropServingQueue(s: State, p: PermitId)
    requires QueueInv(s) && Enabled(s, Drop(p)) && s.queue.serving == Some(p) && s.permits[p].ticket == p
    ensures QueueInv(Apply(s, Drop(p)))
  {
    DropShrinks(s, p);
    var ws := s.queue.waiters;
    if ws != [] {
      HeadFirst(ws);
      assert ws == [ws[0]] + ws[1..];
      assert forall w :: w in ws[1..] ==> w in ws;
      assert ws[0] in ws;
    }
  }

  lemma DropServingPermit(s: State, p: PermitId, q: PermitId)
    requires QueueInv(s) && Enabled(s, Drop(p)) && s.queue.serving == Some(p) && s.permits[p].ticket == p
    requires q in s.permits && q != p && PermitInv(s, q)
    ensures q in Apply(s, Drop(p)).permits && PermitInv(Apply(s, Drop(p)), q)
  {
    var ws := s.queue.waiters;
    assert Waiter(q, q) in ws;
    assert ws == [ws[0]] + ws[1..] && ws[0] in ws;
  }

  lemma DropServing(s: State, p: PermitId)
    requires Core(s) && Enabled(s, Drop(p)) && s.queue.serving == Some(p)
    ensures Core(Apply(s, Drop(p)))
  {
    var t := Apply(s, Drop(p));
    assert PermitInv(s, p);
    DropServingQueue(s, p);
    DropShrinks(s, p);
    DropStarts(s, p);
    forall q | q in t.permits ensures PermitInv(t, q) {
      assert q in t.permits.Keys && PermitInv(s, q);
      DropServingPermit(s, p, q);
    }
  }

  lemma DropStarts(s: State, p: PermitId)
    requires StartsInv(s) && Enabled(s, Drop(p))
    ensures StartsInv(Apply(s, Drop(p)))
  {
    var t := Apply(s, Drop(p));
    forall q | q in t.permits ensures q in s.permits && t.permits[q].started == s.permits[q].started {}
  }

  /** Forgetting a queued ticket of a sorted queue removes that one entry and nothing else. */
  lemma {:induction false} Forgotten(ws: seq<Waiter>, ticket: nat)
    requires Sorted(ws)
    ensures var left := Forget(ws, ticket);
            && Sorted(left) && (forall w :: w in left <==> w in ws && w.ticket != ticket)
            && ((exists w :: w in ws && w.ticket == ticket) ==> |left| == |ws| - 1)
  {
    if ws != [] {
      var rest := ws[1..];
      assert ws == [ws[0]] + rest;
      Forgotten(rest, ticket);
      HeadFirst(ws);
      if ws[0].ticket != ticket { PrependSorted(ws[0], Forget(rest, ticket)); }
    }
  }

  lemma HeadFirst(ws: seq<Waiter>)
    requires Sorted(ws) && ws != []
    ensures forall w :: w in ws[1..] ==> ws[0].ticket < w.ticket
  {
  }

  lemma PrependSorted(head: Waiter, tail: seq<Waiter>)
    requires Sorted(tail) && forall w :: w in tail ==> head.ticket < w.ticket
    ensures Sorted([head] + tail)
  {
  }

  lemma DropWaiterQueue(s: State, p: PermitId)
    requires QueueInv(s) && Enabled(s, Drop(p)) && s.queue.serving != Some(p) && PermitInv(s, p)
    ensures QueueInv(Apply(s, Drop(p)))
    ensures forall w :: w in Apply(s, Drop(p)).queue.waiters <==> w in s.queue.waiters && w.ticket != p
  {
    DropShrinks(s, p);
    Forgotten(s.queue.waiters, p);
  }

  lemma DropWaiter(s: State, p: PermitId)
    requires Core(s) && Enabled(s, Drop(p)) && s.queue.serving != Some(p)
    ensures Core(Apply(s, Drop(p)))
  {
    var t := Apply(s, Drop(p));
    assert PermitInv(s, p);
    DropWaiterQueue(s, p);
    DropStarts(s, p);
    DropShrinks(s, p);
    forall q | q in t.permits ensures PermitInv(t, q) { assert q in t.permits.Keys && PermitInv(s, q); }
  }

  lemma StepKeeps(s: State, t: State)
    requires Inv(s) && Next(s, t)
    ensures Inv(t)
  {
    var a :| Enabled(s, a) && t == Apply(s, a);
    if Unwrapped(t) {
      match a
      case Acquire => AcquireKeeps(s);
      case Start(p) => StartKeeps(s, p);
      case Drop(p) => if s.queue.serving == Some(p) { DropServing(s, p); } else { DropWaiter(s, p); }
    }
  }

  /** When a started permit leaves, somebody can start: the next in line, or whoever comes when nobody is. */
  lemma SomebodyNext(s: State, p: PermitId) returns (y: PermitId)
    requires Core(s) && p in s.permits && s.permits[p].started
    ensures var t := Apply(s, Drop(p));
            if t.permits == map[] then Enabled(Apply(t, Acquire), Start(y)) && y == t.issued else Enabled(t, Start(y))
    ensures p != y
  {
    var t := Apply(s, Drop(p));
    assert PermitInv(s, p);
    DropServing(s, p);
    DropShrinks(s, p);
    if t.permits == map[] {
      y := t.issued;
    } else {
      y := t.queue.serving.value;
      assert y in t.permits.Keys && PermitInv(s, y) && PermitInv(t, y);
    }
  }

  // ---------------------------------------------------------------- what the queue promises

  /** With at most 2^64 acquisitions: the live permits are exactly the serving ticket and the waiters,
      in ticket order and within capacity; only the serving permit can be started, and its turn has
      come; and permits start in the order they were acquired. A started permit always finds its own
      ticket in `serving`, so `release` never takes its early return. */
  ghost predicate Promised(s: State) {
    && s.queue.active == |s.permits| <= s.queue.capacity
    && (forall p :: p in s.permits <==> s.queue.serving == Some(p) || Waiter(p, p) in s.queue.waiters)
    && (s.permits != map[] ==> s.queue.serving.Some? && s.queue.serving.value in s.permits
                               && Resolved(s, s.queue.serving.value))
    && (forall p :: p in s.permits && s.permits[p].started ==> s.queue.serving == Some(s.permits[p].ticket))
    && (forall p :: p in s.permits && s.queue.serving != Some(p) ==> !Resolved(s, p))
    && (forall i, j :: 0 <= i < j < |s.starts| ==> s.starts[i] < s.starts[j])
  }

  lemma ReachableInv(s: State)
    requires Runs.Reachable(Init, Next, s)
    ensures Inv(s)
  {
    forall t, u | Inv(t) && Next(t, u) ensures Inv(u) { StepKeeps(t, u); }
    Runs.InEveryReachable(Init, Next, Inv, s);
  }

  lemma TicketSafety(s: State)
    requires Runs.Reachable(Init, Next, s) && Unwrapped(s)
    ensures Promised(s)
  {
    ReachableInv(s);
    CorePromises(s);
  }

  lemma CorePromises(s: State)
    requires Core(s)
    ensures Promised(s)
  {
    forall p | p in s.permits ensures PermitInv(s, p) {}
    forall p | p in s.permits && s.queue.serving != Some(p) ensures !Resolved(s, p) { WaiterUnresolved(s, p); }
    if p :| p in s.permits { assert PermitInv(s, p); }
  }

  /** At most one permit is started at a time. */
  lemma OneStarted(s: State, p: PermitId, q: PermitId)
    requires Runs.Reachable(Init, Next, s) && Unwrapped(s)
    requires p in s.permits && q in s.permits && s.permits[p].started && s.permits[q].started
    ensures p == q
  {
    ReachableInv(s);
    assert PermitInv(s, p) && PermitInv(s, q);
  }

  /** A started permit stays live and started until it is dropped itself. */
  lemma StaysStarted(s: State, a: Action, p: PermitId)
    requires Core(s) && Enabled(s, a) && p in s.permits && s.permits[p].started && a != Drop(p)
    ensures p in Apply(s, a).permits && Apply(s, a).permits[p].started
  {
    assert PermitInv(s, p);
  }
}
