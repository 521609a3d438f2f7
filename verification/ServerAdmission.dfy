/** The provider's bounded admission (`server.rs`): one counter shared by requests, stream opens and
    open streams. A stream entry holds its permit in a take-once slot and is shared by every handler
    that looked it up, so the permit comes back by whichever of retire, cancel or last drop is first. */
module ServerAdmission {
  import Log = OpenLog
  import Runs

  type ThreadId = nat
  type StreamId = nat
  type EntryId = nat

  /** `entries` are the stream entries still referenced, with whether their permit slot is filled;
      `streams` is the map of open streams, `handlers` the entry each running stream handler holds.
      `acquired` and `returned` count permits handed out and dropped. */
  datatype State = State(limit: nat, active: int, requests: set<ThreadId>, opens: map<ThreadId, StreamId>,
                         entries: map<EntryId, bool>, streams: map<StreamId, EntryId>,
                         handlers: map<ThreadId, EntryId>, acquired: nat, returned: nat)

  datatype Action =
    | BeginRequest(h: ThreadId)
    | EndRequest(h: ThreadId)
    | BeginOpen(h: ThreadId, stream: StreamId)
    | OpenFails(h: ThreadId)
    | OpenSucceeds(h: ThreadId, e: EntryId)
    | Lookup(h: ThreadId, stream: StreamId)
    | RemoveStream(stream: StreamId)
    | CancelStream(h: ThreadId, stream: StreamId)
    | TakePermit(h: ThreadId)
    | EndHandler(h: ThreadId)
    | CancelAll

  predicate Idle(s: State, h: ThreadId) { h !in s.requests && h !in s.opens && h !in s.handlers }

  predicate Enabled(s: State, a: Action) {
    match a
    case BeginRequest(h) => Idle(s, h)
    case EndRequest(h) => h in s.requests
    case BeginOpen(h, _) => Idle(s, h)
    case OpenFails(h) => h in s.opens
    case OpenSucceeds(h, e) => h in s.opens && e !in s.entries
    case Lookup(h, stream) => Idle(s, h) && stream in s.streams
    case RemoveStream(_) => true
    case CancelStream(h, stream) => Idle(s, h) && stream in s.streams
    case TakePermit(h) => h in s.handlers && s.handlers[h] in s.entries
    case EndHandler(h) => h in s.handlers
    case CancelAll => true
  }

  predicate Referenced(s: State, e: EntryId) { e in s.streams.Values || e in s.handlers.Values }

  ghost function Filled(entries: map<EntryId, bool>): set<EntryId> {
    set e | e in entries && entries[e]
  }

  ghost function Dropped(s: State): set<EntryId> {
    set e | e in s.entries && !Referenced(s, e)
  }

  /** Entries nobody references any more are dropped, and a permit still in the slot with them. */
  ghost function Collect(s: State): State {
    var freed := |Filled(s.entries) * Dropped(s)|;
    s.(entries := s.entries - Dropped(s), active := s.active - freed, returned := s.returned + freed)
  }

  /** The handlers of `server.rs` up to the drops at the end of the statement. `RemoveStream` is the map
      removal in `retire_stream`, which goes by stream id whatever entry is there by then. */
  ghost function Act(s: State, a: Action): State
    requires Enabled(s, a)
  {
    match a
    case BeginRequest(h) =>
      if s.active >= s.limit then s
      else s.(active := s.active + 1, acquired := s.acquired + 1, requests := s.requests + {h})
    case EndRequest(h) =>
      s.(active := s.active - 1, returned := s.returned + 1, requests := s.requests - {h})
    case BeginOpen(h, stream) =>
      if s.active >= s.limit then s
      else s.(active := s.active + 1, acquired := s.acquired + 1, opens := s.opens[h := stream])
    case OpenFails(h) =>
      s.(active := s.active - 1, returned := s.returned + 1, opens := s.opens - {h})
    case OpenSucceeds(h, e) =>
      s.(opens := s.opens - {h}, entries := s.entries[e := true], streams := s.streams[s.opens[h] := e])
    case Lookup(h, stream) => s.(handlers := s.handlers[h := s.streams[stream]])
    case RemoveStream(stream) => s.(streams := s.streams - {stream})
    case CancelStream(h, stream) =>
      s.(handlers := s.handlers[h := s.streams[stream]], streams := s.streams - {stream})
    case TakePermit(h) =>
      if s.entries[s.handlers[h]]
      then s.(entries := s.entries[s.handlers[h] := false], active := s.active - 1, returned := s.returned + 1)
      else s
    case EndHandler(h) => s.(handlers := s.handlers - {h})
    case CancelAll => s.(streams := map[])
  }

  ghost function Apply(s: State, a: Action): State
    requires Enabled(s, a)
  {
    Collect(Act(s, a))
  }

  ghost predicate Next(s: State, t: State) {
    exists a :: Enabled(s, a) && t == Apply(s, a)
  }

  predicate Init(s: State) {
    s.limit >= 1 && s == State(s.limit, 0, {}, map[], map[], map[], map[], 0, 0)
  }

  // ---------------------------------------------------------------- invariant

  /** Every permit out is held by a running request, a running open, or a filled entry slot. */
  ghost predicate Balanced(s: State) {
    && s.active == |s.requests| + |s.opens| + |Filled(s.entries)|
    && s.acquired == s.returned + s.active
    && s.active <= s.limit
  }

  ghost predicate Inv(s: State) {
    && Balanced(s)
    && (forall h :: h in s.handlers ==> s.handlers[h] in s.entries)
    && (forall k :: k in s.streams ==> s.streams[k] in s.entries)
  }

  lemma CollectBalances(s: State)
    requires Balanced(s)
    ensures Balanced(Collect(s))
  {
    assert Filled(Collect(s).entries) == Filled(s.entries) - Filled(s.entries) * Dropped(s);
  }

  lemma CollectKeeps(s: State)
    requires Inv(s)
    ensures Inv(Collect(s))
  {
    CollectBalances(s);
    var t := Collect(s);
    forall h | h in t.handlers ensures t.handlers[h] in t.entries {
      assert s.handlers[h] in s.handlers.Values;
    }
    forall k | k in t.streams ensures t.streams[k] in t.entries {
      assert s.streams[k] in s.streams.Values;
    }
  }

  lemma FilledAfter(entries: map<EntryId, bool>, e: EntryId, full: bool)
    ensures Filled(entries[e := full]) == if full then Filled(entries) + {e} else Filled(entries) - {e}
  {
  }

  lemma EntryBalances(s: State, a: Action)
    requires Balanced(s) && Enabled(s, a) && (a.OpenSucceeds? || a.TakePermit?)
    ensures Balanced(Act(s, a))
  {
    if a.OpenSucceeds? {
      OneLess(s.opens, a.h);
      FilledAfter(s.entries, a.e, true);
    } else {
      FilledAfter(s.entries, s.handlers[a.h], false);
    }
  }

  lemma OpenBalances(s: State, a: Action)
    requires Balanced(s) && Enabled(s, a) && (a.BeginOpen? || a.OpenFails?)
    ensures Balanced(Act(s, a))
  {
    if a.BeginOpen? { OneMore(s.opens, a.h, a.stream); } else { OneLess(s.opens, a.h); }
  }

  lemma OneMore(m: map<ThreadId, StreamId>, h: ThreadId, stream: StreamId)
    requires h !in m
    ensures |m[h := stream]| == |m| + 1
  {
    assert m[h := stream].Keys == m.Keys + {h};
  }

  lemma OneLess(m: map<ThreadId, StreamId>, h: ThreadId)
    requires h in m
    ensures |m - {h}| == |m| - 1
  {
    assert (m - {h}).Keys == m.Keys - {h};
  }

  lemma ActBalances(s: State, a: Action)
    requires Balanced(s) && Enabled(s, a)
    ensures Balanced(Act(s, a))
  {
    if a.OpenSucceeds? || a.TakePermit? { EntryBalances(s, a); }
    else if a.BeginOpen? || a.OpenFails? { OpenBalances(s, a); }
  }

  lemma ActKeeps(s: State, a: Action)
    requires Inv(s) && Enabled(s, a)
    ensures Inv(Act(s, a))
  {
    ActBalances(s, a);
  }

  /** In every interleaving of requests, opens, stream handlers, retirements, cancellations and
      handshakes: the counter is exactly the permits held, stays within the limit, and every permit
      handed out has been returned once or is still held once. */
  lemma PermitsConserved(s: State)
    requires Runs.Reachable(Init, Next, s)
    ensures s.active == |s.requests| + |s.opens| + |Filled(s.entries)|
    ensures 0 <= s.active <= s.limit
    ensures s.acquired == s.returned + s.active
  {
    forall t, u | Inv(t) && Next(t, u) ensures Inv(u) {
      var a :| Enabled(t, a) && u == Apply(t, a);
      ActKeeps(t, a);
      CollectKeeps(Act(t, a));
    }
    Runs.InEveryReachable(Init, Next, Inv, s);
  }

  /** Quiescence returns everything: with no request, open or handler running and no stream open, the
      counter is zero. */
  lemma QuiescentServerIsFree(s: State)
    requires Runs.Reachable(Init, Next, s)
    requires s.requests == {} && s.opens == map[] && s.handlers == map[] && s.streams == map[]
    ensures s.active == 0 && s.acquired == s.returned
  {
    var inv := (t: State) => Inv(t) && Dropped(t) == {};
    forall t, u | inv(t) && Next(t, u) ensures inv(u) {
      var a :| Enabled(t, a) && u == Apply(t, a);
      ActKeeps(t, a);
      CollectKeeps(Act(t, a));
      assert Dropped(u) == {};
    }
    Runs.InEveryReachable(Init, Next, inv, s);
    forall e | e in s.entries ensures Referenced(s, e) { assert e !in Dropped(s); }
    assert Filled(s.entries) == {};
  }

  // ---------------------------------------------------------------- the counter as an object

  /** The admission counter under a server whose permits it counts; `AdmissionPermit::drop` is `Release`. */
  class Admission {
    var active: nat
    const limit: nat
    ghost var server: State

    /** The counter is exactly the permits the server holds. */
    ghost predicate Valid() reads this {
      && Inv(server) && Dropped(server) == {} && server.limit == limit
      && active == server.active == |server.requests| + |server.opens| + |Filled(server.entries)| <= limit
    }

    constructor (limit: nat)
      ensures Valid() && Init(server) && this.limit == if limit < 1 then 1 else limit
    {
      active := 0;
      this.limit := if limit < 1 then 1 else limit;
      server := State(if limit < 1 then 1 else limit, 0, {}, map[], map[], map[], map[], 0, 0);
    }

    /** A request that is admitted holds one permit more of the limit; a refused one changes nothing. */
    method TryAcquire(h: ThreadId) returns (acquired: bool)
      requires Valid() && Idle(server, h)
      modifies this
      ensures Valid() && server == Apply(old(server), BeginRequest(h))
      ensures acquired <==> h in server.requests
      ensures acquired <==> |old(server).requests| + |old(server).opens| + |Filled(old(server).entries)| < limit
    {
      RequestStep(server, BeginRequest(h));
      acquired := active < limit;
      if acquired {
        active := active + 1;
      }
      server := Apply(server, BeginRequest(h));
    }

    /** The drop of a request's permit: always one to return, and the counter still counts the others. */
    method Release(h: ThreadId)
      requires Valid() && h in server.requests
      modifies this
      ensures Valid() && server == Apply(old(server), EndRequest(h))
      ensures active == |old(server).requests - {h}| + |server.opens| + |Filled(server.entries)|
    {
      RequestStep(server, EndRequest(h));
      active := active - 1;
      server := Apply(server, EndRequest(h));
    }
  }

  lemma CollectNothing(s: State)
    requires Dropped(s) == {}
    ensures Collect(s) == s
  {
    assert Filled(s.entries) * Dropped(s) == {} && s.entries - Dropped(s) == s.entries;
  }

  /** What is dropped depends on the entries and who refers to them alone. */
  lemma SameDropped(s: State, t: State)
    requires t.entries == s.entries && t.streams == s.streams && t.handlers == s.handlers
    ensures Dropped(t) == Dropped(s)
  {
    forall e ensures Referenced(t, e) <==> Referenced(s, e) {}
  }

  lemma RequestActs(s: State, a: Action)
    requires Enabled(s, a) && (a.BeginRequest? || a.EndRequest?)
    ensures Act(s, a).entries == s.entries && Act(s, a).streams == s.streams && Act(s, a).handlers == s.handlers
  {
  }

  /** A request's steps touch no stream, so nothing is dropped with them. */
  lemma RequestStep(s: State, a: Action)
    requires Inv(s) && Dropped(s) == {} && Enabled(s, a) && (a.BeginRequest? || a.EndRequest?)
    ensures Inv(Apply(s, a)) && Dropped(Apply(s, a)) == {} && Apply(s, a) == Act(s, a)
    ensures a.EndRequest? ==> s.active > 0
  {
    ActKeeps(s, a);
    RequestActs(s, a);
    SameDropped(s, Act(s, a));
    CollectNothing(Act(s, a));
    if a.EndRequest? { HasRequest(s, a.h); }
  }

  lemma HasRequest(s: State, h: ThreadId)
    requires Balanced(s) && h in s.requests
    ensures s.active > 0
  {
    assert |s.requests| > 0;
  }

  // ---------------------------------------------------------------- which streams are open

  type StreamLog = seq<Log.Entry<StreamId, EntryId>>

  /** The server with what was said of streams, in order. */
  datatype Traced = Traced(s: State, log: StreamLog)

  /** An open that succeeds opens its stream with its entry, a removal or a cancellation ends one, a handshake or a
      shutdown all of them. */
  function Said(s: State, a: Action): StreamLog
    requires Enabled(s, a)
  {
    match a
    case OpenSucceeds(h, e) => [Log.Opened(s.opens[h], e)]
    case RemoveStream(stream) => [Log.Closed(stream)]
    case CancelStream(_, stream) => [Log.Closed(stream)]
    case CancelAll => [Log.AllClosed]
    case _ => []
  }

  ghost function Trace(t: Traced, a: Action): Traced
    requires Enabled(t.s, a)
  {
    Traced(Apply(t.s, a), t.log + Said(t.s, a))
  }

  ghost predicate TracedNext(t: Traced, u: Traced) {
    exists a :: Enabled(t.s, a) && u == Trace(t, a)
  }

  ghost predicate TracedInit(t: Traced) { Init(t.s) && t.log == [] }

  ghost predicate LogMatches(t: Traced, stream: StreamId, entry: EntryId) {
    stream in t.s.streams && t.s.streams[stream] == entry <==> Log.IsOpen(t.log, stream, entry)
  }

  lemma StepLog(t: Traced, a: Action, stream: StreamId, entry: EntryId)
    requires Enabled(t.s, a) && LogMatches(t, stream, entry)
    ensures LogMatches(Trace(t, a), stream, entry)
  {
    Log.SaidAtMostOne(t.log, Said(t.s, a), stream, entry);
  }

  /** In every run the map of open streams is what was opened and has not ended since, each with its entry. */
  lemma OpenStreamsExactly(t: Traced, stream: StreamId, entry: EntryId)
    requires Runs.Reachable(TracedInit, TracedNext, t)
    ensures stream in t.s.streams && t.s.streams[stream] == entry <==> Log.IsOpen(t.log, stream, entry)
  {
    var inv := (u: Traced) => LogMatches(u, stream, entry);
    forall u, v | inv(u) && TracedNext(u, v) ensures inv(v) {
      var a :| Enabled(u.s, a) && v == Trace(u, a);
      StepLog(u, a, stream, entry);
    }
    Runs.InEveryReachable(TracedInit, TracedNext, inv, t);
  }

  /** A handler that looks a stream up, or cancels it, holds the entry that the stream was opened with, so its permit
      is not dropped under it. */
  lemma HandlerHoldsEntry(s: State, h: ThreadId, stream: StreamId)
    requires stream in s.streams && Idle(s, h) && Inv(s)
    ensures Holds(Apply(s, Lookup(h, stream)), h, s.streams[stream])
    ensures Holds(Apply(s, CancelStream(h, stream)), h, s.streams[stream])
  {
    LookedUp(s, h, stream);
    HeldIsKept(Act(s, Lookup(h, stream)), h, s.streams[stream]);
    HeldIsKept(Act(s, CancelStream(h, stream)), h, s.streams[stream]);
  }

  predicate Holds(s: State, h: ThreadId, e: EntryId) { h in s.handlers && s.handlers[h] == e && e in s.entries }

  lemma LookedUp(s: State, h: ThreadId, stream: StreamId)
    requires stream in s.streams && Idle(s, h) && Inv(s)
    ensures Holds(Act(s, Lookup(h, stream)), h, s.streams[stream]) && Holds(Act(s, CancelStream(h, stream)), h, s.streams[stream])
  {
  }

  lemma HeldIsKept(s: State, h: ThreadId, e: EntryId)
    requires Holds(s, h, e)
    ensures Holds(Collect(s), h, e)
  {
    assert e in s.handlers.Values by { assert s.handlers[h] == e; }
  }

  /** In every run an open that is begun takes a permit if and only if fewer than the limit are held. */
  lemma OpenAdmittedExactly(s: State, h: ThreadId, stream: StreamId)
    requires Runs.Reachable(Init, Next, s) && Idle(s, h)
    ensures h in Apply(s, BeginOpen(h, stream)).opens <==> |s.requests| + |s.opens| + |Filled(s.entries)| < s.limit
  {
    PermitsConserved(s);
  }

  /** A handler that ends holds nothing; a permit is taken out of an entry's slot and returned once. */
  lemma PermitTakenOnce(s: State, h: ThreadId)
    requires h in s.handlers && s.handlers[h] in s.entries
    ensures Idle(Act(s, EndHandler(h)), h) <==> h !in s.requests && h !in s.opens
    ensures var t, e := Act(s, TakePermit(h)), s.handlers[h];
            && !t.entries[e] && Act(t, TakePermit(h)) == t
            && t.active == s.active - (if s.entries[e] then 1 else 0) && t.returned == s.returned + (if s.entries[e] then 1 else 0)
  {
  }
}
