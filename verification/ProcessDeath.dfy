/** Death notification of a child process (`transport/mod.rs`, `ProcessState`): `mark_dead`,
    `set_failure_handler` and `subscribe_exit` on different threads, at the granularity of their atomic
    accesses and locks. */
module ProcessDeath {
  import opened Common
  import Runs

  type Failure = nat
  type HandlerId = nat
  type WaiterId = nat

  /** The child's last output, as far as it was recorded. */
  type Diagnostics = seq<nat>

  /** What a handler is given: the failure, with the child's output behind it when it was read back. */
  datatype Report = Report(failure: Failure, output: Diagnostics)

  /** How far the one `mark_dead` that won the swap has come. */
  datatype Herald =
    | Nobody
    | Swapped(failure: Failure)    // alive is false
    | Stored(failure: Failure)     // failure recorded
    | Notified(failure: Failure)   // handler lock visited
    | Drained(failure: Failure)    // waiters signalled

  /** A `set_failure_handler` in progress. */
  datatype Setter =
    | Installed                        // handler stored, alive not yet read
    | SawDead                          // alive was false
    | ReadFailure(f: Option<Report>)   // failure read back, decorated

  /** A `subscribe_exit` in progress. */
  datatype Subscriber = Arriving | SawAlive | Holding  // Holding: owns the waiters lock, saw alive inside it

  /** `runs` lists the handlers run and what they were given, `signals` the waiters signalled, in order. */
  datatype State = State(alive: bool, failure: Option<Failure>, handler: Option<HandlerId>, waiters: seq<WaiterId>,
                         herald: Herald, setters: map<HandlerId, Setter>, subscribers: map<WaiterId, Subscriber>,
                         lock: Option<WaiterId>, runs: seq<(HandlerId, Report)>, signals: seq<WaiterId>,
                         knownHandlers: set<HandlerId>, knownWaiters: set<WaiterId>)

  datatype Action =
    | MarkDead(f: Failure)
    | StoreFailure
    | RunHandler
    | DrainWaiters
    | Install(h: HandlerId)
    | ReadAlive(h: HandlerId)
    | LoadFailure(h: HandlerId, output: Diagnostics)
    | RunRegistered(h: HandlerId)
    | Subscribe(w: WaiterId)
    | FirstCheck(w: WaiterId)
    | LockedCheck(w: WaiterId)
    | Push(w: WaiterId)

  predicate Enabled(s: State, a: Action) {
    match a
    case MarkDead(_) => true
    case StoreFailure => s.herald.Swapped?
    case RunHandler => s.herald.Stored?
    case DrainWaiters => s.herald.Notified? && s.lock.None?
    case Install(h) => h !in s.knownHandlers
    case ReadAlive(h) => h in s.setters && s.setters[h].Installed?
    case LoadFailure(h, _) => h in s.setters && s.setters[h].SawDead?
    case RunRegistered(h) => h in s.setters && s.setters[h].ReadFailure?
    case Subscribe(w) => w !in s.knownWaiters
    case FirstCheck(w) => w in s.subscribers && s.subscribers[w].Arriving?
    case LockedCheck(w) => w in s.subscribers && s.subscribers[w].SawAlive? && s.lock.None?
    case Push(w) => s.lock == Some(w)
  }

  /** Call whatever handler is registered now. */
  function Run(s: State, report: Report): State {
    if s.handler.Some? then s.(runs := s.runs + [(s.handler.value, report)]) else s
  }

  /** The subscriber found the process dead and signals itself. */
  function SignalNow(s: State, w: WaiterId): State {
    s.(subscribers := s.subscribers - {w}, signals := s.signals + [w])
  }

  function HeraldStep(s: State, a: Action): State
    requires Enabled(s, a) && (a.MarkDead? || a.StoreFailure? || a.RunHandler? || a.DrainWaiters?)
  {
    match a
    case MarkDead(f) => if s.alive then s.(alive := false, herald := Swapped(f)) else s
    case StoreFailure => s.(failure := Some(s.herald.failure), herald := Stored(s.herald.failure))
    case RunHandler => Run(s, Report(s.herald.failure, [])).(herald := Notified(s.herald.failure))
    case DrainWaiters => s.(signals := s.signals + s.waiters, waiters := [], herald := Drained(s.herald.failure))
  }

  /** `failure`: the recorded failure with the output recorded so far. */
  function ReadBack(s: State, output: Diagnostics): Option<Report> {
    if s.failure.Some? then Some(Report(s.failure.value, output)) else None
  }

  function SetterStep(s: State, a: Action): State
    requires Enabled(s, a) && (a.Install? || a.ReadAlive? || a.LoadFailure? || a.RunRegistered?)
  {
    match a
    case Install(h) =>
      s.(handler := Some(h), setters := s.setters[h := Installed], knownHandlers := s.knownHandlers + {h})
    case ReadAlive(h) =>
      s.(setters := if s.alive then s.setters - {h} else s.setters[h := SawDead])
    case LoadFailure(h, output) => s.(setters := s.setters[h := ReadFailure(ReadBack(s, output))])
    case RunRegistered(h) =>
      var s' := s.(setters := s.setters - {h});
      if s.setters[h].f.Some? then Run(s', s.setters[h].f.value) else s'
  }

  function SubscriberStep(s: State, a: Action): State
    requires Enabled(s, a) && (a.Subscribe? || a.FirstCheck? || a.LockedCheck? || a.Push?)
  {
    match a
    case Subscribe(w) =>
      s.(subscribers := s.subscribers[w := Arriving], knownWaiters := s.knownWaiters + {w})
    case FirstCheck(w) =>
      if s.alive then s.(subscribers := s.subscribers[w := SawAlive]) else SignalNow(s, w)
    case LockedCheck(w) =>
      if s.alive then s.(subscribers := s.subscribers[w := Holding], lock := Some(w)) else SignalNow(s, w)
    case Push(w) => s.(waiters := s.waiters + [w], lock := None, subscribers := s.subscribers - {w})
  }

  function Apply(s: State, a: Action): State
    requires Enabled(s, a)
  {
    if a.MarkDead? || a.StoreFailure? || a.RunHandler? || a.DrainWaiters? then HeraldStep(s, a)
    else if a.Install? || a.ReadAlive? || a.LoadFailure? || a.RunRegistered? then SetterStep(s, a)
    else SubscriberStep(s, a)
  }

  ghost predicate Next(s: State, t: State) {
    exists a :: Enabled(s, a) && t == Apply(s, a)
  }

  predicate Init(s: State) {
    s == State(true, None, None, [], Nobody, map[], map[], None, [], [], {}, {})
  }

  // ---------------------------------------------------------------- invariant

  ghost predicate HeraldInv(s: State) {
    && (s.alive <==> s.herald.Nobody?)
    && (s.alive ==> s.runs == [] && s.signals == [])
    && (s.herald.Nobody? || s.herald.Swapped? ==> s.failure == None)
    && (s.herald.Stored? || s.herald.Notified? || s.herald.Drained? ==> s.failure == Some(s.herald.failure))
  }

  predicate HasRun(s: State, h: HandlerId) {
    exists i :: 0 <= i < |s.runs| && s.runs[i].0 == h
  }

  /** This setter has not read `alive` yet, or it found the process dead and will run the handler. */
  ghost predicate WillRun(s: State, h: HandlerId) {
    h in s.setters && (s.setters[h].ReadFailure? ==> s.setters[h].f.Some?)
  }

  ghost predicate HandlerInv(s: State) {
    && (s.handler.Some? && (s.herald.Notified? || s.herald.Drained?) ==>
          HasRun(s, s.handler.value) || WillRun(s, s.handler.value))
    && (forall h :: h in s.setters && !s.setters[h].Installed? ==> !s.alive)
    && (forall h :: h in s.setters && s.setters[h].ReadFailure? && s.setters[h].f.Some? ==> s.failure == Some(s.setters[h].f.value.failure))
    && (forall r :: r in s.runs ==> s.failure == Some(r.1.failure))
  }

  /** A known waiter is in exactly one place: on its way in, in the vector, or signalled. */
  ghost predicate WaiterInv(s: State, w: WaiterId) {
    && (w in s.knownWaiters <==> w in s.subscribers || w in s.waiters || w in s.signals)
    && (w in s.subscribers ==> w !in s.waiters && w !in s.signals)
    && (w in s.waiters ==> w !in s.signals)
    && (s.lock == Some(w) <==> w in s.subscribers && s.subscribers[w].Holding?)
  }

  ghost predicate Inv(s: State) {
    && HeraldInv(s) && HandlerInv(s)
    && (forall w :: WaiterInv(s, w))
    && Distinct(s.waiters) && Distinct(s.signals)
    && (s.herald.Drained? ==> s.waiters == [] && s.lock == None)
  }

  lemma DistinctConcat(a: seq<WaiterId>, b: seq<WaiterId>)
    requires Distinct(a) && Distinct(b)
    requires forall w :: w in b ==> w !in a
    ensures Distinct(a + b)
  {
    forall i, j | 0 <= i < j < |a + b| ensures (a + b)[i] != (a + b)[j] {
      if i < |a| <= j { assert b[j - |a|] in b && a[i] in a; }
    }
  }

  lemma RunRecords(s: State, f: Report)
    ensures s.handler.Some? ==> HasRun(Run(s, f), s.handler.value)
    ensures forall h :: HasRun(s, h) ==> HasRun(Run(s, f), h)
  {
    var t := Run(s, f);
    if s.handler.Some? { assert t.runs[|s.runs|].0 == s.handler.value; }
    forall h | HasRun(s, h) ensures HasRun(t, h) {
      var i :| 0 <= i < |s.runs| && s.runs[i].0 == h;
      assert t.runs[i].0 == h;
    }
  }

  lemma HeraldKeeps(s: State, a: Action)
    requires Inv(s) && Enabled(s, a) && (a.MarkDead? || a.StoreFailure? || a.RunHandler? || a.DrainWaiters?)
    ensures Inv(HeraldStep(s, a))
  {
    var t := HeraldStep(s, a);
    forall w ensures WaiterInv(t, w) { assert WaiterInv(s, w); }
    if a.DrainWaiters? {
      forall w | w in s.waiters ensures w !in s.signals { assert WaiterInv(s, w); }
      DistinctConcat(s.signals, s.waiters);
    } else if a.RunHandler? {
      RunRecords(s, Report(s.herald.failure, []));
    }
  }

  lemma SetterKeeps(s: State, a: Action)
    requires Inv(s) && Enabled(s, a) && (a.Install? || a.ReadAlive? || a.LoadFailure? || a.RunRegistered?)
    ensures Inv(SetterStep(s, a))
  {
    var t := SetterStep(s, a);
    forall w ensures WaiterInv(t, w) { assert WaiterInv(s, w); }
    if a.RunRegistered? && s.setters[a.h].f.Some? {
      RunRecords(s.(setters := s.setters - {a.h}), s.setters[a.h].f.value);
    }
  }

  lemma SubscriberKeeps(s: State, a: Action)
    requires Inv(s) && Enabled(s, a) && (a.Subscribe? || a.FirstCheck? || a.LockedCheck? || a.Push?)
    ensures Inv(SubscriberStep(s, a))
  {
    var t := SubscriberStep(s, a);
    assert WaiterInv(s, a.w);
    forall w ensures WaiterInv(t, w) { assert WaiterInv(s, w); }
    DistinctConcat(s.signals, if a.w in s.signals then [] else [a.w]);
    DistinctConcat(s.waiters, if a.w in s.waiters then [] else [a.w]);
  }

  lemma StepKeeps(s: State, t: State)
    requires Inv(s) && Next(s, t)
    ensures Inv(t)
  {
    var a :| Enabled(s, a) && t == Apply(s, a);
    if a.MarkDead? || a.StoreFailure? || a.RunHandler? || a.DrainWaiters? { HeraldKeeps(s, a); }
    else if a.Install? || a.ReadAlive? || a.LoadFailure? || a.RunRegistered? { SetterKeeps(s, a); }
    else { SubscriberKeeps(s, a); }
  }

  lemma ReachableInv(s: State)
    requires Runs.Reachable(Init, Next, s)
    ensures Inv(s)
  {
    forall t, u | Inv(t) && Next(t, u) ensures Inv(u) { StepKeeps(t, u); }
    Runs.InEveryReachable(Init, Next, Inv, s);
  }

  // ---------------------------------------------------------------- theorems

  /** Nothing is reported before death, and every report is of the one recorded failure, whatever output
      stands behind it; no waiter
      is signalled twice, and none that is still waiting has been signalled. */
  lemma NoEarlyOrDoubleNotice(s: State)
    requires Runs.Reachable(Init, Next, s)
    ensures s.alive ==> s.runs == [] && s.signals == []
    ensures forall r :: r in s.runs ==> s.failure == Some(r.1.failure)
    ensures Distinct(s.signals)
    ensures forall w :: w in s.signals ==> w !in s.waiters && w !in s.subscribers
  {
    ReachableInv(s);
    forall w | w in s.signals ensures w !in s.waiters && w !in s.subscribers { assert WaiterInv(s, w); }
  }

  /** No notice is lost: when the winning `mark_dead`, every registration and every subscription have
      returned, the registered handler has run and every waiter ever handed out has been signalled. */
  lemma NoLostNotice(s: State)
    requires Runs.Reachable(Init, Next, s)
    requires s.herald.Drained? && s.setters == map[] && s.subscribers == map[]
    ensures s.failure == Some(s.herald.failure)
    ensures s.handler.Some? ==> HasRun(s, s.handler.value)
    ensures forall w :: w in s.knownWaiters <==> w in s.signals
  {
    ReachableInv(s);
    forall w ensures w in s.knownWaiters <==> w in s.signals { assert WaiterInv(s, w); }
  }

  /** The threads left over after death always have a step of their own: the only thread that can wait is one
      for the waiters lock, and its holder can then push. */
  lemma NeverBlocked(s: State)
    requires Runs.Reachable(Init, Next, s)
    requires !s.alive && !(s.herald.Drained? && s.setters == map[] && s.subscribers == map[])
    ensures exists a: Action :: Enabled(s, a) && Leftover(a)
  {
    ReachableInv(s);
    StepLeft(s);
  }

  lemma StepLeft(s: State)
    requires Inv(s) && !s.alive && !(s.herald.Drained? && s.setters == map[] && s.subscribers == map[])
    ensures exists a: Action :: Enabled(s, a) && Leftover(a)
  {
    if s.lock.Some? {
      assert WaiterInv(s, s.lock.value);
      assert Enabled(s, Push(s.lock.value));
    } else if !s.herald.Drained? {
      assert Enabled(s, match s.herald case Swapped(_) => StoreFailure case Stored(_) => RunHandler case _ => DrainWaiters);
    } else if s.setters != map[] {
      var h :| h in s.setters;
      assert Enabled(s, match s.setters[h] case Installed => ReadAlive(h) case SawDead => LoadFailure(h, [])
                        case ReadFailure(_) => RunRegistered(h));
    } else {
      var w :| w in s.subscribers;
      assert WaiterInv(s, w);
      assert Enabled(s, if s.subscribers[w].Arriving? then FirstCheck(w) else LockedCheck(w));
    }
  }

  // -- how long the leftover threads take

  function HeraldWork(h: Herald): nat {
    match h
    case Nobody => 4
    case Swapped(_) => 3
    case Stored(_) => 2
    case Notified(_) => 1
    case Drained(_) => 0
  }

  function Unread(setters: map<HandlerId, Setter>): set<HandlerId> {
    set h | h in setters && !setters[h].ReadFailure?
  }

  function Unchecked(setters: map<HandlerId, Setter>): set<HandlerId> {
    set h | h in setters && setters[h].Installed?
  }

  function Outside(subscribers: map<WaiterId, Subscriber>): set<WaiterId> {
    set w | w in subscribers && !subscribers[w].Holding?
  }

  function Arrivals(subscribers: map<WaiterId, Subscriber>): set<WaiterId> {
    set w | w in subscribers && subscribers[w].Arriving?
  }

  function SetterWork(setters: map<HandlerId, Setter>): nat {
    |setters| + |Unread(setters)| + |Unchecked(setters)|
  }

  function SubscriberWork(subscribers: map<WaiterId, Subscriber>): nat {
    |subscribers| + |Outside(subscribers)| + |Arrivals(subscribers)|
  }

  /** The steps the threads in progress have still to take. */
  function Work(s: State): nat { HeraldWork(s.herald) + SetterWork(s.setters) + SubscriberWork(s.subscribers) }

  predicate Leftover(a: Action) { !a.MarkDead? && !a.Install? && !a.Subscribe? }

  function SetterRank(x: Setter): nat { if x.Installed? then 3 else if x.SawDead? then 2 else 1 }

  function SubscriberRank(x: Subscriber): nat { if x.Arriving? then 3 else if x.SawAlive? then 2 else 1 }

  lemma SetterOut(setters: map<HandlerId, Setter>, h: HandlerId)
    requires h in setters
    ensures SetterWork(setters) == SetterWork(setters - {h}) + SetterRank(setters[h])
  {
    var rest := setters - {h};
    assert rest.Keys == setters.Keys - {h};
    assert Unread(rest) == Unread(setters) - {h} && Unchecked(rest) == Unchecked(setters) - {h};
    assert h in Unread(setters) <==> !setters[h].ReadFailure?;
    assert h in Unchecked(setters) <==> setters[h].Installed?;
  }

  lemma SetterMoves(setters: map<HandlerId, Setter>, h: HandlerId, x: Setter)
    requires h in setters
    ensures SetterWork(setters[h := x]) + SetterRank(setters[h]) == SetterWork(setters) + SetterRank(x)
  {
    SetterOut(setters, h);
    SetterOut(setters[h := x], h);
    assert setters[h := x] - {h} == setters - {h};
  }

  lemma SubscriberOut(subscribers: map<WaiterId, Subscriber>, w: WaiterId)
    requires w in subscribers
    ensures SubscriberWork(subscribers) == SubscriberWork(subscribers - {w}) + SubscriberRank(subscribers[w])
  {
    var rest := subscribers - {w};
    assert rest.Keys == subscribers.Keys - {w};
    assert Outside(rest) == Outside(subscribers) - {w} && Arrivals(rest) == Arrivals(subscribers) - {w};
    assert w in Outside(subscribers) <==> !subscribers[w].Holding?;
    assert w in Arrivals(subscribers) <==> subscribers[w].Arriving?;
  }

  lemma SetterShrinks(s: State, a: Action)
    requires !s.alive && Enabled(s, a) && (a.ReadAlive? || a.LoadFailure? || a.RunRegistered?)
    ensures Work(SetterStep(s, a)) < Work(s) && !SetterStep(s, a).alive
  {
    match a
    case ReadAlive(h) => SetterMoves(s.setters, h, SawDead);
    case LoadFailure(h, output) => SetterMoves(s.setters, h, ReadFailure(ReadBack(s, output)));
    case RunRegistered(h) => SetterOut(s.setters, h);
  }

  lemma WorkShrinks(s: State, a: Action)
    requires !s.alive && Enabled(s, a) && Leftover(a) && (s.lock.Some? ==> s.lock.value in s.subscribers)
    ensures !Apply(s, a).alive && Work(Apply(s, a)) < Work(s)
  {
    if a.ReadAlive? || a.LoadFailure? || a.RunRegistered? { SetterShrinks(s, a); }
    else if a.FirstCheck? || a.LockedCheck? || a.Push? { SubscriberOut(s.subscribers, a.w); }
  }

  /** A step of a thread in progress. */
  ghost predicate LeftoverNext(s: State, t: State) {
    exists a :: Enabled(s, a) && Leftover(a) && t == Apply(s, a)
  }

  /** After death, however the threads in progress are scheduled, they take a bounded number of steps, and
      when none of them has one left every notice has been given. */
  lemma NoticesComplete(run: seq<State>)
    requires Runs.IsRun(LeftoverNext, run) && Runs.Reachable(Init, Next, run[0]) && !run[0].alive
    ensures |run| <= Work(run[0]) + 1
    ensures var last := run[|run| - 1];
            (forall t :: !LeftoverNext(last, t)) ==>
              && last.herald.Drained? && (last.handler.Some? ==> HasRun(last, last.handler.value))
              && (forall w :: w in last.knownWaiters <==> w in last.signals)
  {
    ReachableInv(run[0]);
    var inv := (s: State) => Inv(s) && !s.alive;
    forall s, t | inv(s) && LeftoverNext(s, t) ensures inv(t) && Work(t) < Work(s) {
      var a :| Enabled(s, a) && Leftover(a) && t == Apply(s, a);
      assert Next(s, t);
      StepKeeps(s, t);
      if s.lock.Some? { assert WaiterInv(s, s.lock.value); }
      WorkShrinks(s, a);
    }
    Runs.WorkBounds(LeftoverNext, inv, Work, run);
    var last := run[|run| - 1];
    if forall t :: !LeftoverNext(last, t) { AllDone(last); }
  }

  lemma AllDone(s: State)
    requires Inv(s) && !s.alive && forall t :: !LeftoverNext(s, t)
    ensures s.herald.Drained? && (s.handler.Some? ==> HasRun(s, s.handler.value))
    ensures forall w :: w in s.knownWaiters <==> w in s.signals
  {
    assert forall a :: Enabled(s, a) && Leftover(a) ==> LeftoverNext(s, Apply(s, a));
    Settled(s);
    forall w ensures w in s.knownWaiters <==> w in s.signals { assert WaiterInv(s, w); }
  }

  lemma Settled(s: State)
    requires Inv(s) && !s.alive && forall a :: Enabled(s, a) ==> !Leftover(a)
    ensures s.herald.Drained? && s.setters == map[] && s.subscribers == map[]
  {
    if !(s.herald.Drained? && s.setters == map[] && s.subscribers == map[]) {
      StepLeft(s);
    }
  }

  /** What was reported or recorded stays so. */
  ghost predicate Later(s: State, t: State) {
    && (!s.alive ==> !t.alive)
    && (s.failure.Some? ==> t.failure == s.failure)
    && s.runs <= t.runs && s.signals <= t.signals
  }

  lemma StepLater(s: State, a: Action)
    requires HeraldInv(s) && Enabled(s, a)
    ensures Later(s, Apply(s, a))
  {
  }

  /** The first failure is kept for the rest of every run, and so is every notice given. */
  lemma FirstFailureForever(run: seq<State>, i: nat, j: nat)
    requires Runs.IsRun(Next, run) && Init(run[0]) && i <= j < |run|
    ensures Later(run[i], run[j])
  {
    forall s, t | Inv(s) && Next(s, t) ensures Inv(t) && Later(s, t) {
      StepKeeps(s, t);
      var a :| Enabled(s, a) && t == Apply(s, a);
      StepLater(s, a);
    }
    Runs.Ordered(Next, Inv, Later, run, i, j);
  }

  // ---------------------------------------------------------------- one thread at a time

  /** The step if it is enabled. */
  function Do(s: State, a: Action): State {
    if Enabled(s, a) then Apply(s, a) else s
  }

  function Subscription(s: State, w: WaiterId): State {
    Do(Do(Do(Do(s, Subscribe(w)), FirstCheck(w)), LockedCheck(w)), Push(w))
  }

  lemma SubscriptionAlone(s: State, w: WaiterId)
    requires w !in s.knownWaiters && s.subscribers == map[] && s.lock == None
    ensures Subscription(s, w) == (if s.alive then s.(waiters := s.waiters + [w], knownWaiters := s.knownWaiters + {w})
                                   else s.(signals := s.signals + [w], knownWaiters := s.knownWaiters + {w}))
  {
    assert map[w := Arriving] - {w} == map[] && map[w := Holding] - {w} == map[];
    var s1 := Do(s, Subscribe(w));
    var s2 := Do(s1, FirstCheck(w));
    var s3 := Do(s2, LockedCheck(w));
    if s.alive {
      assert s2 == s1.(subscribers := map[w := SawAlive]);
      assert s3 == s1.(subscribers := map[w := Holding], lock := Some(w));
    } else {
      assert s2 == s.(signals := s.signals + [w], knownWaiters := s.knownWaiters + {w});
    }
  }

  function Registration(s: State, h: HandlerId, output: Diagnostics): State {
    Do(Do(Do(Do(s, Install(h)), ReadAlive(h)), LoadFailure(h, output)), RunRegistered(h))
  }

  lemma RegistrationAlone(s: State, h: HandlerId, output: Diagnostics)
    requires h !in s.knownHandlers && s.setters == map[]
    ensures Registration(s, h, output) ==
            var t := s.(handler := Some(h), knownHandlers := s.knownHandlers + {h});
            if s.alive || s.failure.None? then t else Run(t, Report(s.failure.value, output))
  {
    assert map[h := Installed] - {h} == map[];
    var s1 := Do(s, Install(h));
    var s2 := Do(s1, ReadAlive(h));
    var s3 := Do(s2, LoadFailure(h, output));
    if !s.alive {
      assert s2 == s1.(setters := map[h := SawDead]);
      assert s3 == s1.(setters := map[h := ReadFailure(ReadBack(s, output))]);
      assert s3.setters - {h} == map[];
    }
  }

  function Death(s: State, f: Failure): State {
    Do(Do(Do(Do(s, MarkDead(f)), StoreFailure), RunHandler), DrainWaiters)
  }

  lemma DeathAlone(s: State, f: Failure)
    requires s.lock == None && (if s.alive then s.herald.Nobody? else s.herald.Drained?)
    ensures Death(s, f) == if !s.alive then s else
              Run(s, Report(f, [])).(alive := false, failure := Some(f), signals := s.signals + s.waiters, waiters := [],
                         herald := Drained(f))
  {
    var s1 := Do(s, MarkDead(f));
    var s2 := Do(s1, StoreFailure);
    var s3 := Do(s2, RunHandler);
    if s.alive {
      assert s2 == s.(alive := false, failure := Some(f), herald := Stored(f));
      assert s3 == Run(s, Report(f, [])).(alive := false, failure := Some(f), herald := Notified(f));
    }
  }

  /** `ProcessState` used by one thread at a time; every method is the uninterrupted sequence of its
      steps. */
  class ProcessState {
    var alive: bool
    var failure: Option<Failure>
    var handler: Option<HandlerId>
    var waiters: seq<WaiterId>
    var runs: seq<(HandlerId, Report)>
    var signals: seq<WaiterId>
    ghost var herald: Herald
    ghost var handlers: set<HandlerId>
    ghost var subscribed: set<WaiterId>

    ghost function View(): State reads this {
      State(alive, failure, handler, waiters, herald, map[], map[], None, runs, signals, handlers, subscribed)
    }

    ghost predicate Valid() reads this {
      && (alive <==> herald.Nobody?) && (alive || herald.Drained?)
      && (herald.Drained? ==> failure == Some(herald.failure))
    }

    constructor ()
      ensures Valid() && Init(View())
    {
      alive, failure, handler, waiters, runs, signals := true, None, None, [], [], [];
      herald, handlers, subscribed := Nobody, {}, {};
    }

    method MarkDead(f: Failure)
      requires Valid()
      modifies this
      ensures Valid() && !alive
      ensures View() == Death(old(View()), f)
    {
      DeathAlone(View(), f);
      var was := alive;
      alive := false;
      if was {
        failure := Some(f);
        if handler.Some? { runs := runs + [(handler.value, Report(f, []))]; }
        ghost var before := signals;
        ghost var all := waiters;
        while waiters != []
          invariant signals + waiters == before + all
          modifies `signals, `waiters
          decreases |waiters|
        {
          signals := signals + [waiters[0]];
          waiters := waiters[1..];
        }
        herald := Drained(f);
      }
    }

    method SetFailureHandler(h: HandlerId, output: Diagnostics)
      requires Valid() && h !in handlers
      modifies this
      ensures Valid()
      ensures View() == Registration(old(View()), h, output)
      ensures !alive ==> runs == old(runs) + [(h, Report(failure.value, output))]
    {
      RegistrationAlone(View(), h, output);
      handler := Some(h);
      handlers := handlers + {h};
      if !alive && failure.Some? && handler.Some? {
        runs := runs + [(handler.value, Report(failure.value, output))];
      }
    }

    method SubscribeExit(w: WaiterId)
      requires Valid() && w !in subscribed
      modifies this
      ensures Valid()
      ensures View() == Subscription(old(View()), w)
    {
      SubscriptionAlone(View(), w);
      subscribed := subscribed + {w};
      if alive {
        waiters := waiters + [w];
      } else {
        signals := signals + [w];
      }
    }
  }
}
