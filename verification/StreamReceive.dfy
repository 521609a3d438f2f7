/** The receiving half of one stream: `receive` of the client session (`transport/stream_session.rs`)
    against the provider's receive handler (`server.rs`), for every provider behaviour. */
module StreamReceive {
  import Runs

  type CallId = nat

  /** What the provider's stream returns from one `receive`. `Failed(true)` is a resource-exhausted
      failure, which the handler does not treat as fatal. */
  datatype Produced = GotMessage | GotHalfClose | GotTerminal | Failed(retryable: bool)

  /** What one receive emits for the stream. */
  datatype Event = Message(sequence: nat) | HalfClosed | Terminal | Fatal

  /** The handler's result: a stream event, a retryable refusal, or a failure that says nothing
      about the stream (no such stream, or already cancelled). */
  datatype Result = Emitted(event: Event) | Exhausted | NoStream

  datatype Phase =
    | OnWire
    | Found                     // entry found and not cancelled
    | Claimed                   // receive_in_flight set
    | Produced(result: Result)  // event built, receive_in_flight still set
    | Released(result: Result)  // receive_in_flight cleared
    | Replied(result: Result)

  datatype Entry = Entry(nextOutbound: nat, receiveInFlight: bool, halfClosed: bool,
                         terminalSeen: bool, cancelled: bool)

  datatype Client = Client(nextReceive: nat, receiveInFlight: bool, peerHalfClosed: bool,
                           terminalSeen: bool, cancelled: bool)

  /** `emitted` is what the handler built, in order; `delivered` what the client handed to its caller;
      `violated` records that the client took one of its protocol-violation branches. `answers` is what the
      provider's stream returned, in order, and `dropped` whether the stream was cancelled from outside. */
  datatype State = State(client: Client, entry: Entry, calls: map<CallId, Phase>, used: set<CallId>,
                         emitted: seq<Event>, delivered: seq<Event>, violated: bool,
                         answers: seq<Produced>, dropped: bool)

  // ---------------------------------------------------------------- provider handler

  /** The entry after one `receive` of the provider's stream, and the result built from it. */
  function Produce(e: Entry, p: Produced): (Entry, Result) {
    match p
    case GotMessage =>
      if e.halfClosed || e.terminalSeen then (e, Emitted(Fatal))
      else (e.(nextOutbound := e.nextOutbound + 1), Emitted(Message(e.nextOutbound)))
    case GotHalfClose =>
      (e.(halfClosed := true), Emitted(if e.halfClosed then Fatal else HalfClosed))
    case GotTerminal =>
      (e.(terminalSeen := true), Emitted(if e.terminalSeen then Fatal else Terminal))
    case Failed(retryable) =>
      (e, if retryable then Exhausted else Emitted(Fatal))
  }

  function Extend(log: seq<Event>, r: Result): seq<Event> {
    if r.Emitted? then log + [r.event] else log
  }

  predicate Ends(r: Result) { r == Emitted(Terminal) || r == Emitted(Fatal) }

  // ---------------------------------------------------------------- client

  /** The client's reading of a response, and whether it is one of its violation branches. */
  function Consume(k: Client, r: Result): (Client, bool) {
    match r
    case Emitted(Message(n)) =>
      if k.peerHalfClosed || n != k.nextReceive then (k, true)
      else (k.(nextReceive := k.nextReceive + 1), false)
    case Emitted(HalfClosed) => (k.(peerHalfClosed := true), k.peerHalfClosed)
    case Emitted(Terminal) => (k.(terminalSeen := true), k.terminalSeen)
    case _ => (k, false)
  }

  // ---------------------------------------------------------------- steps

  datatype Action =
    | Issue(c: CallId)
    | Find(c: CallId)
    | Claim(c: CallId)
    | Receive(c: CallId, p: Produced)
    | Release(c: CallId)
    | Reply(c: CallId)
    | Settle(c: CallId)
    | CancelStream
    | CancelClient

  predicate Enabled(s: State, a: Action) {
    match a
    case Issue(c) => c !in s.used
    case Find(c) => c in s.calls && s.calls[c].OnWire?
    case Claim(c) => c in s.calls && s.calls[c].Found?
    case Receive(c, _) => c in s.calls && s.calls[c].Claimed?
    case Release(c) => c in s.calls && s.calls[c].Produced?
    case Reply(c) => c in s.calls && s.calls[c].Released?
    case Settle(c) => c in s.calls && s.calls[c].Replied?
    case CancelStream => true
    case CancelClient => true
  }

  /** The client's own guards: one receive at a time, none after a terminal or a cancellation. */
  predicate Disciplined(s: State, a: Action) {
    a.Issue? ==> !s.client.receiveInFlight && !s.client.terminalSeen && !s.client.cancelled
  }

  function Apply(s: State, a: Action): State
    requires Enabled(s, a)
  {
    var e := s.entry;
    match a
    case Issue(c) =>
      s.(client := s.client.(receiveInFlight := true), calls := s.calls[c := OnWire], used := s.used + {c})
    case Find(c) =>
      s.(calls := s.calls[c := if e.cancelled then Replied(NoStream) else Found])
    case Claim(c) =>
      if e.receiveInFlight then s.(calls := s.calls[c := Replied(Exhausted)])
      else s.(calls := s.calls[c := Claimed], entry := e.(receiveInFlight := true))
    case Receive(c, p) =>
      var (e', r) := Produce(e, p);
      s.(entry := e', calls := s.calls[c := Produced(r)],
         emitted := Extend(s.emitted, r), answers := s.answers + [p])
    case Release(c) =>
      s.(entry := e.(receiveInFlight := false), calls := s.calls[c := Released(s.calls[c].result)])
    case Reply(c) =>
      s.(entry := e.(cancelled := e.cancelled || Ends(s.calls[c].result)),
         calls := s.calls[c := Replied(s.calls[c].result)])
    case Settle(c) =>
      var r := s.calls[c].result;
      var (k, bad) := Consume(s.client, r);
      s.(client := k.(receiveInFlight := false), calls := s.calls - {c}, violated := s.violated || bad,
         delivered := Extend(s.delivered, r))
    case CancelStream => s.(entry := e.(cancelled := true), dropped := true)
    case CancelClient => s.(client := s.client.(cancelled := true))
  }

  /** Steps when the only caller is this client. */
  ghost predicate Next(s: State, t: State) {
    exists a :: Enabled(s, a) && Disciplined(s, a) && t == Apply(s, a)
  }

  /** Steps when receives may also overlap, as the handler's own interface allows. */
  ghost predicate NextUndisciplined(s: State, t: State) {
    exists a :: Enabled(s, a) && t == Apply(s, a)
  }

  predicate Init(s: State) {
    s == State(Client(0, false, false, false, false), Entry(0, false, false, false, false),
               map[], {}, [], [], false, [], false)
  }

  // ---------------------------------------------------------------- the stream grammar

  predicate IsEnd(x: Event) { x.Terminal? || x.Fatal? }

  /** Message(0), Message(1), ..., then at most one half-close, then at most one end, then nothing. */
  ghost predicate Grammar(log: seq<Event>) {
    && (forall i :: 0 <= i < |log| && log[i].Message? ==> log[i].sequence == i)
    && (forall i, j :: 0 <= i < j < |log| && log[i].HalfClosed? ==> IsEnd(log[j]))
    && (forall i :: 0 <= i < |log| - 1 ==> !IsEnd(log[i]))
  }

  predicate Ended(log: seq<Event>) { |log| > 0 && IsEnd(log[|log| - 1]) }

  /** A log that has not ended is `messages` messages, then perhaps a half-close. */
  ghost predicate Open(log: seq<Event>, messages: nat, halfClosed: bool) {
    && |log| == messages + (if halfClosed then 1 else 0)
    && (forall i :: 0 <= i < |log| ==> log[i] == if i < messages then Message(i) else HalfClosed)
  }

  ghost predicate EntryMatches(e: Entry, log: seq<Event>) {
    && (e.terminalSeen ==> Ended(log))
    && (!Ended(log) ==> Open(log, e.nextOutbound, e.halfClosed))
  }

  ghost predicate ClientMatches(k: Client, log: seq<Event>) {
    && (k.terminalSeen <==> |log| > 0 && log[|log| - 1].Terminal?)
    && (!Ended(log) ==> Open(log, k.nextReceive, k.peerHalfClosed))
  }

  /** Whatever the provider returns, the handler's event continues the grammar. */
  lemma ProduceKeepsGrammar(e: Entry, p: Produced, log: seq<Event>)
    requires Grammar(log) && !Ended(log) && EntryMatches(e, log)
    ensures var (e', r) := Produce(e, p);
            Grammar(Extend(log, r)) && EntryMatches(e', Extend(log, r)) && (Ended(Extend(log, r)) ==> Ends(r))
  {
    var (e', r) := Produce(e, p);
    if r.Emitted? {
      var log' := log + [r.event];
      assert log'[|log'| - 1] == r.event;
      assert forall i :: 0 <= i < |log| ==> log'[i] == log[i];
    }
  }

  /** An event that continues the grammar takes none of the client's violation branches. */
  lemma ConsumeAccepts(k: Client, log: seq<Event>, x: Event)
    requires Grammar(log + [x]) && !Ended(log) && ClientMatches(k, log)
    ensures var (k', bad) := Consume(k, Emitted(x)); !bad && ClientMatches(k', log + [x])
  {
    var log' := log + [x];
    assert log'[|log|] == x == log'[|log'| - 1];
    if k.peerHalfClosed { assert log'[|log| - 1].HalfClosed?; }
  }

  /** An event takes one of the client's violation branches if and only if it does not continue the grammar. */
  lemma ViolatedExactly(k: Client, log: seq<Event>, x: Event)
    requires Grammar(log) && !Ended(log) && ClientMatches(k, log)
    ensures Consume(k, Emitted(x)).1 <==> !Grammar(log + [x])
  {
    var log' := log + [x];
    if Consume(k, Emitted(x)).1 {
      if k.peerHalfClosed { assert log'[|log| - 1].HalfClosed? && !IsEnd(log'[|log|]); }
      else { assert log'[|log|] == x; }
    } else {
      assert forall i :: 0 <= i < |log| ==> log'[i] == log[i];
      assert log'[|log|] == x;
      forall i | 0 <= i < |log'| - 1 ensures !IsEnd(log'[i]) { assert log'[i] == log[i]; }
    }
  }

  // ---------------------------------------------------------------- invariant

  /** The event a call has built and the client has not read. */
  function Built(p: Phase): seq<Event> {
    if (p.Produced? || p.Released? || p.Replied?) && p.result.Emitted? then [p.result.event] else []
  }

  /** Where an unfinished call may be once the stream has ended. */
  predicate AfterEnd(p: Phase, retired: bool) {
    match p
    case OnWire => retired
    case Found => false
    case Claimed => false
    case Produced(r) => Ends(r)
    case Released(r) => Ends(r)
    case Replied(_) => retired
  }

  ghost predicate CallInv(s: State, c: CallId)
    requires c in s.calls
  {
    && s.client.receiveInFlight
    && s.emitted == s.delivered + Built(s.calls[c])
    && (s.entry.receiveInFlight <==> s.calls[c].Claimed? || s.calls[c].Produced?)
    && (Ended(s.emitted) ==> AfterEnd(s.calls[c], s.entry.cancelled))
    && (forall d :: d in s.calls ==> d == c)
  }

  ghost predicate Idle(s: State) {
    && s.emitted == s.delivered
    && !s.entry.receiveInFlight && !s.client.receiveInFlight
    && (Ended(s.emitted) ==> s.entry.cancelled)
  }

  ghost predicate Inv(s: State) {
    && (s.calls == map[] ==> Idle(s))
    && (forall c :: c in s.calls ==> CallInv(s, c))
    && Grammar(s.emitted) && EntryMatches(s.entry, s.emitted) && ClientMatches(s.client, s.delivered)
    && !s.violated
  }

  lemma ReceiveCall(s: State, c: CallId, p: Produced)
    requires Enabled(s, Receive(c, p)) && CallInv(s, c) && !Ended(s.emitted)
    requires Ended(Extend(s.emitted, Produce(s.entry, p).1)) ==> Ends(Produce(s.entry, p).1)
    ensures CallInv(Apply(s, Receive(c, p)), c)
  {
  }

  lemma ReceiveKeeps(s: State, c: CallId, p: Produced)
    requires Inv(s) && Enabled(s, Receive(c, p))
    ensures Inv(Apply(s, Receive(c, p)))
  {
    assert CallInv(s, c);
    ProduceKeepsGrammar(s.entry, p, s.emitted);
    ReceiveCall(s, c, p);
  }

  lemma SettleKeeps(s: State, c: CallId)
    requires Inv(s) && Enabled(s, Settle(c))
    ensures Inv(Apply(s, Settle(c)))
  {
    assert CallInv(s, c);
    var r := s.calls[c].result;
    assert Apply(s, Settle(c)).calls == map[];
    if r.Emitted? {
      if |s.delivered| > 0 { assert s.emitted[|s.delivered| - 1] == s.delivered[|s.delivered| - 1]; }
      ConsumeAccepts(s.client, s.delivered, r.event);
    }
  }

  /** The steps that leave the set of calls alone. */
  lemma OtherCall(s: State, a: Action, c: CallId)
    requires Enabled(s, a) && !a.Receive? && !a.Settle? && !a.Issue? && c in s.calls && CallInv(s, c)
    ensures c in Apply(s, a).calls && CallInv(Apply(s, a), c)
  {
    var t := Apply(s, a);
    assert t.calls.Keys == s.calls.Keys;
    forall d | d in t.calls ensures d == c { assert d in s.calls.Keys; }
  }

  lemma OtherLogs(s: State, a: Action)
    requires Enabled(s, a) && !a.Receive? && !a.Settle? && EntryMatches(s.entry, s.emitted) && ClientMatches(s.client, s.delivered)
    ensures var t := Apply(s, a);
            && t.emitted == s.emitted && t.delivered == s.delivered && t.violated == s.violated
            && EntryMatches(t.entry, t.emitted) && ClientMatches(t.client, t.delivered)
  {
  }

  lemma IssueKeeps(s: State, a: Action)
    requires Inv(s) && Enabled(s, a) && Disciplined(s, a) && a.Issue?
    ensures Inv(Apply(s, a))
  {
    OtherLogs(s, a);
    assert s.calls == map[] by { if c :| c in s.calls { assert CallInv(s, c); } }
    var t := Apply(s, a);
    assert t.calls == map[a.c := OnWire] && a.c in t.calls;
    assert CallInv(t, a.c);
  }

  lemma OtherKeeps(s: State, a: Action)
    requires Inv(s) && Enabled(s, a) && !a.Receive? && !a.Settle? && !a.Issue?
    ensures Inv(Apply(s, a))
  {
    var t := Apply(s, a);
    OtherLogs(s, a);
    forall c | c in t.calls ensures CallInv(t, c) { OtherCall(s, a, c); }
    if s.calls == map[] { OtherIdle(s, a); } else { var c :| c in s.calls; OtherCall(s, a, c); }
  }

  lemma OtherIdle(s: State, a: Action)
    requires Enabled(s, a) && !a.Receive? && !a.Settle? && !a.Issue? && s.calls == map[] && Idle(s)
    ensures Apply(s, a).calls == map[] && Idle(Apply(s, a))
  {
  }

  lemma StepKeeps(s: State, t: State)
    requires Inv(s) && Next(s, t)
    ensures Inv(t)
  {
    var a :| Enabled(s, a) && Disciplined(s, a) && t == Apply(s, a);
    match a
    case Receive(c, p) => ReceiveKeeps(s, c, p);
    case Settle(c) => SettleKeeps(s, c);
    case Issue(_) => IssueKeeps(s, a);
    case _ => OtherKeeps(s, a);
  }

  // ---------------------------------------------------------------- what the protocol promises

  /** What the client delivered is what the handler emitted, less at most one event in transit. */
  ghost predicate InStep(s: State) {
    s.emitted == s.delivered || exists x :: s.emitted == s.delivered + [x]
  }

  /** Composed with the client, the handler emits by the grammar for every provider, the client
      delivers exactly those events in that order, and never reports a protocol violation. */
  lemma ReceiveSafety(s: State)
    requires Runs.Reachable(Init, Next, s)
    ensures Grammar(s.emitted) && Grammar(s.delivered) && InStep(s) && !s.violated
  {
    forall t, u | Inv(t) && Next(t, u) ensures Inv(u) { StepKeeps(t, u); }
    Runs.InEveryReachable(Init, Next, Inv, s);
    InvPromises(s);
  }

  /** The client's guard is set exactly while a receive is under way, so after every one the next may be issued unless
      a terminal was delivered or the client cancelled. */
  lemma GuardExactly(s: State)
    requires Runs.Reachable(Init, Next, s)
    ensures s.client.receiveInFlight <==> s.calls != map[]
    ensures s.client.terminalSeen <==> |s.delivered| > 0 && s.delivered[|s.delivered| - 1].Terminal?
    ensures Apply(s, CancelClient).client == s.client.(cancelled := true)
  {
    forall t, u | Inv(t) && Next(t, u) ensures Inv(u) { StepKeeps(t, u); }
    Runs.InEveryReachable(Init, Next, Inv, s);
    if s.calls != map[] { var c :| c in s.calls; assert CallInv(s, c); }
  }

  lemma InvPromises(s: State)
    requires Inv(s)
    ensures Grammar(s.delivered) && InStep(s)
  {
    if c :| c in s.calls {
      assert CallInv(s, c);
      if Built(s.calls[c]) != [] { assert s.emitted == s.delivered + [s.calls[c].result.event]; }
      assert forall i :: 0 <= i < |s.delivered| ==> s.delivered[i] == s.emitted[i];
    }
  }

  // ---------------------------------------------------------------- what the provider's stream returned

  function Messages(answers: seq<Produced>): nat {
    if answers == [] then 0
    else Messages(answers[..|answers| - 1]) + (if answers[|answers| - 1].GotMessage? then 1 else 0)
  }

  /** A return that nothing may follow, or that was not allowed to come where it came. */
  predicate OutOfTurn(before: seq<Produced>, p: Produced) {
    match p
    case GotMessage => GotHalfClose in before || GotTerminal in before
    case GotHalfClose => GotHalfClose in before
    case GotTerminal => GotTerminal in before
    case Failed(_) => false
  }

  predicate EndsStream(before: seq<Produced>, p: Produced) {
    OutOfTurn(before, p) || p.GotTerminal? || p == Failed(false)
  }

  /** What the stream says by a return after the others; a failure that may be retried says nothing. */
  function Said(before: seq<Produced>, p: Produced): Result {
    if OutOfTurn(before, p) then Emitted(Fatal)
    else match p
      case GotMessage => Emitted(Message(Messages(before)))
      case GotHalfClose => Emitted(HalfClosed)
      case GotTerminal => Emitted(Terminal)
      case Failed(retryable) => if retryable then Exhausted else Emitted(Fatal)
  }

  /** The whole log, from the returns alone. */
  function Translated(answers: seq<Produced>): seq<Event> {
    if answers == [] then []
    else
      var before, p := answers[..|answers| - 1], answers[|answers| - 1];
      if Said(before, p).Emitted? then Translated(before) + [Said(before, p).event] else Translated(before)
  }

  ghost predicate EntryRecords(e: Entry, answers: seq<Produced>) {
    && (e.halfClosed <==> GotHalfClose in answers)
    && (e.terminalSeen <==> GotTerminal in answers)
    && (!e.halfClosed && !e.terminalSeen ==> e.nextOutbound == Messages(answers))
  }

  /** The handler says what the return means after the ones before it, and records it. */
  lemma ProduceSays(e: Entry, p: Produced, answers: seq<Produced>)
    requires EntryRecords(e, answers)
    ensures Produce(e, p).1 == Said(answers, p) && EntryRecords(Produce(e, p).0, answers + [p])
    ensures Extend(Translated(answers), Produce(e, p).1) == Translated(answers + [p])
  {
    var longer := answers + [p];
    assert longer[..|longer| - 1] == answers && longer[|longer| - 1] == p;
    assert forall q :: q in longer <==> q in answers || q == p;
  }

  ghost predicate Translates(s: State) { s.emitted == Translated(s.answers) && EntryRecords(s.entry, s.answers) }

  lemma ReceiveTranslates(s: State, c: CallId, p: Produced)
    requires Translates(s) && Enabled(s, Receive(c, p))
    ensures Translates(Apply(s, Receive(c, p)))
  {
    ProduceSays(s.entry, p, s.answers);
  }

  lemma RestTranslates(s: State, a: Action)
    requires Enabled(s, a) && !a.Receive?
    ensures var t := Apply(s, a);
            && t.emitted == s.emitted && t.answers == s.answers
            && t.entry == s.entry.(receiveInFlight := t.entry.receiveInFlight, cancelled := t.entry.cancelled)
  {
  }

  lemma TranslatesStep(s: State, a: Action)
    requires Translates(s) && Enabled(s, a)
    ensures Translates(Apply(s, a))
  {
    if a.Receive? { ReceiveTranslates(s, a.c, a.p); } else { RestTranslates(s, a); }
  }

  /** In every interleaving, overlapping receives included, the emitted events are the translation of what the
      provider's stream returned: every message with its number among the messages, the half-close, the
      terminal, a fatal event for a failure that may not be retried or a return out of turn, nothing else. */
  lemma EmittedIsTranslated(s: State)
    requires Runs.Reachable(Init, NextUndisciplined, s)
    ensures s.emitted == Translated(s.answers)
  {
    forall t, u | Translates(t) && NextUndisciplined(t, u) ensures Translates(u) {
      var a :| Enabled(t, a) && u == Apply(t, a);
      TranslatesStep(t, a);
    }
    Runs.InEveryReachable(Init, NextUndisciplined, Translates, s);
  }

  /** The last return ended the stream. */
  predicate EndedByReturn(answers: seq<Produced>) {
    |answers| > 0 && EndsStream(answers[..|answers| - 1], answers[|answers| - 1])
  }

  predicate Answering(s: State) {
    exists c :: c in s.calls && (s.calls[c].Produced? || s.calls[c].Released?)
  }

  ghost predicate RetireInv(s: State) {
    && Inv(s) && Translates(s)
    && (Ended(s.emitted) <==> EndedByReturn(s.answers))
    && (s.entry.cancelled <==> s.dropped || (EndedByReturn(s.answers) && !Answering(s)))
  }

  lemma ReceiveRetires(s: State, c: CallId, p: Produced)
    requires RetireInv(s) && Enabled(s, Receive(c, p))
    ensures RetireInv(Apply(s, Receive(c, p)))
  {
    ReceiveKeeps(s, c, p);
    ReceiveTranslates(s, c, p);
    assert CallInv(s, c);
    ReceiveEnds(s, c, p);
    NotYetRetired(s, c, p);
  }

  lemma ReceiveEnds(s: State, c: CallId, p: Produced)
    requires Translates(s) && Enabled(s, Receive(c, p)) && !Ended(s.emitted)
    ensures Ended(Apply(s, Receive(c, p)).emitted) <==> EndedByReturn(Apply(s, Receive(c, p)).answers)
  {
    var r := Produce(s.entry, p).1;
    ProduceSays(s.entry, p, s.answers);
    SaidEnds(s.answers, p);
    ExtendEnds(s.emitted, r);
  }

  lemma SaidEnds(answers: seq<Produced>, p: Produced)
    ensures Ends(Said(answers, p)) <==> EndedByReturn(answers + [p])
  {
    var longer := answers + [p];
    assert longer[..|longer| - 1] == answers && longer[|longer| - 1] == p;
  }

  lemma ExtendEnds(log: seq<Event>, r: Result)
    requires !Ended(log)
    ensures Ended(Extend(log, r)) <==> Ends(r)
  {
  }

  lemma NotYetRetired(s: State, c: CallId, p: Produced)
    requires Enabled(s, Receive(c, p))
    ensures var t := Apply(s, Receive(c, p)); Answering(t) && t.entry.cancelled == s.entry.cancelled && t.dropped == s.dropped
  {
    var t := Apply(s, Receive(c, p));
    assert c in t.calls && t.calls[c].Produced?;
  }

  lemma ReplyRetires(s: State, c: CallId)
    requires RetireInv(s) && Enabled(s, Reply(c))
    ensures RetireInv(Apply(s, Reply(c)))
    ensures !s.entry.cancelled ==> (Apply(s, Reply(c)).entry.cancelled <==> EndedByReturn(s.answers))
  {
    assert CallInv(s, c);
    OtherKeeps(s, Reply(c));
    assert Answering(s);
    EndsAsLast(s, c);
  }

  /** A call that has built its result ends the stream exactly when the log has ended. */
  lemma EndsAsLast(s: State, c: CallId)
    requires Inv(s) && c in s.calls && s.calls[c].Released?
    ensures Ends(s.calls[c].result) <==> Ended(s.emitted)
  {
    assert CallInv(s, c);
  }

  lemma QuietRetires(s: State, a: Action)
    requires RetireInv(s) && Enabled(s, a) && Disciplined(s, a) && !a.Receive? && !a.Reply?
    ensures RetireInv(Apply(s, a))
  {
    var t := Apply(s, a);
    StepKeeps(s, t);
    if a.Release? { assert t.calls[a.c].Released?; }
    forall c | c in s.calls ensures CallInv(s, c) {}
  }

  lemma ReachableRetires(s: State)
    requires Runs.Reachable(Init, Next, s)
    ensures RetireInv(s)
  {
    forall t, u | RetireInv(t) && Next(t, u) ensures RetireInv(u) {
      var a :| Enabled(t, a) && Disciplined(t, a) && u == Apply(t, a);
      match a
      case Receive(c, p) => ReceiveRetires(t, c, p);
      case Reply(c) => ReplyRetires(t, c);
      case _ => QuietRetires(t, a);
    }
    Runs.InEveryReachable(Init, Next, RetireInv, s);
  }

  /** Composed with the client, a stream that nobody cancelled is retired by a reply if and only if the last
      return ended it, and between receives it is retired if and only if some return has. */
  lemma RetiredExactlyAtEnd(s: State)
    requires Runs.Reachable(Init, Next, s)
    ensures s.calls == map[] ==> (s.entry.cancelled <==> s.dropped || EndedByReturn(s.answers))
    ensures forall c :: Enabled(s, Reply(c)) && !s.entry.cancelled ==>
              (Apply(s, Reply(c)).entry.cancelled <==> EndedByReturn(s.answers))
  {
    ReachableRetires(s);
    forall c | Enabled(s, Reply(c)) && !s.entry.cancelled
      ensures Apply(s, Reply(c)).entry.cancelled <==> EndedByReturn(s.answers)
    {
      ReplyRetires(s, c);
    }
  }

  // ---------------------------------------------------------------- overlapping receives

  lemma Overlapped(s: State, a: Action)
    requires Runs.Reachable(Init, NextUndisciplined, s) && Enabled(s, a)
    ensures Runs.Reachable(Init, NextUndisciplined, Apply(s, a))
  {
    Runs.ReachStep(Init, NextUndisciplined, s, Apply(s, a));
  }

  /** The grammar rests on the client's one-at-a-time guard: the handler clears `receive_in_flight`
      before it retires the stream, so a second receive already past the lookup emits after the end. */
  lemma OverlappingReceivesBreakGrammar() returns (s: State)
    ensures Runs.Reachable(Init, NextUndisciplined, s)
    ensures !Grammar(s.emitted)
  {
    s := State(Client(0, false, false, false, false), Entry(0, false, false, false, false),
               map[], {}, [], [], false, [], false);
    Runs.ReachStart(Init, NextUndisciplined, s);
    Overlapped(s, Issue(0));  s := Apply(s, Issue(0));
    Overlapped(s, Issue(1));  s := Apply(s, Issue(1));
    Overlapped(s, Find(0));   s := Apply(s, Find(0));
    Overlapped(s, Find(1));   s := Apply(s, Find(1));
    Overlapped(s, Claim(0));  s := Apply(s, Claim(0));
    Overlapped(s, Receive(0, GotTerminal));  s := Apply(s, Receive(0, GotTerminal));
    Overlapped(s, Release(0));  s := Apply(s, Release(0));
    Overlapped(s, Claim(1));  s := Apply(s, Claim(1));
    Overlapped(s, Receive(1, GotHalfClose));  s := Apply(s, Receive(1, GotHalfClose));
    assert s.emitted == [Terminal, HalfClosed] && s.emitted[0] == Terminal;
  }
}
