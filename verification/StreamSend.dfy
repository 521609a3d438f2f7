/** The sending half of one stream: the client session of `transport/stream_session.rs`, the
    provider entry of `server.rs`, and a network between them that delays and reorders. */
module StreamSend {
  import Runs

  type CallId = nat

  // ---------------------------------------------------------------- client side

  /** The sending fields of `TransportStreamState`. */
  datatype Client = Client(credit: nat, nextSend: nat, halfClosed: bool, terminalSeen: bool, cancelled: bool)

  predicate MaySend(k: Client) {
    !k.halfClosed && !k.terminalSeen && !k.cancelled
  }

  /** `restore_rejected_send`: the compare-exchange succeeds only when no later sequence was taken. */
  function Restore(k: Client, sequence: nat): Client {
    if k.nextSend == sequence + 1 then k.(nextSend := sequence, credit := k.credit + 1) else k
  }

  // ---------------------------------------------------------------- provider side

  /** The sending fields of `ProviderStreamEntry`. `granted` is the credit stored at open, and
      `lost` counts credits that a fatal provider failure kept. */
  datatype Entry = Entry(credit: nat, nextInbound: nat, sendInFlight: bool,
                         peerHalfClosed: bool, terminalSeen: bool, cancelled: bool,
                         granted: nat, lost: nat)

  predicate Admits(e: Entry, sequence: nat) {
    !e.cancelled && !e.peerHalfClosed && !e.terminalSeen && sequence == e.nextInbound
  }

  // ---------------------------------------------------------------- one call

  datatype Verdict = Accept | Exhaust | Fatal

  datatype Outcome = Accepted(credit: nat) | Exhausted | Failure

  /** Where a send is, one constructor per stretch between two atomic accesses. */
  datatype Phase =
    | Credited                    // client credit taken, no sequence number yet
    | Sequenced                   // sequence number taken, not yet submitted
    | OnWire                      // request travelling
    | Checked                     // provider checks passed
    | Claimed                     // send_in_flight set
    | Charged                     // inbound credit taken
    | Acted(verdict: Verdict)     // provider answered, send_in_flight cleared
    | Bumped                      // next_inbound_sequence advanced
    | Replied(outcome: Outcome)   // response travelling

  datatype Call = Call(sequence: nat, phase: Phase)

  predicate HasSequence(c: Call) { !c.phase.Credited? }

  /** The provider has accepted the message and counted it. */
  predicate Counted(c: Call) { c.phase.Bumped? || (c.phase.Replied? && c.phase.outcome.Accepted?) }

  /** Past the provider's checks and not yet counted or refused. */
  predicate InWindow(c: Call) { c.phase.Checked? || c.phase.Claimed? || c.phase.Charged? || c.phase.Acted? }

  predicate Holding(c: Call) { c.phase.Charged? || c.phase.Acted? || c.phase.Bumped? }

  datatype Logged = Logged(call: CallId, sequence: nat)

  /** History, next to the two ends and the unfinished calls: `log` is what the provider accepted, in
      order; `ok` the sends that returned `Ok`, with their sequence; `before` the sends that had
      returned `Ok` when a send was issued; `owner` the send that last took a sequence number. */
  datatype State = State(client: Client, entry: Entry, calls: map<CallId, Call>,
                         log: seq<Logged>, ok: map<CallId, nat>, before: map<CallId, set<CallId>>,
                         owner: map<nat, CallId>)

  // ---------------------------------------------------------------- steps

  datatype Submission = Sent | Full | Broken

  /** Steps of the session that sends. */
  datatype ClientAction =
    | TakeSequence(c: CallId)
    | Submit(c: CallId, how: Submission)
    | Settle(c: CallId)

  /** Steps of the provider thread that serves the call. */
  datatype ProviderAction =
    | Check(c: CallId)
    | Claim(c: CallId)
    | Charge(c: CallId)
    | Act(c: CallId, verdict: Verdict)
    | Finish(c: CallId)
    | ReturnCredit(c: CallId)

  /** A new send, a step of an unfinished one, or anything the receiving half, a half-close, a
      cancellation or a retirement may do to the flags of either end in the meantime. */
  datatype Action =
    | TakeCredit(c: CallId)
    | AtClient(k: ClientAction)
    | AtProvider(p: ProviderAction)
    | ClientFlags(halfClosed: bool, terminalSeen: bool, cancelled: bool)
    | EntryFlags(peerHalfClosed: bool, terminalSeen: bool, cancel: bool)

  predicate At(s: State, c: CallId, p: Phase) { c in s.calls && s.calls[c].phase == p }

  predicate ClientEnabled(s: State, a: ClientAction) {
    match a
    case TakeSequence(c) => At(s, c, Credited)
    case Submit(c, _) => At(s, c, Sequenced)
    case Settle(c) => c in s.calls && s.calls[c].phase.Replied?
  }

  predicate ProviderEnabled(s: State, a: ProviderAction) {
    match a
    case Check(c) => At(s, c, OnWire)
    case Claim(c) => At(s, c, Checked)
    case Charge(c) => At(s, c, Claimed)
    case Act(c, _) => At(s, c, Charged)
    case Finish(c) => c in s.calls && s.calls[c].phase.Acted?
    case ReturnCredit(c) => At(s, c, Bumped)
  }

  predicate Enabled(s: State, a: Action) {
    match a
    case TakeCredit(c) => MaySend(s.client) && s.client.credit > 0 && c !in s.before
    case AtClient(k) => ClientEnabled(s, k)
    case AtProvider(p) => ProviderEnabled(s, p)
    case ClientFlags(_, _, _) => true
    case EntryFlags(_, _, _) => true
  }

  function Move(s: State, c: CallId, p: Phase): State
    requires c in s.calls
  {
    s.(calls := s.calls[c := s.calls[c].(phase := p)])
  }

  /** The caller got a result other than `Ok`; a retryable refusal first tries the rollback. */
  function Dismiss(s: State, c: CallId, retryable: bool): State
    requires c in s.calls
  {
    s.(client := if retryable then Restore(s.client, s.calls[c].sequence) else s.client,
       calls := s.calls - {c})
  }

  function ClientStep(s: State, a: ClientAction): State
    requires ClientEnabled(s, a)
  {
    var k := s.client;
    match a
    case TakeSequence(c) =>
      s.(client := k.(nextSend := k.nextSend + 1), calls := s.calls[c := Call(k.nextSend, Sequenced)],
         owner := s.owner[k.nextSend := c])
    case Submit(c, how) =>
      if how.Sent? then Move(s, c, OnWire) else Dismiss(s, c, how.Full?)
    case Settle(c) =>
      match s.calls[c].phase.outcome
      case Accepted(n) =>
        s.(client := k.(credit := n), calls := s.calls - {c}, ok := s.ok[c := s.calls[c].sequence])
      case Exhausted => Dismiss(s, c, true)
      case Failure => Dismiss(s, c, false)
  }

  function ProviderStep(s: State, a: ProviderAction): State
    requires ProviderEnabled(s, a)
  {
    var e := s.entry;
    match a
    case Check(c) =>
      Move(s, c, if Admits(e, s.calls[c].sequence) then Checked else Replied(Failure))
    case Claim(c) =>
      if e.sendInFlight then Move(s, c, Replied(Exhausted))
      else Move(s, c, Claimed).(entry := e.(sendInFlight := true))
    case Charge(c) =>
      if e.credit == 0 then Move(s, c, Replied(Exhausted)).(entry := e.(sendInFlight := false))
      else Move(s, c, Charged).(entry := e.(credit := e.credit - 1))
    case Act(c, v) =>
      Move(s, c, Acted(v)).(entry := e.(sendInFlight := false),
                            log := if v.Accept? then s.log + [Logged(c, s.calls[c].sequence)] else s.log)
    case Finish(c) =>
      (match s.calls[c].phase.verdict
       case Accept => Move(s, c, Bumped).(entry := e.(nextInbound := e.nextInbound + 1))
       case Exhaust => Move(s, c, Replied(Exhausted)).(entry := e.(credit := e.credit + 1))
       case Fatal => Move(s, c, Replied(Failure)).(entry := e.(cancelled := true, lost := e.lost + 1)))
    case ReturnCredit(c) =>
      Move(s, c, Replied(Accepted(e.credit + 1))).(entry := e.(credit := e.credit + 1))
  }

  function Apply(s: State, a: Action): State
    requires Enabled(s, a)
  {
    match a
    case TakeCredit(c) =>
      s.(client := s.client.(credit := s.client.credit - 1), calls := s.calls[c := Call(0, Credited)],
         before := s.before[c := s.ok.Keys])
    case AtClient(k) => ClientStep(s, k)
    case AtProvider(p) => ProviderStep(s, p)
    case ClientFlags(h, t, x) => s.(client := s.client.(halfClosed := h, terminalSeen := t, cancelled := x))
    case EntryFlags(h, t, x) =>
      s.(entry := s.entry.(peerHalfClosed := h, terminalSeen := t, cancelled := s.entry.cancelled || x))
  }

  ghost predicate Next(s: State, t: State) {
    exists a :: Enabled(s, a) && t == Apply(s, a)
  }

  /** A freshly opened stream: both ends hold the granted credit. */
  ghost predicate Init(s: State) {
    && s.entry.granted > 0
    && s.client == Client(s.entry.granted, 0, false, false, false)
    && s.entry == Entry(s.entry.granted, 0, false, false, false, false, s.entry.granted, 0)
    && s.calls == map[] && s.log == [] && s.ok == map[] && s.before == map[] && s.owner == map[]
  }

  // ---------------------------------------------------------------- invariant

  /** Accepted by the provider, counted or about to be. */
  predicate InLog(c: Call) { Counted(c) || c.phase == Acted(Accept) }

  ghost predicate CallInv(s: State, c: CallId)
    requires c in s.calls
  {
    var x := s.calls[c];
    && c in s.before && c !in s.ok && s.before[c] <= s.ok.Keys
    && (HasSequence(x) ==>
          && x.sequence < s.client.nextSend
          && x.sequence in s.owner && s.owner[x.sequence] == c
          && (Counted(x) <==> x.sequence < s.entry.nextInbound)
          && (InWindow(x) ==> x.sequence == s.entry.nextInbound)
          && (InLog(x) ==> x.sequence < |s.log| && s.log[x.sequence].call == c)
          && (forall b :: b in s.before[c] ==> s.ok[b] < x.sequence))
    && (x.phase.Claimed? || x.phase.Charged? ==> s.entry.sendInFlight)
  }

  ghost predicate OkInv(s: State, c: CallId)
    requires c in s.ok
  {
    && c in s.before && s.before[c] <= s.ok.Keys
    && s.ok[c] < s.entry.nextInbound <= |s.log| && s.log[s.ok[c]].call == c
    && (forall b :: b in s.before[c] ==> s.ok[b] < s.ok[c])
  }

  ghost predicate LogInv(s: State, i: nat)
    requires i < |s.log|
  {
    var c := s.log[i].call;
    && s.log[i].sequence == i
    && (|| (c in s.ok && s.ok[c] == i)
        || (c in s.calls && s.calls[c].sequence == i && InLog(s.calls[c])))
  }

  /** The unfinished call that owns the sequence the provider expects next. */
  ghost predicate HasFront(s: State) {
    && s.entry.nextInbound in s.owner
    && s.owner[s.entry.nextInbound] in s.calls
    && s.calls[s.owner[s.entry.nextInbound]].sequence == s.entry.nextInbound
  }

  ghost function Front(s: State): Call
    requires HasFront(s)
  {
    s.calls[s.owner[s.entry.nextInbound]]
  }

  ghost predicate Global(s: State) {
    && s.entry.nextInbound <= s.client.nextSend
    && s.entry.nextInbound <= |s.log| <= s.entry.nextInbound + 1
    && (|s.log| == s.entry.nextInbound + 1 ==> HasFront(s) && Front(s).phase == Acted(Accept))
    && (s.entry.sendInFlight ==> HasFront(s) && (Front(s).phase.Claimed? || Front(s).phase.Charged?))
  }

  /** The sends that have taken a provider credit and not returned it. */
  ghost function Holders(calls: map<CallId, Call>): set<CallId> {
    set c | c in calls && Holding(calls[c])
  }

  ghost predicate Credits(s: State) {
    && s.entry.credit + |Holders(s.calls)| + s.entry.lost == s.entry.granted
    && (s.entry.lost > 0 ==> s.entry.cancelled)
  }

  ghost predicate Inv(s: State) {
    && Global(s)
    && Credits(s)
    && (forall c :: c in s.calls ==> CallInv(s, c))
    && (forall c :: c in s.ok ==> OkInv(s, c))
    && (forall i :: 0 <= i < |s.log| ==> LogInv(s, i))
  }

  // ---------------------------------------------------------------- a client step

  lemma DismissOther(s: State, c: CallId, retryable: bool, d: CallId)
    requires c in s.calls && HasSequence(s.calls[c]) && Global(s) && CallInv(s, c)
    requires d in s.calls && d != c && CallInv(s, d)
    ensures d in Dismiss(s, c, retryable).calls && CallInv(Dismiss(s, c, retryable), d)
  {
  }

  lemma SettleOther(s: State, a: ClientAction, d: CallId)
    requires ClientEnabled(s, a) && a.Settle? && Global(s) && CallInv(s, a.c)
    requires d in s.calls && d != a.c && CallInv(s, d)
    ensures d in ClientStep(s, a).calls && CallInv(ClientStep(s, a), d)
  {
    if !s.calls[a.c].phase.outcome.Accepted? { DismissOther(s, a.c, s.calls[a.c].phase.outcome.Exhausted?, d); }
  }

  lemma ClientOther(s: State, a: ClientAction, d: CallId)
    requires ClientEnabled(s, a) && Global(s) && CallInv(s, a.c)
    requires d in s.calls && d != a.c && CallInv(s, d)
    ensures d in ClientStep(s, a).calls && CallInv(ClientStep(s, a), d)
  {
    match a
    case TakeSequence(_) =>
    case Submit(c, how) => DismissOther(s, c, how.Full?, d);
    case Settle(_) => SettleOther(s, a, d);
  }

  lemma ClientSame(s: State, a: ClientAction)
    requires ClientEnabled(s, a) && Global(s) && CallInv(s, a.c)
    requires forall b :: b in s.before[a.c] ==> OkInv(s, b)
    ensures a.c in ClientStep(s, a).calls ==> CallInv(ClientStep(s, a), a.c)
  {
  }

  lemma ClientOk(s: State, a: ClientAction, d: CallId)
    requires ClientEnabled(s, a) && Global(s) && CallInv(s, a.c)
    requires d in ClientStep(s, a).ok && (d in s.ok ==> OkInv(s, d))
    ensures OkInv(ClientStep(s, a), d)
  {
  }

  lemma ClientLog(s: State, a: ClientAction, i: nat)
    requires ClientEnabled(s, a) && Global(s) && CallInv(s, a.c)
    requires i < |s.log| && LogInv(s, i)
    requires s.log[i].call in s.calls ==> CallInv(s, s.log[i].call)
    ensures i < |ClientStep(s, a).log| && LogInv(ClientStep(s, a), i)
  {
  }

  lemma ClientGlobal(s: State, a: ClientAction)
    requires ClientEnabled(s, a) && Global(s) && CallInv(s, a.c)
    requires HasFront(s) ==> CallInv(s, s.owner[s.entry.nextInbound])
    ensures Global(ClientStep(s, a))
  {
  }

  lemma ClientCredits(s: State, a: ClientAction)
    requires ClientEnabled(s, a) && Credits(s)
    ensures Credits(ClientStep(s, a))
  {
    assert Holders(ClientStep(s, a).calls) == Holders(s.calls);
  }

  // ---------------------------------------------------------------- a provider step

  predicate Begins(a: ProviderAction) { a.Check? || a.Claim? || a.Charge? }

  lemma BeginOther(s: State, a: ProviderAction, d: CallId)
    requires ProviderEnabled(s, a) && Begins(a) && Global(s) && CallInv(s, a.c)
    requires d in s.calls && d != a.c && CallInv(s, d)
    ensures d in ProviderStep(s, a).calls && CallInv(ProviderStep(s, a), d)
  {
  }

  lemma EndOther(s: State, a: ProviderAction, d: CallId)
    requires ProviderEnabled(s, a) && !Begins(a) && Global(s) && CallInv(s, a.c)
    requires d in s.calls && d != a.c && CallInv(s, d)
    ensures d in ProviderStep(s, a).calls && CallInv(ProviderStep(s, a), d)
  {
  }

  lemma ProviderOther(s: State, a: ProviderAction, d: CallId)
    requires ProviderEnabled(s, a) && Global(s) && CallInv(s, a.c)
    requires d in s.calls && d != a.c && CallInv(s, d)
    ensures d in ProviderStep(s, a).calls && CallInv(ProviderStep(s, a), d)
  {
    if Begins(a) { BeginOther(s, a, d); } else { EndOther(s, a, d); }
  }

  lemma BeginSame(s: State, a: ProviderAction)
    requires ProviderEnabled(s, a) && Begins(a) && Global(s) && CallInv(s, a.c)
    ensures a.c in ProviderStep(s, a).calls && CallInv(ProviderStep(s, a), a.c)
  {
  }

  lemma EndSame(s: State, a: ProviderAction)
    requires ProviderEnabled(s, a) && !Begins(a) && Global(s) && CallInv(s, a.c)
    ensures a.c in ProviderStep(s, a).calls && CallInv(ProviderStep(s, a), a.c)
  {
  }

  lemma ProviderSame(s: State, a: ProviderAction)
    requires ProviderEnabled(s, a) && Global(s) && CallInv(s, a.c)
    ensures a.c in ProviderStep(s, a).calls && CallInv(ProviderStep(s, a), a.c)
  {
    if Begins(a) { BeginSame(s, a); } else { EndSame(s, a); }
  }

  lemma ProviderOk(s: State, a: ProviderAction, d: CallId)
    requires ProviderEnabled(s, a) && Global(s) && CallInv(s, a.c)
    requires d in s.ok && OkInv(s, d)
    ensures d in ProviderStep(s, a).ok && OkInv(ProviderStep(s, a), d)
  {
  }

  lemma ProviderLog(s: State, a: ProviderAction, i: nat)
    requires ProviderEnabled(s, a) && Global(s) && CallInv(s, a.c)
    requires i < |ProviderStep(s, a).log| && (i < |s.log| ==> LogInv(s, i))
    ensures LogInv(ProviderStep(s, a), i)
  {
  }

  lemma ProviderGlobal(s: State, a: ProviderAction)
    requires ProviderEnabled(s, a) && Global(s) && CallInv(s, a.c)
    ensures Global(ProviderStep(s, a))
  {
  }

  lemma HoldersMove(calls: map<CallId, Call>, c: CallId, x: Call)
    requires c in calls
    ensures |Holders(calls[c := x])| + (if Holding(calls[c]) then 1 else 0)
         == |Holders(calls)| + (if Holding(x) then 1 else 0)
  {
    var rest := Holders(calls) - {c};
    assert Holders(calls) == if Holding(calls[c]) then rest + {c} else rest;
    assert Holders(calls[c := x]) == if Holding(x) then rest + {c} else rest;
  }

  function Held(c: Call): nat { if Holding(c) then 1 else 0 }

  ghost predicate Balances(s: State, c: CallId, t: State) {
    var e, f := s.entry, t.entry;
    && c in s.calls && c in t.calls && f.granted == e.granted
    && f.credit + Held(t.calls[c]) + f.lost == e.credit + Held(s.calls[c]) + e.lost
    && (f.lost == e.lost || f.cancelled) && (e.cancelled ==> f.cancelled)
  }

  lemma BeginBalances(s: State, a: ProviderAction)
    requires ProviderEnabled(s, a) && Begins(a)
    ensures Balances(s, a.c, ProviderStep(s, a))
  {
  }

  lemma EndBalances(s: State, a: ProviderAction)
    requires ProviderEnabled(s, a) && !Begins(a)
    ensures Balances(s, a.c, ProviderStep(s, a))
  {
  }

  /** What a provider step does to the call's hold and to the credit balances out. */
  lemma ProviderBalance(s: State, a: ProviderAction)
    requires ProviderEnabled(s, a)
    ensures Balances(s, a.c, ProviderStep(s, a))
  {
    if Begins(a) { BeginBalances(s, a); } else { EndBalances(s, a); }
  }

  /** A step of one call moves that call and no other. */
  ghost predicate MovesOnly(s: State, c: CallId, t: State) {
    c in t.calls && t.calls == s.calls[c := t.calls[c]]
  }

  lemma BeginMoves(s: State, a: ProviderAction)
    requires ProviderEnabled(s, a) && Begins(a)
    ensures MovesOnly(s, a.c, ProviderStep(s, a))
  {
  }

  lemma EndMoves(s: State, a: ProviderAction)
    requires ProviderEnabled(s, a) && !Begins(a)
    ensures MovesOnly(s, a.c, ProviderStep(s, a))
  {
  }

  lemma ProviderMoves(s: State, a: ProviderAction)
    requires ProviderEnabled(s, a)
    ensures MovesOnly(s, a.c, ProviderStep(s, a))
  {
    if a.Check? || a.Claim? || a.Charge? { BeginMoves(s, a); } else { EndMoves(s, a); }
  }

  lemma ProviderCredits(s: State, a: ProviderAction)
    requires ProviderEnabled(s, a) && Credits(s)
    ensures Credits(ProviderStep(s, a))
  {
    ProviderBalance(s, a);
    ProviderMoves(s, a);
    HoldersMove(s.calls, a.c, ProviderStep(s, a).calls[a.c]);
  }

  // ---------------------------------------------------------------- every step

  lemma ClientKeeps(s: State, a: ClientAction)
    requires Inv(s) && ClientEnabled(s, a)
    ensures Inv(ClientStep(s, a))
  {
    var t := ClientStep(s, a);
    ClientGlobal(s, a);
    ClientCredits(s, a);
    forall d | d in t.calls ensures CallInv(t, d) {
      if d == a.c { ClientSame(s, a); } else { ClientOther(s, a, d); }
    }
    forall d | d in t.ok ensures OkInv(t, d) { ClientOk(s, a, d); }
    forall i | 0 <= i < |t.log| ensures LogInv(t, i) { ClientLog(s, a, i); }
  }

  lemma ProviderKeeps(s: State, a: ProviderAction)
    requires Inv(s) && ProviderEnabled(s, a)
    ensures Inv(ProviderStep(s, a))
  {
    var t := ProviderStep(s, a);
    ProviderGlobal(s, a);
    ProviderCredits(s, a);
    forall d | d in t.calls ensures CallInv(t, d) {
      if d == a.c { ProviderSame(s, a); } else { ProviderOther(s, a, d); }
    }
    forall d | d in t.ok ensures OkInv(t, d) { ProviderOk(s, a, d); }
    forall i | 0 <= i < |t.log| ensures LogInv(t, i) { ProviderLog(s, a, i); }
  }

  lemma OtherCall(s: State, a: Action, d: CallId)
    requires Enabled(s, a) && !a.AtClient? && !a.AtProvider? && (d in s.calls ==> CallInv(s, d))
    requires forall c :: c in s.ok ==> OkInv(s, c)
    ensures d in Apply(s, a).calls ==> CallInv(Apply(s, a), d)
  {
    forall c | c in s.ok ensures c in s.before { assert OkInv(s, c); }
  }

  lemma OtherGlobal(s: State, a: Action)
    requires Inv(s) && Enabled(s, a) && !a.AtClient? && !a.AtProvider?
    ensures Global(Apply(s, a)) && Credits(Apply(s, a))
  {
    assert Holders(Apply(s, a).calls) == Holders(s.calls);
    if HasFront(s) { assert CallInv(s, s.owner[s.entry.nextInbound]); }
  }

  lemma OtherKeeps(s: State, a: Action)
    requires Inv(s) && Enabled(s, a) && !a.AtClient? && !a.AtProvider?
    ensures Inv(Apply(s, a))
  {
    var t := Apply(s, a);
    OtherGlobal(s, a);
    forall d | d in t.calls ensures CallInv(t, d) {
      if d in s.calls { assert CallInv(s, d); }
      OtherCall(s, a, d);
    }
    forall d | d in t.ok ensures OkInv(t, d) { assert OkInv(s, d); }
    forall i | 0 <= i < |t.log| ensures LogInv(t, i) { assert LogInv(s, i); }
  }

  lemma StepKeeps(s: State, t: State)
    requires Inv(s) && Next(s, t)
    ensures Inv(t)
  {
    var a :| Enabled(s, a) && t == Apply(s, a);
    match a
    case AtClient(k) => ClientKeeps(s, k);
    case AtProvider(p) => ProviderKeeps(s, p);
    case _ => OtherKeeps(s, a);
  }

  // ---------------------------------------------------------------- what the protocol promises

  /** No two unfinished sends share a sequence number, and every one was handed out. */
  ghost predicate DistinctOutstanding(s: State) {
    && (forall c :: c in s.calls && HasSequence(s.calls[c]) ==> s.calls[c].sequence < s.client.nextSend)
    && (forall c, d :: c in s.calls && d in s.calls && c != d && HasSequence(s.calls[c]) && HasSequence(s.calls[d])
          ==> s.calls[c].sequence != s.calls[d].sequence)
  }

  /** A send that a refusal may roll back has not been counted by the provider, so the rollback
      cannot make the client reuse a sequence the provider is past. */
  ghost predicate RollbackIsSafe(s: State) {
    && s.entry.nextInbound <= s.client.nextSend
    && (forall c :: c in s.calls && (s.calls[c].phase.Sequenced? || s.calls[c].phase == Replied(Exhausted))
          ==> s.entry.nextInbound <= s.calls[c].sequence)
  }

  /** The provider accepts sequence 0, 1, 2, ... once each, from different sends. */
  ghost predicate AcceptedInOrder(s: State) {
    && (forall i :: 0 <= i < |s.log| ==> s.log[i].sequence == i)
    && (forall i, j :: 0 <= i < j < |s.log| ==> s.log[i].call != s.log[j].call)
  }

  /** A send that returned `Ok` is in the log at its own sequence, after every send that had
      returned `Ok` before it was issued. */
  ghost predicate OkIsAccepted(s: State) {
    forall c :: c in s.ok ==>
      && s.ok[c] < |s.log| && s.log[s.ok[c]].call == c
      && c in s.before
      && (forall b :: b in s.before[c] ==> b in s.ok && s.ok[b] < s.ok[c])
  }

  /** The provider's own guard against overlapping sends never fires; a send that finds no credit
      finds all of it held by other sends; and what an accepted send is about to report is the
      granted credit less what other sends hold. */
  ghost predicate CreditConserved(s: State) {
    && (forall c :: c in s.calls && s.calls[c].phase.Checked? ==> !s.entry.sendInFlight)
    && s.entry.credit + |Holders(s.calls)| + s.entry.lost == s.entry.granted
    && (forall c :: c in s.calls && s.calls[c].phase.Bumped? && !s.entry.cancelled ==>
          s.entry.credit + 1 == s.entry.granted - |Holders(s.calls) - {c}|)
  }

  ghost predicate Promised(s: State) {
    DistinctOutstanding(s) && RollbackIsSafe(s) && AcceptedInOrder(s) && OkIsAccepted(s) && CreditConserved(s)
  }

  lemma AcceptedOnce(s: State, i: nat, j: nat)
    requires Inv(s) && i < j < |s.log|
    ensures s.log[i].call != s.log[j].call
  {
    assert LogInv(s, i) && LogInv(s, j);
  }

  lemma GuardNeverFires(s: State, c: CallId)
    requires Inv(s) && c in s.calls && s.calls[c].phase.Checked?
    ensures !s.entry.sendInFlight
  {
    assert CallInv(s, c);
  }

  lemma Distinctness(s: State)
    requires Inv(s)
    ensures DistinctOutstanding(s) && RollbackIsSafe(s)
  {
    forall c | c in s.calls ensures CallInv(s, c) {}
  }

  lemma LogPromises(s: State)
    requires Inv(s)
    ensures AcceptedInOrder(s) && OkIsAccepted(s)
  {
    forall c | c in s.ok ensures OkInv(s, c) {}
    forall i, j | 0 <= i < j < |s.log| ensures s.log[i].call != s.log[j].call { AcceptedOnce(s, i, j); }
    forall i | 0 <= i < |s.log| ensures s.log[i].sequence == i { assert LogInv(s, i); }
  }

  lemma CreditPromises(s: State)
    requires Inv(s)
    ensures CreditConserved(s)
  {
    forall c | c in s.calls && s.calls[c].phase.Checked? ensures !s.entry.sendInFlight { GuardNeverFires(s, c); }
  }

  lemma InvPromises(s: State)
    requires Inv(s)
    ensures Promised(s)
  {
    Distinctness(s);
    LogPromises(s);
    CreditPromises(s);
  }

  /** Every reachable state, with any number of concurrent sends, any delay or reordering of requests
      and responses, and any provider verdicts, keeps the promises. */
  lemma SendSafety(s: State)
    requires Runs.Reachable(Init, Next, s)
    ensures Promised(s)
  {
    forall t, u | Inv(t) && Next(t, u) ensures Inv(u) { StepKeeps(t, u); }
    Runs.InEveryReachable(Init, Next, Inv, s);
    InvPromises(s);
  }

  ghost predicate Extends(s: State, t: State) {
    && s.log <= t.log
    && (forall c :: c in s.ok ==> c in t.ok && t.ok[c] == s.ok[c])
  }

  /** What was accepted stays accepted in place, and an `Ok` is never taken back. */
  lemma AcceptedForever(run: seq<State>, i: nat, j: nat)
    requires Runs.IsRun(Next, run) && Init(run[0]) && i <= j < |run|
    ensures Extends(run[i], run[j])
  {
    forall s, t | Inv(s) && Next(s, t) ensures Inv(t) && Extends(s, t) {
      StepKeeps(s, t);
      StepExtends(s, t);
    }
    assert Inv(run[0]);
    Runs.Ordered(Next, Inv, Extends, run, i, j);
  }

  lemma StepExtends(s: State, t: State)
    requires Inv(s) && Next(s, t)
    ensures Extends(s, t)
  {
    var a :| Enabled(s, a) && t == Apply(s, a);
    match a
    case AtClient(k) => ClientExtends(s, k);
    case AtProvider(p) => ProviderExtends(s, p);
    case _ =>
  }

  lemma ClientExtends(s: State, a: ClientAction)
    requires ClientEnabled(s, a) && CallInv(s, a.c)
    ensures Extends(s, ClientStep(s, a))
  {
  }

  lemma ProviderExtends(s: State, a: ProviderAction)
    requires ProviderEnabled(s, a)
    ensures Extends(s, ProviderStep(s, a))
  {
  }
}
