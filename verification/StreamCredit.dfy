/** The client's copy of the send credit (`transport/stream_session.rs`). An accepted send stores the credit
    the provider reported, a refused one adds one back: with one send at a time the copy never exceeds the
    grant, with overlapping sends it can. */
module StreamCredit {
  import opened StreamSend
  import Runs

  predicate Serial(s: State, a: Action) { a.TakeCredit? ==> s.calls == map[] }

  ghost predicate NextSerial(s: State, t: State) {
    exists a :: Enabled(s, a) && Serial(s, a) && t == Apply(s, a)
  }

  ghost predicate CreditInv(s: State) {
    && (forall c, d :: c in s.calls && d in s.calls ==> c == d)
    && s.client.credit + (if s.calls == map[] then 0 else 1) <= s.entry.granted
    && (forall c :: c in s.calls ==> WithinGrant(s.calls[c], s.entry.granted))
  }

  /** With one send outstanding, removing it leaves none. */
  lemma OnlyOne(s: State, c: CallId)
    requires c in s.calls && (forall d :: d in s.calls ==> c == d)
    ensures s.calls - {c} == map[] && s.calls != map[]
    ensures forall x :: s.calls[c := x] == map[c := x]
  {
  }

  lemma DismissCreditKept(s: State, c: CallId, retryable: bool)
    requires CreditInv(s) && c in s.calls
    ensures CreditInv(Dismiss(s, c, retryable))
  {
    OnlyOne(s, c);
  }

  lemma SettledCreditKept(s: State, a: ClientAction)
    requires CreditInv(s) && ClientEnabled(s, a) && a.Settle?
    ensures CreditInv(ClientStep(s, a))
  {
    if s.calls[a.c].phase.outcome.Accepted? {
      OnlyOne(s, a.c);
    } else {
      DismissCreditKept(s, a.c, s.calls[a.c].phase.outcome.Exhausted?);
    }
  }

  lemma ClientCreditKept(s: State, a: ClientAction)
    requires CreditInv(s) && ClientEnabled(s, a)
    ensures CreditInv(ClientStep(s, a))
  {
    match a
    case TakeSequence(c) => OnlyOne(s, c);
    case Submit(c, how) => if how.Sent? { OnlyOne(s, c); } else { DismissCreditKept(s, c, how.Full?); }
    case Settle(c) => SettledCreditKept(s, a);
  }

  predicate WithinGrant(x: Call, granted: nat) {
    x.phase.Replied? && x.phase.outcome.Accepted? ==> x.phase.outcome.credit <= granted
  }

  /** What a provider step leaves alone, and what it may report. */
  lemma ProviderReports(s: State, a: ProviderAction)
    requires Credits(s) && ProviderEnabled(s, a)
    ensures var t := ProviderStep(s, a);
            && t.client == s.client && t.entry.granted == s.entry.granted
            && t.calls.Keys == s.calls.Keys && WithinGrant(t.calls[a.c], s.entry.granted)
  {
    if a.ReturnCredit? { assert a.c in Holders(s.calls); }
  }

  lemma ProviderCreditKept(s: State, a: ProviderAction)
    requires Credits(s) && CreditInv(s) && ProviderEnabled(s, a)
    ensures CreditInv(ProviderStep(s, a))
  {
    var t := ProviderStep(s, a);
    ProviderReports(s, a);
    assert forall c :: c in t.calls <==> c in t.calls.Keys;
    assert t.calls != map[] && s.calls != map[] by { assert a.c in t.calls && a.c in s.calls; }
    forall c | c in t.calls ensures c == a.c { assert c in s.calls.Keys; }
  }

  lemma SerialKept(s: State, a: Action)
    requires Inv(s) && CreditInv(s) && Enabled(s, a) && Serial(s, a)
    ensures CreditInv(Apply(s, a))
  {
    match a
    case AtClient(k) => ClientCreditKept(s, k);
    case AtProvider(p) => ProviderCreditKept(s, p);
    case _ =>
  }

  /** One send at a time: in every run the client's credit stays within the grant. */
  lemma SerialCreditBounded(s: State)
    requires Runs.Reachable(Init, NextSerial, s)
    ensures s.client.credit <= s.entry.granted
  {
    var inv := (t: State) => Inv(t) && CreditInv(t);
    forall t, u | inv(t) && NextSerial(t, u) ensures inv(u) {
      var a :| Enabled(t, a) && Serial(t, a) && u == Apply(t, a);
      assert Next(t, u);
      StepKeeps(t, u);
      SerialKept(t, a);
    }
    Runs.InEveryReachable(Init, NextSerial, inv, s);
  }

  // ---------------------------------------------------------------- overlapping sends

  lemma Reach(s: State, a: Action)
    requires Runs.Reachable(Init, Next, s) && Enabled(s, a)
    ensures Runs.Reachable(Init, Next, Apply(s, a))
  {
    Runs.ReachStep(Init, Next, s, Apply(s, a));
  }

  /** Two credits granted, two sends on their way. */
  lemma TwoSends() returns (s: State)
    ensures Runs.Reachable(Init, Next, s)
    ensures s.client == Client(0, 2, false, false, false)
    ensures s.entry == Entry(2, 0, false, false, false, false, 2, 0)
    ensures s.calls == map[0 := Call(0, OnWire), 1 := Call(1, Sequenced)]
  {
    var s0 := State(Client(2, 0, false, false, false), Entry(2, 0, false, false, false, false, 2, 0),
                    map[], [], map[], map[], map[]);
    Runs.ReachStart(Init, Next, s0);
    Reach(s0, TakeCredit(0));
    var s1 := Apply(s0, TakeCredit(0));
    Reach(s1, AtClient(TakeSequence(0)));
    var s2 := Apply(s1, AtClient(TakeSequence(0)));
    Reach(s2, AtClient(Submit(0, Sent)));
    var s3 := Apply(s2, AtClient(Submit(0, Sent)));
    Reach(s3, TakeCredit(1));
    var s4 := Apply(s3, TakeCredit(1));
    Reach(s4, AtClient(TakeSequence(1)));
    s := Apply(s4, AtClient(TakeSequence(1)));
  }

  /** The send is checked, claimed and charged. */
  lemma Begun(s: State, c: CallId) returns (t: State)
    requires Runs.Reachable(Init, Next, s) && At(s, c, OnWire)
    requires Admits(s.entry, s.calls[c].sequence) && s.entry.credit > 0 && !s.entry.sendInFlight
    ensures Runs.Reachable(Init, Next, t)
    ensures t == s.(entry := s.entry.(credit := s.entry.credit - 1, sendInFlight := true),
                    calls := s.calls[c := s.calls[c].(phase := Charged)])
  {
    Reach(s, AtProvider(Check(c)));
    var s1 := Apply(s, AtProvider(Check(c)));
    assert s1 == Move(s, c, Checked);
    Reach(s1, AtProvider(Claim(c)));
    var s2 := Apply(s1, AtProvider(Claim(c)));
    assert s2 == Move(s, c, Claimed).(entry := s.entry.(sendInFlight := true));
    Reach(s2, AtProvider(Charge(c)));
    t := Apply(s2, AtProvider(Charge(c)));
  }

  /** The provider accepts it and moves on to the next sequence. */
  lemma Acknowledged(s: State, c: CallId) returns (t: State)
    requires Runs.Reachable(Init, Next, s) && At(s, c, Charged)
    ensures Runs.Reachable(Init, Next, t)
    ensures t == Move(s, c, Bumped).(entry := s.entry.(sendInFlight := false, nextInbound := s.entry.nextInbound + 1),
                                     log := t.log)
  {
    Reach(s, AtProvider(Act(c, Accept)));
    var s1 := Apply(s, AtProvider(Act(c, Accept)));
    assert s1 == Move(s, c, Acted(Accept)).(entry := s.entry.(sendInFlight := false), log := s1.log);
    Reach(s1, AtProvider(Finish(c)));
    t := Apply(s1, AtProvider(Finish(c)));
  }

  /** The credit is returned and the acceptance is on its way. */
  lemma Ended(s: State, c: CallId) returns (t: State)
    requires Runs.Reachable(Init, Next, s) && At(s, c, Charged)
    ensures Runs.Reachable(Init, Next, t)
    ensures t.client == s.client && t.entry.granted == s.entry.granted
    ensures t.calls == s.calls[c := s.calls[c].(phase := Replied(Accepted(s.entry.credit + 1)))]
  {
    var bumped := Acknowledged(s, c);
    Reach(bumped, AtProvider(ReturnCredit(c)));
    t := Apply(bumped, AtProvider(ReturnCredit(c)));
  }

  /** With two overlapping sends the client can end with more credit than it was granted: the first is
      accepted and stores the full grant, then the second is refused and adds its own credit back. */
  lemma OverlappingSendsExceedGrant() returns (s: State)
    ensures Runs.Reachable(Init, Next, s)
    ensures s.client.credit == 3 > s.entry.granted == 2 && s.calls == map[]
  {
    var s0 := TwoSends();
    var begun := Begun(s0, 0);
    var s1 := Ended(begun, 0);
    Reach(s1, AtClient(Settle(0)));
    var s2 := Apply(s1, AtClient(Settle(0)));
    assert s2.calls == map[1 := Call(1, Sequenced)];
    Reach(s2, AtClient(Submit(1, Full)));
    s := Apply(s2, AtClient(Submit(1, Full)));
  }

  // ---------------------------------------------------------------- exactly which steps exceed the grant

  /** Every acceptance on its way to the client reports at most the grant. */
  ghost predicate ReportsInv(s: State) { forall c :: c in s.calls ==> WithinGrant(s.calls[c], s.entry.granted) }

  lemma ClientReports(s: State, a: ClientAction)
    requires ReportsInv(s) && ClientEnabled(s, a)
    ensures ReportsInv(ClientStep(s, a))
  {
  }

  lemma ReportsKept(s: State, a: Action)
    requires Inv(s) && ReportsInv(s) && Enabled(s, a)
    ensures ReportsInv(Apply(s, a))
  {
    match a
    case AtClient(k) => ClientReports(s, k);
    case AtProvider(p) =>
      ProviderReports(s, p);
      ProviderMoves(s, p);
    case _ =>
  }

  lemma ReachableReports(s: State)
    requires Runs.Reachable(Init, Next, s)
    ensures Inv(s) && ReportsInv(s)
  {
    var inv := (t: State) => Inv(t) && ReportsInv(t);
    forall t, u | inv(t) && Next(t, u) ensures inv(u) {
      var a :| Enabled(t, a) && u == Apply(t, a);
      StepKeeps(t, u);
      ReportsKept(t, a);
    }
    Runs.InEveryReachable(Init, Next, inv, s);
  }

  /** The step rolls back the outstanding send that took the last sequence number. */
  predicate RollsBack(s: State, a: Action)
    requires Enabled(s, a)
  {
    && a.AtClient? && (a.k.Submit? || a.k.Settle?)
    && (a.k.Submit? ==> a.k.how.Full?) && (a.k.Settle? ==> s.calls[a.k.c].phase.outcome.Exhausted?)
    && s.client.nextSend == s.calls[a.k.c].sequence + 1
  }

  predicate Stores(s: State, a: Action)
    requires Enabled(s, a)
  {
    a.AtClient? && a.k.Settle? && s.calls[a.k.c].phase.outcome.Accepted?
  }

  lemma ClientCreditMoves(s: State, a: Action)
    requires Enabled(s, a) && a.AtClient?
    ensures var credit := Apply(s, a).client.credit;
            if Stores(s, a) then credit == s.calls[a.k.c].phase.outcome.credit
            else credit == s.client.credit + (if RollsBack(s, a) then 1 else 0)
    ensures Apply(s, a).entry == s.entry
  {
  }

  lemma ProviderLeavesCredit(s: State, p: ProviderAction)
    requires ProviderEnabled(s, p)
    ensures ProviderStep(s, p).client == s.client && ProviderStep(s, p).entry.granted == s.entry.granted
  {
  }

  /** In every reachable state, with any number of sends outstanding: a step leaves the client more credit than
      the grant if and only if it rolls back the last outstanding send while the credit is at the grant
      already, or the credit was over it before and the step neither stores a reported credit nor takes the
      last one too many. */
  lemma ExcessExactly(s: State, a: Action)
    requires Runs.Reachable(Init, Next, s) && Enabled(s, a)
    ensures Apply(s, a).client.credit > s.entry.granted <==>
            !Stores(s, a) && s.client.credit + (if RollsBack(s, a) then 1 else 0) > s.entry.granted + (if a.TakeCredit? then 1 else 0)
    ensures s.client.credit <= s.entry.granted < Apply(s, a).client.credit <==>
            RollsBack(s, a) && s.client.credit == s.entry.granted
  {
    ReachableReports(s);
    match a
    case AtClient(k) =>
      ClientCreditMoves(s, a);
      if k.Settle? { assert WithinGrant(s.calls[k.c], s.entry.granted); }
    case AtProvider(p) => ProviderLeavesCredit(s, p);
    case _ =>
  }

  /** And such a step is never far: wherever one send's acceptance reports the whole grant while another, the
      last, is still to be submitted, settling the one and refusing the other exceeds the grant. */
  lemma AcceptThenRefuseExceeds(s: State, c: CallId, d: CallId) returns (t: State)
    requires Runs.Reachable(Init, Next, s) && c != d && At(s, d, Sequenced) && At(s, c, Replied(Accepted(s.entry.granted)))
    requires s.client.nextSend == s.calls[d].sequence + 1
    ensures Runs.Reachable(Init, Next, t) && t.client.credit == s.entry.granted + 1
  {
    Reach(s, AtClient(Settle(c)));
    var s1 := Apply(s, AtClient(Settle(c)));
    assert s1.calls == s.calls - {c};
    Reach(s1, AtClient(Submit(d, Full)));
    t := Apply(s1, AtClient(Submit(d, Full)));
  }

  // ---------------------------------------------------------------- an acceptance that reports less

  /** An accepted send can report less than the grant: the next one was charged between its sequence step and
      the return of its credit. */
  lemma AcceptanceReportsLess() returns (s: State)
    ensures Runs.Reachable(Init, Next, s)
    ensures At(s, 0, Replied(Accepted(1))) && s.entry.granted == 2 && !s.entry.cancelled
  {
    var s0 := TwoSends();
    Reach(s0, AtClient(Submit(1, Sent)));
    var s1 := Apply(s0, AtClient(Submit(1, Sent)));
    assert s1.calls == map[0 := Call(0, OnWire), 1 := Call(1, OnWire)] && s1.entry == s0.entry;
    var s2 := Begun(s1, 0);
    var s3 := Acknowledged(s2, 0);
    var s4 := Begun(s3, 1);
    assert At(s4, 0, Bumped) && s4.entry.credit == 0;
    Reach(s4, AtProvider(ReturnCredit(0)));
    s := Apply(s4, AtProvider(ReturnCredit(0)));
  }
}
