/** Receives that overlap, as the provider's handler allows (`server.rs`): exactly when the event grammar
    breaks. */
module StreamOverlap {
  import opened StreamReceive
  import Runs

  /** The receive machine with a history: the calls whose claim succeeded after the log had ended, and whether
      one of them has emitted an event. */
  datatype Traced = Traced(s: State, late: set<CallId>, lateEmission: bool)

  predicate ClaimsNow(s: State, a: Action) { a.Claim? && Enabled(s, a) && !s.entry.receiveInFlight }

  function Trace(t: Traced, a: Action): Traced
    requires Enabled(t.s, a)
  {
    Traced(Apply(t.s, a),
           if ClaimsNow(t.s, a) && Ended(t.s.emitted) then t.late + {a.c} else t.late,
           t.lateEmission || (a.Receive? && a.c in t.late && Produce(t.s.entry, a.p).1.Emitted?))
  }

  ghost predicate TracedNext(t: Traced, u: Traced) {
    exists a :: Enabled(t.s, a) && u == Trace(t, a)
  }

  ghost predicate TracedInit(t: Traced) { Init(t.s) && t.late == {} && !t.lateEmission }

  // ---------------------------------------------------------------- invariant

  predicate Holds(p: Phase) { p.Claimed? || p.Produced? }

  /** The flag is set exactly while one call is between its claim and its release. */
  ghost predicate Guarded(s: State) {
    && (forall c, d :: c in s.calls && d in s.calls && Holds(s.calls[c]) && Holds(s.calls[d]) ==> c == d)
    && (s.entry.receiveInFlight <==> exists c :: c in s.calls && Holds(s.calls[c]))
    && s.calls.Keys <= s.used
  }

  ghost predicate Overrun(log: seq<Event>) { exists i :: 0 <= i < |log| - 1 && IsEnd(log[i]) }

  ghost predicate TracedInv(t: Traced) {
    && Guarded(t.s)
    && (forall c :: c in t.s.calls && t.s.calls[c].Claimed? ==> (c in t.late <==> Ended(t.s.emitted)))
    && (if t.lateEmission then Overrun(t.s.emitted) else Grammar(t.s.emitted) && EntryMatches(t.s.entry, t.s.emitted))
    && (forall c :: c in t.late ==> c in t.s.used)
    && (forall c :: c in t.s.calls && (t.s.calls[c].OnWire? || t.s.calls[c].Found?) ==> c !in t.late)
  }

  lemma GuardKept(s: State, a: Action)
    requires Guarded(s) && Enabled(s, a)
    ensures Guarded(Apply(s, a))
  {
    var t := Apply(s, a);
    if a.Claim? && !s.entry.receiveInFlight {
      assert a.c in t.calls && Holds(t.calls[a.c]);
    } else if a.Receive? {
      assert a.c in t.calls && Holds(t.calls[a.c]);
    } else if s.entry.receiveInFlight && !a.Release? {
      var h :| h in s.calls && Holds(s.calls[h]);
      assert h in t.calls && Holds(t.calls[h]);
    }
  }

  lemma OverrunExtends(log: seq<Event>, r: Result)
    ensures Overrun(log) ==> Overrun(Extend(log, r))
    ensures Ended(log) && r.Emitted? ==> Overrun(Extend(log, r))
  {
    var log' := Extend(log, r);
    if Overrun(log) {
      var i :| 0 <= i < |log| - 1 && IsEnd(log[i]);
      assert log'[i] == log[i];
    } else if Ended(log) && r.Emitted? {
      assert log'[|log| - 1] == log[|log| - 1];
    }
  }

  lemma ReceiveTraced(t: Traced, a: Action)
    requires TracedInv(t) && a.Receive? && Enabled(t.s, a)
    ensures TracedInv(Trace(t, a))
  {
    GuardKept(t.s, a);
    var r := Produce(t.s.entry, a.p).1;
    OverrunExtends(t.s.emitted, r);
    if !t.lateEmission && !Ended(t.s.emitted) { ProduceKeepsGrammar(t.s.entry, a.p, t.s.emitted); }
    assert forall c :: c in Trace(t, a).s.calls ==> !Trace(t, a).s.calls[c].Claimed?;
  }

  lemma OtherTraced(t: Traced, a: Action)
    requires TracedInv(t) && !a.Receive? && Enabled(t.s, a)
    ensures TracedInv(Trace(t, a))
  {
    GuardKept(t.s, a);
  }

  lemma Unbroken(log: seq<Event>)
    ensures Overrun(log) ==> !Grammar(log)
  {
  }

  /** In every interleaving, overlapping receives included: the emitted events follow the grammar if and only
      if no call whose claim succeeded after the log had ended has emitted an event. */
  lemma GrammarExactly(t: Traced)
    requires Runs.Reachable(TracedInit, TracedNext, t)
    ensures Grammar(t.s.emitted) <==> !t.lateEmission
  {
    ReachableTraced(t);
    Unbroken(t.s.emitted);
  }

  /** The history adds nothing: every run of the machine is traced. */
  lemma {:induction false} EveryRunTraced(run: seq<State>) returns (traced: seq<Traced>)
    requires Runs.IsRun(NextUndisciplined, run) && Init(run[0])
    ensures Runs.IsRun(TracedNext, traced) && TracedInit(traced[0]) && |traced| == |run|
    ensures traced[|run| - 1].s == run[|run| - 1]
    decreases |run|
  {
    var n := |run| - 1;
    if n == 0 {
      traced := [Traced(run[0], {}, false)];
    } else {
      assert Runs.IsRun(NextUndisciplined, run[..n]);
      var shorter := EveryRunTraced(run[..n]);
      assert NextUndisciplined(run[n - 1], run[n - 1 + 1]);
      var a :| Enabled(run[n - 1], a) && run[n] == Apply(run[n - 1], a);
      traced := shorter + [Trace(shorter[n - 1], a)];
      assert TracedNext(shorter[n - 1], traced[n]);
    }
  }

  // ---------------------------------------------------------------- the other half

  ghost predicate IsTail(run: seq<State>, s: State, t: State) {
    Runs.IsRun(NextUndisciplined, run) && run[0] == s && run[|run| - 1] == t
  }

  lemma Then(run: seq<State>, s: State, t: State, a: Action) returns (longer: seq<State>)
    requires IsTail(run, s, t) && Enabled(t, a)
    ensures IsTail(longer, s, Apply(t, a))
  {
    longer := run + [Apply(t, a)];
    assert NextUndisciplined(t, Apply(t, a));
    forall i | 0 <= i < |longer| - 1 ensures NextUndisciplined(longer[i], longer[i + 1]) {
      if i < |run| - 1 { assert NextUndisciplined(run[i], run[i + 1]); }
    }
  }

  /** Two receives past the lookup while the log is open. */
  predicate TwoFound(s: State, c: CallId, d: CallId) {
    && c != d && c in s.calls && d in s.calls && s.calls[c].Found? && s.calls[d].Found?
    && !Ended(s.emitted)
  }

  /** Whoever holds the guard can be answered that there is nothing yet, and releases it. */
  lemma FreeGuard(s: State, c: CallId, d: CallId) returns (run: seq<State>, t: State)
    requires Guarded(s) && TwoFound(s, c, d)
    ensures IsTail(run, s, t) && TwoFound(t, c, d) && !t.entry.receiveInFlight && s.emitted == t.emitted
    ensures t.entry.terminalSeen == s.entry.terminalSeen
  {
    run, t := [s], s;
    if s.entry.receiveInFlight {
      var h :| h in s.calls && Holds(s.calls[h]);
      HolderGoes(s, h, c, d);
      if s.calls[h].Claimed? {
        run := Then(run, s, t, Receive(h, Failed(true)));
        t := Apply(t, Receive(h, Failed(true)));
        HolderGoes(t, h, c, d);
      }
      run := Then(run, s, t, Release(h));
      t := Apply(t, Release(h));
    }
  }

  lemma HolderGoes(s: State, h: CallId, c: CallId, d: CallId)
    requires TwoFound(s, c, d) && h in s.calls && Holds(s.calls[h])
    ensures s.calls[h].Claimed? ==>
              var t := Apply(s, Receive(h, Failed(true)));
              && TwoFound(t, c, d) && h in t.calls && t.calls[h].Produced? && t.emitted == s.emitted
              && t.entry.terminalSeen == s.entry.terminalSeen
    ensures s.calls[h].Produced? ==>
              var t := Apply(s, Release(h));
              && TwoFound(t, c, d) && !t.entry.receiveInFlight && t.emitted == s.emitted
              && t.entry.terminalSeen == s.entry.terminalSeen
  {
  }

  lemma Terminated(s: State, c: CallId, d: CallId) returns (run: seq<State>, t: State)
    requires TwoFound(s, c, d) && !s.entry.receiveInFlight && !s.entry.terminalSeen
    ensures IsTail(run, s, t) && t.emitted == s.emitted + [Terminal] && d in t.calls && t.calls[d].Found?
    ensures !t.entry.receiveInFlight && t.entry.terminalSeen
  {
    run := [s];
    run := Then(run, s, s, Claim(c));
    var s1 := Apply(s, Claim(c));
    run := Then(run, s, s1, Receive(c, GotTerminal));
    var s2 := Apply(s1, Receive(c, GotTerminal));
    run := Then(run, s, s2, Release(c));
    t := Apply(s2, Release(c));
  }

  lemma Joined(first: seq<State>, s: State, t: State, second: seq<State>, u: State) returns (run: seq<State>)
    requires IsTail(first, s, t) && IsTail(second, t, u)
    ensures IsTail(run, s, u)
  {
    run := first + second[1..];
    forall i | 0 <= i < |run| - 1 ensures NextUndisciplined(run[i], run[i + 1]) {
      if i < |first| - 1 { assert NextUndisciplined(first[i], first[i + 1]); }
      else { assert NextUndisciplined(second[i - (|first| - 1)], second[i - (|first| - 1) + 1]); }
    }
  }

  /** From any reachable state in which the log is open and two receives are past the lookup, some run breaks
      the grammar. */
  lemma TwoFoundCanBreak(t: Traced, c: CallId, d: CallId) returns (run: seq<State>)
    requires Runs.Reachable(TracedInit, TracedNext, t) && !t.lateEmission && TwoFound(t.s, c, d)
    ensures Runs.IsRun(NextUndisciplined, run) && run[0] == t.s && !Grammar(run[|run| - 1].emitted)
  {
    ReachableTraced(t);
    var s := t.s;
    var run1, s1 := FreeGuard(s, c, d);
    var run2, s2 := Terminated(s1, c, d);
    var run3 := Joined(run1, s, s1, run2, s2);
    var run4 := Then(run3, s, s2, Claim(d));
    var s3 := Apply(s2, Claim(d));
    run := Then(run4, s, s3, Receive(d, GotTerminal));
    var log := run[|run| - 1].emitted;
    assert log == s.emitted + [Terminal] + [Fatal];
    assert log[|s.emitted|] == Terminal;
  }

  lemma ReachableTraced(t: Traced)
    requires Runs.Reachable(TracedInit, TracedNext, t)
    ensures TracedInv(t)
  {
    forall u, v | TracedInv(u) && TracedNext(u, v) ensures TracedInv(v) {
      var a :| Enabled(u.s, a) && v == Trace(u, a);
      if a.Receive? { ReceiveTraced(u, a); } else { OtherTraced(u, a); }
    }
    Runs.InEveryReachable(TracedInit, TracedNext, TracedInv, t);
  }
}
