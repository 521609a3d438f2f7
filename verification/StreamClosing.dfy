/** Sends to a stream that is half-closed, terminal or cancelled at the provider (`server.rs`): what may still be
    accepted. */
module StreamClosing {
  import opened StreamSend
  import Runs

  predicate Shut(e: Entry) { e.peerHalfClosed || e.terminalSeen || e.cancelled }

  /** Past the provider's checks and not yet answered by its stream. */
  predicate PastCheck(s: State, c: CallId) {
    c in s.calls && (s.calls[c].phase.Checked? || s.calls[c].phase.Claimed? || s.calls[c].phase.Charged?)
  }

  /** The log is as before, or has one more entry, of a call that was past its check and no longer is. */
  ghost predicate Grows(s: State, t: State) {
    || t.log == s.log
    || (&& |t.log| == |s.log| + 1 && s.log <= t.log
        && PastCheck(s, t.log[|s.log|].call) && !PastCheck(t, t.log[|s.log|].call))
  }

  lemma ClientLogKept(s: State, a: ClientAction, c: CallId)
    requires ClientEnabled(s, a)
    ensures ClientStep(s, a).log == s.log && (PastCheck(ClientStep(s, a), c) ==> PastCheck(s, c))
  {
  }

  lemma ProviderLogGrows(s: State, a: ProviderAction)
    requires ProviderEnabled(s, a)
    ensures Grows(s, ProviderStep(s, a))
  {
  }

  lemma ShutChecksNone(s: State, a: ProviderAction, c: CallId)
    requires ProviderEnabled(s, a) && Shut(s.entry)
    ensures PastCheck(ProviderStep(s, a), c) ==> PastCheck(s, c)
  {
  }

  lemma ShutStep(s: State, t: State, c: CallId)
    requires Next(s, t) && Shut(s.entry)
    ensures Grows(s, t) && (PastCheck(t, c) ==> PastCheck(s, c))
  {
    var a :| Enabled(s, a) && t == Apply(s, a);
    match a
    case AtClient(k) => ClientLogKept(s, k, c);
    case AtProvider(p) => ProviderLogGrows(s, p); ShutChecksNone(s, p, c);
    case _ =>
  }

  /** At most one send is past the checks at any time. */
  lemma OnePastCheck(s: State, c: CallId, d: CallId)
    requires Inv(s) && PastCheck(s, c) && PastCheck(s, d)
    ensures c == d
  {
    assert CallInv(s, c) && CallInv(s, d);
  }

  ghost predicate Since(r: State, s: State) {
    Grows(r, s) && forall c :: PastCheck(s, c) ==> PastCheck(r, c)
  }

  lemma SinceStep(r: State, s: State, t: State)
    requires Inv(r) && Since(r, s) && Next(s, t) && Shut(s.entry)
    ensures Since(r, t)
  {
    ShutStep(s, t, 0);
    forall c | PastCheck(t, c) ensures PastCheck(r, c) { ShutStep(s, t, c); }
    if s.log != r.log && t.log != s.log {
      OnePastCheck(r, s.log[|r.log|].call, t.log[|s.log|].call);
    } else if s.log != r.log && PastCheck(t, s.log[|r.log|].call) {
      ShutStep(s, t, s.log[|r.log|].call);
    }
  }

  ghost predicate NextShut(s: State, t: State) { Next(s, t) && Shut(s.entry) }

  lemma SinceStart(s: State)
    ensures Since(s, s)
  {
  }

  lemma ShutRun(run: seq<State>, i: nat, j: nat)
    requires Runs.IsRun(Next, run) && i <= j < |run| && forall k :: i <= k <= j ==> Shut(run[k].entry)
    ensures Runs.IsRun(NextShut, run[i..j + 1])
  {
    var part := run[i..j + 1];
    forall k | 0 <= k < |part| - 1 ensures NextShut(part[k], part[k + 1]) {
      assert part[k] == run[i + k] && part[k + 1] == run[i + k + 1] && Next(run[i + k], run[i + k + 1]);
    }
  }

  /** As long as the entry stays half-closed, terminal or cancelled, the provider accepts nothing but the one
      send, if any, that was past its checks before. */
  lemma ShutAcceptsNoNew(run: seq<State>, i: nat, j: nat)
    requires Runs.IsRun(Next, run) && Init(run[0]) && i <= j < |run|
    requires forall k :: i <= k <= j ==> Shut(run[k].entry)
    ensures Grows(run[i], run[j])
  {
    forall s, t | Inv(s) && Next(s, t) ensures Inv(t) { StepKeeps(s, t); }
    Runs.Invariant(Next, Inv, run);
    ShutRun(run, i, j);
    var from := run[i];
    SinceStart(from);
    forall s, t | Since(from, s) && NextShut(s, t) ensures Since(from, t) { SinceStep(from, s, t); }
    var part := run[i..j + 1];
    Runs.Invariant(NextShut, s => Since(from, s), part);
    assert part[|part| - 1] == run[j];
  }
}
