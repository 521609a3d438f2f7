/** The two ends of a stream as objects: `TransportStreamSession` of `transport/stream_session.rs` and
    `ProviderStreamEntry` of `server.rs`. Each method is what one thread does to the end's fields, and it is
    the step, or the uninterrupted sequence of steps, of the two protocol models. */
module StreamEnds {
  import Send = StreamSend
  import Receive = StreamReceive

  type WaiterId = nat

  const MAX_STREAM_CREDIT_WAITERS: nat := 64

  // ---------------------------------------------------------------- the client's end

  datatype Start = Started(sequence: nat) | Waiting | Exhausted | Violation

  class TransportStreamSession {
    var sendCredit: nat
    var nextSendSequence: nat
    var localHalfClosed: bool
    var nextReceiveSequence: nat
    var receiveInFlight: bool
    var peerHalfClosed: bool
    var terminalSeen: bool
    var cancelled: bool
    var creditWaiters: seq<WaiterId>
    var woken: seq<WaiterId>

    function Sending(): Send.Client reads this {
      Send.Client(sendCredit, nextSendSequence, localHalfClosed, terminalSeen, cancelled)
    }

    function Receiving(): Receive.Client reads this {
      Receive.Client(nextReceiveSequence, receiveInFlight, peerHalfClosed, terminalSeen, cancelled)
    }

    /** At most so many senders wait for credit. */
    predicate Valid() reads this { |creditWaiters| <= MAX_STREAM_CREDIT_WAITERS }

    constructor (credit: nat)
      ensures Sending() == Send.Client(credit, 0, false, false, false)
      ensures Receiving() == Receive.Client(0, false, false, false, false)
      ensures Valid() && creditWaiters == [] && woken == []
    {
      sendCredit, nextSendSequence, localHalfClosed := credit, 0, false;
      nextReceiveSequence, receiveInFlight, peerHalfClosed := 0, false, false;
      terminalSeen, cancelled, creditWaiters, woken := false, false, [], [];
    }

    /** Every waiter is woken, in order, and none is left. */
    method WakeCreditWaiters()
      modifies `creditWaiters, `woken
      ensures creditWaiters == [] && woken == old(woken) + old(creditWaiters)
    {
      var waiters := creditWaiters;
      creditWaiters := [];
      var i := 0;
      while i < |waiters|
        invariant i <= |waiters| && creditWaiters == [] && woken == old(woken) + waiters[..i]
      {
        woken := woken + [waiters[i]];
        i := i + 1;
      }
      assert waiters[..i] == waiters;
    }

    /** Registration for a session without credit: refused after a terminal or a cancellation, not needed
        if credit came back, bounded otherwise. */
    method RegisterCreditWaiter(w: WaiterId) returns (r: Start)
      requires Valid()
      modifies `creditWaiters
      ensures Valid()
      ensures r.Waiting? ==> sendCredit == 0 && !cancelled && !terminalSeen && creditWaiters == old(creditWaiters) + [w]
      ensures !r.Waiting? ==> creditWaiters == old(creditWaiters)
      ensures r.Violation? <==> cancelled || terminalSeen
      ensures r.Exhausted? <==> !cancelled && !terminalSeen && sendCredit == 0 && |old(creditWaiters)| >= MAX_STREAM_CREDIT_WAITERS
      ensures r.Started? ==> sendCredit > 0 && r.sequence == nextSendSequence
    {
      if cancelled || terminalSeen { return Violation; }
      if sendCredit > 0 { return Started(nextSendSequence); }
      if |creditWaiters| >= MAX_STREAM_CREDIT_WAITERS { return Exhausted; }
      creditWaiters := creditWaiters + [w];
      return Waiting;
    }

    /** `send` up to the point where the request is submitted: one credit and one sequence number taken
        together, or nothing changed but perhaps one more waiter. */
    method BeginSend(w: WaiterId) returns (r: Start)
      requires Valid()
      modifies this
      ensures Valid()
      ensures r.Violation? <==> old(localHalfClosed) || old(terminalSeen) || old(cancelled)
      ensures r.Started? <==> !r.Violation? && old(sendCredit) > 0
      ensures r.Exhausted? <==> !r.Violation? && old(sendCredit) == 0 && |old(creditWaiters)| >= MAX_STREAM_CREDIT_WAITERS
      ensures r.Violation? <==> !Send.MaySend(old(Sending()))
      ensures r.Started? ==> r.sequence == old(nextSendSequence)
      ensures r.Started? ==>
                Sending() == old(Sending()).(credit := old(sendCredit) - 1, nextSend := old(nextSendSequence) + 1)
      ensures !r.Started? ==> Sending() == old(Sending())
      ensures creditWaiters == if r.Waiting? then old(creditWaiters) + [w] else old(creditWaiters)
      ensures Receiving() == old(Receiving()) && woken == old(woken)
    {
      if localHalfClosed || terminalSeen || cancelled { return Violation; }
      if sendCredit == 0 {
        r := RegisterCreditWaiter(w);
        return;
      }
      sendCredit := sendCredit - 1;
      r := Started(nextSendSequence);
      nextSendSequence := nextSendSequence + 1;
    }

    /** The rollback of a refused send: it succeeds, and wakes everybody, exactly when no later sequence
        number was taken. */
    method RestoreRejectedSend(sequence: nat) returns (ok: bool)
      requires Valid()
      modifies this
      ensures Valid()
      ensures Sending() == Send.Restore(old(Sending()), sequence)
      ensures ok <==> old(nextSendSequence) == sequence + 1
      ensures nextSendSequence == (if ok then sequence else old(nextSendSequence))
      ensures sendCredit == old(sendCredit) + (if ok then 1 else 0)
      ensures creditWaiters == if ok then [] else old(creditWaiters)
      ensures woken == if ok then old(woken) + old(creditWaiters) else old(woken)
      ensures Receiving() == old(Receiving())
    {
      if nextSendSequence != sequence + 1 { return false; }
      nextSendSequence := sequence;
      sendCredit := sendCredit + 1;
      WakeCreditWaiters();
      return true;
    }

    /** What `send` does with its outcome. */
    method SettleSend(sequence: nat, outcome: Send.Outcome) returns (ok: bool)
      requires Valid()
      modifies this
      ensures Valid() && (ok <==> outcome.Accepted?)
      ensures Sending() == match outcome
                           case Accepted(credit) => old(Sending()).(credit := credit)
                           case Exhausted => Send.Restore(old(Sending()), sequence)
                           case Failure => old(Sending())
      ensures var wakes := outcome.Accepted? || (outcome.Exhausted? && old(nextSendSequence) == sequence + 1);
              && creditWaiters == (if wakes then [] else old(creditWaiters))
              && woken == (if wakes then old(woken) + old(creditWaiters) else old(woken))
      ensures Receiving() == old(Receiving())
    {
      match outcome
      case Accepted(credit) =>
        sendCredit := credit;
        WakeCreditWaiters();
        ok := true;
      case Exhausted =>
        var restored := RestoreRejectedSend(sequence);
        ok := false;
      case Failure => ok := false;
    }

    method BeginReceive() returns (r: Start)
      modifies `receiveInFlight
      ensures r.Violation? <==> terminalSeen || cancelled
      ensures r.Exhausted? <==> !terminalSeen && !cancelled && old(receiveInFlight)
      ensures r.Started? <==> !terminalSeen && !cancelled && !old(receiveInFlight)
      ensures r.Started? ==> receiveInFlight && r.sequence == nextReceiveSequence
      ensures !r.Started? ==> receiveInFlight == old(receiveInFlight)
    {
      if terminalSeen || cancelled { return Violation; }
      if receiveInFlight { return Exhausted; }
      receiveInFlight := true;
      return Started(nextReceiveSequence);
    }

    /** What `receive` does with the response; the first terminal wakes every sender that waits. */
    method SettleReceive(result: Receive.Result) returns (violated: bool)
      requires Valid()
      modifies this
      ensures Valid()
      ensures var (k, bad) := Receive.Consume(old(Receiving()), result);
              Receiving() == k.(receiveInFlight := false) && violated == bad
      ensures violated <==> match result
                            case Emitted(Message(n)) => old(peerHalfClosed) || n != old(nextReceiveSequence)
                            case Emitted(HalfClosed) => old(peerHalfClosed)
                            case Emitted(Terminal) => old(terminalSeen)
                            case _ => false
      ensures nextReceiveSequence == old(nextReceiveSequence) + (if result.Emitted? && result.event.Message? && !violated then 1 else 0)
      ensures peerHalfClosed == (old(peerHalfClosed) || result == Receive.Emitted(Receive.HalfClosed))
      ensures terminalSeen == (old(terminalSeen) || result == Receive.Emitted(Receive.Terminal))
      ensures Sending() == old(Sending()).(terminalSeen := terminalSeen)
      ensures var wakes := result == Receive.Emitted(Receive.Terminal) && !old(terminalSeen);
              && creditWaiters == (if wakes then [] else old(creditWaiters))
              && woken == (if wakes then old(woken) + old(creditWaiters) else old(woken))
    {
      violated := false;
      match result {
        case Emitted(Message(n)) =>
          if peerHalfClosed || n != nextReceiveSequence {
            violated := true;
          } else {
            nextReceiveSequence := nextReceiveSequence + 1;
          }
        case Emitted(HalfClosed) =>
          violated := peerHalfClosed;
          peerHalfClosed := true;
        case Emitted(Terminal) =>
          violated := terminalSeen;
          terminalSeen := true;
          if !violated { WakeCreditWaiters(); }
        case _ =>
      }
      receiveInFlight := false;
    }

    /** The first cancellation wakes every sender that waits. */
    method Cancel() returns (first: bool)
      modifies this
      ensures cancelled && (first <==> !old(cancelled))
      ensures Sending() == old(Sending()).(cancelled := true)
      ensures Receiving() == old(Receiving()).(cancelled := true)
      ensures first ==> creditWaiters == [] && woken == old(woken) + old(creditWaiters)
      ensures !first ==> creditWaiters == old(creditWaiters) && woken == old(woken)
    {
      first := !cancelled;
      cancelled := true;
      if first { WakeCreditWaiters(); }
    }
  }

  // ---------------------------------------------------------------- the provider's end

  /** A send served by one thread without interruption. */
  function Serve(e: Send.Entry, sequence: nat, verdict: Send.Verdict): (Send.Entry, Send.Outcome) {
    if !Send.Admits(e, sequence) then (e, Send.Failure)
    else if e.sendInFlight || e.credit == 0 then (e, Send.Exhausted)
    else match verdict
      case Accept => (e.(nextInbound := e.nextInbound + 1), Send.Accepted(e.credit))
      case Exhaust => (e, Send.Exhausted)
      case Fatal => (e.(credit := e.credit - 1, cancelled := true, lost := e.lost + 1), Send.Failure)
  }

  function Do(s: Send.State, a: Send.ProviderAction): Send.State {
    if Send.ProviderEnabled(s, a) then Send.ProviderStep(s, a) else s
  }

  /** The steps of the protocol model that one handler takes, one after the other. */
  function Begun(s: Send.State, c: Send.CallId): Send.State { Do(Do(Do(s, Send.Check(c)), Send.Claim(c)), Send.Charge(c)) }

  function Ended(s: Send.State, c: Send.CallId, verdict: Send.Verdict): Send.State {
    Do(Do(Do(s, Send.Act(c, verdict)), Send.Finish(c)), Send.ReturnCredit(c))
  }

  lemma ChargeAlone(s: Send.State, c: Send.CallId)
    requires Send.At(s, c, Send.Checked)
    ensures var t := Do(Do(s, Send.Claim(c)), Send.Charge(c)); var e := s.entry;
            c in t.calls && t.calls[c].sequence == s.calls[c].sequence &&
            if e.sendInFlight || e.credit == 0 then Send.At(t, c, Send.Replied(Send.Exhausted)) && t.entry == e
            else Send.At(t, c, Send.Charged) && t.entry == e.(sendInFlight := true, credit := e.credit - 1)
  {
    var s1 := Do(s, Send.Claim(c));
    assert s1.calls[c].phase == if s.entry.sendInFlight then Send.Replied(Send.Exhausted) else Send.Claimed;
  }

  /** Once a call is answered, the handler's remaining steps do nothing. */
  lemma AnsweredStays(s: Send.State, c: Send.CallId, verdict: Send.Verdict)
    requires c in s.calls && s.calls[c].phase.Replied?
    ensures Do(Do(s, Send.Claim(c)), Send.Charge(c)) == s && Ended(s, c, verdict) == s
  {
  }

  lemma EndedAlone(s: Send.State, c: Send.CallId, verdict: Send.Verdict)
    requires Send.At(s, c, Send.Charged)
    ensures var t := Ended(s, c, verdict); var e := s.entry;
            match verdict
            case Accept =>
              (&& Send.At(t, c, Send.Replied(Send.Accepted(e.credit + 1)))
               && t.entry == e.(sendInFlight := false, nextInbound := e.nextInbound + 1, credit := e.credit + 1))
            case Exhaust =>
              (&& Send.At(t, c, Send.Replied(Send.Exhausted))
               && t.entry == e.(sendInFlight := false, credit := e.credit + 1))
            case Fatal =>
              (&& Send.At(t, c, Send.Replied(Send.Failure))
               && t.entry == e.(sendInFlight := false, cancelled := true, lost := e.lost + 1))
  {
    var s1 := Do(s, Send.Act(c, verdict));
    var s2 := Do(s1, Send.Finish(c));
    assert Send.At(s1, c, Send.Acted(verdict)) && s1.entry == s.entry.(sendInFlight := false);
    if verdict.Accept? {
      assert Send.At(s2, c, Send.Bumped);
    } else {
      assert s2.calls[c].phase.Replied?;
    }
  }

  lemma CheckAlone(s: Send.State, c: Send.CallId)
    requires Send.At(s, c, Send.OnWire)
    ensures var t := Do(s, Send.Check(c));
            && t.entry == s.entry
            && Send.At(t, c, if Send.Admits(s.entry, s.calls[c].sequence) then Send.Checked else Send.Replied(Send.Failure))
  {
  }

  /** Up to the charge: the call is answered and the entry as before, or it is charged. */
  lemma BegunAlone(s: Send.State, c: Send.CallId, verdict: Send.Verdict)
    requires Send.At(s, c, Send.OnWire)
    ensures c in Begun(s, c).calls && Begun(s, c).calls[c].sequence == s.calls[c].sequence
    ensures var t := Begun(s, c); var e := s.entry;
            if !Send.Admits(e, s.calls[c].sequence) then Send.At(t, c, Send.Replied(Send.Failure)) && t.entry == e
            else if e.sendInFlight || e.credit == 0 then Send.At(t, c, Send.Replied(Send.Exhausted)) && t.entry == e
            else Send.At(t, c, Send.Charged) && t.entry == e.(sendInFlight := true, credit := e.credit - 1)
  {
    CheckAlone(s, c);
    var s1 := Do(s, Send.Check(c));
    if Send.Admits(s.entry, s.calls[c].sequence) { ChargeAlone(s1, c); } else { AnsweredStays(s1, c, verdict); }
  }

  /** From the charge on, for the entry `e` the handler found. */
  lemma ServedFrom(e: Send.Entry, t: Send.State, c: Send.CallId, verdict: Send.Verdict)
    requires c in t.calls
    requires var sequence := t.calls[c].sequence;
             if !Send.Admits(e, sequence) then Send.At(t, c, Send.Replied(Send.Failure)) && t.entry == e
             else if e.sendInFlight || e.credit == 0 then Send.At(t, c, Send.Replied(Send.Exhausted)) && t.entry == e
             else Send.At(t, c, Send.Charged) && t.entry == e.(sendInFlight := true, credit := e.credit - 1)
    ensures var u := Ended(t, c, verdict); var (f, outcome) := Serve(e, t.calls[c].sequence, verdict);
            u.entry == f && Send.At(u, c, Send.Replied(outcome))
  {
    if t.calls[c].phase.Charged? { EndedAlone(t, c, verdict); } else { AnsweredStays(t, c, verdict); }
  }

  /** `Serve` is what the protocol model's steps do when nothing comes between them. */
  lemma ServeAlone(s: Send.State, c: Send.CallId, verdict: Send.Verdict)
    requires Send.At(s, c, Send.OnWire)
    ensures var t := Ended(Begun(s, c), c, verdict);
            var (e, outcome) := Serve(s.entry, s.calls[c].sequence, verdict);
            t.entry == e && Send.At(t, c, Send.Replied(outcome))
  {
    BegunAlone(s, c, verdict);
    ServedFrom(s.entry, Begun(s, c), c, verdict);
  }

  /** A receive served by one thread without interruption. */
  function ServeReceive(e: Receive.Entry, p: Receive.Produced): (Receive.Entry, Receive.Result) {
    if e.cancelled then (e, Receive.NoStream)
    else if e.receiveInFlight then (e, Receive.Exhausted)
    else var (f, r) := Receive.Produce(e, p); (f.(cancelled := Receive.Ends(r)), r)
  }

  function DoReceive(s: Receive.State, a: Receive.Action): Receive.State {
    if Receive.Enabled(s, a) then Receive.Apply(s, a) else s
  }

  /** The steps of the receiving model that one handler takes, one after the other. */
  function Claimed(s: Receive.State, c: Receive.CallId): Receive.State {
    DoReceive(DoReceive(s, Receive.Find(c)), Receive.Claim(c))
  }

  function Answered(s: Receive.State, c: Receive.CallId, p: Receive.Produced): Receive.State {
    DoReceive(DoReceive(DoReceive(s, Receive.Receive(c, p)), Receive.Release(c)), Receive.Reply(c))
  }

  predicate RepliedWith(s: Receive.State, c: Receive.CallId, r: Receive.Result) {
    c in s.calls && s.calls[c] == Receive.Replied(r)
  }

  lemma ClaimedAlone(s: Receive.State, c: Receive.CallId)
    requires c in s.calls && s.calls[c].OnWire?
    ensures var t := Claimed(s, c);
            if s.entry.cancelled then RepliedWith(t, c, Receive.NoStream) && t.entry == s.entry
            else if s.entry.receiveInFlight then RepliedWith(t, c, Receive.Exhausted) && t.entry == s.entry
            else c in t.calls && t.calls[c].Claimed? && t.entry == s.entry.(receiveInFlight := true)
  {
  }

  lemma AnsweredAlone(s: Receive.State, c: Receive.CallId, p: Receive.Produced)
    requires c in s.calls && s.calls[c].Claimed?
    ensures var t := Answered(s, c, p); var (e, r) := Receive.Produce(s.entry, p);
            RepliedWith(t, c, r) && t.entry == e.(receiveInFlight := false, cancelled := e.cancelled || Receive.Ends(r))
  {
    var s1 := DoReceive(s, Receive.Receive(c, p));
    var s2 := DoReceive(s1, Receive.Release(c));
    assert s1.calls[c] == Receive.Phase.Produced(Receive.Produce(s.entry, p).1);
    assert s2.calls[c].Released?;
  }

  lemma RepliedStays(s: Receive.State, c: Receive.CallId, p: Receive.Produced)
    requires c in s.calls && s.calls[c].Replied?
    ensures Answered(s, c, p) == s
  {
  }

  lemma ReceivedFrom(e: Receive.Entry, t: Receive.State, c: Receive.CallId, p: Receive.Produced)
    requires if e.cancelled then RepliedWith(t, c, Receive.NoStream) && t.entry == e
             else if e.receiveInFlight then RepliedWith(t, c, Receive.Exhausted) && t.entry == e
             else c in t.calls && t.calls[c].Claimed? && t.entry == e.(receiveInFlight := true)
    ensures Answered(t, c, p).entry == ServeReceive(e, p).0 && RepliedWith(Answered(t, c, p), c, ServeReceive(e, p).1)
  {
    if e.cancelled || e.receiveInFlight { RepliedStays(t, c, p); } else { AnsweredAlone(t, c, p); }
  }

  /** `ServeReceive` is what the receiving model's steps do when nothing comes between them. */
  lemma ReceiveAlone(s: Receive.State, c: Receive.CallId, p: Receive.Produced)
    requires c in s.calls && s.calls[c].OnWire?
    ensures var t := Answered(Claimed(s, c), c, p); var (e, r) := ServeReceive(s.entry, p);
            t.entry == e && RepliedWith(t, c, r)
  {
    ClaimedAlone(s, c);
    ReceivedFrom(s.entry, Claimed(s, c), c, p);
  }

  /** What the other arms and a cancellation do to the sending fields of either end is a flag step of the sending
      model: any half-close and terminal flags, and a cancellation that stays. */
  lemma FlagsAreFree(s: Send.State, halfClosed: bool, terminalSeen: bool, cancelled: bool)
    ensures Send.Apply(s, Send.EntryFlags(halfClosed, terminalSeen, cancelled)).entry
         == s.entry.(peerHalfClosed := halfClosed, terminalSeen := terminalSeen, cancelled := s.entry.cancelled || cancelled)
    ensures Send.Apply(s, Send.ClientFlags(halfClosed, terminalSeen, cancelled)).client
         == s.client.(halfClosed := halfClosed, terminalSeen := terminalSeen, cancelled := cancelled)
  {
  }

  class ProviderStreamEntry {
    var inboundCredit: nat
    var nextInboundSequence: nat
    var nextOutboundSequence: nat
    var sendInFlight: bool
    var receiveInFlight: bool
    var peerHalfClosed: bool
    var localHalfClosed: bool
    var terminalSeen: bool
    var cancelled: bool
    ghost var granted: nat
    ghost var lost: nat

    ghost function Sending(): Send.Entry reads this {
      Send.Entry(inboundCredit, nextInboundSequence, sendInFlight, peerHalfClosed, terminalSeen, cancelled, granted, lost)
    }

    function Receiving(): Receive.Entry reads this {
      Receive.Entry(nextOutboundSequence, receiveInFlight, localHalfClosed, terminalSeen, cancelled)
    }

    constructor (credit: nat)
      ensures Sending() == Send.Entry(credit, 0, false, false, false, false, credit, 0)
      ensures Receiving() == Receive.Entry(0, false, false, false, false)
    {
      inboundCredit, nextInboundSequence, sendInFlight, peerHalfClosed := credit, 0, false, false;
      nextOutboundSequence, receiveInFlight, localHalfClosed := 0, false, false;
      terminalSeen, cancelled, granted, lost := false, false, credit, 0;
    }

    /** The send arm of `handle_stream_call`; `verdict` is what the plugin's stream answers. */
    method HandleSend(sequence: nat, verdict: Send.Verdict) returns (outcome: Send.Outcome)
      modifies `inboundCredit, `nextInboundSequence, `sendInFlight, `cancelled, `lost
      ensures (Sending(), outcome) == Serve(old(Sending()), sequence, verdict)
      ensures var refused := old(cancelled) || peerHalfClosed || terminalSeen || sequence != old(nextInboundSequence);
              var busy := old(sendInFlight) || old(inboundCredit) == 0;
              && (outcome.Accepted? <==> !refused && !busy && verdict.Accept?)
              && (outcome.Exhausted? <==> !refused && (busy || verdict.Exhaust?))
              && (cancelled <==> old(cancelled) || (!refused && !busy && verdict.Fatal?))
              && (outcome.Accepted? ==> outcome.credit == inboundCredit)
      ensures nextInboundSequence == old(nextInboundSequence) + (if outcome.Accepted? then 1 else 0)
      ensures inboundCredit == old(inboundCredit) - (if cancelled != old(cancelled) then 1 else 0)
      ensures sendInFlight == old(sendInFlight)
    {
      if cancelled || peerHalfClosed || terminalSeen || sequence != nextInboundSequence { return Send.Failure; }
      if sendInFlight { return Send.Exhausted; }
      sendInFlight := true;
      if inboundCredit == 0 {
        sendInFlight := false;
        return Send.Exhausted;
      }
      inboundCredit := inboundCredit - 1;
      sendInFlight := false;
      match verdict
      case Accept =>
        nextInboundSequence := nextInboundSequence + 1;
        inboundCredit := inboundCredit + 1;
        outcome := Send.Accepted(inboundCredit);
      case Exhaust =>
        inboundCredit := inboundCredit + 1;
        outcome := Send.Exhausted;
      case Fatal =>
        cancelled := true;
        lost := lost + 1;
        outcome := Send.Failure;
    }

    /** The receive arm; `produced` is what the plugin's stream returns. */
    method HandleReceive(produced: Receive.Produced) returns (result: Receive.Result)
      modifies `nextOutboundSequence, `receiveInFlight, `localHalfClosed, `terminalSeen, `cancelled
      ensures (Receiving(), result) == ServeReceive(old(Receiving()), produced)
      ensures result.NoStream? <==> old(cancelled)
      ensures result.Exhausted? <==> !old(cancelled) && (old(receiveInFlight) || produced == Receive.Failed(true))
      ensures result.Emitted? ==>
                (result.event.Fatal? <==>
                   || produced == Receive.Failed(false) || (produced.GotMessage? && (old(localHalfClosed) || old(terminalSeen)))
                   || (produced.GotHalfClose? && old(localHalfClosed)) || (produced.GotTerminal? && old(terminalSeen)))
      ensures cancelled <==> old(cancelled) || (result.Emitted? && (result.event.Fatal? || result.event.Terminal?))
      ensures receiveInFlight == old(receiveInFlight)
      ensures Sending() == old(Sending()).(terminalSeen := terminalSeen, cancelled := cancelled)
    {
      if cancelled { return Receive.NoStream; }
      if receiveInFlight { return Receive.Exhausted; }
      receiveInFlight := true;
      match produced {
        case GotMessage =>
          if localHalfClosed || terminalSeen {
            result := Receive.Emitted(Receive.Fatal);
          } else {
            result := Receive.Emitted(Receive.Message(nextOutboundSequence));
            nextOutboundSequence := nextOutboundSequence + 1;
          }
        case GotHalfClose =>
          result := Receive.Emitted(if localHalfClosed then Receive.Fatal else Receive.HalfClosed);
          localHalfClosed := true;
        case GotTerminal =>
          result := Receive.Emitted(if terminalSeen then Receive.Fatal else Receive.Terminal);
          terminalSeen := true;
        case Failed(retryable) =>
          result := if retryable then Receive.Exhausted else Receive.Emitted(Receive.Fatal);
      }
      receiveInFlight := false;
      if Receive.Ends(result) { cancelled := true; }
    }

    /** The half-close arm: a refusal the peer may retry leaves the stream open for sends. */
    method HandleCloseSend(verdict: Send.Verdict) returns (outcome: Send.Outcome)
      modifies `peerHalfClosed, `cancelled
      ensures outcome.Accepted? <==> !old(cancelled) && !old(peerHalfClosed) && !terminalSeen && verdict.Accept?
      ensures outcome.Accepted? ==> outcome.credit == inboundCredit
      ensures outcome.Exhausted? <==> !old(cancelled) && !old(peerHalfClosed) && !terminalSeen && verdict.Exhaust?
      ensures peerHalfClosed <==> old(peerHalfClosed) || (!old(cancelled) && !outcome.Exhausted?)
      ensures cancelled <==> old(cancelled) || (!old(peerHalfClosed) && !terminalSeen && verdict.Fatal?)
    {
      if cancelled { return Send.Failure; }
      var was := peerHalfClosed;
      peerHalfClosed := true;
      if was || terminalSeen { return Send.Failure; }
      match verdict
      case Accept => outcome := Send.Accepted(inboundCredit);
      case Exhaust =>
        peerHalfClosed := false;
        outcome := Send.Exhausted;
      case Fatal =>
        cancelled := true;
        outcome := Send.Failure;
    }
  }
}
