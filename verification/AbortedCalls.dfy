/** When the peer refuses an abort, told from the calls alone. */
module AbortedCalls {
  import opened Basics
  import opened PacketState
  import opened Framing
  import opened EndToEnd

  /** The reference sender after a run of calls. */
  function After(s: Sender, calls: seq<Call>): Sender
    decreases |calls|
  {
    if calls == [] then s else After(CallStep(s, calls[0]).0, calls[1..])
  }

  lemma {:induction false} AfterSnoc(s: Sender, calls: seq<Call>, call: Call)
    ensures After(s, calls + [call]) == CallStep(After(s, calls), call).0
    decreases |calls|
  {
    if calls == [] {
      assert (calls + [call])[1..] == [];
    } else {
      AfterSnoc(CallStep(s, calls[0]).0, calls[1..], call);
      assert (calls + [call])[1..] == calls[1..] + [call];
    }
  }

  /** A stream that leaves its message open, and one that does so before its first packet. */
  predicate Stalls(call: Call) {
    call.SendReader? && call.msgType <= TYPE_MASK && (call.fails || !Closes(call.content))
  }

  predicate StallsEmpty(call: Call) {
    call.SendReader? && call.msgType <= TYPE_MASK && call.fails && |call.content| < MAX_PACKET_SIZE
  }

  predicate NoAbortAfter(calls: seq<Call>, m: int) {
    forall i :: 0 <= i < |calls| && m < i ==> !calls[i].AbortMessage?
  }

  /** A stream has stalled since the last abort. */
  predicate Busy(calls: seq<Call>) {
    exists m :: 0 <= m < |calls| && Stalls(calls[m]) && NoAbortAfter(calls, m)
  }

  /** The first stream to stall since the last abort did so before its first packet. */
  predicate Unstarted(calls: seq<Call>) {
    exists m :: 0 <= m < |calls| && StallsEmpty(calls[m]) && NoAbortAfter(calls, m) && !Busy(calls[..m])
  }

  lemma {:induction false} BusySnoc(calls: seq<Call>, call: Call)
    ensures Busy(calls + [call]) <==> !call.AbortMessage? && (Busy(calls) || Stalls(call))
    ensures Unstarted(calls + [call]) <==> !call.AbortMessage? && (Unstarted(calls) || (StallsEmpty(call) && !Busy(calls)))
  {
    var all := calls + [call];
    assert all[|calls|] == call && all[..|calls|] == calls;
    assert NoAbortAfter(all, |calls|);
    forall m | 0 <= m < |calls|
      ensures all[m] == calls[m] && all[..m] == calls[..m]
      ensures NoAbortAfter(all, m) <==> NoAbortAfter(calls, m) && !call.AbortMessage?
    {
      NoAbortSnoc(calls, call, m);
    }
  }

  lemma {:induction false} NoAbortSnoc(calls: seq<Call>, call: Call, m: nat)
    requires m < |calls|
    ensures NoAbortAfter(calls + [call], m) <==> NoAbortAfter(calls, m) && !call.AbortMessage?
  {
    var all := calls + [call];
    assert all[|calls|] == call;
    assert forall i :: 0 <= i < |calls| ==> calls[i] == all[i];
  }

  lemma {:induction false} StateStep(s: Sender, call: Call)
    ensures CallStep(s, call).0.Idle? <==> call.AbortMessage? || (s.Idle? && !Stalls(call))
    ensures CallStep(s, call).0.Named? <==> !call.AbortMessage? && (s.Named? || (s.Idle? && StallsEmpty(call)))
  {
  }

  /** The sender's state, told from the calls. */
  lemma {:induction false} StateAfter(calls: seq<Call>)
    ensures After(Idle, calls).Idle? <==> !Busy(calls)
    ensures After(Idle, calls).Named? <==> Unstarted(calls)
    decreases |calls|
  {
    if calls != [] {
      var init, last := calls[..|calls| - 1], calls[|calls| - 1];
      assert calls == init + [last];
      StateAfter(init);
      AfterSnoc(Idle, init, last);
      StateStep(After(Idle, init), last);
      BusySnoc(init, last);
    }
  }

  predicate AnyRefused(events: seq<Event>) {
    exists i :: 0 <= i < |events| && events[i].Refused?
  }

  lemma {:induction false} RefusedAppend(xs: seq<Event>, ys: seq<Event>)
    ensures AnyRefused(xs + ys) <==> AnyRefused(xs) || AnyRefused(ys)
  {
    assert forall i :: 0 <= i < |xs| ==> (xs + ys)[i] == xs[i];
    assert forall i :: 0 <= i < |ys| ==> (xs + ys)[|xs| + i] == ys[i];
    assert forall i :: |xs| <= i < |xs| + |ys| ==> (xs + ys)[i] == ys[i - |xs|];
  }

  /** Abort number `j` finds a message that was named and not started. */
  predicate AbortsUnstarted(s: Sender, calls: seq<Call>, j: nat)
    requires j < |calls|
  {
    calls[j].AbortMessage? && After(s, calls[..j]).Named?
  }

  lemma {:induction false} RefusedFrom(s: Sender, calls: seq<Call>)
    ensures AnyRefused(CallEvents(s, calls)) <==> exists j :: 0 <= j < |calls| && AbortsUnstarted(s, calls, j)
    decreases |calls|
  {
    if calls != [] {
      var (s', events) := CallStep(s, calls[0]);
      RefusedFrom(s', calls[1..]);
      RefusedAppend(events, CallEvents(s', calls[1..]));
      assert AbortsUnstarted(s, calls, 0) <==> AnyRefused(events) by {
        assert AnyRefused(events) <==> |events| == 1 && events[0].Refused?;
      }
      forall j | 0 < j < |calls| ensures AbortsUnstarted(s, calls, j) <==> AbortsUnstarted(s', calls[1..], j - 1) {
        assert calls[..j][1..] == calls[1..][..j - 1];
      }
      assert forall j :: 0 <= j < |calls| - 1 ==> (AbortsUnstarted(s', calls[1..], j) <==> AbortsUnstarted(s, calls, j + 1));
    }
  }

  /**
   * For every run of calls: the peer refuses some abort exactly if some abort follows, with no other
   * abort between, a stream that failed before its first full packet and that no stalled stream
   * was already in the way of.
   */
  lemma {:induction false} AbortRefusedExactly(c: Cipher, calls: seq<Call>)
    requires CipherOk(c)
    ensures AnyRefused(Observed(c, Transmit(c, FRESH_TX, calls))) <==>
      exists j :: 0 <= j < |calls| && calls[j].AbortMessage? && Unstarted(calls[..j])
  {
    EndToEnd.EndToEnd(c, calls);
    RefusedFrom(Idle, calls);
    forall j | 0 <= j < |calls|
      ensures AbortsUnstarted(Idle, calls, j) <==> calls[j].AbortMessage? && Unstarted(calls[..j])
    {
      StateAfter(calls[..j]);
    }
  }

  lemma {:induction false} FailedThenAbortMeans(t: MsgType, content: seq<byte>)
    ensures CallEvents(Idle, [SendReader(t, content, true), AbortMessage]) ==
      [if |content| < MAX_PACKET_SIZE then Refused(Packet(MissingMessageStart(t))) else Aborted(t)]
  {
    var calls := [SendReader(t, content, true), AbortMessage];
    assert calls[1..] == [AbortMessage] && [AbortMessage][1..] == [];
  }

  /** At an input: a failed stream, then an abort. */
  lemma {:induction false} FailedStreamThenAbort(c: Cipher, t: MsgType, content: seq<byte>)
    requires CipherOk(c)
    ensures Observed(c, Transmit(c, FRESH_TX, [SendReader(t, content, true), AbortMessage])) ==
      [if |content| < MAX_PACKET_SIZE then Refused(Packet(MissingMessageStart(t))) else Aborted(t)]
  {
    FailedThenAbortMeans(t, content);
    EndToEnd.EndToEnd(c, [SendReader(t, content, true), AbortMessage]);
  }
}
