/** What one side keeps through every call and every incoming message, whatever its peer does. */
module StreamOwn {
  import opened Base
  import opened Cost
  import opened StreamProtocol
  import opened StreamAdmission
  import opened StreamSpec
  import opened StreamPair
  import Io = IoClock

  /** A notice built by a failing side is always admissible to its peer. */
  lemma NoticeOutgoing(s: Stream, error: Error)
    requires ValidConfig(s.config)
    ensures Outgoing(Wrap(s, Notice(s.config.side, error)), s.config)
  {
    hide Fits, ProbeOf;
    ControlAdmitted(Wrap(s, Notice(s.config.side, error)), s.config.peerLimits);
  }

  lemma OwnStart(c: Config)
    requires ValidConfig(c)
    ensures Own(Start(c))
  {
    hide Admitted;
  }

  lemma OwnFail(x: End, error: Error, notify: bool)
    requires Own(x) && ValidConfig(x.s.config)
    ensures Own(x.(s := Fail(x.s, error, notify)))
  {
    hide Admitted, ValidConfig, Outgoing;
    NoticeOutgoing(x.s, error);
  }

  /** Steps that touch only the clock, the batching flags or remembered failures. */
  predicate Unmoved(s: Stream, t: Stream) {
    && s == t.(
      now := s.now, io := s.io, batchDeadline := s.batchDeadline, forceSend := s.forceSend,
      failureFacts := s.failureFacts, retainedFailure := s.retainedFailure)
    && (s.forceSend ==> t.forceSend)
  }

  lemma OwnUnmoved(x: End, t: Stream)
    requires Own(x) && Unmoved(x.s, t)
    ensures Own(x.(s := t))
  {
    hide Admitted;
  }

  lemma OwnWrite(x: End, input: seq<byte>)
    requires Own(x) && ValidConfig(x.s.config)
    ensures Own(WriteEnd(x, input))
  {
    hide Admitted, ValidConfig;
    var (s, r) := Write(x.s, input);
    if s == Fail(x.s, Protocol, true) && r.Err? {
      OwnFail(x, Protocol, true);
    } else if r.Ok? && r.value > 0 {
      assert WriteEnd(x, input).wrote[x.s.sent..] == x.s.send + input[..r.value];
    } else if r.Ok? {
      assert x.wrote + input[..0] == x.wrote;
    }
  }

  /** The sending half is the same on both sides. */
  predicate SameSending(x: End, y: End) {
    && x.wrote == y.wrote && x.tickets == y.tickets
    && x.s.send == y.s.send && x.s.sent == y.s.sent && x.s.error == y.s.error
    && x.s.flush == y.s.flush && x.s.flushSerial == y.s.flushSerial && x.s.flushAcked == y.s.flushAcked
    && x.s.endRequested == y.s.endRequested && x.s.endSent == y.s.endSent
  }

  lemma SendingKept(x: End, y: End)
    requires SameSending(x, y)
    requires Written(x) && FlushOwn(x) && EndOwn(x)
    ensures Written(y) && FlushOwn(y) && EndOwn(y)
  {
  }

  lemma OwnRead(x: End, room: nat)
    requires Own(x)
    ensures Own(ReadEnd(x, room))
  {
    hide Admitted, Written, FlushOwn, EndOwn;
    var y := ReadEnd(x, room);
    if room > 0 && x.s.recv != [] {
      assert |y.s.recv| == |x.s.recv| - (y.s.consumed - x.s.consumed);
    } else {
      assert y.read == x.read;
    }
    SendingKept(x, y);
  }

  lemma OwnStartFlush(x: End)
    requires Own(x)
    ensures Own(FlushEnd(x))
  {
    hide Admitted;
  }

  lemma OwnRequestEnd(x: End)
    requires Own(x)
    ensures Own(x.(s := RequestEnd(x.s).0))
  {
    hide Admitted;
  }

  lemma OwnStartClose(x: End)
    requires Own(x)
    ensures Own(x.(s := StartClose(x.s).0))
  {
    hide Admitted;
  }

  lemma OwnCompleteClose(x: End, disposition: Disposition, facts: Part, failure: Option<Failure>)
    requires Own(x)
    ensures Own(x.(s := CompleteClose(x.s, disposition, facts, failure).0))
  {
    hide Admitted;
  }

  lemma OwnFailTerminal(x: End, failure: Failure)
    requires Own(x) && ValidConfig(x.s.config)
    ensures Own(x.(s := FailTerminal(x.s, failure).0))
  {
    hide Admitted, ValidConfig;
    var u := x.s.(failureFacts := failure.facts);
    OwnUnmoved(x, u);
    OwnFail(x.(s := u), PeerFailed(failure.code, failure.effect), false);
  }

  lemma OwnDisconnect(x: End)
    requires Own(x) && ValidConfig(x.s.config)
    ensures Own(x.(s := Disconnect(x.s)))
  {
    hide Own, ValidConfig, Fail;
    OwnFail(x, CarrierLost, false);
    OwnSilenced(x.(s := Fail(x.s, CarrierLost, false)));
  }

  lemma OwnSilenced(x: End)
    requires Own(x)
    ensures Own(x.(s := x.s.(terminal := None)))
  {
    hide Outgoing;
  }

  /** The host's clock reports and ticks: a quiet step, a failure, or a quiet step and then a failure. */
  ghost predicate Ticked(s: Stream, t: Stream) {
    exists quiet: Stream ::
      Unmoved(s, quiet) && (t == quiet || t == Fail(quiet, Timeout, true))
  }

  lemma SetIoStateTicks(s: Stream, state: Io.IoState)
    ensures Ticked(s, SetIoState(s, state).0)
  {
    hide Fail, Io.SetState, Expired, Io.Due;
    assert Unmoved(s, s) && Unmoved(s, s.(io := Io.SetState(s.io, s.now, state)));
  }

  lemma RecordProgressTicks(s: Stream, bytes: nat)
    ensures Ticked(s, RecordProgress(s, bytes).0)
  {
    hide Fail, Io.Progress, Expired;
    var io := Io.Progress(s.io, s.now, bytes, s.config.ioTimeoutMs);
    assert Unmoved(s, s) && (io.Some? ==> Unmoved(s, s.(io := io.value)));
  }

  lemma AdvanceTicks(s: Stream, now: nat)
    ensures Ticked(s, Advance(s, now))
  {
    hide Fail, Expired;
    assert Unmoved(s, s) && Unmoved(s, s.(now := now));
  }

  lemma OwnTicked(x: End, t: Stream)
    requires Own(x) && ValidConfig(x.s.config) && Ticked(x.s, t)
    ensures Own(x.(s := t))
  {
    hide Own, ValidConfig, Fail;
    var quiet :| Unmoved(x.s, quiet) && (t == quiet || t == Fail(quiet, Timeout, true));
    OwnUnmoved(x, quiet);
    OwnFail(x.(s := quiet), Timeout, true);
  }

  // ---------------------------------------------------------------------------------------------------------------
  // Taking a message
  // ---------------------------------------------------------------------------------------------------------------

  lemma SentMarksAppend(x: End, t: Stream, e: Envelope)
    requires SentMarks(x)
    requires x.s.completed.Some? ==> t.completed.Some?
    requires e.body.Closed? ==> t.completed.Some? && !e.body.report.unreadResponseDiscarded
    ensures SentMarks(x.(s := t, out := x.out + [e]))
  {
    var y := x.(s := t, out := x.out + [e]);
    forall i | 0 <= i < |y.out|
      ensures y.out[i].body.Closed? ==> t.completed.Some? && !y.out[i].body.report.unreadResponseDiscarded
    {
      if i < |x.out| {
        assert y.out[i] == x.out[i];
      }
    }
  }

  /** A live side that hands over `body` and becomes `t` keeps what it keeps of its own. */
  predicate Emitted(x: End, next: (Stream, Body)) {
    && Own(x.(s := next.0, out := []))
    && (x.s.completed.Some? ==> next.0.completed.Some?)
    && (next.1.Closed? ==> next.0.completed.Some? && !next.1.report.unreadResponseDiscarded)
  }

  lemma OwnSendFlushed(x: End)
    requires Own(x) && FlushedDue(x.s)
    ensures Emitted(x, SendFlushed(x.s))
  {
    hide Admitted, Outgoing;
    SendingKept(x, x.(s := SendFlushed(x.s).0));
  }

  lemma OwnSendWindow(x: End)
    requires Own(x)
    ensures Emitted(x, SendWindow(x.s))
  {
    hide Admitted, Outgoing;
    SendingKept(x, x.(s := SendWindow(x.s).0));
  }

  lemma OwnSendClosed(x: End)
    requires Own(x) && x.s.closePending.Some? && Live(x.s)
    ensures Emitted(x, SendClosed(x.s))
  {
    hide Admitted, Outgoing;
    SendingKept(x, x.(s := SendClosed(x.s).0));
  }

  lemma OwnSendFlush(x: End)
    requires Own(x) && FlushDue(x.s)
    ensures Emitted(x, SendFlush(x.s))
  {
    hide Admitted, Outgoing;
  }

  lemma OwnSendData(x: End)
    requires Own(x) && Live(x.s) && DataDue(x.s)
    ensures Emitted(x, SendData(x.s))
  {
    hide Admitted, Outgoing, Eligible;
    var y := x.(s := SendData(x.s).0, out := []);
    var count := y.s.sent - x.s.sent;
    assert y.s.send == x.s.send[count..];
    assert x.wrote[x.s.sent..][count..] == x.wrote[y.s.sent..];
  }

  lemma OwnSendEnd(x: End)
    requires Own(x) && Live(x.s) && EndDue(x.s) && !FlushDue(x.s)
    ensures Emitted(x, SendEnd(x.s))
  {
    hide Admitted, Outgoing;
  }

  lemma OwnSendClose(x: End)
    requires Own(x) && Live(x.s) && CloseDue(x.s)
    ensures Emitted(x, SendClose(x.s))
  {
    hide Admitted, Outgoing;
    SendingKept(x, x.(s := SendClose(x.s).0));
  }

  lemma OwnNext(x: End)
    requires Own(x) && Live(x.s) && NextBody(x.s).Some?
    ensures Emitted(x, NextBody(x.s).value)
  {
    hide Own, Emitted, FlushedDue, FlushDue, DataDue, EndDue, CloseDue;
    hide SendFlushed, SendWindow, SendClosed, SendFlush, SendData, SendEnd, SendClose;
    if FlushedDue(x.s) {
      OwnSendFlushed(x);
    } else if Grant(x.s) > x.s.advertisedLimit {
      OwnSendWindow(x);
    } else if x.s.closePending.Some? {
      OwnSendClosed(x);
    } else if FlushDue(x.s) {
      OwnSendFlush(x);
    } else if DataDue(x.s) {
      OwnSendData(x);
    } else if EndDue(x.s) {
      OwnSendEnd(x);
    } else {
      OwnSendClose(x);
    }
  }

  lemma OwnTake(x: End)
    requires Own(x)
    ensures Own(TakeEnd(x))
  {
    hide Counters, Written, FlushOwn, EndOwn, DeadOwn, CloseOwn, ReadOwn, SentMarks, NextBody;
    var y := TakeEnd(x);
    if x.s.terminal.Some? {
      OwnTakeTerminal(x);
    } else if Live(x.s) {
      match NextBody(x.s)
      case None =>
      case Some(next) =>
        OwnNext(x);
        OutIrrelevant(x.(s := next.0, out := []), y.out);
        SentMarksAppend(x, next.0, Wrap(x.s, next.1));
    }
  }

  /** Only the marks speak about what is in flight. */
  lemma OutIrrelevant(x: End, out: seq<Envelope>)
    requires Own(x)
    ensures var y := x.(out := out);
            Counters(y.s) && Written(y) && FlushOwn(y) && EndOwn(y) && DeadOwn(y.s) && CloseOwn(y.s) && ReadOwn(y)
            && Urgent(y.s)
  {
    hide Admitted, Counters, DeadOwn, CloseOwn;
  }

  lemma OwnTakeTerminal(x: End)
    requires Own(x) && x.s.terminal.Some?
    ensures Own(TakeEnd(x))
  {
    hide Admitted, NextBody;
    SentMarksAppend(x, x.s.(terminal := None), x.s.terminal.value);
  }

  // ---------------------------------------------------------------------------------------------------------------
  // Receiving a message
  // ---------------------------------------------------------------------------------------------------------------

  lemma OwnAcceptData(x: End, body: Body, t: Stream)
    requires Own(x) && Live(x.s) && body.Data? && AcceptBody(x.s, body) == Some(t)
    ensures Own(x.(s := t))
  {
    hide Admitted, Outgoing;
    SendingKept(x, x.(s := t));
  }

  lemma OwnAcceptControl(x: End, body: Body, t: Stream)
    requires Own(x) && Live(x.s) && AcceptBody(x.s, body) == Some(t)
    requires body.Window? || body.Flush? || body.Flushed? || body.EndWrite? || body.Close?
    requires body.Flush? ==> body.barrier.offset >= 0 && body.barrier.id > 0
    ensures Own(x.(s := t))
  {
    hide Admitted, Outgoing, Io.Stop;
  }

  /** Remembering the peer's failure and failing with it. */
  lemma OwnPeerFailure(x: End, facts: Option<Part>, error: Error, retained: Option<Failure>)
    requires Own(x) && ValidConfig(x.s.config)
    ensures Own(x.(s := Fail(x.s.(failureFacts := facts), error, false).(retainedFailure := retained)))
  {
    hide Own, ValidConfig, Fail;
    var u := x.s.(failureFacts := facts);
    var f := Fail(u, error, false);
    OwnUnmoved(x, u);
    OwnFail(x.(s := u), error, false);
    OwnUnmoved(x.(s := f), f.(retainedFailure := retained));
  }

  lemma OwnCompleted(x: End, result: CloseResult)
    requires Own(x) && x.s.error.None? && x.s.config.side == Initiator && x.s.closeSent && x.s.endReceived
    ensures Own(x.(s := x.s.(completed := Some(result))))
  {
    hide Admitted, Outgoing;
    SendingKept(x, x.(s := x.s.(completed := Some(result))));
  }

  lemma OwnAcceptEnd(x: End, body: Body, t: Stream)
    requires Own(x) && ValidConfig(x.s.config) && Live(x.s) && AcceptBody(x.s, body) == Some(t)
    requires body.Closed? || body.Cancel? || body.Failed?
    ensures Own(x.(s := t))
  {
    hide Own, ValidConfig, Fail;
    match body
    case Closed(report) =>
      if report.failure.Some? {
        var f := report.failure.value;
        OwnPeerFailure(x, Some(report.facts), PeerFailed(f.code, f.effect), Some(f));
      } else {
        OwnCompleted(x, t.completed.value);
      }
    case Failed(f) =>
      OwnPeerFailure(x, f.facts, PeerFailed(f.code, f.effect), Some(f));
    case Cancel(reason) =>
      OwnFail(x, if reason.TimeoutCode? then Timeout else Cancelled, false);
  }

  lemma OwnReceive(x: End, e: Envelope)
    requires Own(x) && ValidConfig(x.s.config)
    ensures Own(DeliverTo(x, e))
  {
    hide Own, ValidConfig, AcceptBody, Fail, Expired, Admitted, Addressed;
    assert x.(s := x.s) == x;
    OwnFail(x, Timeout, true);
    OwnFail(x, Protocol, true);
    var r := AcceptBody(x.s, e.body);
    if Live(x.s) && Admitted(e, x.s.config.receiveLimits) && r.Some? {
      if e.body.Flush? {
        AdmittedBarrier(e, x.s.config.receiveLimits);
      }
      match e.body
      case Data(_, _) => OwnAcceptData(x, e.body, r.value);
      case Closed(_) => OwnAcceptEnd(x, e.body, r.value);
      case Cancel(_) => OwnAcceptEnd(x, e.body, r.value);
      case Failed(_) => OwnAcceptEnd(x, e.body, r.value);
      case Foreign(_, _) => ForeignRefused(x.s, e.body);
      case _ => OwnAcceptControl(x, e.body, r.value);
    }
  }

  lemma AdmittedBarrier(e: Envelope, l: Limits)
    requires Admitted(e, l) && e.body.Flush?
    ensures e.body.barrier.offset >= 0 && e.body.barrier.id > 0
  {
    hide Fits;
  }

  lemma ForeignRefused(s: Stream, body: Body)
    requires body.Foreign?
    ensures AcceptBody(s, body).None?
  {
  }

  // ---------------------------------------------------------------------------------------------------------------
  // Every step
  // ---------------------------------------------------------------------------------------------------------------

  lemma OwnCall(x: End, op: Op)
    requires Own(x) && ValidConfig(x.s.config)
    ensures Own(x.(s := Call(x.s, op)))
  {
    hide Own, ValidConfig, Ticked, RequestEnd, StartClose, CompleteClose, FailTerminal, Fail, Disconnect;
    hide SetIoState, RecordProgress, Advance;
    match op
    case DoRequestEnd => OwnRequestEnd(x);
    case DoStartClose => OwnStartClose(x);
    case DoCompleteClose(disposition, facts, failure) => OwnCompleteClose(x, disposition, facts, failure);
    case DoFailTerminal(failure) => OwnFailTerminal(x, failure);
    case DoCancel => OwnFail(x, Cancelled, true);
    case DoDisconnect => OwnDisconnect(x);
    case DoSetIoState(state) =>
      SetIoStateTicks(x.s, state);
      OwnTicked(x, SetIoState(x.s, state).0);
    case DoRecordProgress(bytes) =>
      RecordProgressTicks(x.s, bytes);
      OwnTicked(x, RecordProgress(x.s, bytes).0);
    case DoAdvance(now) =>
      AdvanceTicks(x.s, now);
      OwnTicked(x, Advance(x.s, now));
    case _ => assert x.(s := x.s) == x;
  }

  /** Every call on one side keeps what that side keeps. */
  lemma OwnLocal(x: End, op: Op)
    requires Own(x) && ValidConfig(x.s.config)
    ensures Own(Local(x, op))
  {
    hide Own, ValidConfig, WriteEnd, ReadEnd, FlushEnd, TakeEnd, Call;
    match op
    case DoWrite(input) => OwnWrite(x, input);
    case DoRead(room) => OwnRead(x, room);
    case DoStartFlush => OwnStartFlush(x);
    case Take => OwnTake(x);
    case _ => OwnCall(x, op);
  }
}
