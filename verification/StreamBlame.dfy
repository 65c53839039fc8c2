/** No side of a pair ever fails for a breach of the protocol, short of writing past the last offset there is. */
module StreamBlame {
  import opened Base
  import opened StreamProtocol
  import opened StreamSpec
  import opened StreamPair
  import opened StreamOwn
  import opened StreamDeliver
  import opened StreamRuns
  import opened StreamProgress
  import Io = IoClock

  predicate BrokeProtocol(s: Stream) {
    s.error.Some? && s.error.value.Protocol?
  }

  lemma FailBlame(s: Stream, error: Error, notify: bool)
    requires !error.Protocol?
    ensures BrokeProtocol(Fail(s, error, notify)) ==> BrokeProtocol(s)
  {
    hide Wrap, Notice, Io.Stop;
  }

  lemma TickedBlame(s: Stream, t: Stream)
    requires Ticked(s, t)
    ensures BrokeProtocol(t) ==> BrokeProtocol(s)
  {
    hide Fail;
    var quiet :| Unmoved(s, quiet) && (t == quiet || t == Fail(quiet, Timeout, true));
    FailBlame(quiet, Timeout, true);
  }

  lemma EndBlame(s: Stream)
    ensures BrokeProtocol(RequestEnd(s).0) ==> BrokeProtocol(s)
  {
  }

  lemma CloseBlame(s: Stream)
    ensures BrokeProtocol(StartClose(s).0) ==> BrokeProtocol(s)
  {
    hide Io.Stop;
  }

  lemma ReportBlame(s: Stream, disposition: Disposition, facts: Part, failure: Option<Failure>)
    ensures BrokeProtocol(CompleteClose(s, disposition, facts, failure).0) ==> BrokeProtocol(s)
  {
    hide Admitted;
  }

  lemma FailureBlame(s: Stream, failure: Failure)
    ensures BrokeProtocol(FailTerminal(s, failure).0) ==> BrokeProtocol(s)
  {
    hide Admitted, Fail;
    FailBlame(s.(failureFacts := failure.facts), PeerFailed(failure.code, failure.effect), false);
  }

  lemma CallBlame(s: Stream, op: Op)
    ensures BrokeProtocol(Call(s, op)) ==> BrokeProtocol(s)
  {
    hide Ticked, BrokeProtocol, RequestEnd, StartClose, CompleteClose, FailTerminal, Fail, SetIoState, RecordProgress, Advance;
    match op
    case DoRequestEnd => EndBlame(s);
    case DoStartClose => CloseBlame(s);
    case DoCompleteClose(disposition, facts, failure) => ReportBlame(s, disposition, facts, failure);
    case DoFailTerminal(failure) => FailureBlame(s, failure);
    case DoCancel => FailBlame(s, Cancelled, true);
    case DoDisconnect => DisconnectBlame(s);
    case DoSetIoState(state) =>
      SetIoStateTicks(s, state);
      TickedBlame(s, SetIoState(s, state).0);
    case DoRecordProgress(bytes) =>
      RecordProgressTicks(s, bytes);
      TickedBlame(s, RecordProgress(s, bytes).0);
    case DoAdvance(now) =>
      AdvanceTicks(s, now);
      TickedBlame(s, Advance(s, now));
    case _ =>
  }

  lemma DisconnectBlame(s: Stream)
    ensures BrokeProtocol(Disconnect(s)) ==> BrokeProtocol(s)
  {
    hide Fail;
    FailBlame(s, CarrierLost, false);
  }

  /** A message that ends nothing leaves the error alone. */
  lemma DataBlame(s: Stream, body: Body)
    requires body.Data? && AcceptBody(s, body).Some?
    ensures BrokeProtocol(AcceptBody(s, body).value) ==> BrokeProtocol(s)
  {
  }

  lemma FlushBodyBlame(s: Stream, body: Body)
    requires (body.Window? || body.Flush? || body.Flushed?) && AcceptBody(s, body).Some?
    ensures BrokeProtocol(AcceptBody(s, body).value) ==> BrokeProtocol(s)
  {
  }

  lemma EndBodyBlame(s: Stream, body: Body)
    requires (body.EndWrite? || body.Close?) && AcceptBody(s, body).Some?
    ensures BrokeProtocol(AcceptBody(s, body).value) ==> BrokeProtocol(s)
  {
    hide Io.Stop;
  }

  lemma EndingBlame(s: Stream, body: Body)
    requires (body.Closed? || body.Cancel? || body.Failed?) && AcceptBody(s, body).Some?
    ensures BrokeProtocol(AcceptBody(s, body).value) ==> BrokeProtocol(s)
  {
    hide Fail;
    match body
    case Closed(report) =>
      if report.failure.Some? {
        var f := report.failure.value;
        FailBlame(s.(failureFacts := Some(report.facts)), PeerFailed(f.code, f.effect), false);
      }
    case Cancel(reason) => FailBlame(s, if reason.TimeoutCode? then Timeout else Cancelled, false);
    case Failed(f) => FailBlame(s.(failureFacts := f.facts), PeerFailed(f.code, f.effect), false);
  }

  lemma ForeignRefusedHere(s: Stream, body: Body)
    requires AcceptBody(s, body).Some?
    ensures !body.Foreign?
  {
    hide Fail;
  }

  lemma AcceptBlame(s: Stream, body: Body)
    requires AcceptBody(s, body).Some?
    ensures BrokeProtocol(AcceptBody(s, body).value) ==> BrokeProtocol(s)
  {
    hide AcceptBody, BrokeProtocol;
    ForeignRefusedHere(s, body);
    if body.Data? {
      DataBlame(s, body);
    } else if body.Window? || body.Flush? || body.Flushed? {
      FlushBodyBlame(s, body);
    } else if body.EndWrite? || body.Close? {
      EndBodyBlame(s, body);
    } else {
      EndingBlame(s, body);
    }
  }

  lemma SendBlame(s: Stream)
    ensures BrokeProtocol(SendWindow(s).0) ==> BrokeProtocol(s)
    ensures BrokeProtocol(SendEnd(s).0) ==> BrokeProtocol(s)
    ensures BrokeProtocol(SendClose(s).0) ==> BrokeProtocol(s)
  {
    hide Grant;
  }

  lemma SendFlushedBlame(s: Stream)
    ensures FlushedDue(s) && BrokeProtocol(SendFlushed(s).0) ==> BrokeProtocol(s)
  {
    hide FlushedDue;
  }

  lemma SendClosedBlame(s: Stream)
    ensures s.closePending.Some? && BrokeProtocol(SendClosed(s).0) ==> BrokeProtocol(s)
  {
  }

  lemma SendFlushBlame(s: Stream)
    ensures FlushDue(s) && BrokeProtocol(SendFlush(s).0) ==> BrokeProtocol(s)
  {
    hide FlushDue;
  }

  lemma SendDataBlame(s: Stream)
    ensures DataDue(s) && BrokeProtocol(SendData(s).0) ==> BrokeProtocol(s)
  {
    hide DataDue;
  }

  lemma TakeBlame(x: End)
    ensures BrokeProtocol(TakeEnd(x).s) ==> BrokeProtocol(x.s)
  {
    hide BrokeProtocol, FlushedDue, Grant, FlushDue, DataDue, EndDue, CloseDue, Wrap;
    hide SendFlushed, SendWindow, SendClosed, SendFlush, SendData, SendEnd, SendClose;
    if x.s.terminal.Some? {
      TerminalBlame(x.s);
    } else {
      SendBlame(x.s);
      SendFlushedBlame(x.s);
      SendClosedBlame(x.s);
      SendFlushBlame(x.s);
      SendDataBlame(x.s);
    }
  }

  lemma TerminalBlame(s: Stream)
    ensures BrokeProtocol(s.(terminal := None)) ==> BrokeProtocol(s)
  {
  }

  lemma UrgedError(s: Stream)
    ensures Urged(s).error == s.error
  {
  }

  lemma ConsumedError(s: Stream, count: nat)
    requires count <= |s.recv|
    ensures Consumed(s, count).error == s.error
  {
  }

  lemma ReadBlame(x: End, room: nat)
    ensures BrokeProtocol(ReadEnd(x, room).s) ==> BrokeProtocol(x.s)
  {
    hide Urged, Consumed, Drained;
    var t := Urged(x.s);
    UrgedError(x.s);
    if t.recv != [] {
      ConsumedError(t, Min(room, |t.recv|));
    }
  }

  lemma FlushBlame(x: End)
    ensures BrokeProtocol(FlushEnd(x).s) ==> BrokeProtocol(x.s)
  {
  }

  lemma WriteBlame(x: End, input: seq<byte>)
    requires Own(x) && BrokeProtocol(WriteEnd(x, input).s)
    ensures BrokeProtocol(x.s) || |x.wrote| + x.s.config.sendBuffer > I64_MAX
  {
    hide Fail, FlushOwn, EndOwn, DeadOwn, CloseOwn, ReadOwn, SentMarks;
  }

  /** A protocol error is the mark of a side asked to write past the last offset. */
  predicate Blameless(x: End, c: Config) {
    BrokeProtocol(x.s) ==> |x.wrote| + c.sendBuffer > I64_MAX
  }

  lemma WroteGrows(x: End, op: Op)
    ensures |x.wrote| <= |Local(x, op).wrote|
  {
    hide Write, Read, StartFlush, NextMessage, Call;
  }

  lemma LocalBlame(x: End, op: Op)
    requires Own(x) && Blameless(x, x.s.config)
    ensures Blameless(Local(x, op), x.s.config)
  {
    hide Own, BrokeProtocol, Call, WriteEnd, ReadEnd, FlushEnd, TakeEnd;
    WroteGrows(x, op);
    match op
    case DoWrite(input) =>
      if BrokeProtocol(WriteEnd(x, input).s) {
        WriteBlame(x, input);
      }
    case DoRead(room) => ReadBlame(x, room);
    case DoStartFlush => FlushBlame(x);
    case Take => TakeBlame(x);
    case _ => CallBlame(x.s, op);
  }

  lemma DeliverBlame(x: End, y: End, c: Config)
    requires Joined(x, y) && Blameless(x, c) && y.out != []
    ensures Blameless(DeliverTo(x, y.out[0]), c)
  {
    hide Joined, Expired, Accept, AcceptBody, Fail, BrokeProtocol;
    if Live(x.s) {
      FailBlame(x.s, Timeout, true);
      NeverRefused(x, y);
      AcceptBlame(x.s, y.out[0].body);
    }
  }

  lemma StepBlame(p: Pair, side: Side, op: Op)
    requires Inv(p) && Blameless(p.a, p.a.s.config) && Blameless(p.b, p.b.s.config)
    ensures var q := Step(p, side, op); Blameless(q.a, p.a.s.config) && Blameless(q.b, p.b.s.config)
  {
    hide Own, Flow, Mirrored, Local, DeliverTo, BrokeProtocol, Joined;
    BothJoined(p);
    LocalBlame(p.a, op);
    LocalBlame(p.b, op);
    if p.b.out != [] {
      DeliverBlame(p.a, p.b, p.a.s.config);
    }
    if p.a.out != [] {
      DeliverBlame(p.b, p.a, p.b.s.config);
    }
  }

  /** In no run does a side fail with a protocol error, unless it was asked to write some 2^63 bytes. */
  lemma {:induction false} NeitherSideBreaksProtocol(c: Config, d: Config, events: seq<Event>)
    requires Mirrored(c, d) && c.side == Initiator
    ensures var p := Run(Fresh(c, d), events); Blameless(p.a, c) && Blameless(p.b, d)
  {
    hide Inv, Mirrored, Step;
    if events != [] {
      var before, last := events[..|events| - 1], events[|events| - 1];
      NeitherSideBreaksProtocol(c, d, before);
      Reachable(c, d, before);
      ConfigsStay(c, d, before);
      StepBlame(Run(Fresh(c, d), before), last.side, last.op);
    }
  }
}
