/** Where a pair of streams can come to rest: only unread bytes hold anything up. */
module StreamProgress {
  import opened Base
  import opened StreamProtocol
  import opened StreamSpec
  import opened StreamPair
  import opened StreamDeliver
  import opened StreamRuns
  import Io = IoClock

  // ---------------------------------------------------------------------------------------------------------------
  // A pair at rest
  // ---------------------------------------------------------------------------------------------------------------

  /** Both sides are live, nothing is in flight and neither side has anything to hand over. */
  predicate Resting(x: End, y: End) {
    Live(x.s) && Live(y.s) && x.out == [] && y.out == [] && NextMessage(x.s).1.None? && NextMessage(y.s).1.None?
  }

  /** At rest each side's view of the other is exact. */
  lemma RestingViews(x: End, y: End)
    requires Joined(x, y) && Resting(x, y)
    ensures y.s.received == x.s.sent && y.s.endReceived == x.s.endSent && y.s.closeReceived == x.s.closeSent
    ensures x.s.peerLimit == y.s.advertisedLimit == Grant(y.s)
    ensures NextBody(x.s).None? && NextBody(y.s).None?
  {
    hide Written, FlushOwn, EndOwn, CloseOwn, ReadOwn, SentMarks, Mirrored, Delivered, Acknowledged, Truthful, OneToken;
    hide SendFlushed, SendWindow, SendClosed, SendFlush, SendData, SendEnd, SendClose;
    hide FlushedDue, FlushDue, DataDue, EndDue, CloseDue, Wrap;
  }

  /** What a side that has nothing to hand over is not waiting to hand over. */
  lemma NothingDue(s: Stream)
    requires NextBody(s).None?
    ensures !FlushedDue(s) && s.closePending.None? && !FlushDue(s) && !DataDue(s) && !EndDue(s) && !CloseDue(s)
  {
    hide SendFlushed, SendWindow, SendClosed, SendFlush, SendData, SendEnd, SendClose;
    hide FlushedDue, FlushDue, DataDue, EndDue, CloseDue, Grant;
  }

  /** A sender at rest is without credit only in front of a full window of unread bytes: no credit is ever lost. */
  lemma ZeroCreditIsFull(x: End, y: End)
    requires Joined(x, y) && Resting(x, y) && x.s.sent == x.s.peerLimit < I64_MAX
    ensures |y.s.recv| == y.s.config.receiveWindow
  {
    hide Flow, Mirrored, NextBody, NextMessage, Written, FlushOwn, EndOwn, DeadOwn, CloseOwn, ReadOwn, SentMarks, Eligible;
    RestingViews(x, y);
  }

  /** So bytes ready to leave stay behind only there. */
  lemma BlockedOnlyByUnread(x: End, y: End)
    requires Joined(x, y) && Resting(x, y) && x.s.send != [] && Eligible(x.s)
    ensures x.s.sent == x.s.peerLimit < I64_MAX && |y.s.recv| == y.s.config.receiveWindow
  {
    hide Flow, Mirrored, NextBody, NextMessage, Written, FlushOwn, EndOwn, DeadOwn, CloseOwn, ReadOwn, SentMarks, Eligible;
    RestingViews(x, y);
    NothingDue(x.s);
    ZeroCreditIsFull(x, y);
  }

  /** Once the receiver has read everything, nothing is outstanding. */
  predicate Settled(x: End, y: End) {
    && (x.s.send != [] ==> !Eligible(x.s) && !x.s.endRequested)
    && x.s.flush.None? && y.s.peerFlush.None?
    && (x.s.endRequested ==> x.s.endSent && y.s.endReceived && |y.read| <= |x.wrote| == y.s.consumed)
    && (x.s.config.side == Initiator && x.s.closeDeadline.Some? ==> y.s.closeReceived)
  }

  lemma SettledSending(x: End, y: End)
    requires Joined(x, y) && Resting(x, y) && y.s.recv == []
    ensures x.s.send != [] ==> !Eligible(x.s) && !x.s.endRequested && x.s.flush.None?
  {
    hide Flow, NextBody, NextMessage, Written, FlushOwn, EndOwn, DeadOwn, CloseOwn, ReadOwn, SentMarks;
    if x.s.send != [] && Eligible(x.s) {
      BlockedOnlyByUnread(x, y);
    }
  }

  lemma SettledFlush(x: End, y: End)
    requires Joined(x, y) && Resting(x, y) && y.s.recv == []
    ensures x.s.flush.None? && y.s.peerFlush.None?
  {
    hide InFlight, Delivered, Acknowledged, Truthful, Mirrored, NextBody, NextMessage, Written, EndOwn, DeadOwn, CloseOwn, ReadOwn, SentMarks;
    SettledSending(x, y);
    RestingViews(x, y);
    NothingDue(x.s);
    NothingDue(y.s);
  }

  lemma RestIsSettled(x: End, y: End)
    requires Joined(x, y) && Resting(x, y) && y.s.recv == []
    ensures Settled(x, y)
  {
    hide InFlight, Acknowledged, Truthful, OneToken, Mirrored, NextBody, NextMessage, FlushOwn, DeadOwn, SentMarks, Outgoing, Eligible;
    SettledSending(x, y);
    SettledFlush(x, y);
    RestingViews(x, y);
    NothingDue(x.s);
  }

  /**
   In every run that comes to rest, ready bytes wait only on a full window of unread ones; and if a side has read all it
   holds, its peer's flush, end of writing and close have all come through.
   */
  lemma RestsOnlyOnUnread(c: Config, d: Config, events: seq<Event>)
    requires Mirrored(c, d) && c.side == Initiator
    ensures var p := Run(Fresh(c, d), events);
            Resting(p.a, p.b) ==>
              && (p.a.s.sent == p.a.s.peerLimit < I64_MAX ==> |p.b.s.recv| == d.receiveWindow)
              && (p.b.s.sent == p.b.s.peerLimit < I64_MAX ==> |p.a.s.recv| == c.receiveWindow)
              && (p.a.s.send != [] && Eligible(p.a.s) ==> p.a.s.sent == p.a.s.peerLimit < I64_MAX)
              && (p.b.s.send != [] && Eligible(p.b.s) ==> p.b.s.sent == p.b.s.peerLimit < I64_MAX)
              && (p.b.s.recv == [] ==> Settled(p.a, p.b))
              && (p.a.s.recv == [] ==> Settled(p.b, p.a))
  {
    hide Inv, Joined, Run, Mirrored, Settled, Eligible, NextMessage;
    Reachable(c, d, events);
    ConfigsStay(c, d, events);
    var p := Run(Fresh(c, d), events);
    BothJoined(p);
    if Resting(p.a, p.b) {
      RestSide(p.a, p.b);
      RestSide(p.b, p.a);
    }
  }

  lemma RestSide(x: End, y: End)
    requires Joined(x, y) && Resting(x, y)
    ensures x.s.sent == x.s.peerLimit < I64_MAX ==> |y.s.recv| == y.s.config.receiveWindow
    ensures x.s.send != [] && Eligible(x.s) ==> x.s.sent == x.s.peerLimit < I64_MAX
    ensures y.s.recv == [] ==> Settled(x, y)
  {
    hide Joined, Settled, Eligible, NextMessage;
    if x.s.sent == x.s.peerLimit < I64_MAX {
      ZeroCreditIsFull(x, y);
    }
    if x.s.send != [] && Eligible(x.s) {
      BlockedOnlyByUnread(x, y);
    }
    if y.s.recv == [] {
      RestIsSettled(x, y);
    }
  }

  /** Whatever `y` now reads earns `x` new credit, which leaves at once or right behind an acknowledgement. */
  predicate Earns(x: End, y: End, room: nat) {
    var s := ReadEnd(y, room).s;
    && Grant(s) > x.s.peerLimit
    && (if FlushedDue(s) then
          && NextBody(s) == Some(SendFlushed(s))
          && NextBody(SendFlushed(s).0).Some? && NextBody(SendFlushed(s).0).value.1 == Window(Grant(s))
        else NextBody(s) == Some(SendWindow(s)))
  }

  lemma ReadingEarnsCredit(x: End, y: End, room: nat)
    requires Joined(x, y) && Resting(x, y) && room > 0 && x.s.sent == x.s.peerLimit < I64_MAX
    ensures Earns(x, y, room)
  {
    hide Joined, Resting, NextBody, ReadEnd;
    ZeroCreditIsFull(x, y);
    RestingViews(x, y);
    FullIsUnread(x, y);
    ReadMoves(y, room);
    var s := ReadEnd(y, room).s;
    if FlushedDue(s) {
      AfterFlushed(s);
    } else {
      WindowFirst(s);
    }
  }

  lemma FullIsUnread(x: End, y: End)
    requires Joined(x, y)
    ensures y.s.config.receiveWindow >= 1 && 0 <= y.s.consumed && y.s.consumed + |y.s.recv| == y.s.received
  {
    hide Flow, Written, FlushOwn, EndOwn, DeadOwn, CloseOwn, ReadOwn, SentMarks, Urgent, Admitted, ProbeOf;
  }

  lemma ReadMoves(y: End, room: nat)
    requires room > 0 && y.s.recv != []
    ensures var s := ReadEnd(y, room).s;
            && s.consumed > y.s.consumed && s.config == y.s.config && s.advertisedLimit == y.s.advertisedLimit
  {
    hide Urged, Consumed, Drained;
    UrgedSame(y.s);
    ConsumedMoves(Urged(y.s), Min(room, |y.s.recv|));
  }

  lemma UrgedSame(s: Stream)
    ensures var t := Urged(s);
            t.recv == s.recv && t.consumed == s.consumed && t.config == s.config && t.advertisedLimit == s.advertisedLimit
  {
  }

  lemma ConsumedMoves(s: Stream, count: nat)
    requires count <= |s.recv|
    ensures var t := Consumed(s, count);
            t.consumed == s.consumed + count && t.config == s.config && t.advertisedLimit == s.advertisedLimit
  {
  }

  lemma WindowFirst(s: Stream)
    requires !FlushedDue(s) && Grant(s) > s.advertisedLimit
    ensures NextBody(s) == Some(SendWindow(s))
  {
    hide FlushedDue, Grant, SendWindow;
  }

  lemma AfterFlushed(s: Stream)
    requires FlushedDue(s) && Grant(s) > s.advertisedLimit
    ensures NextBody(s) == Some(SendFlushed(s))
    ensures NextBody(SendFlushed(s).0).Some? && NextBody(SendFlushed(s).0).value.1 == Window(Grant(s))
  {
    var t := SendFlushed(s).0;
    assert Grant(t) == Grant(s) && t.advertisedLimit == s.advertisedLimit && !FlushedDue(t);
    WindowFirst(t);
  }

  predicate NoCreditLost(x: End, y: End, room: nat) {
    x.s.sent == x.s.peerLimit < I64_MAX ==>
      |y.s.recv| == y.s.config.receiveWindow && (room > 0 ==> Earns(x, y, room))
  }

  /** In every run that comes to rest, no credit has been lost, in either direction, and any read earns more. */
  lemma NoCreditIsLost(c: Config, d: Config, events: seq<Event>, room: nat)
    requires Mirrored(c, d) && c.side == Initiator
    ensures var p := Run(Fresh(c, d), events);
            Resting(p.a, p.b) ==> NoCreditLost(p.a, p.b, room) && NoCreditLost(p.b, p.a, room)
  {
    hide Inv, Joined, Run, Mirrored, NextMessage, Earns;
    Reachable(c, d, events);
    var p := Run(Fresh(c, d), events);
    BothJoined(p);
    if Resting(p.a, p.b) {
      CreditSide(p.a, p.b, room);
      CreditSide(p.b, p.a, room);
    }
  }

  lemma CreditSide(x: End, y: End, room: nat)
    requires Joined(x, y) && Resting(x, y)
    ensures NoCreditLost(x, y, room)
  {
    hide Joined, Resting, Earns;
    if x.s.sent == x.s.peerLimit < I64_MAX {
      ZeroCreditIsFull(x, y);
      if room > 0 {
        ReadingEarnsCredit(x, y, room);
      }
    }
  }

  // ---------------------------------------------------------------------------------------------------------------
  // The close handshake goes through
  // ---------------------------------------------------------------------------------------------------------------

  /** The close has come to rest in front of the endpoint's application, which has read and written all it will. */
  predicate CloseAwaited(a: End, b: End) {
    && Joined(a, b) && Resting(a, b) && a.s.config.side == Initiator
    && a.s.closeDeadline.Some? && b.s.endRequested && b.s.recv == []
  }

  lemma CloseReady(a: End, b: End)
    requires CloseAwaited(a, b)
    ensures b.s.closeReceived && b.s.endSent && b.s.endReceived && b.s.peerFlush.None? && b.s.flush.None?
    ensures b.s.closePending.None? && b.s.config.side == Endpoint
    ensures Grant(b.s) == b.s.advertisedLimit
    ensures a.s.closeSent && a.s.endReceived && b.s.terminal.None?
  {
    hide Flow, NextBody, NextMessage, Counters, Written, FlushOwn, EndOwn, ReadOwn, SentMarks, Outgoing, ValidConfig, Grant;
    RestIsSettled(a, b);
    RestIsSettled(b, a);
    RestingViews(a, b);
    RestingViews(b, a);
    NothingDue(b.s);
    NothingDue(a.s);
  }

  /** The endpoint may then report, and is refused only for a report its peer could not hold. */
  lemma ReportAccepted(a: End, b: End, disposition: Disposition, facts: Part, failure: Option<Failure>)
    requires CloseAwaited(a, b)
    ensures var report := ClosedReport(disposition, b.s.discarded, facts, failure);
            CompleteClose(b.s, disposition, facts, failure) ==
            if Admitted(Wrap(b.s, Closed(report)), b.s.config.peerLimits) then
              (b.s.(closePending := Some(report)), Ok(()))
            else (b.s, Err(Protocol))
  {
    hide Joined, Admitted, NextMessage;
    CloseReady(a, b);
  }

  /** And its report, delivered in time, is what the initiator's close ends with. */
  lemma CloseGoesThrough(a: End, b: End, disposition: Disposition, facts: Part)
    requires CloseAwaited(a, b) && !Expired(a.s)
    requires CompleteClose(b.s, disposition, facts, None).1 == Ok(())
    ensures var b2 := TakeEnd(b.(s := CompleteClose(b.s, disposition, facts, None).0));
            && b2.out == [Wrap(b.s, Closed(ClosedReport(disposition, false, facts, None)))]
            && b2.s.completed.Some?
            && Receive(a.s, b2.out[0]) ==
               (a.s.(completed := Some(CloseResult(disposition, a.s.discarded, facts))), Ok(()))
  {
    hide Flow, NextMessage, Counters, Written, FlushOwn, EndOwn, DeadOwn, ReadOwn, SentMarks, Admitted, Outgoing, ValidConfig, Grant, Expired, CompleteClose, TakeEnd;
    CloseReady(a, b);
    ReportAccepted(a, b, disposition, facts, None);
    ReportTaken(b, ClosedReport(disposition, false, facts, None));
  }

  lemma ReportTaken(b: End, report: ClosedReport)
    requires Live(b.s) && b.s.terminal.None? && b.s.peerFlush.None? && Grant(b.s) == b.s.advertisedLimit && b.out == []
    ensures var b2 := TakeEnd(b.(s := b.s.(closePending := Some(report))));
            b2.out == [Wrap(b.s, Closed(report))] && b2.s.completed.Some?
  {
    hide SendFlushed, SendWindow, SendFlush, SendData, SendEnd, SendClose, FlushDue, DataDue, EndDue, CloseDue;
  }

  /** Over every run: once the close has come to rest before the endpoint, three more steps complete it on both sides. */
  lemma CloseCompletes(c: Config, d: Config, events: seq<Event>, disposition: Disposition, facts: Part)
    requires Mirrored(c, d) && c.side == Initiator
    ensures var p := Run(Fresh(c, d), events);
            var q := Step(Step(Step(p, Endpoint, DoCompleteClose(disposition, facts, None)), Endpoint, Take), Initiator, Deliver);
            && Resting(p.a, p.b) && p.a.s.closeDeadline.Some? && p.b.s.endRequested && p.b.s.recv == []
            && !Expired(p.a.s) && CompleteClose(p.b.s, disposition, facts, None).1 == Ok(()) ==>
              && q.a.s.completed == Some(CloseResult(disposition, p.a.s.discarded, facts))
              && q.b.s.completed.Some?
  {
    hide Joined, Run, Own, Flow, ValidConfig, Expired, NextMessage, CompleteClose, TakeEnd, Receive;
    Reachable(c, d, events);
    var p := Run(Fresh(c, d), events);
    BothJoined(p);
    if CloseAwaited(p.a, p.b) && !Expired(p.a.s) && CompleteClose(p.b.s, disposition, facts, None).1 == Ok(()) {
      CloseGoesThrough(p.a, p.b, disposition, facts);
    }
  }

  // ---------------------------------------------------------------------------------------------------------------
  // Configurations never change
  // ---------------------------------------------------------------------------------------------------------------

  lemma StepKeepsConfigs(p: Pair, side: Side, op: Op)
    requires Inv(p)
    ensures var q := Step(p, side, op); q.a.s.config == p.a.s.config && q.b.s.config == p.b.s.config
  {
    hide Own, Flow, Mirrored, Local, DeliverTo;
    BothJoined(p);
    match side
    case Initiator =>
      if op.Deliver? {
        if p.b.out != [] {
          DeliverFlow(p.a, p.b);
        }
      } else {
        LocalFlow(p.a, p.b, op);
      }
    case Endpoint =>
      if op.Deliver? {
        if p.a.out != [] {
          DeliverFlow(p.b, p.a);
        }
      } else {
        LocalFlow(p.b, p.a, op);
      }
  }

  lemma {:induction false} ConfigsStay(c: Config, d: Config, events: seq<Event>)
    requires Mirrored(c, d) && c.side == Initiator
    ensures var p := Run(Fresh(c, d), events); p.a.s.config == c && p.b.s.config == d
  {
    hide Inv, Mirrored, Step, Io.New;
    if events != [] {
      var before := events[..|events| - 1];
      ConfigsStay(c, d, before);
      Reachable(c, d, before);
      var last := events[|events| - 1];
      StepKeepsConfigs(Run(Fresh(c, d), before), last.side, last.op);
    }
  }
}
