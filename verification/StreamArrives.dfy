/**
 Delivery from end to end: when messages are handed over and delivered and the applications read, in whatever order,
 every byte that is not held back for coalescing is read, and every end of writing and every close comes through.
 */
module StreamArrives {
  import opened Base
  import opened StreamProtocol
  import opened StreamSpec
  import opened StreamPair
  import opened StreamDeliver
  import opened StreamRuns
  import opened StreamProgress
  import opened StreamSettles
  import B = StreamBytes
  import Io = IoClock

  // ---------------------------------------------------------------------------------------------------------------
  // Schedules with reads
  // ---------------------------------------------------------------------------------------------------------------

  /** The step hands over, delivers, or reads something. */
  predicate Eager(p: Pair, e: Event) {
    Productive(p, e) || (e.op.DoRead? && e.op.room > 0 && (if e.side == Initiator then p.a else p.b).s.recv != [])
  }

  predicate AllEager(p: Pair, events: seq<Event>) {
    events != [] ==>
      var before := events[..|events| - 1];
      AllEager(p, before) && Eager(Run(p, before), events[|events| - 1])
  }

  /** Nothing is left to hand over, to deliver or to read. */
  predicate Drained(p: Pair) {
    Exhausted(p) && p.a.s.recv == [] && p.b.s.recv == []
  }

  lemma DrainedIffIdle(p: Pair)
    ensures Drained(p) <==> forall e: Event :: !Eager(p, e)
  {
    hide Exhausted, Productive;
    ExhaustedIffUnproductive(p);
    if !Exhausted(p) {
      var e: Event :| Productive(p, e);
      assert Eager(p, e);
    } else if p.a.s.recv != [] {
      assert Eager(p, Event(Initiator, DoRead(1)));
    } else if p.b.s.recv != [] {
      assert Eager(p, Event(Endpoint, DoRead(1)));
    }
  }

  // ---------------------------------------------------------------------------------------------------------------
  // What such a step leaves alone
  // ---------------------------------------------------------------------------------------------------------------

  /** Nothing is held back for coalescing. */
  predicate Pressed(s: Stream) {
    s.send == [] || s.forceSend
  }

  /** Time and requests stand still; what is pressed stays pressed, and what is consumed stays consumed. */
  predicate Steady(s: Stream, t: Stream) {
    && t.config == s.config && t.now == s.now && t.endRequested == s.endRequested && s.consumed <= t.consumed
    && (Pressed(s) ==> Pressed(t))
  }

  lemma SteadyOn(s: Stream, t: Stream, u: Stream)
    requires Steady(s, t) && Steady(t, u)
    ensures Steady(s, u)
  {
  }

  /** Nothing is read or discarded besides, nobody fails, and only a report completes. */
  predicate Sends(s: Stream, next: (Stream, Body)) {
    && Steady(s, next.0) && next.0.consumed == s.consumed && next.0.error == s.error
    && (next.0.completed == s.completed || next.1.Closed?)
  }

  lemma DataSteady(s: Stream)
    requires DataDue(s)
    ensures Steady(s, SendData(s).0)
  {
    hide Eligible, Credit;
  }

  lemma DataSends(s: Stream)
    requires DataDue(s)
    ensures Sends(s, SendData(s))
  {
    hide Eligible, Credit, Steady;
    DataSteady(s);
  }

  lemma FlushedSends(s: Stream)
    requires FlushedDue(s)
    ensures Sends(s, SendFlushed(s))
  {
  }

  lemma WindowSends(s: Stream)
    ensures Sends(s, SendWindow(s))
  {
    hide Grant;
  }

  lemma ClosedSends(s: Stream)
    requires s.closePending.Some?
    ensures Sends(s, SendClosed(s))
  {
  }

  lemma FlushSends(s: Stream)
    requires FlushDue(s)
    ensures Sends(s, SendFlush(s))
  {
  }

  lemma EndSends(s: Stream)
    ensures Sends(s, SendEnd(s)) && Sends(s, SendClose(s))
  {
  }

  lemma NextSends(s: Stream)
    requires NextBody(s).Some?
    ensures Sends(s, NextBody(s).value)
  {
    hide Sends, FlushedDue, FlushDue, DataDue, EndDue, CloseDue, Grant;
    hide SendFlushed, SendWindow, SendClosed, SendFlush, SendData, SendEnd, SendClose;
    if FlushedDue(s) {
      FlushedSends(s);
    } else if Grant(s) > s.advertisedLimit {
      WindowSends(s);
    } else if s.closePending.Some? {
      ClosedSends(s);
    } else if FlushDue(s) {
      FlushSends(s);
    } else if DataDue(s) {
      DataSends(s);
    } else {
      EndSends(s);
    }
  }

  lemma TerminalSteady(s: Stream)
    ensures Steady(s, s.(terminal := None)) && Steady(s, s)
  {
  }

  lemma TakeSteady(x: End)
    ensures Steady(x.s, TakeEnd(x).s) && TakeEnd(x).s.consumed == x.s.consumed && TakeEnd(x).wrote == x.wrote
  {
    hide NextBody, Wrap, Steady;
    TerminalSteady(x.s);
    if NextBody(x.s).Some? {
      NextSends(x.s);
    }
  }

  lemma FailConfig(s: Stream, error: Error, notify: bool)
    ensures Fail(s, error, notify).config == s.config
  {
    hide Wrap, Notice, Io.Stop;
  }

  lemma FailNow(s: Stream, error: Error, notify: bool)
    ensures Fail(s, error, notify).now == s.now
  {
    hide Wrap, Notice, Io.Stop;
  }

  lemma FailRequests(s: Stream, error: Error, notify: bool)
    ensures Fail(s, error, notify).endRequested == s.endRequested
  {
    hide Wrap, Notice, Io.Stop;
  }

  lemma FailConsumes(s: Stream, error: Error, notify: bool)
    ensures Fail(s, error, notify).consumed == s.consumed
  {
    hide Wrap, Notice, Io.Stop;
  }

  lemma FailPressed(s: Stream, error: Error, notify: bool)
    ensures Pressed(s) ==> Pressed(Fail(s, error, notify))
  {
    hide Wrap, Notice, Io.Stop;
  }

  lemma FailSteady(s: Stream, error: Error, notify: bool)
    ensures Steady(s, Fail(s, error, notify))
  {
    hide Fail, Pressed;
    FailConfig(s, error, notify);
    FailNow(s, error, notify);
    FailRequests(s, error, notify);
    FailConsumes(s, error, notify);
    FailPressed(s, error, notify);
  }

  lemma HearDataSteady(s: Stream, b: Body)
    requires s.consumed <= s.received && b.Data?
    ensures AcceptBody(s, b).Some? ==> Steady(s, AcceptBody(s, b).value)
  {
  }

  lemma HearFlushSteady(s: Stream, b: Body)
    requires b.Flush? || b.Flushed?
    ensures AcceptBody(s, b).Some? ==> Steady(s, AcceptBody(s, b).value)
  {
  }

  lemma HearWindowSteady(s: Stream, b: Body)
    requires b.Window?
    ensures AcceptBody(s, b).Some? ==> Steady(s, AcceptBody(s, b).value)
  {
    hide AddSat64, Fail;
    assert Steady(s, s);
    assert Steady(s, s.(peerLimit := b.maxOffset));
  }

  lemma HearEndSteady(s: Stream, b: Body)
    requires b.EndWrite?
    ensures AcceptBody(s, b).Some? ==> Steady(s, AcceptBody(s, b).value)
  {
    hide Fail;
    assert Steady(s, s.(endReceived := true));
  }

  lemma HearCloseSteady(s: Stream, b: Body)
    requires b.Close?
    ensures AcceptBody(s, b).Some? ==> Steady(s, AcceptBody(s, b).value)
  {
    hide Io.Stop, AddSatU64, Fail;
  }

  lemma FactsSteady(s: Stream, facts: Option<Part>)
    ensures Steady(s, s.(failureFacts := facts))
  {
  }

  lemma FailureSteady(s: Stream, failure: Option<Failure>)
    ensures Steady(s, s.(retainedFailure := failure))
  {
  }

  lemma PeerFailureSteady(s: Stream, facts: Option<Part>, failure: Failure)
    ensures var t := Fail(s.(failureFacts := facts), PeerFailed(failure.code, failure.effect), false);
            Steady(s, t.(retainedFailure := Some(failure)))
  {
    hide Fail, Steady;
    var t := s.(failureFacts := facts);
    var u := Fail(t, PeerFailed(failure.code, failure.effect), false);
    FactsSteady(s, facts);
    FailSteady(t, PeerFailed(failure.code, failure.effect), false);
    SteadyOn(s, t, u);
    FailureSteady(u, Some(failure));
    SteadyOn(s, u, u.(retainedFailure := Some(failure)));
  }

  lemma CompletedSteady(s: Stream, result: Option<CloseResult>)
    ensures Steady(s, s.(completed := result))
  {
  }

  lemma BodySteady(s: Stream, b: Body)
    requires s.consumed <= s.received
    ensures AcceptBody(s, b).Some? ==> Steady(s, AcceptBody(s, b).value)
  {
    hide Steady, Fail, Io.Stop;
    match b
    case Closed(report) =>
      if report.failure.Some? {
        PeerFailureSteady(s, Some(report.facts), report.failure.value);
      } else {
        var unread := s.discarded || report.unreadResponseDiscarded;
        CompletedSteady(s, Some(CloseResult(report.disposition, unread, report.facts)));
      }
    case Cancel(reason) => FailSteady(s, if reason.TimeoutCode? then Timeout else Cancelled, false);
    case Failed(failure) => PeerFailureSteady(s, failure.facts, failure);
    case Foreign(_, _) =>
    case Data(_, _) => HearDataSteady(s, b);
    case Flush(_) => HearFlushSteady(s, b);
    case Flushed(_) => HearFlushSteady(s, b);
    case Close(_) => HearCloseSteady(s, b);
    case Window(_) => HearWindowSteady(s, b);
    case EndWrite(_) => HearEndSteady(s, b);
  }

  lemma SteadySelf(s: Stream)
    ensures Steady(s, s)
  {
  }

  lemma ReceiveSteady(s: Stream, e: Envelope)
    requires s.consumed <= s.received
    ensures Steady(s, Receive(s, e).0)
  {
    hide Steady, AcceptBody, Fail, Expired, Addressed, Admitted;
    SteadySelf(s);
    FailSteady(s, Timeout, true);
    FailSteady(s, Protocol, true);
    BodySteady(s, e.body);
  }

  /** A read that finds bytes: what it frees is worth more than the window that it may owe. */
  lemma ReadEases(x: End, room: nat)
    requires room > 0 && x.s.recv != []
    ensures var y := ReadEnd(x, room);
            && y.out == x.out && y.wrote == x.wrote && Steady(x.s, y.s) && x.s.consumed < y.s.consumed
            && Weight(y.s) <= Weight(x.s) + 3
  {
    hide Weight, Steady, Consumed, Urged;
    var t := Urged(x.s);
    UrgedEases(x.s);
    ConsumedEases(t, Min(room, |t.recv|));
    SteadyOn(x.s, t, Consumed(t, Min(room, |t.recv|)));
  }

  lemma UrgedEases(s: Stream)
    ensures Steady(s, Urged(s)) && Weight(Urged(s)) == Weight(s) && Urged(s).recv == s.recv && Urged(s).consumed == s.consumed
  {
    hide Eligible;
    if s.send != [] {
      var t := s.(forceSend := true);
      assert Steady(s, t) && Weight(t) == Weight(s) && t.recv == s.recv && t.consumed == s.consumed;
    }
  }

  lemma ConsumedEases(s: Stream, count: nat)
    requires 1 <= count <= |s.recv|
    ensures var t := Consumed(s, count); Steady(s, t) && Weight(t) <= Weight(s) + 3 && t.consumed == s.consumed + count
  {
  }

  // ---------------------------------------------------------------------------------------------------------------
  // Every such schedule ends
  // ---------------------------------------------------------------------------------------------------------------

  /** What `x` has written and `y` has not consumed. */
  function Unread(x: End, y: End): int {
    |x.wrote| - y.s.consumed
  }

  function Burden(p: Pair): int {
    Measure(p) + 4 * (Unread(p.a, p.b) + Unread(p.b, p.a))
  }

  lemma NotOverread(x: End, y: End)
    requires Joined(x, y)
    ensures Unread(x, y) >= 0 && y.s.consumed <= y.s.received
  {
    hide Written, FlushOwn, EndOwn, DeadOwn, CloseOwn, ReadOwn, SentMarks, Urgent, Acknowledged, Truthful, OneToken, Mirrored, InFlight;
  }

  /** Neither side has moved but as a schedule moves it. */
  predicate Moved(x: End, x2: End) {
    x2.wrote == x.wrote && Steady(x.s, x2.s)
  }

  predicate BothMoved(p: Pair, q: Pair) {
    Moved(p.a, q.a) && Moved(p.b, q.b)
  }

  lemma StepMoves(p: Pair, e: Event)
    requires Inv(p) && Eager(p, e)
    ensures BothMoved(p, Step(p, e.side, e.op))
  {
    hide Inv, Joined, NextMessage, TakeEnd, ReadEnd, Receive, Steady;
    BothJoined(p);
    NotOverread(p.a, p.b);
    NotOverread(p.b, p.a);
    SteadySelf(p.a.s);
    SteadySelf(p.b.s);
    var x := if e.side == Initiator then p.a else p.b;
    if e.op.Take? {
      TakeSteady(x);
    } else if e.op.DoRead? {
      ReadEases(x, e.op.room);
    } else {
      ReceiveSteady(x.s, if e.side == Initiator then p.b.out[0] else p.a.out[0]);
    }
  }

  lemma ReadLightens(p: Pair, e: Event)
    requires e.op.DoRead? && Eager(p, e)
    ensures Burden(Step(p, e.side, e.op)) < Burden(p)
  {
    hide Weight, Load, ReadEnd, Steady;
    ReadEases(if e.side == Initiator then p.a else p.b, e.op.room);
  }

  lemma StepEases(p: Pair, e: Event)
    requires Inv(p) && Eager(p, e)
    ensures Burden(Step(p, e.side, e.op)) < Burden(p)
  {
    hide Inv, Measure, Step, Productive;
    if e.op.DoRead? {
      ReadLightens(p, e);
    } else {
      StepMoves(p, e);
      StepLightens(p, e);
    }
  }

  lemma BurdenIsPositive(p: Pair)
    requires Inv(p)
    ensures Burden(p) >= 0
  {
    hide Inv, Joined, Measure;
    BothJoined(p);
    NotOverread(p.a, p.b);
    NotOverread(p.b, p.a);
  }

  /** However hand-overs, deliveries and reads are interleaved, there are no more of them than the pair's burden. */
  lemma {:induction false} EagerIsBounded(p: Pair, events: seq<Event>)
    requires Inv(p) && AllEager(p, events)
    ensures Inv(Run(p, events)) && 0 <= Burden(Run(p, events)) <= Burden(p) - |events| && BothMoved(p, Run(p, events))
  {
    hide Inv, Eager, Burden, Step, Steady;
    if events == [] {
      SteadySelf(p.a.s);
      SteadySelf(p.b.s);
      BurdenIsPositive(p);
    } else {
      var before, last := events[..|events| - 1], events[|events| - 1];
      EagerIsBounded(p, before);
      var q := Run(p, before);
      StepKeeps(q, last.side, last.op);
      StepEases(q, last);
      StepMoves(q, last);
      BurdenIsPositive(Step(q, last.side, last.op));
      SteadyOn(p.a.s, q.a.s, Step(q, last.side, last.op).a.s);
      SteadyOn(p.b.s, q.b.s, Step(q, last.side, last.op).b.s);
    }
  }

  lemma EagerOn(p: Pair, events: seq<Event>, e: Event)
    ensures Run(p, events + [e]) == Step(Run(p, events), e.side, e.op)
    ensures AllEager(p, events + [e]) <==> AllEager(p, events) && Eager(Run(p, events), e)
  {
    hide Step, Eager;
    assert (events + [e])[..|events + [e]| - 1] == events;
  }

  /** Every such schedule can be continued until nothing is left to hand over, to deliver or to read. */
  lemma {:induction false} ComesThrough(p: Pair, events: seq<Event>) returns (more: seq<Event>)
    requires Inv(p) && AllEager(p, events)
    ensures AllEager(p, events + more) && Drained(Run(p, events + more))
    decreases Burden(Run(p, events))
  {
    hide Inv, Eager, Burden, Step, Drained, Steady;
    EagerIsBounded(p, events);
    var q := Run(p, events);
    DrainedIffIdle(q);
    if Drained(q) {
      more := [];
      assert events + [] == events;
    } else {
      var e: Event :| Eager(q, e);
      EagerOn(p, events, e);
      StepEases(q, e);
      var rest := ComesThrough(p, events + [e]);
      more := [e] + rest;
      assert events + more == events + [e] + rest;
    }
  }

  // ---------------------------------------------------------------------------------------------------------------
  // Nobody fails on the way
  // ---------------------------------------------------------------------------------------------------------------

  /** The side has not failed, its time is not up, and it has no failure to report. */
  predicate Well(s: Stream) {
    && s.error.None? && !Expired(s) && s.now < U64_MAX
    && (s.closePending.Some? ==> s.closePending.value.failure.None?)
  }

  predicate GoodNews(b: Body) {
    !b.Cancel? && !b.Failed? && (b.Closed? ==> b.report.failure.None?)
  }

  /** Nor has it any bad news in flight. */
  predicate Healthy(x: End) {
    Well(x.s) && forall i | 0 <= i < |x.out| :: GoodNews(x.out[i].body)
  }

  predicate SendsWell(next: (Stream, Body)) {
    Well(next.0) && GoodNews(next.1)
  }

  lemma FlushedWell(s: Stream)
    requires Well(s) && FlushedDue(s)
    ensures SendsWell(SendFlushed(s))
  {
  }

  lemma WindowWell(s: Stream)
    requires Well(s)
    ensures SendsWell(SendWindow(s))
  {
    hide Grant;
  }

  lemma ClosedWell(s: Stream)
    requires Well(s) && s.closePending.Some?
    ensures SendsWell(SendClosed(s))
  {
  }

  lemma FlushWell(s: Stream)
    requires Well(s) && FlushDue(s)
    ensures SendsWell(SendFlush(s))
  {
  }

  lemma DataWell(s: Stream)
    requires Well(s) && DataDue(s)
    ensures SendsWell(SendData(s))
  {
    hide Eligible, Credit;
  }

  lemma EndWell(s: Stream)
    requires Well(s)
    ensures SendsWell(SendEnd(s)) && SendsWell(SendClose(s))
  {
  }

  lemma NextWell(s: Stream)
    requires Well(s) && NextBody(s).Some?
    ensures SendsWell(NextBody(s).value)
  {
    hide Well, SendsWell, FlushedDue, FlushDue, DataDue, EndDue, CloseDue, Grant;
    hide SendFlushed, SendWindow, SendClosed, SendFlush, SendData, SendEnd, SendClose;
    if FlushedDue(s) {
      FlushedWell(s);
    } else if Grant(s) > s.advertisedLimit {
      WindowWell(s);
    } else if s.closePending.Some? {
      ClosedWell(s);
    } else if FlushDue(s) {
      FlushWell(s);
    } else if DataDue(s) {
      DataWell(s);
    } else {
      EndWell(s);
    }
  }

  lemma NoLastWord(x: End)
    requires Own(x) && Well(x.s)
    ensures x.s.terminal.None?
  {
    hide Expired;
  }

  lemma TakeHealthy(x: End)
    requires Own(x) && Healthy(x)
    ensures Healthy(TakeEnd(x))
  {
    hide Own, NextBody, Well, GoodNews, Wrap;
    NoLastWord(x);
    if Live(x.s) && NextBody(x.s).Some? {
      NextWell(x.s);
      B.WrapCarries(x.s, NextBody(x.s).value.1);
    }
  }

  lemma UrgedWell(s: Stream)
    requires Well(s)
    ensures Well(Urged(s))
  {
    if s.send != [] {
      var t := s.(forceSend := true);
      assert Well(t);
    }
  }

  lemma ConsumedWell(s: Stream, count: nat)
    requires Well(s) && count <= |s.recv|
    ensures Well(Consumed(s, count))
  {
  }

  lemma ReadHealthy(x: End, room: nat)
    requires Healthy(x)
    ensures Healthy(ReadEnd(x, room))
  {
    hide Well, Urged, Consumed, Drained, StreamSpec.Drained;
    var t := Urged(x.s);
    UrgedWell(x.s);
    if t.recv != [] {
      ConsumedWell(t, Min(room, |t.recv|));
    }
  }

  lemma HearDataWell(s: Stream, b: Body)
    requires Well(s) && (b.Data? || b.Window? || b.EndWrite?)
    ensures AcceptBody(s, b).Some? ==> Well(AcceptBody(s, b).value)
  {
    hide Fail, AddSat64;
  }

  lemma HearFlushWell(s: Stream, b: Body)
    requires Well(s) && (b.Flush? || b.Flushed?)
    ensures AcceptBody(s, b).Some? ==> Well(AcceptBody(s, b).value)
  {
    hide Fail, AddSat64;
    if AcceptBody(s, b).Some? {
      match b
      case Flush(barrier) =>
        var t := s.(peerFlushSerial := barrier.id, peerFlush := Some(barrier));
        assert Well(t);
      case Flushed(_) =>
        var t := s.(flushAcked := s.flush.value.id, flush := None);
        assert Well(t);
    }
  }

  lemma HearCloseWell(s: Stream, b: Body)
    requires Well(s) && s.config.closeTimeoutMs != 0 && GoodNews(b) && (b.Close? || b.Closed?)
    ensures AcceptBody(s, b).Some? ==> Well(AcceptBody(s, b).value)
  {
    hide Fail;
  }

  lemma HearWell(s: Stream, b: Body)
    requires Well(s) && s.config.closeTimeoutMs != 0 && GoodNews(b)
    ensures AcceptBody(s, b).Some? ==> Well(AcceptBody(s, b).value)
  {
    hide Well;
    match b
    case Foreign(_, _) =>
    case Data(_, _) => HearDataWell(s, b);
    case Window(_) => HearDataWell(s, b);
    case EndWrite(_) => HearDataWell(s, b);
    case Flush(_) => HearFlushWell(s, b);
    case Flushed(_) => HearFlushWell(s, b);
    case _ => HearCloseWell(s, b);
  }

  lemma ClosesInTime(x: End, y: End)
    requires Joined(x, y)
    ensures x.s.config.closeTimeoutMs != 0
  {
    hide Own, Flow, Admitted, ProbeOf;
  }

  lemma DeliverHealthy(x: End, y: End)
    requires Joined(x, y) && Healthy(x) && Healthy(y) && y.out != []
    ensures Healthy(DeliverTo(x, y.out[0])) && Healthy(Popped(y))
  {
    hide Joined, Accept, AcceptBody, Fail, GoodNews, Expired;
    if Live(x.s) {
      NeverRefused(x, y);
      ClosesInTime(x, y);
      HearWell(x.s, y.out[0].body);
    }
  }

  // ---------------------------------------------------------------------------------------------------------------
  // A report is never lost
  // ---------------------------------------------------------------------------------------------------------------

  predicate HasReport(ch: seq<Envelope>) {
    exists i | 0 <= i < |ch| :: ch[i].body.Closed?
  }

  /** While its peer lives, an endpoint that has completed has its report in flight. */
  predicate Reporting(b: End, a: End) {
    b.s.completed.Some? && Live(a.s) ==> HasReport(b.out)
  }

  lemma ReportStays(ch: seq<Envelope>, e: Envelope)
    ensures HasReport(ch + [e]) <==> HasReport(ch) || e.body.Closed?
  {
    if HasReport(ch) {
      var i :| 0 <= i < |ch| && ch[i].body.Closed?;
      assert (ch + [e])[i].body.Closed?;
    }
    if e.body.Closed? {
      assert (ch + [e])[|ch|].body.Closed?;
    }
  }

  lemma TakeReports(b: End, a: End)
    requires Reporting(b, a)
    ensures Reporting(TakeEnd(b), a)
  {
    hide NextBody, Wrap, Steady, HasReport;
    if NextMessage(b.s).1.Some? {
      ReportStays(b.out, NextMessage(b.s).1.value);
    }
    if NextBody(b.s).Some? {
      NextSends(b.s);
      B.WrapCarries(b.s, NextBody(b.s).value.1);
    }
  }

  /** A live side that hears the report is live no longer. */
  lemma ClosedEnds(s: Stream, e: Envelope)
    requires e.body.Closed?
    ensures !Live(Receive(s, e).0)
  {
    hide Fail, Expired, Addressed, Admitted;
    FailEnds(s, Timeout, true);
    FailEnds(s, Protocol, true);
    if e.body.report.failure.Some? {
      var failure := e.body.report.failure.value;
      var t := s.(failureFacts := Some(e.body.report.facts));
      FailEnds(t, PeerFailed(failure.code, failure.effect), false);
      EndedAnyway(Fail(t, PeerFailed(failure.code, failure.effect), false), Some(failure));
    }
  }

  lemma FailEnds(s: Stream, error: Error, notify: bool)
    ensures !Live(Fail(s, error, notify))
  {
    hide Wrap, Notice, Io.Stop;
  }

  lemma EndedAnyway(s: Stream, failure: Option<Failure>)
    ensures Live(s.(retainedFailure := failure)) <==> Live(s)
  {
  }

  lemma DeliverReports(b: End, a: End)
    requires Reporting(b, a) && b.out != []
    ensures Reporting(Popped(b), DeliverTo(a, b.out[0]))
  {
    hide Receive;
    if b.out[0].body.Closed? {
      ClosedEnds(a.s, b.out[0]);
    } else if HasReport(b.out) {
      var i :| 0 <= i < |b.out| && b.out[i].body.Closed?;
      assert b.out[1..][i - 1].body.Closed?;
    }
    if !Live(a.s) {
      StaysEnded(a.s, b.out[0]);
    }
  }

  lemma StaysEnded(s: Stream, e: Envelope)
    requires !Live(s)
    ensures Receive(s, e).0 == s
  {
  }

  /** An endpoint is never completed by what it hears. */
  lemma EndpointHears(s: Stream, e: Envelope)
    requires s.config.side == Endpoint && Live(s)
    ensures Receive(s, e).0.completed.None?
  {
    hide Expired, Addressed, Admitted, Fail, AcceptBody;
    FailOpen(s, Timeout, true);
    FailOpen(s, Protocol, true);
    EndpointAccepts(s, e.body);
  }

  lemma FailOpen(s: Stream, error: Error, notify: bool)
    ensures Fail(s, error, notify).completed == s.completed
  {
    hide Wrap, Notice, Io.Stop;
  }

  lemma FailureOpen(s: Stream, failure: Failure)
    requires s.completed.None?
    ensures AcceptBody(s, Failed(failure)).Some? ==> AcceptBody(s, Failed(failure)).value.completed.None?
  {
    hide Fail;
    var t := s.(failureFacts := failure.facts);
    FailOpen(t, PeerFailed(failure.code, failure.effect), false);
    var u := Fail(t, PeerFailed(failure.code, failure.effect), false);
    assert u.(retainedFailure := Some(failure)).completed == u.completed;
  }

  lemma PlainAccepts(s: Stream, b: Body)
    requires b.Data? || b.Window? || b.EndWrite?
    ensures AcceptBody(s, b).Some? ==> AcceptBody(s, b).value.completed == s.completed
  {
    hide Fail, AddSat64;
  }

  lemma OtherAccepts(s: Stream, b: Body)
    requires b.Flush? || b.Flushed? || b.Close?
    ensures AcceptBody(s, b).Some? ==> AcceptBody(s, b).value.completed == s.completed
  {
    hide Fail, AddSatU64, Io.Stop;
  }

  lemma EndpointAccepts(s: Stream, b: Body)
    requires s.config.side == Endpoint && s.completed.None?
    ensures AcceptBody(s, b).Some? ==> AcceptBody(s, b).value.completed.None?
  {
    hide Fail, Io.Stop, AddSat64, AddSatU64;
    match b
    case Foreign(_, _) =>
    case Closed(_) =>
    case Cancel(reason) => FailOpen(s, if reason.TimeoutCode? then Timeout else Cancelled, false);
    case Failed(failure) => FailureOpen(s, failure);
    case Data(_, _) => PlainAccepts(s, b);
    case Window(_) => PlainAccepts(s, b);
    case EndWrite(_) => PlainAccepts(s, b);
    case _ => OtherAccepts(s, b);
  }

  /** Neither side fails, and no report is lost: what every step of a schedule keeps. */
  predicate Sound(p: Pair) {
    Inv(p) && Healthy(p.a) && Healthy(p.b) && Reporting(p.b, p.a)
  }

  /** Nothing that the side does by itself brings it back to life or completes it, but its own report. */
  lemma InitiatorTakes(b: End, a: End)
    requires Reporting(b, a)
    ensures Reporting(b, TakeEnd(a))
  {
    hide NextBody, Wrap, HasReport, Steady;
    if NextBody(a.s).Some? {
      NextSends(a.s);
    }
  }

  lemma ReadLives(x: End, room: nat)
    ensures ReadEnd(x, room).s.completed == x.s.completed && (Live(ReadEnd(x, room).s) <==> Live(x.s))
    ensures ReadEnd(x, room).out == x.out
  {
    hide Urged, Consumed, StreamSpec.Drained;
    UrgedLives(x.s);
    var t := Urged(x.s);
    if t.recv != [] {
      ConsumedLives(t, Min(room, |t.recv|));
    }
  }

  lemma UrgedLives(s: Stream)
    ensures Urged(s).completed == s.completed && Urged(s).error == s.error
  {
    hide Live;
    if s.send != [] {
      var t := s.(forceSend := true);
      assert t.completed == s.completed && t.error == s.error;
    }
  }

  lemma ConsumedLives(s: Stream, count: nat)
    requires count <= |s.recv|
    ensures Consumed(s, count).completed == s.completed && Consumed(s, count).error == s.error
  {
  }

  lemma EndpointDelivers(b: End, a: End)
    requires Reporting(b, a) && b.s.config.side == Endpoint && a.out != []
    ensures Reporting(DeliverTo(b, a.out[0]), Popped(a))
  {
    hide Receive, HasReport;
    if Live(b.s) {
      EndpointHears(b.s, a.out[0]);
    } else {
      StaysEnded(b.s, a.out[0]);
    }
  }

  lemma StepReports(p: Pair, e: Event)
    requires Inv(p) && Eager(p, e) && Reporting(p.b, p.a)
    ensures Reporting(Step(p, e.side, e.op).b, Step(p, e.side, e.op).a)
  {
    hide Own, Flow, ValidConfig, TakeEnd, ReadEnd, DeliverTo, NextMessage, Reporting;
    match e.side
    case Initiator =>
      if e.op.Take? {
        InitiatorTakes(p.b, p.a);
      } else if e.op.DoRead? {
        ReadLives(p.a, e.op.room);
        SameReporting(p.b, p.a, p.b, ReadEnd(p.a, e.op.room));
      } else {
        DeliverReports(p.b, p.a);
      }
    case Endpoint =>
      if e.op.Take? {
        TakeReports(p.b, p.a);
      } else if e.op.DoRead? {
        ReadLives(p.b, e.op.room);
        SameReporting(p.b, p.a, ReadEnd(p.b, e.op.room), p.a);
      } else {
        EndpointDelivers(p.b, p.a);
      }
  }

  lemma SameReporting(b: End, a: End, b2: End, a2: End)
    requires Reporting(b, a) && b2.s.completed == b.s.completed && (Live(a2.s) <==> Live(a.s)) && b2.out == b.out
    ensures Reporting(b2, a2)
  {
    hide Live;
  }

  lemma StepHealthy(p: Pair, e: Event)
    requires Inv(p) && Eager(p, e) && Healthy(p.a) && Healthy(p.b)
    ensures Healthy(Step(p, e.side, e.op).a) && Healthy(Step(p, e.side, e.op).b)
  {
    hide Inv, Joined, Healthy, TakeEnd, ReadEnd, DeliverTo, NextMessage;
    BothJoined(p);
    JoinedOwn(p.a, p.b);
    match e.side
    case Initiator =>
      if e.op.Take? {
        TakeHealthy(p.a);
      } else if e.op.DoRead? {
        ReadHealthy(p.a, e.op.room);
      } else {
        DeliverHealthy(p.a, p.b);
      }
    case Endpoint =>
      if e.op.Take? {
        TakeHealthy(p.b);
      } else if e.op.DoRead? {
        ReadHealthy(p.b, e.op.room);
      } else {
        DeliverHealthy(p.b, p.a);
      }
  }

  lemma JoinedOwn(x: End, y: End)
    requires Joined(x, y)
    ensures Own(x) && Own(y)
  {
    hide Own, Flow, Mirrored;
  }

  lemma {:induction false} EagerIsSound(p: Pair, events: seq<Event>)
    requires Sound(p) && AllEager(p, events)
    ensures Sound(Run(p, events))
  {
    hide Inv, Healthy, Reporting, Eager, Step;
    if events != [] {
      var before, last := events[..|events| - 1], events[|events| - 1];
      EagerIsSound(p, before);
      StepKeeps(Run(p, before), last.side, last.op);
      StepHealthy(Run(p, before), last);
      StepReports(Run(p, before), last);
    }
  }

  // ---------------------------------------------------------------------------------------------------------------
  // What has come through
  // ---------------------------------------------------------------------------------------------------------------

  /**
   All that has been sent has been read, or discarded by a side that closes; bytes stay behind only where they are held
   back for coalescing, with no end or flush requested; and a requested end has been heard behind the last byte.
   */
  predicate Through(x: End, y: End) {
    && y.s.recv == [] && 0 <= x.s.sent <= |x.wrote| && y.s.consumed == y.s.received == x.s.sent
    && (if y.s.discarding then y.read <= x.wrote else y.read == x.wrote[..x.s.sent])
    && (x.s.send != [] ==> !Eligible(x.s) && !x.s.endRequested && x.s.flush.None?)
    && (x.s.endRequested ==> y.s.endReceived && x.s.sent == |x.wrote|)
    && (Pressed(x.s) ==> x.s.sent == |x.wrote|)
  }

  lemma TakenWhole(x: End, y: End)
    requires Joined(x, y) && y.s.recv == [] && y.s.received == x.s.sent && x.s.error.None?
    ensures 0 <= x.s.sent <= |x.wrote| && y.s.consumed == y.s.received
    ensures if y.s.discarding then y.read <= x.wrote else y.read == x.wrote[..x.s.sent]
    ensures x.s.send == [] <==> x.s.sent == |x.wrote|
  {
    hide FlushOwn, EndOwn, DeadOwn, CloseOwn, ReadOwn, SentMarks, Urgent, Acknowledged, Truthful, OneToken, Mirrored, InFlight;
    assert y.read + [] == y.read;
  }

  lemma RestsThrough(x: End, y: End)
    requires Joined(x, y) && Resting(x, y) && y.s.recv == []
    ensures Through(x, y) && Settled(x, y)
  {
    hide Joined, NextMessage, NextBody;
    RestIsSettled(x, y);
    RestingViews(x, y);
    TakenWhole(x, y);
  }

  lemma CompletedThrough(x: End, y: End)
    requires Joined(x, y) && x.s.completed.Some? && y.s.completed.Some? && x.s.error.None? && y.s.recv == []
    ensures Through(x, y)
  {
    hide Joined, Eligible, Own;
    B.ClosedHasAll(x, y);
    TakenWhole(x, y);
    JoinedOwn(x, y);
    CompletedHeard(y);
  }

  lemma CompletedHeard(y: End)
    requires Own(y) && y.s.completed.Some?
    ensures y.s.endReceived
  {
  }

  /** Both sides are live and settled, or the close has completed on both. */
  predicate Concluded(p: Pair) {
    || (Live(p.a.s) && Live(p.b.s) && Settled(p.a, p.b) && Settled(p.b, p.a))
    || (p.a.s.completed.Some? && p.b.s.completed.Some?)
  }

  lemma InitiatorLast(p: Pair)
    requires Inv(p) && p.a.s.completed.Some?
    ensures p.b.s.completed.Some?
  {
    hide Own, Mirrored, InFlight, Delivered, Truthful, OneToken;
  }

  lemma DrainedIsThrough(p: Pair)
    requires Sound(p) && Drained(p)
    ensures Through(p.a, p.b) && Through(p.b, p.a) && Concluded(p)
  {
    hide Inv, Joined, NextMessage, Through, Settled, Expired;
    BothJoined(p);
    if p.a.s.completed.Some? {
      InitiatorLast(p);
      CompletedThrough(p.a, p.b);
      CompletedThrough(p.b, p.a);
    } else {
      assert p.b.s.completed.None?;
      RestsThrough(p.a, p.b);
      RestsThrough(p.b, p.a);
    }
  }

  /** What was pressed at the start has been read whole. */
  predicate ReadWhole(x: End, y2: End) {
    Pressed(x.s) && !y2.s.discarding ==> y2.read == x.wrote
  }

  lemma ReadsWhole(x: End, x2: End, y2: End)
    requires Moved(x, x2) && Through(x2, y2)
    ensures ReadWhole(x, y2)
  {
    hide Eligible;
    assert x2.wrote[..|x2.wrote|] == x2.wrote;
  }

  /**
   From any live pair that a run has reached, with neither side's time up and no failure to report: every schedule of
   hand-overs, deliveries and reads is bounded and fails nobody; and when it has nothing left to do, all that was sent
   has been read, all that was written too unless it is held back for coalescing or discarded by a close, a requested
   end has been heard, and either both sides live with no flush outstanding and a requested close heard, or the close
   has completed on both.
   */
  lemma EverythingArrives(c: Config, d: Config, events: seq<Event>, schedule: seq<Event>)
    requires Mirrored(c, d) && c.side == Initiator
    requires var p := Run(Fresh(c, d), events);
             Live(p.a.s) && Live(p.b.s) && Healthy(p.a) && Healthy(p.b) && AllEager(p, schedule)
    ensures var p := Run(Fresh(c, d), events);
            var q := Run(p, schedule);
            && |schedule| <= Burden(p) && Healthy(q.a) && Healthy(q.b)
            && (Drained(q) ==>
                  && Through(q.a, q.b) && Through(q.b, q.a) && Concluded(q)
                  && ReadWhole(p.a, q.b) && ReadWhole(p.b, q.a))
  {
    hide Mirrored, Run, Inv, AllEager, Burden, Healthy, Drained, Through, Concluded, ReadWhole, Steady, HasReport;
    Reachable(c, d, events);
    var p := Run(Fresh(c, d), events);
    EagerIsBounded(p, schedule);
    EagerIsSound(p, schedule);
    var q := Run(p, schedule);
    if Drained(q) {
      DrainedIsThrough(q);
      ReadsWhole(p.a, q.a, q.b);
      ReadsWhole(p.b, q.b, q.a);
    }
  }
}
