/** Hand-overs and deliveries always come to an end: each one makes a pair of streams lighter. */
module StreamSettles {
  import opened Base
  import opened StreamProtocol
  import opened StreamSpec
  import opened StreamPair
  import opened StreamDeliver
  import opened StreamRuns
  import opened StreamProgress
  import Io = IoClock

  // ---------------------------------------------------------------------------------------------------------------
  // Weights
  // ---------------------------------------------------------------------------------------------------------------

  function One(b: bool, weight: nat): nat {
    if b then weight else 0
  }

  /** What a live stream still has to hand over, and that it may yet fail. */
  function Work(s: Stream): nat {
    3 + 8 * |s.send| + One(s.flush.Some? && !s.flush.value.sent, 6) + One(s.peerFlush.Some?, 4)
    + One(Grant(s) > s.advertisedLimit, 3) + One(s.endRequested && !s.endSent, 2) + One(s.closePending.Some?, 2)
    + One(s.config.side == Initiator && s.closeDeadline.Some? && !s.closeSent, 2)
  }

  function Weight(s: Stream): nat {
    One(s.terminal.Some?, 2) + if Live(s) then Work(s) else 0
  }

  /** A message in flight weighs less than the work that it was, and more than the work that it may cause. */
  function BodyWeight(b: Body): nat {
    match b
    case Data(_, _) => 4
    case Flush(_) => 5
    case Flushed(_) => 3
    case _ => 1
  }

  function Load(ch: seq<Envelope>): nat {
    if ch == [] then 0 else BodyWeight(ch[0].body) + Load(ch[1..])
  }

  function Measure(p: Pair): nat {
    Weight(p.a.s) + Weight(p.b.s) + Load(p.a.out) + Load(p.b.out)
  }

  lemma {:induction false} LoadAppend(ch: seq<Envelope>, e: Envelope)
    ensures Load(ch + [e]) == Load(ch) + BodyWeight(e.body)
  {
    if ch == [] {
      assert [] + [e] == [e] && [e][1..] == [];
    } else {
      assert (ch + [e])[0] == ch[0] && (ch + [e])[1..] == ch[1..] + [e];
      LoadAppend(ch[1..], e);
    }
  }

  // ---------------------------------------------------------------------------------------------------------------
  // Handing over
  // ---------------------------------------------------------------------------------------------------------------

  predicate Lightens(s: Stream, next: (Stream, Body)) {
    Weight(next.0) + BodyWeight(next.1) < Weight(s)
  }

  lemma FlushedLightens(s: Stream)
    requires Live(s) && FlushedDue(s)
    ensures Lightens(s, SendFlushed(s))
  {
  }

  lemma WindowLightens(s: Stream)
    requires Live(s) && Grant(s) > s.advertisedLimit
    ensures Lightens(s, SendWindow(s))
  {
  }

  lemma ClosedLightens(s: Stream)
    requires Live(s) && s.closePending.Some?
    ensures Lightens(s, SendClosed(s))
  {
  }

  lemma FlushLightens(s: Stream)
    requires Live(s) && FlushDue(s)
    ensures Lightens(s, SendFlush(s))
  {
  }

  /** Only what has been sent tells the two apart. */
  predicate SameDues(s: Stream, t: Stream) {
    && t.config == s.config && t.consumed == s.consumed && t.advertisedLimit == s.advertisedLimit
    && t.flush == s.flush && t.peerFlush == s.peerFlush && t.endRequested == s.endRequested && t.endSent == s.endSent
    && t.closePending == s.closePending && t.closeDeadline == s.closeDeadline && t.closeSent == s.closeSent
    && t.terminal == s.terminal && (Live(t) <==> Live(s))
  }

  lemma DataLeaves(s: Stream)
    requires DataDue(s) && s.config.maxPayload >= 1
    ensures SameDues(s, SendData(s).0) && |SendData(s).0.send| < |s.send| && SendData(s).1.Data?
  {
    hide Eligible;
  }

  lemma DataLightens(s: Stream)
    requires Live(s) && DataDue(s) && s.config.maxPayload >= 1
    ensures Lightens(s, SendData(s))
  {
    hide DataDue, SendData, Live;
    DataLeaves(s);
  }

  lemma EndLightens(s: Stream)
    requires Live(s) && EndDue(s)
    ensures Lightens(s, SendEnd(s))
  {
  }

  lemma CloseLightens(s: Stream)
    requires Live(s) && CloseDue(s)
    ensures Lightens(s, SendClose(s))
  {
  }

  lemma NextLightens(s: Stream)
    requires Live(s) && NextBody(s).Some? && s.config.maxPayload >= 1
    ensures Lightens(s, NextBody(s).value)
  {
    hide Lightens, FlushedDue, FlushDue, DataDue, EndDue, CloseDue, Grant;
    hide SendFlushed, SendWindow, SendClosed, SendFlush, SendData, SendEnd, SendClose;
    if FlushedDue(s) {
      FlushedLightens(s);
    } else if Grant(s) > s.advertisedLimit {
      WindowLightens(s);
    } else if s.closePending.Some? {
      ClosedLightens(s);
    } else if FlushDue(s) {
      FlushLightens(s);
    } else if DataDue(s) {
      DataLightens(s);
    } else if EndDue(s) {
      EndLightens(s);
    } else {
      CloseLightens(s);
    }
  }

  lemma LastWordLightens(s: Stream)
    requires s.terminal.Some? && (s.terminal.value.body.Cancel? || s.terminal.value.body.Failed?)
    ensures Weight(s.(terminal := None)) + BodyWeight(s.terminal.value.body) < Weight(s)
  {
  }

  lemma TakeLightens(x: End)
    requires Own(x) && x.s.config.maxPayload >= 1 && NextMessage(x.s).1.Some?
    ensures Weight(TakeEnd(x).s) + Load(TakeEnd(x).out) < Weight(x.s) + Load(x.out)
  {
    hide Own, NextBody, Weight, Load, BodyWeight;
    LoadAppend(x.out, NextMessage(x.s).1.value);
    if x.s.terminal.Some? {
      LastWordIs(x);
      LastWordLightens(x.s);
    } else {
      NextLightens(x.s);
    }
  }

  lemma LastWordIs(x: End)
    requires Own(x) && x.s.terminal.Some?
    ensures x.s.terminal.value.body.Cancel? || x.s.terminal.value.body.Failed?
  {
  }

  // ---------------------------------------------------------------------------------------------------------------
  // Receiving
  // ---------------------------------------------------------------------------------------------------------------

  lemma FailLightens(s: Stream, error: Error, notify: bool)
    requires Live(s)
    ensures Weight(Fail(s, error, notify)) <= 2 && Weight(s) >= 3
  {
    hide Wrap, Notice, Io.Stop;
  }

  predicate Heavier(s: Stream, b: Body) {
    AcceptBody(s, b).Some? ==> Weight(AcceptBody(s, b).value) < Weight(s) + BodyWeight(b)
  }

  lemma HearData(s: Stream, b: Body)
    requires Live(s) && b.Data?
    ensures Heavier(s, b)
  {
  }

  lemma HearWindow(s: Stream, b: Body)
    requires Live(s) && (b.Window? || b.EndWrite?)
    ensures Heavier(s, b)
  {
  }

  lemma HearFlush(s: Stream, b: Body)
    requires Live(s) && (b.Flush? || b.Flushed?)
    ensures Heavier(s, b)
  {
  }

  lemma HearClose(s: Stream, b: Body)
    requires Live(s) && b.Close?
    ensures Heavier(s, b)
  {
    hide Io.Stop;
  }

  lemma HearClosed(s: Stream, b: Body)
    requires Live(s) && b.Closed?
    ensures Heavier(s, b)
  {
    hide Fail, Work;
    FailLightens(s, Timeout, true);
    if b.report.failure.Some? {
      var failure := b.report.failure.value;
      var error := PeerFailed(failure.code, failure.effect);
      FactsWeighNothing(s, Some(b.report.facts));
      FailLightens(s.(failureFacts := Some(b.report.facts)), error, false);
      FailureWeighsNothing(Fail(s.(failureFacts := Some(b.report.facts)), error, false), Some(failure));
    }
  }

  lemma FactsWeighNothing(s: Stream, facts: Option<Part>)
    ensures Weight(s.(failureFacts := facts)) == Weight(s)
  {
  }

  lemma FailureWeighsNothing(s: Stream, failure: Option<Failure>)
    ensures Weight(s.(retainedFailure := failure)) == Weight(s)
  {
  }

  lemma HearEnding(s: Stream, b: Body)
    requires Live(s) && (b.Cancel? || b.Failed?)
    ensures Heavier(s, b)
  {
    hide Fail;
    match b
    case Cancel(reason) => FailLightens(s, if reason.TimeoutCode? then Timeout else Cancelled, false);
    case Failed(failure) =>
      var error := PeerFailed(failure.code, failure.effect);
      FactsWeighNothing(s, failure.facts);
      FailLightens(s.(failureFacts := failure.facts), error, false);
      FailureWeighsNothing(Fail(s.(failureFacts := failure.facts), error, false), Some(failure));
  }

  lemma HearBody(s: Stream, b: Body)
    requires Live(s) && !b.Foreign?
    ensures Heavier(s, b)
  {
    hide Heavier;
    match b
    case Data(_, _) => HearData(s, b);
    case Window(_) => HearWindow(s, b);
    case EndWrite(_) => HearWindow(s, b);
    case Flush(_) => HearFlush(s, b);
    case Flushed(_) => HearFlush(s, b);
    case Close(_) => HearClose(s, b);
    case Closed(_) => HearClosed(s, b);
    case Cancel(_) => HearEnding(s, b);
    case Failed(_) => HearEnding(s, b);
  }

  lemma ForeignRefused(s: Stream, b: Body)
    requires b.Foreign?
    ensures AcceptBody(s, b).None?
  {
  }

  /** Whatever arrives, and whatever it does, it leaves less behind than it was. */
  lemma ReceiveLightens(s: Stream, e: Envelope)
    ensures Weight(Receive(s, e).0) < Weight(s) + BodyWeight(e.body)
  {
    hide Weight, AcceptBody, Fail, Expired, Addressed, Admitted;
    if Live(s) {
      FailLightens(s, Timeout, true);
      FailLightens(s, Protocol, true);
      if e.body.Foreign? {
        ForeignRefused(s, e.body);
      } else {
        HearBody(s, e.body);
      }
    }
  }

  lemma DeliverLightens(x: End, y: End)
    requires y.out != []
    ensures Weight(DeliverTo(x, y.out[0]).s) + Load(Popped(y).out) < Weight(x.s) + Load(y.out)
  {
    hide Weight, Receive, BodyWeight;
    ReceiveLightens(x.s, y.out[0]);
  }

  // ---------------------------------------------------------------------------------------------------------------
  // Every schedule ends
  // ---------------------------------------------------------------------------------------------------------------

  /** The step hands over a message that is due, or delivers one that is in flight. */
  predicate Productive(p: Pair, e: Event) {
    var (x, y) := if e.side == Initiator then (p.a, p.b) else (p.b, p.a);
    (e.op.Take? && NextMessage(x.s).1.Some?) || (e.op.Deliver? && y.out != [])
  }

  lemma StepLightens(p: Pair, e: Event)
    requires Inv(p) && Productive(p, e)
    ensures Measure(Step(p, e.side, e.op)) < Measure(p)
  {
    hide Weight, Load, NextMessage, TakeEnd, DeliverTo, Own, Flow;
    PayloadsAllowed(p);
    match e.side
    case Initiator =>
      if e.op.Take? {
        TakeLightens(p.a);
        TakeKeepsRest(p.a);
      } else {
        DeliverLightens(p.a, p.b);
        DeliverKeepsRest(p.a, p.b);
      }
    case Endpoint =>
      if e.op.Take? {
        TakeLightens(p.b);
        TakeKeepsRest(p.b);
      } else {
        DeliverLightens(p.b, p.a);
        DeliverKeepsRest(p.b, p.a);
      }
  }

  lemma PayloadsAllowed(p: Pair)
    requires Inv(p)
    ensures p.a.s.config.maxPayload >= 1 && p.b.s.config.maxPayload >= 1
  {
    hide Own, Flow, Admitted, ProbeOf;
  }

  lemma TakeKeepsRest(x: End)
    ensures Local(x, Take) == TakeEnd(x)
  {
    hide TakeEnd;
  }

  lemma DeliverKeepsRest(x: End, y: End)
    requires y.out != []
    ensures DeliverTo(x, y.out[0]).out == x.out && Popped(y).s == y.s
  {
    hide Receive;
  }

  predicate AllProductive(p: Pair, events: seq<Event>) {
    events != [] ==>
      var before := events[..|events| - 1];
      AllProductive(p, before) && Productive(Run(p, before), events[|events| - 1])
  }

  /** However hand-overs and deliveries are interleaved, there are at most as many of them as the pair weighs. */
  lemma {:induction false} ScheduleIsBounded(p: Pair, events: seq<Event>)
    requires Inv(p) && AllProductive(p, events)
    ensures Inv(Run(p, events)) && Measure(Run(p, events)) + |events| <= Measure(p)
  {
    hide Inv, Productive, Measure, Step;
    if events != [] {
      var before, last := events[..|events| - 1], events[|events| - 1];
      ScheduleIsBounded(p, before);
      StepKeeps(Run(p, before), last.side, last.op);
      StepLightens(Run(p, before), last);
    }
  }

  /** Nothing is due on either side and nothing is in flight. */
  predicate Exhausted(p: Pair) {
    p.a.out == [] && p.b.out == [] && NextMessage(p.a.s).1.None? && NextMessage(p.b.s).1.None?
  }

  lemma ExhaustedIffUnproductive(p: Pair)
    ensures Exhausted(p) <==> forall e: Event :: !Productive(p, e)
  {
    hide NextMessage;
    if !Exhausted(p) {
      var op := if p.a.out == [] && p.b.out == [] then Take else Deliver;
      assert Productive(p, Event(Initiator, op)) || Productive(p, Event(Endpoint, op));
    }
  }

  lemma RunOn(p: Pair, events: seq<Event>, e: Event)
    ensures Run(p, events + [e]) == Step(Run(p, events), e.side, e.op)
    ensures AllProductive(p, events + [e]) <==> AllProductive(p, events) && Productive(Run(p, events), e)
  {
    hide Step, Productive;
    assert (events + [e])[..|events + [e]| - 1] == events;
  }

  /** So from every state some finite schedule leaves nothing to hand over or deliver; and every longest one does. */
  lemma {:induction false} ComesToRest(p: Pair, events: seq<Event>) returns (more: seq<Event>)
    requires Inv(p) && AllProductive(p, events)
    ensures AllProductive(p, events + more) && Exhausted(Run(p, events + more))
    decreases Measure(Run(p, events))
  {
    hide Inv, Productive, Measure, Step, Exhausted;
    ScheduleIsBounded(p, events);
    var q := Run(p, events);
    ExhaustedIffUnproductive(q);
    if Exhausted(q) {
      more := [];
      assert events + [] == events;
    } else {
      var e: Event :| Productive(q, e);
      RunOn(p, events, e);
      StepLightens(q, e);
      var rest := ComesToRest(p, events + [e]);
      more := [e] + rest;
      assert events + more == events + [e] + rest;
    }
  }

  /**
   Over every run: the schedules of hand-overs and deliveries from where it ends are bounded, and where one has
   nothing left to do with both sides live, the pair is at rest.
   */
  lemma EveryScheduleSettles(c: Config, d: Config, events: seq<Event>, schedule: seq<Event>)
    requires Mirrored(c, d) && c.side == Initiator && AllProductive(Run(Fresh(c, d), events), schedule)
    ensures var p := Run(Fresh(c, d), events);
            var q := Run(p, schedule);
            && |schedule| <= Measure(p)
            && (Exhausted(q) && Live(q.a.s) && Live(q.b.s) ==> Resting(q.a, q.b))
  {
    hide Mirrored, Run, Inv, AllProductive, Measure, NextMessage;
    Reachable(c, d, events);
    ScheduleIsBounded(Run(Fresh(c, d), events), schedule);
  }
}
