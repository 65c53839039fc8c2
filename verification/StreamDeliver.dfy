/** What each direction keeps when one side receives the next message in flight, and that such a message is never refused. */
module StreamDeliver {
  import opened Base
  import opened StreamProtocol
  import opened StreamSpec
  import opened StreamPair
  import opened StreamFlow
  import Io = IoClock

  /** The peer with its first message gone. */
  function Popped(y: End): End
    requires y.out != []
  {
    y.(out := y.out[1..])
  }

  lemma CountPop(ch: seq<Envelope>)
    requires ch != []
    ensures Flushes(ch) == Flushes(ch[1..]) + (if ch[0].body.Flush? then 1 else 0)
    ensures Acks(ch) == Acks(ch[1..]) + (if ch[0].body.Flushed? then 1 else 0)
    ensures forall i | 0 <= i < |ch[1..]| :: ch[1..][i] == ch[i + 1]
  {
  }

  // ---------------------------------------------------------------------------------------------------------------
  // `x` hears from `y`: the sender's role of `x`
  // ---------------------------------------------------------------------------------------------------------------

  /** What accepting `b` may change in the sending half of `s`. */
  predicate SenderHears(s: Stream, t: Stream, b: Body) {
    && t.config == s.config && t.sent == s.sent && t.endSent == s.endSent && t.advertisedLimit == s.advertisedLimit
    && t.flushSerial == s.flushSerial && t.closeSent == s.closeSent && (s.completed.Some? ==> t.completed.Some?)
    && (t.peerLimit == s.peerLimit || (b.Window? && t.peerLimit == b.maxOffset))
    && (if b.Flushed? then
          s.flush == Some(PendingFlush(b.barrier.id, b.barrier.offset, true)) && t.flush.None? && t.flushAcked == b.barrier.id
        else
          t.flushAcked == s.flushAcked && (t.flush == s.flush || (t.flush.None? && !Live(t))))
  }

  lemma TokenSpent(x: End, y: End, t: Stream)
    requires OneToken(x, y) && y.out != [] && SenderHears(x.s, t, y.out[0].body) && Live(x.s)
    ensures OneToken(x.(s := t), Popped(y))
  {
    var y2 := Popped(y);
    CountPop(y.out);
    assert forall i | 0 <= i < |y2.out| :: y2.out[i] == y.out[i + 1];
  }

  lemma TicketsReached(x: End, y: End, t: Stream)
    requires FlushOwn(x) && Written(x) && Live(x.s) && Truthful(x, y) && OneToken(x, y)
    requires y.out != [] && SenderHears(x.s, t, y.out[0].body)
    ensures Truthful(x.(s := t), Popped(y))
  {
    if y.out[0].body.Flushed? {
      assert y.out[0].body.barrier.offset <= SinkOffset(y.s);
    }
  }

  lemma DeliverSender(x: End, y: End, t: Stream)
    requires Own(x) && Flow(x, y) && Live(x.s) && y.out != [] && SenderHears(x.s, t, y.out[0].body)
    requires t.peerLimit <= y.s.advertisedLimit
    ensures Flow(x.(s := t), Popped(y))
  {
    hide Counters, EndOwn, DeadOwn, CloseOwn, ReadOwn, SentMarks, Walk, WalkEnd, OneToken, Truthful;
    TokenSpent(x, y, t);
    TicketsReached(x, y, t);
  }

  // ---------------------------------------------------------------------------------------------------------------
  // `x` hears from `y`: the receiver's role of `x`
  // ---------------------------------------------------------------------------------------------------------------

  predicate CursorMoves(t: Stream, c: Cursor) {
    && t.received == c.offset && t.endReceived == c.ended && t.closeReceived == c.closed
    && t.peerFlushSerial == c.serial && t.peerLimit == c.limit
    && (c.done ==> !Live(t))
  }

  /** Bytes are appended to those held, unless they are discarded. */
  predicate BytesMove(s: Stream, t: Stream, b: Body) {
    && t.discarding == s.discarding && s.consumed <= t.consumed
    && (!s.discarding ==> t.consumed == s.consumed && t.recv == s.recv + (if b.Data? then b.payload else []))
  }

  predicate ReceiverHears(s: Stream, t: Stream, b: Body) {
    && t.config == s.config && t.advertisedLimit == s.advertisedLimit
    && CursorMoves(t, Onward(CursorOf(s), b)) && BytesMove(s, t, b)
    && (t.completed == s.completed || (b.Closed? && t.completed.Some?
                                       && t.completed.value.unreadResponseDiscarded == (s.discarded || b.report.unreadResponseDiscarded)
                                       && t.discarded == s.discarded))
    && (if b.Flush? then s.peerFlush.None? && t.peerFlush == Some(b.barrier)
        else t.peerFlush == s.peerFlush || (t.peerFlush.None? && !Live(t)))
  }

  lemma TokenHeld(y: End, x: End, t: Stream)
    requires OneToken(y, x) && y.out != [] && ReceiverHears(x.s, t, y.out[0].body)
    requires Live(x.s) && x.s.received <= t.received
    ensures OneToken(Popped(y), x.(s := t))
  {
    var y2 := Popped(y);
    CountPop(y.out);
    assert forall i | 0 <= i < |y2.out| :: y2.out[i] == y.out[i + 1];
    assert SinkOffset(x.s) <= SinkOffset(t);
  }

  lemma BytesArrive(y: End, x: End, t: Stream, e: Envelope)
    requires Delivered(y, x) && BytesMove(x.s, t, e.body) && BodyFollows(e.body, CursorOf(x.s), Link(y.wrote, y.s.config, x.s.config))
    requires CursorMoves(t, Onward(CursorOf(x.s), e.body)) && t.received <= y.s.sent
    requires e.body.Data? || t.received == x.s.received
    ensures Delivered(y, x.(s := t))
  {
    if e.body.Data? && !x.s.discarding {
      var offset, end := x.s.received, t.received;
      assert y.wrote[..offset] + y.wrote[offset..end] == y.wrote[..end];
      assert x.read + t.recv == (x.read + x.s.recv) + e.body.payload;
    }
  }

  lemma DeliverReceiver(y: End, x: End, t: Stream)
    requires Own(y) && Flow(y, x) && Live(x.s) && y.out != [] && ReceiverHears(x.s, t, y.out[0].body)
    ensures Flow(Popped(y), x.(s := t))
  {
    hide Counters, Written, FlushOwn, EndOwn, DeadOwn, CloseOwn, ReadOwn, WalkEnd, OneToken, Admitted, BytesMove;
    var e, c, k := y.out[0], CursorOf(x.s), Link(y.wrote, y.s.config, x.s.config);
    WalkForward(y.out[1..], Onward(c, e.body), k);
    HeadReached(y, x);
    BytesArrive(y, x, t, e);
    TokenHeld(y, x, t);
    SinkGrows(x.s, t, e.body);
  }

  lemma SinkGrows(s: Stream, t: Stream, b: Body)
    requires BytesMove(s, t, b) && t.config == s.config && s.received <= t.received
    ensures SinkOffset(s) <= SinkOffset(t)
  {
  }

  /** The head of what is in flight follows, and the rest ends where the whole does. */
  lemma HeadReached(y: End, x: End)
    requires InFlight(y, x) && Live(x.s) && y.out != []
    ensures var c, k := CursorOf(x.s), Link(y.wrote, y.s.config, x.s.config);
            var d := Onward(c, y.out[0].body);
            && Follows(y.out[0], c, k) && Walk(y.out[1..], d, k)
            && WalkEnd(y.out[1..], d) == WalkEnd(y.out, c) && Arrived(WalkEnd(y.out[1..], d), y.s)
  {
    hide Follows, Arrived, Onward;
  }

  // ---------------------------------------------------------------------------------------------------------------
  // Each kind of message is accepted
  // ---------------------------------------------------------------------------------------------------------------

  predicate Joined(x: End, y: End) {
    Own(x) && Own(y) && Mirrored(x.s.config, y.s.config) && Flow(x, y) && Flow(y, x)
  }

  /** `x` is live and `y` has a message of the kind `b` in flight towards it. */
  predicate Awaits(x: End, y: End, b: Body) {
    Joined(x, y) && Live(x.s) && y.out != [] && y.out[0].body == b
  }

  predicate Heard(x: End, y: End, b: Body) {
    var r := AcceptBody(x.s, b);
    r.Some? && SenderHears(x.s, r.value, b) && ReceiverHears(x.s, r.value, b) && r.value.peerLimit <= y.s.advertisedLimit
  }

  /** Where the message in front would take the receiver is within what both sides have granted. */
  lemma Bounds(x: End, y: End, b: Body)
    requires Awaits(x, y, b)
    ensures var c := CursorOf(x.s);
            var d := Onward(c, b);
            && BodyFollows(b, c, Link(y.wrote, y.s.config, x.s.config))
            && d.offset <= y.s.sent <= y.s.peerLimit <= x.s.advertisedLimit <= Grant(x.s)
            && y.s.sent <= I64_MAX
            && d.limit <= y.s.advertisedLimit <= Grant(y.s)
            && y.s.consumed <= x.s.sent
            && x.s.peerLimit <= y.s.advertisedLimit
  {
    hide Written, FlushOwn, EndOwn, DeadOwn, CloseOwn, ReadOwn, SentMarks, Mirrored, Truthful, OneToken, WalkEnd, Grant;
    hide Admitted, BodyFollows, Onward;
    HeadReached(y, x);
    WalkForward(y.out[1..], Onward(CursorOf(x.s), b), Link(y.wrote, y.s.config, x.s.config));
  }

  lemma HearsData(x: End, y: End, b: Body)
    requires Awaits(x, y, b) && b.Data?
    ensures Heard(x, y, b)
  {
    hide Flow, Mirrored, Written, FlushOwn, EndOwn, DeadOwn, CloseOwn, ReadOwn, SentMarks;
    Bounds(x, y, b);
  }

  lemma HearsWindow(x: End, y: End, b: Body)
    requires Awaits(x, y, b) && b.Window?
    ensures Heard(x, y, b)
  {
    hide Flow, Own, ValidConfig;
    Bounds(x, y, b);
    assert x.s.recv + [] == x.s.recv;
  }

  lemma HearsFlush(x: End, y: End, b: Body)
    requires Awaits(x, y, b) && b.Flush?
    ensures Heard(x, y, b)
  {
    hide InFlight, Delivered, Acknowledged, Truthful, Own, Mirrored;
    Bounds(x, y, b);
    CountPop(y.out);
    assert x.s.recv + [] == x.s.recv;
  }

  lemma HearsFlushed(x: End, y: End, b: Body)
    requires Awaits(x, y, b) && b.Flushed?
    ensures Heard(x, y, b)
  {
    hide InFlight, Delivered, Acknowledged, Truthful, Own, Mirrored;
    Bounds(x, y, b);
    CountPop(y.out);
    assert x.s.recv + [] == x.s.recv;
  }

  lemma HearsEnd(x: End, y: End, b: Body)
    requires Awaits(x, y, b) && b.EndWrite?
    ensures Heard(x, y, b)
  {
    hide Flow, Own, Mirrored;
    Bounds(x, y, b);
    assert x.s.recv + [] == x.s.recv;
  }

  lemma HearsClose(x: End, y: End, b: Body)
    requires Awaits(x, y, b) && b.Close?
    ensures Heard(x, y, b)
  {
    hide Flow, Own, ValidConfig, Io.Stop;
    Bounds(x, y, b);
    assert x.s.recv + [] == x.s.recv;
  }

  /** Failing with what the peer reported, as either role sees it. */
  lemma HearsFailure(x: End, y: End, b: Body, facts: Option<Part>, error: Error, retained: Option<Failure>)
    requires Live(x.s) && x.s.peerLimit <= y.s.advertisedLimit && (b.Closed? || b.Cancel? || b.Failed?)
    ensures var t := Fail(x.s.(failureFacts := facts), error, false).(retainedFailure := retained);
            SenderHears(x.s, t, b) && ReceiverHears(x.s, t, b) && t.peerLimit <= y.s.advertisedLimit
  {
    hide Io.Stop, Wrap, Notice;
    assert x.s.recv + [] == x.s.recv;
  }

  lemma HearsClosed(x: End, y: End, b: Body)
    requires Awaits(x, y, b) && b.Closed?
    ensures Heard(x, y, b)
  {
    hide InFlight, Delivered, Truthful, OneToken, Counters, Written, FlushOwn, EndOwn, DeadOwn, ReadOwn, ValidConfig, Outgoing, Fail;
    Bounds(x, y, b);
    assert y.s.completed.Some?;
    assert x.s.closeSent;
    if b.report.failure.Some? {
      var f := b.report.failure.value;
      HearsFailure(x, y, b, Some(b.report.facts), PeerFailed(f.code, f.effect), Some(f));
    }
    assert x.s.recv + [] == x.s.recv;
  }

  lemma HearsFailed(x: End, y: End, b: Body)
    requires Awaits(x, y, b) && b.Failed?
    ensures Heard(x, y, b)
  {
    hide Flow, Own, Mirrored, Fail, SenderHears, ReceiverHears;
    Bounds(x, y, b);
    HearsFailure(x, y, b, b.failure.facts, PeerFailed(b.failure.code, b.failure.effect), Some(b.failure));
  }

  lemma HearsCancel(x: End, y: End, b: Body)
    requires Awaits(x, y, b) && b.Cancel?
    ensures Heard(x, y, b)
  {
    hide Flow, Own, Mirrored, Io.Stop, Wrap, Notice;
    Bounds(x, y, b);
    assert x.s.recv + [] == x.s.recv;
  }

  lemma Hears(x: End, y: End, b: Body)
    requires Awaits(x, y, b)
    ensures Heard(x, y, b)
  {
    hide Own, Mirrored, Flow, Heard, Onward, Grant;
    Bounds(x, y, b);
    match b
    case Data(_, _) => HearsData(x, y, b);
    case Window(_) => HearsWindow(x, y, b);
    case Flush(_) => HearsFlush(x, y, b);
    case Flushed(_) => HearsFlushed(x, y, b);
    case EndWrite(_) => HearsEnd(x, y, b);
    case Close(_) => HearsClose(x, y, b);
    case Closed(_) => HearsClosed(x, y, b);
    case Cancel(_) => HearsCancel(x, y, b);
    case Failed(_) => HearsFailed(x, y, b);
    case Foreign(_, _) => assert false;
  }

  // ---------------------------------------------------------------------------------------------------------------
  // Delivery
  // ---------------------------------------------------------------------------------------------------------------

  /** A message that reaches a finished side is dropped. */
  lemma DeliverDropped(x: End, y: End)
    requires Flow(x, y) && Flow(y, x) && !Live(x.s) && y.out != []
    ensures Flow(x, Popped(y)) && Flow(Popped(y), x)
  {
    hide Walk, WalkEnd, Arrived, Delivered, Acknowledged;
    var y2 := Popped(y);
    CountPop(y.out);
    assert forall i | 0 <= i < |y2.out| :: y2.out[i] == y.out[i + 1];
    PoppedKeeps(x, y);
  }

  lemma PoppedKeeps(x: End, y: End)
    requires y.out != []
    ensures Delivered(x, Popped(y)) == Delivered(x, y) && Acknowledged(x, Popped(y)) == Acknowledged(x, y)
    ensures Delivered(Popped(y), x) == Delivered(y, x) && Acknowledged(Popped(y), x) == Acknowledged(y, x)
  {
  }

  /** The next message in flight towards a live, unexpired side is accepted. */
  lemma NeverRefused(x: End, y: End)
    requires Joined(x, y) && Live(x.s) && y.out != []
    ensures Accept(x.s, y.out[0]) == AcceptBody(x.s, y.out[0].body)
    ensures Accept(x.s, y.out[0]).Some?
  {
    hide Own, Mirrored, AcceptBody, SenderHears, ReceiverHears, Admitted, Acknowledged, Truthful, OneToken, WalkEnd, BodyFollows, Onward;
    HeadReached(y, x);
    Hears(x, y, y.out[0].body);
  }

  lemma DeliverAccepted(x: End, y: End)
    requires Joined(x, y) && Live(x.s) && y.out != [] && Accept(x.s, y.out[0]).Some?
    ensures var t := Accept(x.s, y.out[0]).value;
            Flow(x.(s := t), Popped(y)) && Flow(Popped(y), x.(s := t)) && t.config == x.s.config
  {
    hide Own, Mirrored, AcceptBody, Accept, Flow;
    NeverRefused(x, y);
    Hears(x, y, y.out[0].body);
    var t := Accept(x.s, y.out[0]).value;
    DeliverSender(x, y, t);
    DeliverReceiver(y, x, t);
  }

  lemma DeliverExpired(x: End, y: End)
    requires Flow(x, y) && Flow(y, x) && Live(x.s) && y.out != []
    ensures var x2 := x.(s := Fail(x.s, Timeout, true)); Flow(x2, Popped(y)) && Flow(Popped(y), x2)
    ensures Fail(x.s, Timeout, true).config == x.s.config
  {
    hide Flow, SenderKept, ReceiverKept, Io.Stop, Wrap, Notice;
    var x2 := x.(s := Fail(x.s, Timeout, true));
    FailKeeps(x, Timeout, true);
    SenderFrame(x, x2, y);
    ReceiverFrame(y, x, x2);
    DeliverDropped(x2, y);
  }

  lemma DeliverFlow(x: End, y: End)
    requires Joined(x, y) && y.out != []
    ensures var x2 := DeliverTo(x, y.out[0]); Flow(x2, Popped(y)) && Flow(Popped(y), x2) && x2.s.config == x.s.config
  {
    hide Own, Mirrored, Accept, Flow, Fail, Expired;
    if !Live(x.s) {
      DeliverDropped(x, y);
      assert x.(s := x.s) == x;
    } else if Expired(x.s) {
      DeliverExpired(x, y);
    } else {
      NeverRefused(x, y);
      DeliverAccepted(x, y);
    }
  }
}
