/** What each direction keeps when one side hands over its next message. */
module StreamTake {
  import opened Base
  import opened Cost
  import opened StreamProtocol
  import opened StreamAdmission
  import opened StreamSpec
  import opened StreamPair
  import opened StreamFlow

  function LinkOf(x: End, y: End): Link {
    Link(x.wrote, x.s.config, y.s.config)
  }

  lemma OutgoingArrives(e: Envelope, c: Config, d: Config)
    requires Mirrored(c, d) && Outgoing(e, c)
    ensures e.session == d.session && e.stream == d.stream && e.version == d.version && Admitted(e, d.receiveLimits)
  {
    hide Admitted, ValidConfig;
  }

  // ---------------------------------------------------------------------------------------------------------------
  // Each kind of message: it is admissible, it continues what is in flight, and it moves only its own part of the state
  // ---------------------------------------------------------------------------------------------------------------

  /** A cursor that has caught up with the sender `x`, in front of a receiver configured like it. */
  predicate CaughtUp(x: End, c: Cursor, k: Link) {
    && Arrived(c, x.s) && !c.done
    && k.wrote == x.wrote && k.from == x.s.config && k.to.maxPayload == x.s.config.maxPayload
  }

  predicate Continues(x: End, next: (Stream, Body), c: Cursor, k: Link) {
    CaughtUp(x, c, k) ==> BodyFollows(next.1, c, k) && Arrived(Onward(c, next.1), next.0)
  }

  /** What the sender's role needs of the step. */
  predicate SenderMoves(s: Stream, t: Stream, b: Body) {
    && t.config == s.config && t.flushSerial == s.flushSerial && t.flushAcked == s.flushAcked
    && t.peerLimit == s.peerLimit && s.sent <= t.sent && (s.endSent ==> t.endSent && t.sent == s.sent)
    && (s.closeSent ==> t.closeSent) && (s.completed.Some? ==> t.completed.Some?)
    && (if b.Flush? then
          && s.flush.Some? && !s.flush.value.sent && t.flush == Some(s.flush.value.(sent := true))
          && b.barrier == Barrier(s.flush.value.id, s.flush.value.offset)
        else t.flush == s.flush)
  }

  /** What the receiver's role needs of the step. */
  predicate ReceiverMoves(s: Stream, t: Stream, b: Body) {
    && t.config == s.config && CursorOf(t) == CursorOf(s) && t.recv == s.recv && t.consumed == s.consumed
    && t.discarding == s.discarding && t.discarded == s.discarded
    && s.advertisedLimit <= t.advertisedLimit && (s.config.side == Initiator ==> t.completed == s.completed)
    && (if b.Flushed? then s.peerFlush == Some(b.barrier) && t.peerFlush.None? && b.barrier.offset <= SinkOffset(s)
        else t.peerFlush == s.peerFlush)
  }

  predicate Moves(x: End, next: (Stream, Body), c: Cursor, k: Link) {
    && Outgoing(Wrap(x.s, next.1), x.s.config)
    && Continues(x, next, c, k)
    && SenderMoves(x.s, next.0, next.1)
    && ReceiverMoves(x.s, next.0, next.1)
  }

  lemma ControlOutgoing(s: Stream, body: Body)
    requires ValidConfig(s.config) && Small(body) && BodyValid(body, s.config.version)
    ensures Outgoing(Wrap(s, body), s.config)
  {
    hide Fits, ProbeOf;
    ControlAdmitted(Wrap(s, body), s.config.peerLimits);
  }

  lemma FlushedMoves(x: End, c: Cursor, k: Link)
    requires Own(x) && Live(x.s) && ValidConfig(x.s.config) && FlushedDue(x.s)
    ensures Moves(x, SendFlushed(x.s), c, k)
  {
    hide ValidConfig, Outgoing, Written, FlushOwn, EndOwn, CloseOwn, ReadOwn, SentMarks;
    ControlOutgoing(x.s, SendFlushed(x.s).1);
  }

  lemma WindowMoves(x: End, c: Cursor, k: Link)
    requires Own(x) && Live(x.s) && ValidConfig(x.s.config) && Grant(x.s) > x.s.advertisedLimit
    ensures Moves(x, SendWindow(x.s), c, k)
  {
    hide ValidConfig, Outgoing, Written, FlushOwn, EndOwn, CloseOwn, DeadOwn, ReadOwn, SentMarks;
    ControlOutgoing(x.s, SendWindow(x.s).1);
  }

  lemma ClosedMoves(x: End, c: Cursor, k: Link)
    requires Own(x) && Live(x.s) && x.s.closePending.Some?
    ensures Moves(x, SendClosed(x.s), c, k)
  {
    hide Counters, Written, FlushOwn, EndOwn, ReadOwn, SentMarks, Admitted;
  }

  lemma FlushMoves(x: End, c: Cursor, k: Link)
    requires Own(x) && Live(x.s) && ValidConfig(x.s.config) && FlushDue(x.s)
    ensures Moves(x, SendFlush(x.s), c, k)
  {
    hide ValidConfig, Outgoing, Written, CloseOwn, ReadOwn, SentMarks;
    ControlOutgoing(x.s, SendFlush(x.s).1);
  }

  lemma DataOutgoing(x: End)
    requires Own(x) && ValidConfig(x.s.config) && Live(x.s) && DataDue(x.s)
    ensures Outgoing(Wrap(x.s, SendData(x.s).1), x.s.config)
  {
    hide Fits, FlushOwn, EndOwn, DeadOwn, CloseOwn, ReadOwn, SentMarks, Eligible;
    var c := x.s.config;
    assert ProbeOf(c) == Probe(c.session, c.stream, c.maxPayload);
    ProbeDominatesData(Wrap(x.s, SendData(x.s).1), c.maxPayload, c.peerLimits);
  }

  lemma DataContinues(x: End, c: Cursor, k: Link)
    requires Own(x) && Live(x.s) && 1 <= x.s.config.maxPayload && DataDue(x.s)
    ensures Continues(x, SendData(x.s), c, k)
  {
    hide FlushOwn, CloseOwn, DeadOwn, ReadOwn, SentMarks, Eligible;
    var b := SendData(x.s).1;
    assert b.payload == x.wrote[x.s.sent..][..|b.payload|];
    assert x.wrote[x.s.sent..][..|b.payload|] == x.wrote[x.s.sent..x.s.sent + |b.payload|];
  }

  lemma DataMoves(x: End, c: Cursor, k: Link)
    requires Own(x) && Live(x.s) && ValidConfig(x.s.config) && DataDue(x.s)
    ensures Moves(x, SendData(x.s), c, k)
  {
    hide Outgoing, Continues, Written, FlushOwn, CloseOwn, DeadOwn, ReadOwn, SentMarks, Eligible;
    DataOutgoing(x);
    DataContinues(x, c, k);
  }

  lemma EndMoves(x: End, c: Cursor, k: Link)
    requires Own(x) && Live(x.s) && ValidConfig(x.s.config) && EndDue(x.s) && !FlushDue(x.s)
    ensures Moves(x, SendEnd(x.s), c, k)
  {
    hide ValidConfig, Outgoing, Written, CloseOwn, ReadOwn, SentMarks;
    ControlOutgoing(x.s, SendEnd(x.s).1);
  }

  lemma CloseMoves(x: End, c: Cursor, k: Link)
    requires Own(x) && Live(x.s) && ValidConfig(x.s.config) && CloseDue(x.s)
    ensures Moves(x, SendClose(x.s), c, k)
  {
    hide ValidConfig, Outgoing, Written, FlushOwn, EndOwn, DeadOwn, ReadOwn, SentMarks;
    ControlOutgoing(x.s, SendClose(x.s).1);
  }

  lemma NextMoves(x: End, c: Cursor, k: Link)
    requires Own(x) && Live(x.s) && ValidConfig(x.s.config) && NextBody(x.s).Some?
    ensures Moves(x, NextBody(x.s).value, c, k)
  {
    hide Own, Moves, ValidConfig, FlushedDue, FlushDue, DataDue, EndDue, CloseDue;
    hide SendFlushed, SendWindow, SendClosed, SendFlush, SendData, SendEnd, SendClose;
    if FlushedDue(x.s) {
      FlushedMoves(x, c, k);
    } else if Grant(x.s) > x.s.advertisedLimit {
      WindowMoves(x, c, k);
    } else if x.s.closePending.Some? {
      ClosedMoves(x, c, k);
    } else if FlushDue(x.s) {
      FlushMoves(x, c, k);
    } else if DataDue(x.s) {
      DataMoves(x, c, k);
    } else if EndDue(x.s) {
      EndMoves(x, c, k);
    } else {
      CloseMoves(x, c, k);
    }
  }

  // ---------------------------------------------------------------------------------------------------------------
  // The sender's role
  // ---------------------------------------------------------------------------------------------------------------

  function After(x: End, next: (Stream, Body)): End {
    x.(s := next.0, out := x.out + [Wrap(x.s, next.1)])
  }

  /** The barrier that leaves is the only one under way. */
  lemma NewToken(x: End, y: End, next: (Stream, Body))
    requires Live(x.s) && OneToken(x, y) && SenderMoves(x.s, next.0, next.1) && next.1.Flush?
    ensures OneToken(After(x, next), y)
  {
    var x2 := After(x, next);
    CountAppend(x.out, Wrap(x.s, next.1));
    forall i | 0 <= i < |x2.out| && x2.out[i].body.Flush? ensures x2.out[i].body.barrier == next.1.barrier {
      if i < |x.out| {
        CountZero(x.out, i);
      }
    }
    NoAcks(y.out);
  }

  lemma NoAcks(ch: seq<Envelope>)
    requires Acks(ch) == 0
    ensures forall i | 0 <= i < |ch| :: !ch[i].body.Flushed?
  {
    forall i | 0 <= i < |ch| ensures !ch[i].body.Flushed? {
      CountZero(ch, i);
    }
  }

  lemma SameToken(x: End, y: End, next: (Stream, Body))
    requires Live(x.s) && OneToken(x, y) && SenderMoves(x.s, next.0, next.1) && !next.1.Flush?
    ensures OneToken(After(x, next), y)
  {
    var x2 := After(x, next);
    CountAppend(x.out, Wrap(x.s, next.1));
    assert forall i | 0 <= i < |x2.out| && x2.out[i].body.Flush? :: i < |x.out| && x2.out[i] == x.out[i];
  }

  lemma TakeBodySender(x: End, y: End)
    requires Own(x) && Live(x.s) && Mirrored(x.s.config, y.s.config) && Flow(x, y) && NextBody(x.s).Some?
    ensures Flow(After(x, NextBody(x.s).value), y)
  {
    hide Own, Walk, WalkEnd, ValidConfig, NextBody, BodyFollows, Onward, OneToken, Outgoing, Admitted, ReceiverMoves;
    var next := NextBody(x.s).value;
    var c, k := WalkEnd(x.out, CursorOf(y.s)), LinkOf(x, y);
    NextMoves(x, c, k);
    if next.1.Flush? {
      NewToken(x, y, next);
    } else {
      SameToken(x, y, next);
    }
    if Live(y.s) {
      OutgoingArrives(Wrap(x.s, next.1), x.s.config, y.s.config);
      WalkAppend(x.out, Wrap(x.s, next.1), CursorOf(y.s), k);
    }
  }

  lemma TakeTerminalSender(x: End, y: End)
    requires Own(x) && Mirrored(x.s.config, y.s.config) && Flow(x, y) && x.s.terminal.Some?
    ensures Flow(x.(s := x.s.(terminal := None), out := x.out + [x.s.terminal.value]), y)
  {
    hide Counters, Written, FlushOwn, EndOwn, CloseOwn, ReadOwn, SentMarks, Walk, WalkEnd, Mirrored, Admitted;
    var e := x.s.terminal.value;
    var x2 := x.(s := x.s.(terminal := None), out := x.out + [e]);
    CountAppend(x.out, e);
    assert Tokens(x2, y) == Tokens(x, y);
    if Live(y.s) {
      OutgoingArrives(e, x.s.config, y.s.config);
      WalkAppend(x.out, e, CursorOf(y.s), LinkOf(x, y));
    }
  }

  // ---------------------------------------------------------------------------------------------------------------
  // The receiver's role
  // ---------------------------------------------------------------------------------------------------------------

  /** An acknowledgement leaves for the barrier that was held. */
  lemma TokenReturns(y: End, x: End, next: (Stream, Body))
    requires Live(x.s) && OneToken(y, x) && ReceiverMoves(x.s, next.0, next.1) && next.1.Flushed?
    ensures OneToken(y, After(x, next))
  {
    var x2 := After(x, next);
    CountAppend(x.out, Wrap(x.s, next.1));
    assert SinkOffset(x2.s) == SinkOffset(x.s);
    assert forall i | 0 <= i < |x2.out| && x2.out[i].body.Flushed? ::
        (i < |x.out| && x2.out[i] == x.out[i]) || x2.out[i].body == next.1;
  }

  lemma TokenStays(y: End, x: End, next: (Stream, Body))
    requires Live(x.s) && OneToken(y, x) && ReceiverMoves(x.s, next.0, next.1) && !next.1.Flushed?
    ensures OneToken(y, After(x, next))
  {
    var x2 := After(x, next);
    CountAppend(x.out, Wrap(x.s, next.1));
    assert SinkOffset(x2.s) == SinkOffset(x.s);
    assert forall i | 0 <= i < |x2.out| && x2.out[i].body.Flushed? :: i < |x.out| && x2.out[i] == x.out[i];
  }

  lemma TakeBodyReceiver(x: End, y: End)
    requires Own(x) && Live(x.s) && ValidConfig(x.s.config) && Flow(y, x) && NextBody(x.s).Some?
    ensures Flow(y, After(x, NextBody(x.s).value))
  {
    hide Own, Walk, WalkEnd, ValidConfig, NextBody, Arrived, OneToken, Outgoing, SenderMoves, Continues;
    var next := NextBody(x.s).value;
    NextMoves(x, CursorOf(x.s), LinkOf(x, y));
    if next.1.Flushed? {
      TokenReturns(y, x, next);
    } else {
      TokenStays(y, x, next);
    }
  }

  lemma TakeTerminalReceiver(x: End, y: End)
    requires Own(x) && Flow(y, x) && x.s.terminal.Some?
    ensures Flow(y, x.(s := x.s.(terminal := None), out := x.out + [x.s.terminal.value]))
  {
    hide Counters, Written, FlushOwn, EndOwn, CloseOwn, ReadOwn, SentMarks, Walk, WalkEnd, Outgoing, Arrived;
    var e := x.s.terminal.value;
    var x2 := x.(s := x.s.(terminal := None), out := x.out + [e]);
    CountAppend(x.out, e);
    assert SinkOffset(x2.s) == SinkOffset(x.s);
    assert forall i | 0 <= i < |x2.out| && x2.out[i].body.Flushed? :: i < |x.out| && x2.out[i] == x.out[i];
  }

  // ---------------------------------------------------------------------------------------------------------------
  // Both
  // ---------------------------------------------------------------------------------------------------------------

  lemma TakeFlow(x: End, y: End)
    requires Own(x) && Mirrored(x.s.config, y.s.config) && Flow(x, y) && Flow(y, x)
    ensures Flow(TakeEnd(x), y) && Flow(y, TakeEnd(x))
    ensures TakeEnd(x).s.config == x.s.config
  {
    hide Own, Flow, NextBody, ValidConfig, Moves;
    if x.s.terminal.Some? {
      TakeTerminalSender(x, y);
      TakeTerminalReceiver(x, y);
    } else if Live(x.s) {
      match NextBody(x.s)
      case None => assert TakeEnd(x) == x;
      case Some(next) =>
        TakeBodySender(x, y);
        TakeBodyReceiver(x, y);
        assert TakeEnd(x) == After(x, next);
        NextKeepsConfig(x);
    }
  }

  lemma NextKeepsConfig(x: End)
    requires Own(x) && Live(x.s) && ValidConfig(x.s.config) && NextBody(x.s).Some?
    ensures NextBody(x.s).value.0.config == x.s.config
  {
    hide Own, ValidConfig, NextBody, Outgoing, Continues, ReceiverMoves;
    NextMoves(x, CursorOf(x.s), LinkOf(x, x));
  }
}
