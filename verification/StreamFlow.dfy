/** What each direction keeps when one side takes a step of its own. */
module StreamFlow {
  import opened Base
  import opened StreamProtocol
  import opened StreamSpec
  import opened StreamPair
  import opened StreamOwn

  // ---------------------------------------------------------------------------------------------------------------
  // The messages in flight
  // ---------------------------------------------------------------------------------------------------------------

  lemma {:induction false} WalkAppend(ch: seq<Envelope>, e: Envelope, c: Cursor, k: Link)
    ensures Walk(ch + [e], c, k) <==> Walk(ch, c, k) && Follows(e, WalkEnd(ch, c), k)
    ensures WalkEnd(ch + [e], c) == Onward(WalkEnd(ch, c), e.body)
  {
    hide Follows, Onward;
    if ch == [] {
      assert ch + [e] == [e];
      assert [e][1..] == [];
    } else {
      assert (ch + [e])[0] == ch[0] && (ch + [e])[1..] == ch[1..] + [e];
      WalkAppend(ch[1..], e, Onward(c, ch[0].body), k);
    }
  }

  /** More writing leaves what is already in flight a part of what was written. */
  lemma {:induction false} WalkGrow(ch: seq<Envelope>, c: Cursor, k: Link, wrote: seq<byte>)
    requires Walk(ch, c, k) && k.wrote <= wrote
    ensures Walk(ch, c, k.(wrote := wrote))
  {
    hide Onward, Admitted;
    if ch != [] {
      WalkGrow(ch[1..], Onward(c, ch[0].body), k, wrote);
    }
  }

  /** The cursor only moves forward, and no byte follows the end of writing. */
  lemma {:induction false} WalkForward(ch: seq<Envelope>, c: Cursor, k: Link)
    requires Walk(ch, c, k)
    ensures var d := WalkEnd(ch, c);
            && c.offset <= d.offset && c.serial <= d.serial && c.limit <= d.limit
            && (c.ended ==> d.ended && d.offset == c.offset) && (c.closed ==> d.closed)
            && (c.done ==> d.done && ch == [])
  {
    hide Admitted;
    if ch != [] {
      WalkForward(ch[1..], Onward(c, ch[0].body), k);
    }
  }

  lemma {:induction false} CountAppend(ch: seq<Envelope>, e: Envelope)
    ensures Flushes(ch + [e]) == Flushes(ch) + (if e.body.Flush? then 1 else 0)
    ensures Acks(ch + [e]) == Acks(ch) + (if e.body.Flushed? then 1 else 0)
  {
    if ch == [] {
      assert ch + [e] == [e];
      assert [e][1..] == [];
    } else {
      assert (ch + [e])[0] == ch[0] && (ch + [e])[1..] == ch[1..] + [e];
      CountAppend(ch[1..], e);
    }
  }

  lemma {:induction false} CountZero(ch: seq<Envelope>, i: nat)
    requires i < |ch|
    ensures ch[i].body.Flush? ==> Flushes(ch) >= 1
    ensures ch[i].body.Flushed? ==> Acks(ch) >= 1
  {
    if i > 0 {
      CountZero(ch[1..], i - 1);
    }
  }

  // ---------------------------------------------------------------------------------------------------------------
  // Steps that leave a role alone
  // ---------------------------------------------------------------------------------------------------------------

  /** As a sender, `x2` is what `x` was, except that it may have stopped. */
  predicate SenderKept(x: End, x2: End) {
    && x2.out == x.out && x2.wrote == x.wrote && x2.tickets == x.tickets && x2.s.config == x.s.config
    && x2.s.sent == x.s.sent && x2.s.endSent == x.s.endSent && x2.s.advertisedLimit == x.s.advertisedLimit
    && x2.s.flushSerial == x.s.flushSerial && x2.s.flushAcked == x.s.flushAcked
    && x2.s.closeSent == x.s.closeSent && x2.s.peerLimit == x.s.peerLimit
    && (x2.s.flush == x.s.flush || (x2.s.flush.None? && !Live(x2.s)))
    && (x.s.completed.Some? ==> x2.s.completed.Some?)
    && (Live(x2.s) ==> Live(x.s))
    && (!Live(x.s) && x.s.terminal.None? ==> x2.s.terminal.None?)
  }

  lemma SenderFrame(x: End, x2: End, y: End)
    requires Flow(x, y) && SenderKept(x, x2)
    ensures Flow(x2, y)
  {
    hide Walk, WalkEnd;
    assert Tokens(x2, y) == Tokens(x, y);
  }

  /** As a receiver, `y2` is what `y` was, except that it may have stopped or consumed more of what it holds. */
  predicate ReceiverKept(y: End, y2: End) {
    && y2.out == y.out && y2.s.config == y.s.config && CursorOf(y2.s) == CursorOf(y.s)
    && y2.s.discarding == y.s.discarding && y2.s.discarded == y.s.discarded
    && y2.read + y2.s.recv == y.read + y.s.recv && (y.s.discarding ==> y2.read == y.read)
    && y.s.advertisedLimit <= y2.s.advertisedLimit
    && (y.s.config.side == Initiator ==> y2.s.completed == y.s.completed)
    && y.s.consumed <= y2.s.consumed
    && (y2.s.peerFlush == y.s.peerFlush || (y2.s.peerFlush.None? && !Live(y2.s)))
    && (Live(y2.s) ==> Live(y.s))
  }

  lemma ReceiverFrame(x: End, y: End, y2: End)
    requires Flow(x, y) && ReceiverKept(y, y2)
    ensures Flow(x, y2)
  {
    hide Walk, WalkEnd, Arrived;
    assert SinkOffset(y.s) <= SinkOffset(y2.s);
    assert Tokens(x, y2) <= Tokens(x, y);
  }

  predicate Kept(x: End, x2: End) {
    SenderKept(x, x2) && ReceiverKept(x, x2)
  }

  lemma KeptTwice(x: End, x1: End, x2: End)
    requires Kept(x, x1) && Kept(x1, x2)
    ensures Kept(x, x2)
  {
  }

  lemma FailKeeps(x: End, error: Error, notify: bool)
    ensures Kept(x, x.(s := Fail(x.s, error, notify)))
  {
    hide Wrap, Notice;
  }

  lemma UnmovedKeeps(x: End, t: Stream)
    requires Unmoved(x.s, t)
    ensures Kept(x, x.(s := t))
  {
  }

  lemma TickedKeeps(x: End, t: Stream)
    requires Ticked(x.s, t)
    ensures Kept(x, x.(s := t))
  {
    hide Unmoved, Fail, Kept;
    var quiet :| Unmoved(x.s, quiet) && (t == quiet || t == Fail(quiet, Timeout, true));
    var q := x.(s := quiet);
    UnmovedKeeps(x, quiet);
    FailKeeps(q, Timeout, true);
    if t != quiet {
      KeptTwice(x, q, q.(s := Fail(quiet, Timeout, true)));
    }
  }

  lemma RequestEndKeeps(x: End)
    ensures Kept(x, x.(s := RequestEnd(x.s).0))
  {
  }

  lemma CompleteCloseKeeps(x: End, disposition: Disposition, facts: Part, failure: Option<Failure>)
    ensures Kept(x, x.(s := CompleteClose(x.s, disposition, facts, failure).0))
  {
    hide Admitted;
  }

  lemma FailTerminalKeeps(x: End, failure: Failure)
    ensures Kept(x, x.(s := FailTerminal(x.s, failure).0))
  {
    hide Admitted, Wrap, Fail, Kept, Unmoved;
    var u := x.s.(failureFacts := failure.facts);
    var f := Fail(u, PeerFailed(failure.code, failure.effect), false);
    assert Unmoved(x.s, u) by { UnmovedFacts(x.s, failure.facts); }
    UnmovedKeeps(x, u);
    FailKeeps(x.(s := u), PeerFailed(failure.code, failure.effect), false);
    KeptTwice(x, x.(s := u), x.(s := f));
    if Live(x.s) {
      NoticeKeeps(x, f, Some(Wrap(x.s, Failed(failure))));
    }
    SelfKeeps(x);
    assert x.(s := x.s) == x;
  }

  lemma UnmovedFacts(s: Stream, facts: Option<Part>)
    ensures Unmoved(s, s.(failureFacts := facts))
  {
  }

  /** A side that just stopped may leave a last message. */
  lemma NoticeKeeps(x: End, t: Stream, notice: Option<Envelope>)
    requires Live(x.s) && Kept(x, x.(s := t))
    ensures Kept(x, x.(s := t.(terminal := notice)))
  {
  }

  lemma DisconnectKeeps(x: End)
    ensures Kept(x, x.(s := Disconnect(x.s)))
  {
  }

  lemma SplitRead(read: seq<byte>, recv: seq<byte>, count: nat)
    requires count <= |recv|
    ensures (read + recv[..count]) + recv[count..] == read + recv
  {
  }

  /** Moves `count` received bytes to the reader. */
  function Consume(x: End, count: nat): End
    requires count <= |x.s.recv|
  {
    x.(s := x.s.(recv := x.s.recv[count..], consumed := x.s.consumed + count), read := x.read + x.s.recv[..count])
  }

  lemma ConsumeKeeps(x: End, count: nat)
    requires count <= |x.s.recv| && !x.s.discarding
    ensures Kept(x, Consume(x, count))
  {
    SplitRead(x.read, x.s.recv, count);
  }

  /** A read marks pending output urgent, and then moves bytes if any are held. */
  lemma ReadIsConsume(x: End, room: nat)
    ensures var t := if room > 0 && x.s.send != [] then x.s.(forceSend := true) else x.s;
            var count := if room > 0 then Min(room, |x.s.recv|) else 0;
            ReadEnd(x, room) == if count > 0 then Consume(x.(s := t), count) else x.(s := t)
  {
    assert x.read + [] == x.read;
  }

  lemma ForceKeeps(x: End)
    ensures Kept(x, x.(s := x.s.(forceSend := true)))
  {
    UnmovedKeeps(x, x.s.(forceSend := true));
  }

  lemma ReadKeeps(x: End, room: nat)
    requires x.s.discarding ==> x.s.recv == []
    ensures Kept(x, ReadEnd(x, room))
  {
    hide Kept, Read, ReadEnd, Consume;
    ReadIsConsume(x, room);
    SelfKeeps(x);
    ForceKeeps(x);
    var t := if room > 0 && x.s.send != [] then x.s.(forceSend := true) else x.s;
    var x1 := x.(s := t);
    assert x.(s := x.s) == x;
    assert Kept(x, x1);
    if room > 0 && x.s.recv != [] {
      var count := Min(room, |x.s.recv|);
      ConsumeKeeps(x1, count);
      KeptTwice(x, x1, Consume(x1, count));
    }
  }

  lemma StartCloseKeepsSender(x: End)
    ensures SenderKept(x, x.(s := StartClose(x.s).0))
  {
  }

  /** The initiator's close discards what it has not read; what it did read stays a prefix of what was written. */
  lemma StartCloseReceiver(x: End, y: End)
    requires Own(y) && Flow(x, y)
    ensures Flow(x, y.(s := StartClose(y.s).0))
  {
    hide Walk, WalkEnd, Arrived, Written, FlushOwn, EndOwn, DeadOwn, SentMarks;
    var y2 := y.(s := StartClose(y.s).0);
    assert Tokens(x, y2) == Tokens(x, y);
    assert SinkOffset(y2.s) >= SinkOffset(y.s);
    if y.s.closeDeadline.None? && Live(y.s) && y.s.config.side == Initiator {
      assert y.read <= y.read + y.s.recv;
    }
  }

  lemma WriteReceiver(x: End, input: seq<byte>)
    ensures ReceiverKept(x, WriteEnd(x, input))
  {
    hide Fail;
    FailKeeps(x, Protocol, true);
  }

  /** Bytes accepted behind those already in flight. */
  lemma AppendSender(x: End, y: End, bytes: seq<byte>, batchDeadline: Option<nat>)
    requires Flow(x, y) && x.s.flush.None?
    ensures Flow(x.(s := x.s.(batchDeadline := batchDeadline, send := x.s.send + bytes), wrote := x.wrote + bytes), y)
  {
    hide Walk, WalkEnd;
    var x2 := x.(s := x.s.(batchDeadline := batchDeadline, send := x.s.send + bytes), wrote := x.wrote + bytes);
    var k := Link(x.wrote, x.s.config, y.s.config);
    if Live(y.s) {
      WalkGrow(x.out, CursorOf(y.s), k, x2.wrote);
      assert k.(wrote := x2.wrote) == Link(x2.wrote, x2.s.config, y.s.config);
    }
    assert x2.wrote[..y.s.received] == x.wrote[..y.s.received];
    assert Tokens(x2, y) == Tokens(x, y);
  }

  lemma WriteShape(x: End, input: seq<byte>)
    ensures var (s, r) := Write(x.s, input);
            if r.Ok? && r.value > 0 then
              && x.s.flush.None? && r.value <= |input|
              && WriteEnd(x, input) == x.(s := x.s.(batchDeadline := s.batchDeadline, send := x.s.send + input[..r.value]),
                                          wrote := x.wrote + input[..r.value])
            else WriteEnd(x, input) == x || WriteEnd(x, input) == x.(s := Fail(x.s, Protocol, true))
  {
    hide Fail;
    assert x.wrote + input[..0] == x.wrote;
  }

  lemma WriteSender(x: End, y: End, input: seq<byte>)
    requires Flow(x, y)
    ensures Flow(WriteEnd(x, input), y)
  {
    hide Flow, Write, WriteEnd, Fail, SenderKept, ReceiverKept;
    WriteShape(x, input);
    var (s, r) := Write(x.s, input);
    if r.Ok? && r.value > 0 {
      AppendSender(x, y, input[..r.value], s.batchDeadline);
    } else if WriteEnd(x, input) != x {
      FailKeeps(x, Protocol, true);
      SenderFrame(x, x.(s := Fail(x.s, Protocol, true)), y);
    }
  }

  lemma StartFlushReceiver(x: End)
    ensures ReceiverKept(x, FlushEnd(x))
  {
  }

  lemma StartFlushSender(x: End, y: End)
    requires Own(x) && Flow(x, y)
    ensures Flow(FlushEnd(x), y)
  {
    hide Walk, WalkEnd, DeadOwn, SentMarks, CloseOwn;
    var x2 := FlushEnd(x);
    assert Tokens(x2, y) == Tokens(x, y);
  }

  lemma CallKeeps(x: End, op: Op)
    ensures SenderKept(x, x.(s := Call(x.s, op)))
    ensures !op.DoStartClose? ==> ReceiverKept(x, x.(s := Call(x.s, op)))
  {
    hide SenderKept, ReceiverKept, Ticked, RequestEnd, StartClose, CompleteClose, FailTerminal, Fail, Disconnect;
    hide SetIoState, RecordProgress, Advance;
    match op
    case DoRequestEnd => RequestEndKeeps(x);
    case DoStartClose => StartCloseKeepsSender(x);
    case DoCompleteClose(disposition, facts, failure) => CompleteCloseKeeps(x, disposition, facts, failure);
    case DoFailTerminal(failure) => FailTerminalKeeps(x, failure);
    case DoCancel => FailKeeps(x, Cancelled, true);
    case DoDisconnect => DisconnectKeeps(x);
    case DoSetIoState(state) =>
      SetIoStateTicks(x.s, state);
      TickedKeeps(x, SetIoState(x.s, state).0);
    case DoRecordProgress(bytes) =>
      RecordProgressTicks(x.s, bytes);
      TickedKeeps(x, RecordProgress(x.s, bytes).0);
    case DoAdvance(now) =>
      AdvanceTicks(x.s, now);
      TickedKeeps(x, Advance(x.s, now));
    case _ =>
      assert x.(s := x.s) == x;
      SelfKeeps(x);
  }

  lemma SelfKeeps(x: End)
    ensures Kept(x, x)
  {
  }
}
