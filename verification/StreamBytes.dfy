/** Where the bytes of a pair of streams are: read, held, discarded, in flight, unsent, or lost on a side that failed. */
module StreamBytes {
  import opened Base
  import opened StreamProtocol
  import opened StreamSpec
  import opened StreamPair
  import opened StreamFlow
  import opened StreamTake
  import opened StreamDeliver
  import opened StreamRuns
  import Io = IoClock

  function Cargo(b: Body): seq<byte> {
    if b.Data? then b.payload else []
  }

  /** The bytes in flight. */
  function Carried(ch: seq<Envelope>): seq<byte> {
    if ch == [] then [] else Cargo(ch[0].body) + Carried(ch[1..])
  }

  lemma BodyCarries(b: Body, c: Cursor, k: Link)
    requires BodyFollows(b, c, k) && 0 <= c.offset <= |k.wrote|
    ensures c.offset <= Onward(c, b).offset <= |k.wrote| && Cargo(b) == k.wrote[c.offset..Onward(c, b).offset]
  {
  }

  lemma TwoSlices(wrote: seq<byte>, n: nat, k: nat, m: nat)
    requires n <= k <= m <= |wrote|
    ensures wrote[n..k] + wrote[k..m] == wrote[n..m]
  {
  }

  lemma {:induction false} WalkCarries(ch: seq<Envelope>, c: Cursor, k: Link)
    requires Walk(ch, c, k) && 0 <= c.offset <= |k.wrote|
    ensures c.offset <= WalkEnd(ch, c).offset <= |k.wrote|
    ensures Carried(ch) == k.wrote[c.offset..WalkEnd(ch, c).offset]
  {
    hide Admitted, BodyFollows, Onward, Cargo;
    if ch != [] {
      var d := Onward(c, ch[0].body);
      BodyCarries(ch[0].body, c, k);
      WalkCarries(ch[1..], d, k);
      TwoSlices(k.wrote, c.offset, d.offset, WalkEnd(ch, c).offset);
    }
  }

  lemma {:induction false} CarriedAppend(ch: seq<Envelope>, e: Envelope)
    ensures Carried(ch + [e]) == Carried(ch) + Cargo(e.body)
  {
    if ch == [] {
      assert [] + [e] == [e] && [e][1..] == [];
    } else {
      assert (ch + [e])[0] == ch[0] && (ch + [e])[1..] == ch[1..] + [e];
      CarriedAppend(ch[1..], e);
    }
  }

  // ---------------------------------------------------------------------------------------------------------------
  // What is in flight is always the last that was sent
  // ---------------------------------------------------------------------------------------------------------------

  predicate Trail(x: End, y: End) {
    var n := |Carried(x.out)|;
    && 0 <= y.s.received <= x.s.sent - n <= x.s.sent <= |x.wrote|
    && Carried(x.out) == x.wrote[x.s.sent - n..x.s.sent]
  }

  /** While the receiver lives, nothing lies between what it has received and what is in flight. */
  lemma LiveTrail(x: End, y: End)
    requires Joined(x, y) && Live(y.s)
    ensures Trail(x, y) && y.s.received + |Carried(x.out)| == x.s.sent
  {
    hide Written, FlushOwn, EndOwn, DeadOwn, CloseOwn, ReadOwn, SentMarks, Urgent, Acknowledged, Truthful, OneToken, Mirrored;
    WalkCarries(x.out, CursorOf(y.s), LinkOf(x, y));
  }

  /** A call moves neither counter of the trail. */
  lemma CallTrails(x: End, op: Op)
    ensures var s := Call(x.s, op); s.sent == x.s.sent && s.received == x.s.received
  {
    hide Call;
    CallKeeps(x, op);
    if op.DoStartClose? {
      CloseCall(x.s);
      CloseReceives(x.s);
    }
  }

  lemma CloseReceives(s: Stream)
    ensures StartClose(s).0.received == s.received
  {
  }

  lemma WriteTrails(x: End, y: End, input: seq<byte>)
    requires Trail(x, y) && Trail(y, x)
    ensures Trail(WriteEnd(x, input), y) && Trail(y, WriteEnd(x, input))
  {
    hide Write, WriteEnd, Fail, Carried, Trail;
    WriteShape(x, input);
    FailTrails(x.s, Protocol, true);
    if WriteEnd(x, input) != x {
      var (s, r) := Write(x.s, input);
      LongerTrails(x, WriteEnd(x, input), y, if r.Ok? && 0 < r.value <= |input| then input[..r.value] else []);
    }
  }

  /** More bytes to send leave what is in flight where it was. */
  lemma LongerTrails(x: End, x2: End, y: End, more: seq<byte>)
    requires Trail(x, y) && Trail(y, x) && x2.out == x.out && x2.wrote == x.wrote + more
    requires x2.s.sent == x.s.sent && x2.s.received == x.s.received
    ensures Trail(x2, y) && Trail(y, x2)
  {
    hide Carried;
  }

  lemma FailTrails(s: Stream, error: Error, notify: bool)
    ensures Fail(s, error, notify).sent == s.sent && Fail(s, error, notify).received == s.received
  {
    hide Wrap, Notice;
  }

  /** One more message behind those in flight, with exactly the bytes that the sender's offset moves over. */
  lemma MoreTrails(x: End, x2: End, y: End, e: Envelope)
    requires Trail(x, y) && Trail(y, x) && x2.wrote == x.wrote && x2.out == x.out + [e] && x2.s.received == x.s.received
    requires x.s.sent <= x2.s.sent <= |x.wrote| && Cargo(e.body) == x.wrote[x.s.sent..x2.s.sent]
    ensures Trail(x2, y) && Trail(y, x2)
  {
    hide Cargo;
    CarriedAppend(x.out, e);
    var n := |Carried(x.out)|;
    assert x.wrote[x.s.sent - n..x.s.sent] + x.wrote[x.s.sent..x2.s.sent] == x.wrote[x.s.sent - n..x2.s.sent];
  }

  lemma TakeTrails(x: End, y: End)
    requires Own(x) && Trail(x, y) && Trail(y, x)
    ensures Trail(TakeEnd(x), y) && Trail(y, TakeEnd(x))
  {
    hide Carried, NextBody, Own, Trail, Cargo, Wrap;
    SentIsWritten(x);
    if x.s.terminal.Some? {
      TerminalIsNotData(x);
      MoreTrails(x, TakeEnd(x), y, x.s.terminal.value);
    } else if Live(x.s) && NextBody(x.s).Some? {
      NextTrails(x);
      WrapCarries(x.s, NextBody(x.s).value.1);
      MoreTrails(x, TakeEnd(x), y, Wrap(x.s, NextBody(x.s).value.1));
    }
  }

  lemma WrapCarries(s: Stream, b: Body)
    ensures Wrap(s, b).body == b
  {
  }

  lemma TerminalIsNotData(x: End)
    requires Own(x) && x.s.terminal.Some?
    ensures Cargo(x.s.terminal.value.body) == []
  {
  }

  lemma NextTrails(x: End)
    requires Own(x) && Live(x.s) && NextBody(x.s).Some?
    ensures var next := NextBody(x.s).value;
            && next.0.received == x.s.received && x.s.sent <= next.0.sent <= |x.wrote|
            && Cargo(next.1) == x.wrote[x.s.sent..next.0.sent]
  {
    hide Own, FlushedDue, FlushDue, EndDue, CloseDue, DataDue, Grant;
    hide SendFlushed, SendWindow, SendClosed, SendFlush, SendData, SendEnd, SendClose;
    SentIsWritten(x);
    if FlushedDue(x.s) {
      FlushedIsBare(x.s);
    } else if Grant(x.s) > x.s.advertisedLimit {
      WindowIsBare(x.s);
    } else if x.s.closePending.Some? {
      ClosedIsBare(x.s);
    } else if FlushDue(x.s) {
      FlushIsBare(x.s);
    } else if DataDue(x.s) {
      DataTrails(x);
    } else {
      LastAreBare(x.s);
    }
  }

  lemma SentIsWritten(x: End)
    requires Own(x)
    ensures 0 <= x.s.sent <= |x.wrote|
  {
  }

  /** The messages without cargo. */
  predicate Bare(s: Stream, next: (Stream, Body)) {
    next.0.sent == s.sent && next.0.received == s.received && Cargo(next.1) == []
  }

  lemma FlushedIsBare(s: Stream)
    requires FlushedDue(s)
    ensures Bare(s, SendFlushed(s))
  {
  }

  lemma WindowIsBare(s: Stream)
    ensures Bare(s, SendWindow(s))
  {
  }

  lemma ClosedIsBare(s: Stream)
    requires s.closePending.Some?
    ensures Bare(s, SendClosed(s))
  {
  }

  lemma FlushIsBare(s: Stream)
    requires FlushDue(s)
    ensures Bare(s, SendFlush(s))
  {
  }

  lemma LastAreBare(s: Stream)
    ensures Bare(s, SendEnd(s)) && Bare(s, SendClose(s))
  {
  }

  lemma DataTrails(x: End)
    requires Own(x) && Live(x.s) && DataDue(x.s)
    ensures var next := SendData(x.s);
            && next.0.received == x.s.received && x.s.sent <= next.0.sent <= |x.wrote|
            && Cargo(next.1) == x.wrote[x.s.sent..next.0.sent]
  {
    hide FlushOwn, EndOwn, DeadOwn, CloseOwn, ReadOwn, SentMarks, Urgent, Eligible;
  }

  lemma LocalTrails(x: End, y: End, op: Op)
    requires Joined(x, y) && Trail(x, y) && Trail(y, x)
    ensures Trail(Local(x, op), y) && Trail(y, Local(x, op))
  {
    hide Own, Flow, WriteEnd, ReadEnd, FlushEnd, TakeEnd, Call, Trail;
    match op
    case DoWrite(input) => WriteTrails(x, y, input);
    case DoRead(room) => ReadTrails(x, y, room);
    case DoStartFlush => FlushTrails(x, y);
    case Take => TakeTrails(x, y);
    case _ =>
      CallTrails(x, op);
      SameTrail(x, x.(s := Call(x.s, op)), y);
  }

  lemma SameTrail(x: End, x2: End, y: End)
    requires x2.out == x.out && x2.wrote == x.wrote && x2.s.sent == x.s.sent && x2.s.received == x.s.received
    requires Trail(x, y) && Trail(y, x)
    ensures Trail(x2, y) && Trail(y, x2)
  {
  }

  lemma ReadTrails(x: End, y: End, room: nat)
    requires Trail(x, y) && Trail(y, x)
    ensures Trail(ReadEnd(x, room), y) && Trail(y, ReadEnd(x, room))
  {
    hide Trail;
    SameTrail(x, ReadEnd(x, room), y);
  }

  lemma FlushTrails(x: End, y: End)
    requires Trail(x, y) && Trail(y, x)
    ensures Trail(FlushEnd(x), y) && Trail(y, FlushEnd(x))
  {
    hide Trail;
    SameTrail(x, FlushEnd(x), y);
  }

  /** A message that is heard moves the receiver on by exactly what it carried. */
  lemma HeardTrails(x: End, y: End)
    requires Joined(x, y) && Live(x.s) && y.out != [] && Accept(x.s, y.out[0]).Some?
    ensures var t := Accept(x.s, y.out[0]).value; t.sent == x.s.sent && t.received == x.s.received + |Cargo(y.out[0].body)|
  {
    hide Own, Mirrored, AcceptBody, Accept, Delivered, Acknowledged, Truthful, OneToken, Admitted, Arrived, BytesMove;
    NeverRefused(x, y);
    Hears(x, y, y.out[0].body);
    HeadReached(y, x);
  }

  lemma ReceiveTrails(x: End, y: End)
    requires Joined(x, y) && y.out != []
    ensures var t := Receive(x.s, y.out[0]).0;
            t.sent == x.s.sent && x.s.received <= t.received <= x.s.received + |Cargo(y.out[0].body)|
  {
    hide Joined, Fail, Accept, Expired;
    FailTrails(x.s, Timeout, true);
    FailTrails(x.s, Protocol, true);
    if Live(x.s) && Accept(x.s, y.out[0]).Some? {
      HeardTrails(x, y);
    }
  }

  lemma TailOf(wrote: seq<byte>, all: seq<byte>, head: seq<byte>, rest: seq<byte>, sent: nat)
    requires all == head + rest && |all| <= sent <= |wrote| && all == wrote[sent - |all|..sent]
    ensures rest == wrote[sent - |rest|..sent]
  {
    assert all[|head|..] == rest;
  }

  /** The first message in flight has arrived, and the receiver has moved over no more than it carried. */
  lemma FewerTrails(y: End, y2: End, x: End, x2: End)
    requires Trail(y, x) && y.out != [] && y2.out == y.out[1..] && y2.wrote == y.wrote && y2.s.sent == y.s.sent
    requires x.s.received <= x2.s.received <= x.s.received + |Cargo(y.out[0].body)|
    ensures Trail(y2, x2)
  {
    hide Cargo;
    TailOf(y.wrote, Carried(y.out), Cargo(y.out[0].body), Carried(y2.out), y.s.sent);
  }

  lemma DeliverTrails(x: End, y: End)
    requires Joined(x, y) && Trail(x, y) && Trail(y, x) && y.out != []
    ensures Trail(DeliverTo(x, y.out[0]), Popped(y)) && Trail(Popped(y), DeliverTo(x, y.out[0]))
  {
    hide Receive, Joined, Carried, Cargo, Trail;
    ReceiveTrails(x, y);
    FewerTrails(y, Popped(y), x, DeliverTo(x, y.out[0]));
    HeardKeepsOwn(x, DeliverTo(x, y.out[0]), y, Popped(y));
  }

  lemma HeardKeepsOwn(x: End, x2: End, y: End, y2: End)
    requires Trail(x, y) && x2.out == x.out && x2.wrote == x.wrote && x2.s.sent == x.s.sent && y2.s.received == y.s.received
    ensures Trail(x2, y2)
  {
    hide Carried;
  }

  lemma StepTrails(p: Pair, side: Side, op: Op)
    requires Inv(p) && Trail(p.a, p.b) && Trail(p.b, p.a)
    ensures var q := Step(p, side, op); Trail(q.a, q.b) && Trail(q.b, q.a)
  {
    hide Inv, Joined, Local, DeliverTo, Trail;
    BothJoined(p);
    match side
    case Initiator =>
      if op.Deliver? {
        if p.b.out != [] {
          DeliverTrails(p.a, p.b);
        }
      } else {
        LocalTrails(p.a, p.b, op);
      }
    case Endpoint =>
      if op.Deliver? {
        if p.a.out != [] {
          DeliverTrails(p.b, p.a);
        }
      } else {
        LocalTrails(p.b, p.a, op);
      }
  }

  lemma {:induction false} AlwaysTrails(c: Config, d: Config, events: seq<Event>)
    requires Mirrored(c, d) && c.side == Initiator
    ensures var p := Run(Fresh(c, d), events); Trail(p.a, p.b) && Trail(p.b, p.a)
  {
    hide Mirrored, Inv, Step, Io.New;
    if events != [] {
      var before, last := events[..|events| - 1], events[|events| - 1];
      Reachable(c, d, before);
      AlwaysTrails(c, d, before);
      StepTrails(Run(Fresh(c, d), before), last.side, last.op);
    }
  }

  // ---------------------------------------------------------------------------------------------------------------
  // Conservation
  // ---------------------------------------------------------------------------------------------------------------

  /** The sent bytes that arrived only after their receiver had failed. */
  function Lost(x: End, y: End): int {
    x.s.sent - |Carried(x.out)| - y.s.received
  }

  /** What the receiver has taken in is what was read and is held, or, once it discards, begins with what was read. */
  predicate TakenIn(x: End, y: End)
    requires 0 <= y.s.received <= |x.wrote|
  {
    if y.s.discarding then y.s.recv == [] && y.s.consumed == y.s.received && y.read <= x.wrote[..y.s.received]
    else y.read + y.s.recv == x.wrote[..y.s.received]
  }

  /**
   Everything written is taken in, lost on a failed receiver, in flight or not yet sent, in that order and nowhere twice;
   nothing is lost before the receiver fails, and nothing unsent is dropped before the sender does.
   */
  predicate Conserves(x: End, y: End) {
    && 0 <= y.s.received <= y.s.received + Lost(x, y) <= x.s.sent <= |x.wrote| && TakenIn(x, y)
    && x.wrote == x.wrote[..y.s.received] + x.wrote[y.s.received..y.s.received + Lost(x, y)] + Carried(x.out) + x.wrote[x.s.sent..]
    && (x.s.error.None? ==> x.wrote[x.s.sent..] == x.s.send)
    && (y.s.error.None? ==> Lost(x, y) == 0)
  }

  lemma NothingLost(x: End, y: End)
    requires Joined(x, y) && Trail(x, y) && y.s.error.None?
    ensures Lost(x, y) == 0
  {
    hide Joined, Carried;
    if Live(y.s) {
      LiveTrail(x, y);
    } else {
      ClosedHasAll(x, y);
    }
  }

  /** A completed close has received everything. */
  lemma ClosedHasAll(x: End, y: End)
    requires Joined(x, y) && y.s.completed.Some?
    ensures y.s.received == x.s.sent == |x.wrote|
  {
    hide Counters, Written, FlushOwn, DeadOwn, ReadOwn, SentMarks, Urgent, InFlight, Delivered, Truthful, OneToken, Mirrored, Outgoing;
  }

  lemma IsTakenIn(x: End, y: End)
    requires Joined(x, y)
    ensures 0 <= y.s.received <= |x.wrote| && TakenIn(x, y)
  {
    hide Written, FlushOwn, EndOwn, DeadOwn, SentMarks, Urgent, Acknowledged, Truthful, OneToken, Mirrored, InFlight;
  }

  lemma Conserved(x: End, y: End)
    requires Joined(x, y) && Trail(x, y)
    ensures Conserves(x, y)
  {
    hide FlushOwn, EndOwn, DeadOwn, CloseOwn, ReadOwn, SentMarks, Urgent, Flow, Mirrored, TakenIn, Carried;
    IsTakenIn(x, y);
    if y.s.error.None? {
      NothingLost(x, y);
    }
    InFour(x.wrote, y.s.received, y.s.received + Lost(x, y), x.s.sent);
  }

  lemma InFour(wrote: seq<byte>, n: nat, k: nat, m: nat)
    requires n <= k <= m <= |wrote|
    ensures wrote == wrote[..n] + wrote[n..k] + wrote[k..m] + wrote[m..]
  {
  }

  /** No more than the receiver's window is ever unread, in flight or held. */
  predicate WithinWindow(x: End, y: End) {
    && 0 <= y.s.consumed <= y.s.received <= x.s.sent <= x.s.peerLimit <= y.s.advertisedLimit
    && y.s.advertisedLimit <= y.s.consumed + y.s.config.receiveWindow
    && |y.s.recv| <= y.s.config.receiveWindow
    && |x.s.send| <= x.s.config.sendBuffer
  }

  lemma CreditChain(x: End, y: End)
    requires Joined(x, y)
    ensures WithinWindow(x, y)
  {
    hide Written, FlushOwn, EndOwn, DeadOwn, CloseOwn, ReadOwn, SentMarks, Truthful, OneToken, Mirrored, InFlight;
  }

  lemma BytesConserved(c: Config, d: Config, events: seq<Event>)
    requires Mirrored(c, d) && c.side == Initiator
    ensures var p := Run(Fresh(c, d), events);
            Conserves(p.a, p.b) && Conserves(p.b, p.a) && WithinWindow(p.a, p.b) && WithinWindow(p.b, p.a)
  {
    hide Mirrored, Inv, Joined, Run, Conserves, WithinWindow, Trail;
    Reachable(c, d, events);
    AlwaysTrails(c, d, events);
    var p := Run(Fresh(c, d), events);
    BothJoined(p);
    Conserved(p.a, p.b);
    Conserved(p.b, p.a);
    CreditChain(p.a, p.b);
    CreditChain(p.b, p.a);
  }
}
