/**
 Two stream machines joined by two FIFO channels, with the history of what the applications wrote and read. Every
 interleaving of application calls, message takes, deliveries and clock ticks is a run of this system.
 */
module StreamPair {
  import opened Base
  import opened StreamProtocol
  import opened StreamSpec
  import Io = IoClock

  /**
   One side: its machine, the messages it has handed over that its peer has not received yet, the bytes its
   application's writes and reads have moved so far, and for every flush ticket how many bytes had been accepted when
   it was last handed out.
   */
  datatype End = End(s: Stream, out: seq<Envelope>, wrote: seq<byte>, read: seq<byte>, tickets: map<int, nat>)

  datatype Pair = Pair(a: End, b: End)

  datatype Op =
    | DoWrite(input: seq<byte>)
    | DoRead(room: nat)
    | DoStartFlush
    | DoRequestEnd
    | DoStartClose
    | DoCompleteClose(disposition: Disposition, facts: Part, closeFailure: Option<Failure>)
    | DoFailTerminal(failure: Failure)
    | DoCancel
    | DoDisconnect
    | DoSetIoState(state: Io.IoState)
    | DoRecordProgress(bytes: nat)
    | DoAdvance(now: nat)
    | Take
    | Deliver

  function Start(c: Config): End {
    End(New(c), [], [], [], map[])
  }

  function WriteEnd(x: End, input: seq<byte>): End {
    var (s, r) := Write(x.s, input);
    x.(s := s, wrote := if r.Ok? && r.value <= |input| then x.wrote + input[..r.value] else x.wrote)
  }

  function ReadEnd(x: End, room: nat): End {
    var (s, r) := Read(x.s, room);
    x.(s := s, read := if r.Ok? then x.read + r.value else x.read)
  }

  function FlushEnd(x: End): End {
    var (s, r) := StartFlush(x.s);
    x.(s := s, tickets := if r.Ok? then x.tickets[r.value := |x.wrote|] else x.tickets)
  }

  function TakeEnd(x: End): End {
    var (s, m) := NextMessage(x.s);
    x.(s := s, out := if m.Some? then x.out + [m.value] else x.out)
  }

  /** The machine after a call that neither moves bytes nor hands out a ticket or a message. */
  function Call(s: Stream, op: Op): Stream {
    match op
    case DoRequestEnd => RequestEnd(s).0
    case DoStartClose => StartClose(s).0
    case DoCompleteClose(disposition, facts, failure) => CompleteClose(s, disposition, facts, failure).0
    case DoFailTerminal(failure) => FailTerminal(s, failure).0
    case DoCancel => CancelStream(s)
    case DoDisconnect => Disconnect(s)
    case DoSetIoState(state) => SetIoState(s, state).0
    case DoRecordProgress(bytes) => RecordProgress(s, bytes).0
    case DoAdvance(now) => Advance(s, now)
    case _ => s
  }

  /** Any step of one side that involves no incoming message. */
  function Local(x: End, op: Op): End {
    match op
    case DoWrite(input) => WriteEnd(x, input)
    case DoRead(room) => ReadEnd(x, room)
    case DoStartFlush => FlushEnd(x)
    case Take => TakeEnd(x)
    case _ => x.(s := Call(x.s, op))
  }

  /** `x` receives the first message its peer has in flight. */
  function DeliverTo(x: End, e: Envelope): End {
    x.(s := Receive(x.s, e).0)
  }

  function Step(p: Pair, side: Side, op: Op): Pair {
    if op.Deliver? then
      if side == Initiator then
        if p.b.out == [] then p else Pair(DeliverTo(p.a, p.b.out[0]), p.b.(out := p.b.out[1..]))
      else
        if p.a.out == [] then p else Pair(p.a.(out := p.a.out[1..]), DeliverTo(p.b, p.a.out[0]))
    else if side == Initiator then p.(a := Local(p.a, op))
    else p.(b := Local(p.b, op))
  }

  datatype Event = Event(side: Side, op: Op)

  function Run(p: Pair, events: seq<Event>): Pair {
    if events == [] then p
    else
      var last := events[|events| - 1];
      Step(Run(p, events[..|events| - 1]), last.side, last.op)
  }

  // ---------------------------------------------------------------------------------------------------------------
  // Agreed configurations
  // ---------------------------------------------------------------------------------------------------------------

  /** The two sides describe the same stream, and each knows the other's limits and window. */
  predicate Mirrored(c: Config, d: Config) {
    && ValidConfig(c) && ValidConfig(d)
    && c.session == d.session && c.stream == d.stream && c.version == d.version
    && c.receiveLimits == d.peerLimits && c.peerLimits == d.receiveLimits
    && c.receiveWindow == d.peerReceiveWindow && c.peerReceiveWindow == d.receiveWindow
    && c.maxPayload == d.maxPayload
    && c.side != d.side
  }

  // ---------------------------------------------------------------------------------------------------------------
  // What each side keeps, whatever its peer sends
  // ---------------------------------------------------------------------------------------------------------------

  predicate Counters(s: Stream) {
    && 0 <= s.consumed && s.consumed + |s.recv| == s.received
    && 0 <= s.sent <= s.peerLimit
    && s.advertisedLimit <= Grant(s)
    && |s.send| <= s.config.sendBuffer && s.sent + |s.send| <= I64_MAX
  }

  predicate Written(x: End) {
    && (x.s.error.None? ==> 0 <= x.s.sent && |x.wrote| == x.s.sent + |x.s.send| && x.s.send == x.wrote[x.s.sent..])
    && (x.s.error.Some? ==> x.s.send == [] && x.s.sent <= |x.wrote|)
  }

  predicate FlushOwn(x: End) {
    && 0 <= x.s.flushAcked <= x.s.flushSerial <= I64_MAX
    && (x.s.flush.Some? ==>
          var f := x.s.flush.value;
          && x.s.error.None?
          && f.id == x.s.flushSerial && x.s.flushAcked < f.id
          && f.offset == x.s.sent + |x.s.send|
          && (f.sent ==> x.s.send == []))
    && (forall id | id in x.tickets :: id <= x.s.flushSerial && x.tickets[id] <= |x.wrote|)
  }

  predicate EndOwn(x: End) {
    x.s.endSent ==>
      && x.s.endRequested && x.s.send == [] && x.s.sent == |x.wrote|
      && (x.s.flush.Some? ==> x.s.flush.value.sent)
  }

  predicate Outgoing(e: Envelope, c: Config) {
    && e.session == c.session && e.stream == c.stream && e.version == c.version
    && Admitted(e, c.peerLimits)
  }

  /** A barrier held for the peer is well formed. */
  predicate HeldBarrier(s: Stream) {
    s.peerFlush.Some? ==> s.peerFlush.value.offset >= 0 && s.peerFlush.value.id > 0
  }

  predicate DeadOwn(s: Stream) {
    && HeldBarrier(s)
    && (s.error.Some? ==> s.completed.None? && s.flush.None? && s.peerFlush.None? && s.closePending.None?)
    && (s.terminal.Some? ==>
          && s.error.Some? && (s.terminal.value.body.Cancel? || s.terminal.value.body.Failed?)
          && Outgoing(s.terminal.value, s.config))
  }

  predicate CloseOwn(s: Stream) {
    && (s.config.side == Endpoint ==> !s.discarding && !s.discarded && !s.closeSent)
    && (s.config.side == Initiator ==> !s.closeReceived && s.closePending.None? && (s.closeDeadline.Some? <==> s.discarding))
    && (s.discarding ==> s.recv == [] && s.endRequested)
    && (s.closeSent ==> s.endSent && s.discarding)
    && (s.config.side == Endpoint && (s.closePending.Some? || s.completed.Some?) ==>
          s.closeReceived && s.endSent && s.endReceived && s.recv == [] && s.peerFlush.None? && s.flush.None?)
    && (s.config.side == Initiator && s.completed.Some? ==> s.closeSent && s.endReceived)
    && (s.closePending.Some? ==>
          Outgoing(Wrap(s, Closed(s.closePending.value)), s.config) && !s.closePending.value.unreadResponseDiscarded)
  }

  predicate ReadOwn(x: End) {
    if x.s.discarding then |x.read| <= x.s.consumed && (x.s.discarded <==> |x.read| < x.s.consumed)
    else |x.read| == x.s.consumed && !x.s.discarded
  }

  /** A report leaves only once the close is complete, and never speaks of unread bytes. */
  predicate SentMarks(x: End) {
    forall i | 0 <= i < |x.out| ::
      x.out[i].body.Closed? ==> x.s.completed.Some? && !x.out[i].body.report.unreadResponseDiscarded
  }

  /** Bytes that an end of writing or a flush waits for are not held back for coalescing. */
  predicate Urgent(s: Stream) {
    s.error.None? && s.send != [] && (s.endRequested || s.flush.Some?) ==> s.forceSend
  }

  predicate Own(x: End) {
    && Counters(x.s) && Written(x) && FlushOwn(x) && EndOwn(x) && DeadOwn(x.s) && CloseOwn(x.s) && ReadOwn(x)
    && SentMarks(x) && Urgent(x.s)
  }

  // ---------------------------------------------------------------------------------------------------------------
  // What one direction keeps: `x` sends, `y` receives
  // ---------------------------------------------------------------------------------------------------------------

  /** The receiver's view of the sender, as far as the messages in flight move it on. */
  datatype Cursor = Cursor(offset: int, ended: bool, closed: bool, serial: int, limit: int, done: bool)

  datatype Link = Link(wrote: seq<byte>, from: Config, to: Config)

  function CursorOf(y: Stream): Cursor {
    Cursor(y.received, y.endReceived, y.closeReceived, y.peerFlushSerial, y.peerLimit, false)
  }

  function Onward(c: Cursor, b: Body): Cursor {
    match b
    case Data(offset, payload) => c.(offset := offset + |payload|)
    case Window(limit) => c.(limit := limit)
    case Flush(barrier) => c.(serial := barrier.id)
    case EndWrite(_) => c.(ended := true)
    case Close(_) => c.(closed := true)
    case Closed(_) => c.(done := true)
    case Cancel(_) => c.(done := true)
    case Failed(_) => c.(done := true)
    case Flushed(_) => c
    case Foreign(_, _) => c
  }

  predicate BodyFollows(b: Body, c: Cursor, k: Link) {
    match b
    case Data(offset, payload) =>
      && !c.ended && offset == c.offset && 1 <= |payload| <= k.to.maxPayload
      && 0 <= offset && offset + |payload| <= |k.wrote| && payload == k.wrote[offset..offset + |payload|]
    case Window(limit) => c.limit < limit
    case Flush(barrier) => !c.ended && barrier.offset == c.offset && barrier.id > c.serial
    case Flushed(_) => true
    case EndWrite(finalOffset) => !c.ended && finalOffset == c.offset
    case Close(finalOffset) => c.ended && !c.closed && finalOffset == c.offset && k.from.side == Initiator
    case Closed(_) => c.ended && k.from.side == Endpoint
    case Cancel(_) => true
    case Failed(_) => true
    case Foreign(_, _) => false
  }

  predicate Follows(e: Envelope, c: Cursor, k: Link) {
    && !c.done
    && e.session == k.to.session && e.stream == k.to.stream && e.version == k.to.version
    && Admitted(e, k.to.receiveLimits)
    && BodyFollows(e.body, c, k)
  }

  /** Every message in flight continues the ones before it. */
  predicate Walk(ch: seq<Envelope>, c: Cursor, k: Link) {
    ch != [] ==> Follows(ch[0], c, k) && Walk(ch[1..], Onward(c, ch[0].body), k)
  }

  function WalkEnd(ch: seq<Envelope>, c: Cursor): Cursor {
    if ch == [] then c else WalkEnd(ch[1..], Onward(c, ch[0].body))
  }

  /** Past the messages in flight, the receiver's view is the sender's own state. */
  predicate Arrived(c: Cursor, s: Stream) {
    && c.offset == s.sent && c.ended == s.endSent && c.closed == s.closeSent && c.limit == s.advertisedLimit
    && c.serial <= s.flushSerial && (s.flush.Some? && !s.flush.value.sent ==> c.serial < s.flush.value.id)
    && (c.done ==> !Live(s) && s.terminal.None?)
  }

  predicate InFlight(x: End, y: End) {
    Live(y.s) ==>
      && Walk(x.out, CursorOf(y.s), Link(x.wrote, x.s.config, y.s.config))
      && Arrived(WalkEnd(x.out, CursorOf(y.s)), x.s)
  }

  /** The bytes the receiver has taken in are exactly the first bytes written, read or still held. */
  predicate Delivered(x: End, y: End) {
    && 0 <= y.s.received <= x.s.sent && y.s.received <= |x.wrote|
    && (if y.s.discarding then y.read <= x.wrote else y.read + y.s.recv == x.wrote[..y.s.received])
  }

  predicate Acknowledged(x: End, y: End) {
    && (y.s.endReceived ==> x.s.endSent && y.s.received == x.s.sent)
    && (y.s.closeReceived ==> x.s.closeSent)
    && y.s.peerFlushSerial <= x.s.flushSerial
    && (x.s.flush.Some? && !x.s.flush.value.sent ==> y.s.peerFlushSerial < x.s.flush.value.id)
    && x.s.peerLimit <= y.s.advertisedLimit
    && (y.s.config.side == Initiator && y.s.completed.Some? ==>
          x.s.completed.Some? && y.s.completed.value.unreadResponseDiscarded == y.s.discarded)
  }

  predicate Truthful(x: End, y: End) {
    forall id | id in x.tickets && id <= x.s.flushAcked :: x.tickets[id] <= SinkOffset(y.s)
  }

  // ---------------------------------------------------------------------------------------------------------------
  // The flush token: a barrier is in flight, or held by the receiver, or on its way back, never twice
  // ---------------------------------------------------------------------------------------------------------------

  function Flushes(ch: seq<Envelope>): nat {
    if ch == [] then 0 else (if ch[0].body.Flush? then 1 else 0) + Flushes(ch[1..])
  }

  function Acks(ch: seq<Envelope>): nat {
    if ch == [] then 0 else (if ch[0].body.Flushed? then 1 else 0) + Acks(ch[1..])
  }

  function Tokens(x: End, y: End): nat {
    Flushes(x.out) + (if y.s.peerFlush.Some? then 1 else 0) + Acks(y.out)
  }

  predicate BarriersAre(barrier: Barrier, x: End, y: End) {
    && (forall i | 0 <= i < |x.out| && x.out[i].body.Flush? :: x.out[i].body.barrier == barrier)
    && (y.s.peerFlush.Some? ==> y.s.peerFlush.value == barrier)
    && (forall i | 0 <= i < |y.out| && y.out[i].body.Flushed? :: y.out[i].body.barrier == barrier)
  }

  predicate OneToken(x: End, y: End) {
    && Tokens(x, y) <= 1
    && (Live(x.s) && Live(y.s) && x.s.flush.Some? && x.s.flush.value.sent ==> Tokens(x, y) == 1)
    && (Live(x.s) && (x.s.flush.None? || !x.s.flush.value.sent) ==> Tokens(x, y) == 0)
    && (Live(x.s) && x.s.flush.Some? && x.s.flush.value.sent ==>
          BarriersAre(Barrier(x.s.flush.value.id, x.s.flush.value.offset), x, y))
    && (forall i | 0 <= i < |y.out| && y.out[i].body.Flushed? :: y.out[i].body.barrier.offset <= SinkOffset(y.s))
  }

  predicate Flow(x: End, y: End) {
    InFlight(x, y) && Delivered(x, y) && Acknowledged(x, y) && Truthful(x, y) && OneToken(x, y)
  }

  predicate Inv(p: Pair) {
    && Mirrored(p.a.s.config, p.b.s.config) && p.a.s.config.side == Initiator
    && Own(p.a) && Own(p.b)
    && Flow(p.a, p.b) && Flow(p.b, p.a)
  }
}
