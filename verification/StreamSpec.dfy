/**
 One side of an established stream as a value, and what each call of the modules under `src/stream` makes of it. The class
 `StreamMachine` runs these steps in place; the two-party theorems are about these functions.
 */
module StreamSpec {
  import opened Base
  import opened Cost
  import opened StreamProtocol
  import Io = IoClock

  datatype Side = Initiator | Endpoint

  datatype Error =
    | WouldBlock
    | InvalidConfig
    | Protocol
    | Cancelled
    | CarrierLost
    | Timeout
    | WrongState
    | WriteClosed
    | StreamClosed
    | WrongSide
    | PeerFailed(code: ErrorCode, effect: Effect)

  datatype Config = Config(
    session: seq<byte>,
    stream: int,
    side: Side,
    version: int,
    receiveLimits: Limits,
    peerLimits: Limits,
    sendBuffer: nat,
    receiveWindow: nat,
    peerReceiveWindow: nat,
    maxPayload: nat,
    coalesceDelayMs: nat,
    closeTimeoutMs: nat,
    ioTimeoutMs: nat,
    interactionBudgetMs: nat)

  /** `Config::validate`, the construction-time probe included. */
  predicate ValidConfig(c: Config) {
    && ValidLimits(c.receiveLimits) && Usable(c.receiveLimits)
    && ValidLimits(c.peerLimits) && Usable(c.peerLimits)
    && 1 <= |c.session| <= 128
    && c.stream > 0
    && 1 <= c.version <= 2
    && 1 <= c.sendBuffer <= 4 * 1024 * 1024
    && 1 <= c.receiveWindow <= 4 * 1024 * 1024
    && 1 <= c.peerReceiveWindow <= 4 * 1024 * 1024
    && 1 <= c.maxPayload <= 65536
    && c.closeTimeoutMs != 0
    && c.ioTimeoutMs <= I32_MAX
    && c.interactionBudgetMs <= 86_400_000
    && c.receiveWindow <= c.receiveLimits.receiveWindow
    && c.peerReceiveWindow <= c.peerLimits.receiveWindow
    && c.maxPayload <= Min(c.receiveLimits.dataPayload, c.peerLimits.dataPayload)
    && c.sendBuffer <= c.peerLimits.queuedBytes - c.peerLimits.controlReserveBytes
    && Admitted(ProbeOf(c), c.receiveLimits) && Admitted(ProbeOf(c), c.peerLimits)
  }

  function ProbeOf(c: Config): Envelope {
    Envelope(1, c.session, c.stream, None, Data(I64_MAX - c.maxPayload, seq(c.maxPayload, _ => 0)))
  }

  datatype PendingFlush = PendingFlush(id: int, offset: int, sent: bool)

  datatype CloseResult = CloseResult(disposition: Disposition, unreadResponseDiscarded: bool, facts: Part)

  datatype Stream = Stream(
    config: Config,
    send: seq<byte>,
    recv: seq<byte>,
    now: nat,
    io: Io.Clock,
    batchDeadline: Option<nat>,
    forceSend: bool,
    sent: int,
    received: int,
    consumed: int,
    peerLimit: int,
    advertisedLimit: int,
    endRequested: bool,
    endSent: bool,
    endReceived: bool,
    flush: Option<PendingFlush>,
    flushSerial: int,
    flushAcked: int,
    peerFlush: Option<Barrier>,
    peerFlushSerial: int,
    closeDeadline: Option<nat>,
    closeSent: bool,
    closeReceived: bool,
    discarding: bool,
    discarded: bool,
    closePending: Option<ClosedReport>,
    completed: Option<CloseResult>,
    error: Option<Error>,
    failureFacts: Option<Part>,
    retainedFailure: Option<Failure>,
    terminal: Option<Envelope>)

  function New(c: Config): Stream {
    Stream(
      c, [], [], 0, Io.New(c.ioTimeoutMs, c.interactionBudgetMs), None, false, 0, 0, 0,
      c.peerReceiveWindow, c.receiveWindow, false, false, false, None, 0, 0, None, 0,
      None, false, false, false, false, None, None, None, None, None, None)
  }

  predicate Live(s: Stream) {
    s.error.None? && s.completed.None?
  }

  /** The error a call on a finished stream returns. */
  function Ended(s: Stream): Error {
    if s.error.Some? then s.error.value else StreamClosed
  }

  function Wrap(s: Stream, body: Body): Envelope {
    Envelope(s.config.version, s.config.session, s.config.stream, None, body)
  }

  // ---------------------------------------------------------------------------------------------------------------
  // Failing
  // ---------------------------------------------------------------------------------------------------------------

  /** The notice a failing side leaves for its peer. */
  function Notice(side: Side, error: Error): Body {
    if error == Cancelled || (error == Timeout && side == Initiator) then
      Cancel(if error == Timeout then TimeoutCode else CancelledCode)
    else
      Failed(Failure(if error == Timeout then TimeoutCode else ProtocolCode, PossibleEffect, None, None, None))
  }

  function Fail(s: Stream, error: Error, notify: bool): Stream {
    if !Live(s) then s
    else
      s.(
      error := Some(error),
      send := [],
      flush := None,
      peerFlush := None,
      closePending := None,
      batchDeadline := None,
      io := Io.Stop(s.io, s.now),
      terminal := if notify then Some(Wrap(s, Notice(s.config.side, error))) else s.terminal)
  }

  /** The close deadline or the I/O clock has run out. */
  predicate Expired(s: Stream) {
    (s.closeDeadline.Some? && s.now >= s.closeDeadline.value) || Io.Due(s.io, s.now)
  }

  // ---------------------------------------------------------------------------------------------------------------
  // Application calls
  // ---------------------------------------------------------------------------------------------------------------

  function Write(s: Stream, input: seq<byte>): (Stream, Result<nat, Error>) {
    if !Live(s) then (s, Err(Ended(s)))
    else if s.endRequested then (s, Err(WriteClosed))
    else if input == [] then (s, Ok(0))
    else if s.flush.Some? then (s, Err(WouldBlock))
    else
      var count := Min(|input|, SubSat(s.config.sendBuffer, |s.send|));
      if count == 0 then (s, Err(WouldBlock))
      else if s.sent + |s.send| + count > I64_MAX then (Fail(s, Protocol, true), Err(Protocol))
      else
        (s.(
         batchDeadline := if s.send == [] then Some(AddSatU64(s.now, s.config.coalesceDelayMs)) else s.batchDeadline,
         send := s.send + input[..count]),
         Ok(count))
  }

  /** A reader makes pending output urgent. */
  function Urged(s: Stream): Stream {
    if s.send != [] then s.(forceSend := true) else s
  }

  function Consumed(s: Stream, count: nat): Stream
    requires count <= |s.recv|
  {
    s.(recv := s.recv[count..], consumed := s.consumed + count)
  }

  /** What a reader is told when no byte is held: an error is never taken for a clean end. */
  function Drained(s: Stream): Result<seq<byte>, Error> {
    if s.error.Some? then Err(s.error.value)
    else if s.discarding || s.completed.Some? then Err(StreamClosed)
    else if s.endReceived then Ok([])
    else Err(WouldBlock)
  }

  /** `room` is the length of the caller's buffer; the bytes put there are the result. */
  function Read(s: Stream, room: nat): (Stream, Result<seq<byte>, Error>) {
    if room == 0 then (s, Ok([]))
    else
      var t := Urged(s);
      if t.recv != [] then
        var count := Min(room, |t.recv|);
        (Consumed(t, count), Ok(t.recv[..count]))
      else (t, Drained(t))
  }

  function StartFlush(s: Stream): (Stream, Result<int, Error>) {
    if !Live(s) then (s, Err(Ended(s)))
    else if s.flush.Some? then (s, Ok(s.flush.value.id))
    else if s.endSent then (s, Err(WriteClosed))
    else if s.flushSerial + 1 > I64_MAX then (s, Err(Protocol))
    else
      var t := s.(flushSerial := s.flushSerial + 1);
      if t.sent + |t.send| > I64_MAX then (t, Err(Protocol))
      else
        (t.(flush := Some(PendingFlush(t.flushSerial, t.sent + |t.send|, false)), forceSend := true),
         Ok(t.flushSerial))
  }

  function FlushComplete(s: Stream, ticket: int): Result<bool, Error> {
    if s.error.Some? then Err(s.error.value) else Ok(ticket <= s.flushAcked)
  }

  function RequestEnd(s: Stream): (Stream, Result<(), Error>) {
    if !Live(s) then (s, Err(Ended(s)))
    else if s.endRequested then (s, Ok(()))
    else (s.(endRequested := true, forceSend := true), Ok(()))
  }

  function StartClose(s: Stream): (Stream, Result<(), Error>) {
    if s.completed.Some? then (s, Ok(()))
    else if s.error.Some? then (s, Err(s.error.value))
    else if s.config.side != Initiator then (s, Err(WrongSide))
    else if s.closeDeadline.Some? then (s, Ok(()))
    else
      var t := s.(
          io := Io.Stop(s.io, s.now),
          closeDeadline := Some(AddSatU64(s.now, s.config.closeTimeoutMs)),
          discarding := true,
          discarded := s.discarded || s.recv != [],
          consumed := s.consumed + |s.recv|,
          recv := []);
      RequestEnd(t)
  }

  /** Queue the exchange's final report, once the close handshake has reached the endpoint and nothing is unread. */
  function CompleteClose(s: Stream, disposition: Disposition, facts: Part, failure: Option<Failure>)
    : (Stream, Result<(), Error>)
  {
    if !Live(s) then (s, Err(Ended(s)))
    else if s.config.side != Endpoint then (s, Err(WrongSide))
    else if !s.closeReceived || !s.endSent || !s.endReceived || s.recv != [] || s.peerFlush.Some? || s.flush.Some? then
      (s, Err(WouldBlock))
    else if s.closePending.Some? then (s, Ok(()))
    else
      var report := ClosedReport(disposition, s.discarded, facts, failure);
      if !Admitted(Wrap(s, Closed(report)), s.config.peerLimits) then (s, Err(Protocol))
      else (s.(closePending := Some(report)), Ok(()))
  }

  function FailTerminal(s: Stream, failure: Failure): (Stream, Result<(), Error>) {
    if !Live(s) then (s, Err(Ended(s)))
    else if s.config.side != Endpoint then (s, Err(WrongSide))
    else
      var message := Wrap(s, Failed(failure));
      if !Admitted(message, s.config.peerLimits) then (s, Err(Protocol))
      else
        var t := Fail(s.(failureFacts := failure.facts), PeerFailed(failure.code, failure.effect), false);
        (t.(terminal := Some(message)), Ok(()))
  }

  function CancelStream(s: Stream): Stream {
    Fail(s, Cancelled, true)
  }

  function Disconnect(s: Stream): Stream {
    Fail(s, CarrierLost, false).(terminal := None)
  }

  function SetIoState(s: Stream, state: Io.IoState): (Stream, Result<(), Error>) {
    if s.config.side != Endpoint then (s, Err(WrongSide))
    else if !Live(s) then (s, Err(Ended(s)))
    else if s.closeDeadline.Some? || s.closeReceived then (s, Err(WrongState))
    else if Expired(s) then (Fail(s, Timeout, true), Err(Timeout))
    else
      var t := s.(io := Io.SetState(s.io, s.now, state));
      if s.io.state == state then (t, Ok(()))
      else if Io.Due(t.io, t.now) then (Fail(t, Timeout, true), Err(Timeout))
      else (t, Ok(()))
  }

  function RecordProgress(s: Stream, bytes: nat): (Stream, Result<(), Error>) {
    if s.config.side != Endpoint then (s, Err(WrongSide))
    else if !Live(s) then (s, Err(Ended(s)))
    else if s.closeDeadline.Some? || s.closeReceived then (s, Err(WrongState))
    else if Expired(s) then (Fail(s, Timeout, true), Err(Timeout))
    else
      match Io.Progress(s.io, s.now, bytes, s.config.ioTimeoutMs)
      case None => (s, Err(WrongState))
      case Some(io) => (s.(io := io), Ok(()))
  }

  /** Monotonic host time; a backward tick is ignored. */
  function Advance(s: Stream, now: nat): Stream {
    if now < s.now then s
    else
      var t := s.(now := now);
      if Live(t) && Expired(t) then Fail(t, Timeout, true) else t
  }

  function Earlier(a: Option<nat>, b: Option<nat>): Option<nat> {
    if a.None? then b else if b.None? then a else Some(Min(a.value, b.value))
  }

  function NextDeadline(s: Stream): Option<nat> {
    if !Live(s) then None
    else
      var batch := if s.batchDeadline.Some? && s.batchDeadline.value > s.now && !s.forceSend then s.batchDeadline else None;
      Earlier(Earlier(s.io.deadline, batch), s.closeDeadline)
  }

  // ---------------------------------------------------------------------------------------------------------------
  // Incoming messages
  // ---------------------------------------------------------------------------------------------------------------

  /** What a live stream makes of one incoming body, or nothing when the body breaks the protocol. */
  function AcceptBody(s: Stream, body: Body): Option<Stream> {
    match body
    case Data(offset, payload) =>
      var end := offset + |payload|;
      if end > I64_MAX || s.endReceived || offset != s.received || payload == [] || |payload| > s.config.maxPayload
         || end > s.advertisedLimit
      then None
      else if s.discarding then Some(s.(consumed := end, discarded := true, received := end))
      else if |s.recv| + |payload| > s.config.receiveWindow then None
      else Some(s.(recv := s.recv + payload, received := end))
    case Window(limit) =>
      if limit <= s.peerLimit then Some(s)
      else if limit > AddSat64(s.sent, s.config.peerReceiveWindow) then None
      else Some(s.(peerLimit := limit))
    case Flush(barrier) =>
      if s.peerFlush.Some? || barrier.id <= s.peerFlushSerial || barrier.offset != s.received || s.endReceived then None
      else Some(s.(peerFlushSerial := barrier.id, peerFlush := Some(barrier)))
    case Flushed(barrier) =>
      if s.flush.None? || !s.flush.value.sent || s.flush.value.id != barrier.id || s.flush.value.offset != barrier.offset
      then None
      else Some(s.(flushAcked := s.flush.value.id, flush := None))
    case EndWrite(finalOffset) =>
      if finalOffset != s.received then None else Some(s.(endReceived := true))
    case Close(finalOffset) =>
      if s.config.side != Endpoint || !s.endReceived || finalOffset != s.received then None
      else if s.closeReceived then Some(s)
      else
        Some(s.(
             closeReceived := true,
             io := Io.Stop(s.io, s.now),
             closeDeadline := Some(AddSatU64(s.now, s.config.closeTimeoutMs))))
    case Closed(report) =>
      if s.config.side != Initiator || !s.closeSent || !s.endReceived then None
      else if report.failure.Some? then
        var failure := report.failure.value;
        var t := Fail(s.(failureFacts := Some(report.facts)), PeerFailed(failure.code, failure.effect), false);
        Some(t.(retainedFailure := Some(failure)))
      else
        Some(s.(
             completed := Some(
               CloseResult(report.disposition, s.discarded || report.unreadResponseDiscarded, report.facts))))
    case Cancel(reason) =>
      Some(Fail(s, if reason.TimeoutCode? then Timeout else Cancelled, false))
    case Failed(failure) =>
      var t := Fail(s.(failureFacts := failure.facts), PeerFailed(failure.code, failure.effect), false);
      Some(t.(retainedFailure := Some(failure)))
    case Foreign(_, _) => None
  }

  predicate Addressed(s: Stream, e: Envelope) {
    e.session == s.config.session && e.stream == s.config.stream && e.version == s.config.version
  }

  function Accept(s: Stream, e: Envelope): Option<Stream> {
    if !Addressed(s, e) || !Admitted(e, s.config.receiveLimits) then None else AcceptBody(s, e.body)
  }

  function Receive(s: Stream, e: Envelope): (Stream, Result<(), Error>) {
    if !Live(s) then (s, Ok(()))
    else if Expired(s) then (Fail(s, Timeout, true), Err(Timeout))
    else
      match Accept(s, e)
      case None => (Fail(s, Protocol, true), Err(Protocol))
      case Some(t) => (t, Ok(()))
  }

  // ---------------------------------------------------------------------------------------------------------------
  // Outgoing messages
  // ---------------------------------------------------------------------------------------------------------------

  /** Forward data must be consumed by the endpoint's sink; reverse data need only reach the bounded read side. */
  function SinkOffset(s: Stream): int {
    if s.config.side == Initiator then s.received else s.consumed
  }

  predicate FlushedDue(s: Stream) {
    s.peerFlush.Some? && s.peerFlush.value.offset <= SinkOffset(s)
  }

  /** The limit that consumed bytes allow. */
  function Grant(s: Stream): int {
    AddSat64(s.consumed, s.config.receiveWindow)
  }

  predicate FlushDue(s: Stream) {
    s.flush.Some? && !s.flush.value.sent && s.sent == s.flush.value.offset
  }

  predicate Eligible(s: Stream) {
    || s.forceSend
    || |s.send| >= s.config.maxPayload
    || |s.send| == s.config.sendBuffer
    || (s.batchDeadline.Some? && s.now >= s.batchDeadline.value)
  }

  /** The unsigned cast of the remaining credit. */
  function Credit(s: Stream): nat {
    if s.peerLimit >= s.sent then s.peerLimit - s.sent else (s.peerLimit - s.sent) % (U64_MAX + 1)
  }

  predicate DataDue(s: Stream) {
    s.send != [] && Eligible(s) && Credit(s) > 0
  }

  function SendData(s: Stream): (Stream, Body)
    requires DataDue(s)
  {
    var count := Min(Min(|s.send|, s.config.maxPayload), Credit(s));
    var t := s.(send := s.send[count..], sent := s.sent + count);
    (if t.send == [] then t.(batchDeadline := None, forceSend := false) else t, Data(s.sent, s.send[..count]))
  }

  predicate EndDue(s: Stream) {
    s.endRequested && !s.endSent && s.send == []
  }

  predicate CloseDue(s: Stream) {
    s.config.side == Initiator && s.closeDeadline.Some? && s.endSent && !s.closeSent
  }

  function SendFlushed(s: Stream): (Stream, Body)
    requires FlushedDue(s)
  {
    (s.(peerFlush := None), Flushed(s.peerFlush.value))
  }

  function SendWindow(s: Stream): (Stream, Body) {
    (s.(advertisedLimit := Grant(s)), Window(Grant(s)))
  }

  function SendClosed(s: Stream): (Stream, Body)
    requires s.closePending.Some?
  {
    var report := s.closePending.value;
    (s.(
     closePending := None,
     completed := Some(CloseResult(report.disposition, report.unreadResponseDiscarded, report.facts))),
     Closed(report))
  }

  function SendFlush(s: Stream): (Stream, Body)
    requires FlushDue(s)
  {
    var flush := s.flush.value;
    (s.(flush := Some(flush.(sent := true))), Flush(Barrier(flush.id, flush.offset)))
  }

  function SendEnd(s: Stream): (Stream, Body) {
    (s.(endSent := true), EndWrite(s.sent))
  }

  function SendClose(s: Stream): (Stream, Body) {
    (s.(closeSent := true), Close(s.sent))
  }

  /** The next message of a live stream, in the fixed order of precedence, and the stream once it has left. */
  function NextBody(s: Stream): Option<(Stream, Body)> {
    if FlushedDue(s) then Some(SendFlushed(s))
    else if Grant(s) > s.advertisedLimit then Some(SendWindow(s))
    else if s.closePending.Some? then Some(SendClosed(s))
    else if FlushDue(s) then Some(SendFlush(s))
    else if DataDue(s) then Some(SendData(s))
    else if EndDue(s) then Some(SendEnd(s))
    else if CloseDue(s) then Some(SendClose(s))
    else None
  }

  function NextMessage(s: Stream): (Stream, Option<Envelope>) {
    if s.terminal.Some? then (s.(terminal := None), s.terminal)
    else if !Live(s) then (s, None)
    else
      match NextBody(s)
      case None => (s, None)
      case Some(next) => (next.0, Some(Wrap(s, next.1)))
  }
}
