/** The stream machine as the source has it: one object that every call updates in place. */
module StreamMachine {
  import opened Base
  import opened StreamProtocol
  import opened StreamSpec
  import opened IoClockMachine
  import Io = IoClock

  // The machine's fields, by what they serve.

  datatype Sending = Sending(
    buffer: seq<byte>, batchDeadline: Option<nat>, force: bool, sent: int, peerLimit: int,
    endRequested: bool, endSent: bool, flush: Option<PendingFlush>, flushSerial: int, flushAcked: int)

  datatype Receiving = Receiving(
    buffer: seq<byte>, received: int, consumed: int, advertisedLimit: int, endReceived: bool,
    flush: Option<Barrier>, flushSerial: int, discarding: bool, discarded: bool)

  datatype Closing = Closing(deadline: Option<nat>, sent: bool, received: bool, pending: Option<ClosedReport>)

  datatype Outcome = Outcome(
    completed: Option<CloseResult>, error: Option<Error>, facts: Option<Part>, retained: Option<Failure>,
    terminal: Option<Envelope>)

  /** A stream is opened on exactly the configurations that are valid. */
  method Open(c: Config) returns (r: Result<Machine, Error>)
    ensures if ValidConfig(c) then r.Ok? && fresh(r.value) && fresh(r.value.io) && r.value.State() == New(c)
            else r == Err(InvalidConfig)
  {
    hide ValidConfig;
    if !ValidConfig(c) {
      return Err(InvalidConfig);
    }
    var m := new Machine(c);
    return Ok(m);
  }

  class Machine {
    const config: Config
    const io: IoClockCell
    var now: nat
    var sending: Sending
    var receiving: Receiving
    var closing: Closing
    var outcome: Outcome

    /** The machine as a value. */
    ghost function State(): Stream
      reads this, io
    {
      Stream(
        config, sending.buffer, receiving.buffer, now, io.Value(), sending.batchDeadline, sending.force,
        sending.sent, receiving.received, receiving.consumed, sending.peerLimit, receiving.advertisedLimit,
        sending.endRequested, sending.endSent, receiving.endReceived, sending.flush, sending.flushSerial, sending.flushAcked,
        receiving.flush, receiving.flushSerial, closing.deadline, closing.sent, closing.received,
        receiving.discarding, receiving.discarded, closing.pending, outcome.completed, outcome.error, outcome.facts,
        outcome.retained, outcome.terminal)
    }

    constructor (c: Config)
      ensures State() == New(c) && fresh(io)
    {
      config := c;
      io := new IoClockCell(c.ioTimeoutMs, c.interactionBudgetMs);
      now := 0;
      sending := Sending([], None, false, 0, c.peerReceiveWindow, false, false, None, 0, 0);
      receiving := Receiving([], 0, 0, c.receiveWindow, false, None, 0, false, false);
      closing := Closing(None, false, false, None);
      outcome := Outcome(None, None, None, None, None);
    }

    function Standing(): (r: Option<Error>)
      reads this
    {
      if outcome.error.Some? then outcome.error else if outcome.completed.Some? then Some(StreamClosed) else None
    }

    function Envelop(body: Body): Envelope {
      Envelope(config.version, config.session, config.stream, None, body)
    }

    // -------------------------------------------------------------------------------------------------------------
    // Failing
    // -------------------------------------------------------------------------------------------------------------

    method FailWith(cause: Error, notify: bool)
      modifies this, io
      ensures State() == Fail(old(State()), cause, notify)
    {
      hide Notice, Io.Stop;
      if outcome.error.Some? || outcome.completed.Some? {
        return;
      }
      Silence(cause);
      if notify {
        var message := LastWord(cause);
        outcome := outcome.(terminal := Some(message));
      }
    }

    /** Drop everything still to be sent or acknowledged. */
    method Silence(cause: Error)
      requires Live(State())
      modifies this, io
      ensures State() == Fail(old(State()), cause, false)
    {
      hide Io.Stop, Fail;
      FailQuietly(State(), cause);
      io.Halt(now);
      outcome := outcome.(error := Some(cause));
      assert State() == old(State()).(error := Some(cause), io := Io.Stop(old(State()).io, old(now)));
      DropPending();
    }

    static lemma FailQuietly(s: Stream, cause: Error)
      requires Live(s)
      ensures Fail(s, cause, false) == s.(
                error := Some(cause), io := Io.Stop(s.io, s.now),
                send := [], flush := None, batchDeadline := None, peerFlush := None, closePending := None)
    {
      hide Io.Stop, Notice, Wrap;
    }

    method DropPending()
      modifies this`sending, this`receiving, this`closing
      ensures State() == old(State()).(
                           send := [], flush := None, batchDeadline := None, peerFlush := None, closePending := None)
    {
      sending := sending.(buffer := [], flush := None, batchDeadline := None);
      receiving := receiving.(flush := None);
      closing := closing.(pending := None);
    }

    /** The notice that a failing side leaves for its peer. */
    method LastWord(cause: Error) returns (message: Envelope)
      ensures message == Wrap(State(), Notice(config.side, cause))
    {
      if ((cause == Cancelled || cause == Timeout) && config.side == Initiator) || cause == Cancelled {
        return Envelop(Cancel(if cause == Timeout then TimeoutCode else CancelledCode));
      }
      var code := if cause == Timeout then TimeoutCode else ProtocolCode;
      return Envelop(Failed(Failure(code, PossibleEffect, None, None, None)));
    }

    /** A close or I/O deadline that has passed fails the stream. */
    method ExpireIfDue() returns (expired: bool)
      modifies this, io
      ensures expired == Expired(old(State()))
      ensures State() == if expired then Fail(old(State()), Timeout, true) else old(State())
    {
      hide Fail;
      expired := (closing.deadline.Some? && now >= closing.deadline.value) || Io.Due(io.Value(), now);
      if expired {
        FailWith(Timeout, true);
      }
    }

    // -------------------------------------------------------------------------------------------------------------
    // Application calls
    // -------------------------------------------------------------------------------------------------------------

    method WriteBytes(input: seq<byte>) returns (r: Result<nat, Error>)
      modifies this, io
      ensures (State(), r) == Write(old(State()), input)
    {
      hide Fail;
      if Standing().Some? {
        return Err(Standing().value);
      }
      if sending.endRequested {
        return Err(WriteClosed);
      }
      if input == [] {
        return Ok(0);
      }
      if sending.flush.Some? {
        return Err(WouldBlock);
      }
      var count := Min(|input|, SubSat(config.sendBuffer, |sending.buffer|));
      if count == 0 {
        return Err(WouldBlock);
      }
      if sending.sent + |sending.buffer| + count > I64_MAX {
        FailWith(Protocol, true);
        return Err(Protocol);
      }
      if sending.buffer == [] {
        sending := sending.(batchDeadline := Some(AddSatU64(now, config.coalesceDelayMs)));
      }
      sending := sending.(buffer := sending.buffer + input[..count]);
      return Ok(count);
    }

    method ReadBytes(output: array<byte>) returns (r: Result<nat, Error>)
      modifies this, output
      ensures State() == Read(old(State()), output.Length).0
      ensures match Read(old(State()), output.Length).1
              case Ok(bytes) =>
                && r == Ok(|bytes|) && |bytes| <= output.Length
                && output[..|bytes|] == bytes && output[|bytes|..] == old(output[|bytes|..])
              case Err(e) => r == Err(e) && output[..] == old(output[..])
    {
      if output.Length == 0 {
        return Ok(0);
      }
      MarkUrgent();
      if receiving.buffer != [] {
        var count := Min(output.Length, |receiving.buffer|);
        PopInto(output, count);
        return Ok(count);
      }
      if outcome.error.Some? {
        return Err(outcome.error.value);
      }
      if receiving.discarding || outcome.completed.Some? {
        return Err(StreamClosed);
      }
      if receiving.endReceived {
        return Ok(0);
      }
      return Err(WouldBlock);
    }

    /** A reader makes pending output urgent. */
    method MarkUrgent()
      modifies this`sending
      ensures State() == if old(sending).buffer != [] then old(State()).(forceSend := true) else old(State())
    {
      if sending.buffer != [] && !sending.force {
        sending := sending.(force := true);
      }
    }

    /** Move the oldest `count` received bytes to the caller's buffer, one at a time. */
    method PopInto(output: array<byte>, count: nat)
      requires count <= output.Length && count <= |receiving.buffer|
      modifies this`receiving, output
      ensures output[..count] == old(receiving).buffer[..count] && output[count..] == old(output[count..])
      ensures State() == old(State()).(
                           recv := old(receiving).buffer[count..],
                           consumed := old(receiving).consumed + count)
    {
      PopEach(output, count);
      receiving := receiving.(consumed := receiving.consumed + count);
    }

    method PopEach(output: array<byte>, count: nat)
      requires count <= output.Length && count <= |receiving.buffer|
      modifies this`receiving, output
      ensures output[..count] == old(receiving).buffer[..count] && output[count..] == old(output[count..])
      ensures receiving == old(receiving).(buffer := old(receiving).buffer[count..])
    {
      for i := 0 to count
        invariant output[..i] == old(receiving).buffer[..i] && output[i..] == old(output[i..])
        invariant receiving == old(receiving).(buffer := old(receiving).buffer[i..])
      {
        output[i] := receiving.buffer[0];
        receiving := receiving.(buffer := receiving.buffer[1..]);
      }
    }

    method BeginFlush() returns (r: Result<int, Error>)
      modifies this
      ensures (State(), r) == StartFlush(old(State()))
    {
      if Standing().Some? {
        return Err(Standing().value);
      }
      if sending.flush.Some? {
        return Ok(sending.flush.value.id);
      }
      if sending.endSent {
        return Err(WriteClosed);
      }
      if sending.flushSerial + 1 > I64_MAX {
        return Err(Protocol);
      }
      sending := sending.(flushSerial := sending.flushSerial + 1);
      var offset := sending.sent + |sending.buffer|;
      if offset > I64_MAX {
        return Err(Protocol);
      }
      sending := sending.(flush := Some(PendingFlush(sending.flushSerial, offset, false)), force := true);
      return Ok(sending.flushSerial);
    }

    method EndWriting() returns (r: Result<(), Error>)
      modifies this
      ensures (State(), r) == RequestEnd(old(State()))
    {
      if Standing().Some? {
        return Err(Standing().value);
      }
      if !sending.endRequested {
        sending := sending.(endRequested := true, force := true);
      }
      return Ok(());
    }

    method BeginClose() returns (r: Result<(), Error>)
      modifies this, io
      ensures (State(), r) == StartClose(old(State()))
    {
      hide Io.Stop, RequestEnd;
      if outcome.completed.Some? {
        return Ok(());
      }
      if outcome.error.Some? {
        return Err(outcome.error.value);
      }
      if config.side != Initiator {
        return Err(WrongSide);
      }
      if closing.deadline.Some? {
        return Ok(());
      }
      io.Halt(now);
      closing := closing.(deadline := Some(AddSatU64(now, config.closeTimeoutMs)));
      receiving := receiving.(
        discarding := true,
        discarded := receiving.discarded || receiving.buffer != [],
        consumed := receiving.consumed + |receiving.buffer|,
        buffer := []);
      r := EndWriting();
    }

    method FinishClose(disposition: Disposition, facts: Part, failure: Option<Failure>) returns (r: Result<(), Error>)
      modifies this
      ensures (State(), r) == CompleteClose(old(State()), disposition, facts, failure)
    {
      hide Admitted;
      if Standing().Some? {
        return Err(Standing().value);
      }
      if config.side != Endpoint {
        return Err(WrongSide);
      }
      if !closing.received || !sending.endSent || !receiving.endReceived || receiving.buffer != []
         || receiving.flush.Some? || sending.flush.Some?
      {
        return Err(WouldBlock);
      }
      if closing.pending.None? {
        var report := ClosedReport(disposition, receiving.discarded, facts, failure);
        if !Admitted(Envelop(Closed(report)), config.peerLimits) {
          return Err(Protocol);
        }
        closing := closing.(pending := Some(report));
      }
      return Ok(());
    }

    method EndWithFailure(failure: Failure) returns (r: Result<(), Error>)
      modifies this, io
      ensures (State(), r) == FailTerminal(old(State()), failure)
    {
      hide Admitted, Fail;
      if Standing().Some? {
        return Err(Standing().value);
      }
      if config.side != Endpoint {
        return Err(WrongSide);
      }
      var message := Envelop(Failed(failure));
      if !Admitted(message, config.peerLimits) {
        return Err(Protocol);
      }
      outcome := outcome.(facts := failure.facts);
      assert State() == old(State()).(failureFacts := failure.facts);
      FailWith(PeerFailed(failure.code, failure.effect), false);
      outcome := outcome.(terminal := Some(message));
      return Ok(());
    }

    method CancelNow()
      modifies this, io
      ensures State() == CancelStream(old(State()))
    {
      hide Fail;
      FailWith(Cancelled, true);
    }

    method LoseCarrier()
      modifies this, io
      ensures State() == Disconnect(old(State()))
    {
      hide Fail;
      FailWith(CarrierLost, false);
      outcome := outcome.(terminal := None);
    }

    method ReportIo(state: Io.IoState) returns (r: Result<(), Error>)
      modifies this, io
      ensures (State(), r) == SetIoState(old(State()), state)
    {
      hide Fail, Expired, Io.SetState;
      if config.side != Endpoint {
        return Err(WrongSide);
      }
      if Standing().Some? {
        return Err(Standing().value);
      }
      if closing.deadline.Some? || closing.received {
        return Err(WrongState);
      }
      var expired := ExpireIfDue();
      if expired {
        return Err(Timeout);
      }
      var before := io.state;
      io.Enter(now, state);
      if before == state {
        return Ok(());
      }
      if Io.Due(io.Value(), now) {
        FailWith(Timeout, true);
        return Err(Timeout);
      }
      return Ok(());
    }

    method ReportProgress(bytes: nat) returns (r: Result<(), Error>)
      modifies this, io
      ensures (State(), r) == RecordProgress(old(State()), bytes)
    {
      hide Fail, Expired, Io.Progress;
      if config.side != Endpoint {
        return Err(WrongSide);
      }
      if Standing().Some? {
        return Err(Standing().value);
      }
      if closing.deadline.Some? || closing.received {
        return Err(WrongState);
      }
      var expired := ExpireIfDue();
      if expired {
        return Err(Timeout);
      }
      var ok := io.Advanced(now, bytes, config.ioTimeoutMs);
      if !ok {
        return Err(WrongState);
      }
      return Ok(());
    }

    method Tick(at: nat)
      modifies this, io
      ensures State() == Advance(old(State()), at)
    {
      hide Fail, Expired;
      if at < now {
        return;
      }
      now := at;
      assert State() == old(State()).(now := at);
      if outcome.error.Some? || outcome.completed.Some? {
        return;
      }
      var _ := ExpireIfDue();
    }

    /** The earliest instant at which time alone changes something. */
    method Deadline() returns (r: Option<nat>)
      ensures r == NextDeadline(State())
    {
      if Standing().Some? {
        return None;
      }
      r := io.deadline;
      if sending.batchDeadline.Some? && sending.batchDeadline.value > now && !sending.force {
        r := Earlier(r, sending.batchDeadline);
      }
      r := Earlier(r, closing.deadline);
    }

    // -------------------------------------------------------------------------------------------------------------
    // Incoming messages
    // -------------------------------------------------------------------------------------------------------------

    method ReceiveMessage(message: Envelope) returns (r: Result<(), Error>)
      modifies this, io
      ensures (State(), r) == Receive(old(State()), message)
    {
      hide Fail, Expired, Addressed, Admitted, AcceptBody;
      if Standing().Some? {
        return Ok(());
      }
      var expired := ExpireIfDue();
      if expired {
        return Err(Timeout);
      }
      var ok := AcceptMessage(message);
      if !ok {
        FailWith(Protocol, true);
        return Err(Protocol);
      }
      return Ok(());
    }

    method AcceptMessage(message: Envelope) returns (ok: bool)
      requires Live(State())
      modifies this, io
      ensures ok <==> Accept(old(State()), message).Some?
      ensures State() == if ok then Accept(old(State()), message).value else old(State())
    {
      hide Admitted, AcceptBody;
      if message.session != config.session || message.stream != config.stream || message.version != config.version {
        return false;
      }
      if !Admitted(message, config.receiveLimits) {
        return false;
      }
      match message.body {
        case Data(offset, payload) => ok := OnData(offset, payload);
        case Window(limit) => ok := OnWindow(limit);
        case Flush(barrier) => ok := OnFlush(barrier);
        case Flushed(barrier) => ok := OnFlushed(barrier);
        case EndWrite(finalOffset) => ok := OnEndWrite(finalOffset);
        case Close(finalOffset) => ok := OnClose(finalOffset);
        case Closed(report) => ok := OnClosed(report);
        case Cancel(reason) => OnCancel(reason); ok := true;
        case Failed(failure) => OnFailed(failure); ok := true;
        case Foreign(field, part) =>
          OnForeign(State(), field, part);
          ok := false;
      }
    }

    static lemma OnForeign(s: Stream, field: int, part: Part)
      ensures AcceptBody(s, Foreign(field, part)).None?
    {
    }

    method OnData(offset: int, payload: seq<byte>) returns (ok: bool)
      modifies this
      ensures ok <==> AcceptBody(old(State()), Data(offset, payload)).Some?
      ensures State() == if ok then AcceptBody(old(State()), Data(offset, payload)).value else old(State())
    {
      var end := offset + |payload|;
      if end > I64_MAX || receiving.endReceived || offset != receiving.received || payload == []
         || |payload| > config.maxPayload || end > receiving.advertisedLimit
      {
        return false;
      }
      if receiving.discarding {
        receiving := receiving.(consumed := end, discarded := true);
      } else {
        if |receiving.buffer| + |payload| > config.receiveWindow {
          return false;
        }
        receiving := receiving.(buffer := receiving.buffer + payload);
      }
      receiving := receiving.(received := end);
      return true;
    }

    method OnWindow(limit: int) returns (ok: bool)
      modifies this
      ensures ok <==> AcceptBody(old(State()), Window(limit)).Some?
      ensures State() == if ok then AcceptBody(old(State()), Window(limit)).value else old(State())
    {
      if limit <= sending.peerLimit {
        return true;
      }
      if limit > AddSat64(sending.sent, config.peerReceiveWindow) {
        return false;
      }
      sending := sending.(peerLimit := limit);
      return true;
    }

    method OnFlush(barrier: Barrier) returns (ok: bool)
      modifies this
      ensures ok <==> AcceptBody(old(State()), Flush(barrier)).Some?
      ensures State() == if ok then AcceptBody(old(State()), Flush(barrier)).value else old(State())
    {
      if receiving.flush.Some? || barrier.id <= receiving.flushSerial || barrier.offset != receiving.received
         || receiving.endReceived
      {
        return false;
      }
      receiving := receiving.(flushSerial := barrier.id, flush := Some(barrier));
      return true;
    }

    method OnFlushed(barrier: Barrier) returns (ok: bool)
      modifies this
      ensures ok <==> AcceptBody(old(State()), Flushed(barrier)).Some?
      ensures State() == if ok then AcceptBody(old(State()), Flushed(barrier)).value else old(State())
    {
      if sending.flush.None? {
        return false;
      }
      var pending := sending.flush.value;
      if !pending.sent || pending.id != barrier.id || pending.offset != barrier.offset {
        return false;
      }
      sending := sending.(flushAcked := pending.id, flush := None);
      return true;
    }

    method OnEndWrite(finalOffset: int) returns (ok: bool)
      modifies this
      ensures ok <==> AcceptBody(old(State()), EndWrite(finalOffset)).Some?
      ensures State() == if ok then AcceptBody(old(State()), EndWrite(finalOffset)).value else old(State())
    {
      if finalOffset != receiving.received {
        return false;
      }
      receiving := receiving.(endReceived := true);
      return true;
    }

    method OnClose(finalOffset: int) returns (ok: bool)
      modifies this, io
      ensures ok <==> AcceptBody(old(State()), Close(finalOffset)).Some?
      ensures State() == if ok then AcceptBody(old(State()), Close(finalOffset)).value else old(State())
    {
      hide Io.Stop;
      if config.side != Endpoint || !receiving.endReceived || finalOffset != receiving.received {
        return false;
      }
      if !closing.received {
        closing := closing.(received := true, deadline := Some(AddSatU64(now, config.closeTimeoutMs)));
        io.Halt(now);
      }
      return true;
    }

    method OnClosed(report: ClosedReport) returns (ok: bool)
      modifies this, io
      ensures ok <==> AcceptBody(old(State()), Closed(report)).Some?
      ensures State() == if ok then AcceptBody(old(State()), Closed(report)).value else old(State())
    {
      hide Fail;
      if config.side != Initiator || !closing.sent || !receiving.endReceived {
        return false;
      }
      match report.failure {
        case Some(failure) =>
          FailAs(failure, Some(report.facts));
        case None =>
          var unread := receiving.discarded || report.unreadResponseDiscarded;
          outcome := outcome.(completed := Some(CloseResult(report.disposition, unread, report.facts)));
      }
      return true;
    }

    method OnCancel(reason: ErrorCode)
      modifies this, io
      ensures AcceptBody(old(State()), Cancel(reason)) == Some(State())
    {
      hide Fail;
      FailWith(if reason.TimeoutCode? then Timeout else Cancelled, false);
    }

    method OnFailed(failure: Failure)
      modifies this, io
      ensures AcceptBody(old(State()), Failed(failure)) == Some(State())
    {
      hide Fail;
      FailAs(failure, failure.facts);
    }

    /** Fail as the peer did, keeping its failure and the evidence that came with it. */
    method FailAs(failure: Failure, facts: Option<Part>)
      modifies this, io
      ensures State() == Fail(old(State()).(failureFacts := facts), PeerFailed(failure.code, failure.effect), false).(
                           retainedFailure := Some(failure))
    {
      hide Fail;
      outcome := outcome.(facts := facts);
      assert State() == old(State()).(failureFacts := facts);
      FailWith(PeerFailed(failure.code, failure.effect), false);
      outcome := outcome.(retained := Some(failure));
    }

    // -------------------------------------------------------------------------------------------------------------
    // Outgoing messages
    // -------------------------------------------------------------------------------------------------------------

    method TakeMessage() returns (message: Option<Envelope>)
      modifies this
      ensures (State(), message) == NextMessage(old(State()))
    {
      hide NextBody;
      if outcome.terminal.Some? {
        message := outcome.terminal;
        outcome := outcome.(terminal := None);
        return;
      }
      if Standing().Some? {
        return None;
      }
      var body := TakeBody();
      if body.None? {
        return None;
      }
      return Some(Envelop(body.value));
    }

    /** The first message that is due, in the fixed order of precedence. */
    method TakeBody() returns (body: Option<Body>)
      modifies this
      ensures match NextBody(old(State()))
              case None => State() == old(State()) && body.None?
              case Some(next) => State() == next.0 && body == Some(next.1)
    {
      hide SendFlushed, SendWindow, SendClosed, SendFlush, SendData, SendEnd, SendClose;
      hide FlushedDue, FlushDue, DataDue, EndDue, CloseDue;
      ghost var s := State();
      var emitted;
      var flushed, limit, flush := AckDue(), AddSat64(receiving.consumed, config.receiveWindow), BarrierDue();
      var credit := CreditDue();
      if flushed {
        emitted := EmitFlushed();
      } else if limit > receiving.advertisedLimit {
        emitted := EmitWindow();
      } else if closing.pending.Some? {
        emitted := EmitClosed();
      } else if flush {
        emitted := EmitFlush();
      } else if credit > 0 {
        emitted := EmitData(credit);
      } else if EndingDue() {
        emitted := EmitEnd();
      } else if ClosingDue() {
        emitted := EmitClose();
      } else {
        return None;
      }
      return Some(emitted);
    }

    function AckDue(): (r: bool)
      reads this, io
      ensures r == FlushedDue(State())
    {
      var sink := if config.side == Initiator then receiving.received else receiving.consumed;
      receiving.flush.Some? && receiving.flush.value.offset <= sink
    }

    function BarrierDue(): (r: bool)
      reads this, io
      ensures r == FlushDue(State())
    {
      sending.flush.Some? && !sending.flush.value.sent && sending.sent == sending.flush.value.offset
    }

    /** The credit that eligible bytes may use: none when nothing may leave. */
    function CreditDue(): (r: nat)
      reads this, io
      ensures r > 0 <==> DataDue(State())
      ensures r > 0 ==> r == Credit(State())
    {
      var eligible := sending.force || |sending.buffer| >= config.maxPayload || |sending.buffer| == config.sendBuffer
                      || (sending.batchDeadline.Some? && now >= sending.batchDeadline.value);
      var left := sending.peerLimit - sending.sent;
      if sending.buffer == [] || !eligible then 0 else if left >= 0 then left else left % (U64_MAX + 1)
    }

    function EndingDue(): (r: bool)
      reads this, io
      ensures r == EndDue(State())
    {
      sending.endRequested && !sending.endSent && sending.buffer == []
    }

    function ClosingDue(): (r: bool)
      reads this, io
      ensures r == CloseDue(State())
    {
      config.side == Initiator && closing.deadline.Some? && sending.endSent && !closing.sent
    }

    method EmitFlushed() returns (body: Body)
      requires FlushedDue(State())
      modifies this
      ensures (State(), body) == SendFlushed(old(State()))
    {
      body := Flushed(receiving.flush.value);
      receiving := receiving.(flush := None);
    }

    method EmitWindow() returns (body: Body)
      modifies this
      ensures (State(), body) == SendWindow(old(State()))
    {
      var limit := AddSat64(receiving.consumed, config.receiveWindow);
      receiving := receiving.(advertisedLimit := limit);
      return Window(limit);
    }

    method EmitClosed() returns (body: Body)
      requires State().closePending.Some?
      modifies this
      ensures (State(), body) == SendClosed(old(State()))
    {
      var report := closing.pending.value;
      closing := closing.(pending := None);
      outcome := outcome.(
        completed := Some(CloseResult(report.disposition, report.unreadResponseDiscarded, report.facts)));
      return Closed(report);
    }

    method EmitFlush() returns (body: Body)
      requires FlushDue(State())
      modifies this
      ensures (State(), body) == SendFlush(old(State()))
    {
      var flush := sending.flush.value;
      sending := sending.(flush := Some(flush.(sent := true)));
      return Flush(Barrier(flush.id, flush.offset));
    }

    method EmitData(credit: nat) returns (body: Body)
      requires DataDue(State()) && credit == Credit(State())
      modifies this
      ensures (State(), body) == SendData(old(State()))
    {
      var count := Min(Min(|sending.buffer|, config.maxPayload), credit);
      body := Data(sending.sent, sending.buffer[..count]);
      var rest := sending.buffer[count..];
      var idle := rest == [];
      sending := sending.(
        buffer := rest,
        sent := sending.sent + count,
        batchDeadline := if idle then None else sending.batchDeadline,
        force := !idle && sending.force);
    }

    method EmitEnd() returns (body: Body)
      modifies this
      ensures (State(), body) == SendEnd(old(State()))
    {
      sending := sending.(endSent := true);
      return EndWrite(sending.sent);
    }

    method EmitClose() returns (body: Body)
      modifies this
      ensures (State(), body) == SendClose(old(State()))
    {
      closing := closing.(sent := true);
      return Close(sending.sent);
    }
  }
}
