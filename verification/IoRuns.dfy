/** The I/O clock through the stream machine: what its allowances mean over every run of one side. */
module IoRuns {
  import opened Base
  import opened StreamProtocol
  import opened StreamSpec
  import opened StreamPair
  import Io = IoClock

  datatype Input = Do(op: Op) | Hear(message: Envelope)

  /** One step of one machine; its messages may be anything at all. */
  function Apply(s: Stream, i: Input): Stream {
    match i
    case Hear(e) => Receive(s, e).0
    case Do(op) =>
      match op
      case DoWrite(input) => Write(s, input).0
      case DoRead(room) => Read(s, room).0
      case DoStartFlush => StartFlush(s).0
      case Take => NextMessage(s).0
      case _ => Call(s, op)
  }

  /** Reported progress that the machine took. */
  predicate Progressed(s: Stream, i: Input) {
    i.Do? && i.op.DoRecordProgress? && i.op.bytes > 0 && RecordProgress(s, i.op.bytes).1.Ok?
  }

  /** A machine with the time it has spent in Interaction, and in Network since the last progress. */
  datatype Timed = Timed(s: Stream, interacted: int, networked: int)

  function Observe(t: Timed, i: Input): Timed {
    var s := Apply(t.s, i);
    var elapsed := s.now - t.s.now;
    Timed(
      s,
      t.interacted + (if t.s.io.state == Io.Interaction then elapsed else 0),
      if Progressed(t.s, i) then 0 else t.networked + (if t.s.io.state == Io.Network then elapsed else 0))
  }

  function Watch(t: Timed, inputs: seq<Input>): Timed {
    if inputs == [] then t else Observe(Watch(t, inputs[..|inputs| - 1]), inputs[|inputs| - 1])
  }

  /** The host's clock is still far enough from its last value that no deadline saturates. */
  predicate InTime(s: Stream) {
    s.now + s.config.ioTimeoutMs <= U64_MAX && s.now + s.config.interactionBudgetMs <= U64_MAX
  }

  /** Time spent and time left add up, a running allowance is exactly its deadline, and it has not run out. */
  predicate Accounts(t: Timed) {
    var c, left := t.s.config, Io.StatusAt(t.s.io, t.s.now);
    && left.interaction + t.interacted == c.interactionBudgetMs
    && (c.ioTimeoutMs > 0 ==> left.network + t.networked == c.ioTimeoutMs && left.network > 0)
    && (c.ioTimeoutMs == 0 ==> left.network == 0)
    && 0 <= t.networked && 0 <= t.interacted
    && (match left.state
        case Network => left.deadline == if c.ioTimeoutMs > 0 then Some(t.s.now + left.network) else None
        case Interaction => left.deadline == Some(t.s.now + left.interaction) && left.interaction > 0
        case _ => left.deadline.None?)
  }

  predicate Kept(t: Timed) {
    InTime(t.s) && Live(t.s) ==> Accounts(t)
  }

  // ---------------------------------------------------------------------------------------------------------------
  // Steps that leave the clock alone, or only stop it
  // ---------------------------------------------------------------------------------------------------------------

  predicate Untimed(s: Stream, t: Stream) {
    && t.now == s.now
    && t.config.ioTimeoutMs == s.config.ioTimeoutMs && t.config.interactionBudgetMs == s.config.interactionBudgetMs
    && (Live(t) ==> Live(s) && (t.io == s.io || t.io == Io.Stop(s.io, s.now)))
  }

  lemma UntimedAccounts(t: Timed, s: Stream)
    requires Kept(t) && Untimed(t.s, s)
    ensures Kept(t.(s := s))
  {
  }

  lemma FailUntimed(s: Stream, error: Error, notify: bool)
    ensures Untimed(s, Fail(s, error, notify))
  {
    hide Io.Stop, Wrap, Notice;
    var t := Fail(s, error, notify);
    if Live(s) {
      assert t.error.Some?;
    } else {
      assert t == s;
    }
  }

  lemma WriteUntimed(s: Stream, input: seq<byte>)
    ensures Untimed(s, Write(s, input).0)
  {
    hide Fail, Io.Stop;
    FailUntimed(s, Protocol, true);
  }

  lemma UrgedUntimed(s: Stream)
    ensures Untimed(s, Urged(s))
  {
    hide Io.Stop;
    if s.send != [] {
      assert Urged(s) == s.(forceSend := true);
    }
  }

  lemma ConsumedUntimed(s: Stream, t: Stream, count: nat)
    requires Untimed(s, t) && count <= |t.recv|
    ensures Untimed(s, Consumed(t, count))
  {
    hide Io.Stop;
  }

  lemma ReadUntimed(s: Stream, room: nat)
    ensures Untimed(s, Read(s, room).0)
  {
    hide Untimed, Urged, Consumed, Drained;
    SameUntimed(s);
    UrgedUntimed(s);
    var t := Urged(s);
    if t.recv != [] {
      ConsumedUntimed(s, t, Min(room, |t.recv|));
    }
  }

  lemma SameUntimed(s: Stream)
    ensures Untimed(s, s)
  {
  }

  lemma FlushUntimed(s: Stream)
    ensures Untimed(s, StartFlush(s).0)
  {
    hide Io.Stop;
  }

  lemma EndUntimed(s: Stream)
    ensures Untimed(s, RequestEnd(s).0)
  {
    hide Io.Stop;
  }

  lemma CloseUntimed(s: Stream)
    ensures Untimed(s, StartClose(s).0)
  {
    hide Io.Stop;
  }

  lemma ReportUntimed(s: Stream, disposition: Disposition, facts: Part, failure: Option<Failure>)
    ensures Untimed(s, CompleteClose(s, disposition, facts, failure).0)
  {
    hide Io.Stop, Admitted;
  }

  lemma FailureUntimed(s: Stream, failure: Failure)
    ensures Untimed(s, FailTerminal(s, failure).0)
  {
    hide Fail, Admitted, Io.Stop;
    FailUntimed(s.(failureFacts := failure.facts), PeerFailed(failure.code, failure.effect), false);
  }

  lemma DisconnectUntimed(s: Stream)
    ensures Untimed(s, Disconnect(s))
  {
    hide Fail, Io.Stop;
    FailUntimed(s, CarrierLost, false);
  }

  // ---------------------------------------------------------------------------------------------------------------
  // Messages
  // ---------------------------------------------------------------------------------------------------------------

  lemma DataUntimed(s: Stream, body: Body)
    requires body.Data? && AcceptBody(s, body).Some?
    ensures Untimed(s, AcceptBody(s, body).value)
  {
    hide Io.Stop;
  }

  lemma WindowUntimed(s: Stream, body: Body)
    requires body.Window? && AcceptBody(s, body).Some?
    ensures Untimed(s, AcceptBody(s, body).value)
  {
    hide Io.Stop;
    if body.maxOffset <= s.peerLimit {
      assert AcceptBody(s, body) == Some(s);
    } else {
      assert AcceptBody(s, body) == Some(s.(peerLimit := body.maxOffset));
    }
  }

  lemma BarrierUntimed(s: Stream, body: Body)
    requires (body.Flush? || body.Flushed?) && AcceptBody(s, body).Some?
    ensures Untimed(s, AcceptBody(s, body).value)
  {
    hide Io.Stop;
  }

  lemma EndBodyUntimed(s: Stream, body: Body)
    requires (body.EndWrite? || body.Close?) && AcceptBody(s, body).Some?
    ensures Untimed(s, AcceptBody(s, body).value)
  {
    hide Io.Stop;
  }

  lemma EndingUntimed(s: Stream, body: Body)
    requires (body.Closed? || body.Cancel? || body.Failed?) && AcceptBody(s, body).Some?
    ensures Untimed(s, AcceptBody(s, body).value)
  {
    hide Fail, Io.Stop;
    match body
    case Closed(report) =>
      if report.failure.Some? {
        var f := report.failure.value;
        FailUntimed(s.(failureFacts := Some(report.facts)), PeerFailed(f.code, f.effect), false);
      }
    case Cancel(reason) => FailUntimed(s, if reason.TimeoutCode? then Timeout else Cancelled, false);
    case Failed(f) => FailUntimed(s.(failureFacts := f.facts), PeerFailed(f.code, f.effect), false);
  }

  lemma AcceptUntimed(s: Stream, body: Body)
    requires AcceptBody(s, body).Some?
    ensures Untimed(s, AcceptBody(s, body).value)
  {
    hide AcceptBody, Untimed;
    NotForeign(s, body);
    if body.Data? {
      DataUntimed(s, body);
    } else if body.Window? {
      WindowUntimed(s, body);
    } else if body.Flush? || body.Flushed? {
      BarrierUntimed(s, body);
    } else if body.EndWrite? || body.Close? {
      EndBodyUntimed(s, body);
    } else {
      EndingUntimed(s, body);
    }
  }

  lemma NotForeign(s: Stream, body: Body)
    requires AcceptBody(s, body).Some?
    ensures !body.Foreign?
  {
    hide Fail;
  }

  lemma ReceiveUntimed(s: Stream, e: Envelope)
    ensures Untimed(s, Receive(s, e).0)
  {
    hide Untimed, AcceptBody, Fail, Expired, Addressed, Admitted;
    SameUntimed(s);
    FailUntimed(s, Timeout, true);
    FailUntimed(s, Protocol, true);
    if AcceptBody(s, e.body).Some? {
      AcceptUntimed(s, e.body);
    }
  }

  lemma SendUntimed(s: Stream)
    ensures Untimed(s, SendWindow(s).0)
    ensures Untimed(s, SendEnd(s).0)
    ensures Untimed(s, SendClose(s).0)
  {
    hide Grant, Io.Stop;
  }

  lemma SendFlushedUntimed(s: Stream)
    ensures FlushedDue(s) ==> Untimed(s, SendFlushed(s).0)
    ensures FlushDue(s) ==> Untimed(s, SendFlush(s).0)
  {
    hide FlushedDue, FlushDue, Io.Stop;
  }

  lemma SendClosedUntimed(s: Stream)
    ensures s.closePending.Some? ==> Untimed(s, SendClosed(s).0)
  {
    hide Io.Stop;
  }

  lemma SendDataUntimed(s: Stream)
    ensures DataDue(s) ==> Untimed(s, SendData(s).0)
  {
    hide DataDue, Io.Stop;
  }

  lemma TakeUntimed(s: Stream)
    ensures Untimed(s, NextMessage(s).0)
  {
    hide Untimed, FlushedDue, Grant, FlushDue, DataDue, EndDue, CloseDue, Wrap;
    hide SendFlushed, SendWindow, SendClosed, SendFlush, SendData, SendEnd, SendClose;
    SameUntimed(s);
    if s.terminal.Some? {
      TerminalUntimed(s);
    } else {
      SendUntimed(s);
      SendFlushedUntimed(s);
      SendClosedUntimed(s);
      SendDataUntimed(s);
    }
  }

  lemma TerminalUntimed(s: Stream)
    ensures Untimed(s, s.(terminal := None))
  {
    hide Io.Stop;
  }

  // ---------------------------------------------------------------------------------------------------------------
  // The host's reports and ticks
  // ---------------------------------------------------------------------------------------------------------------

  /** Entering a state hands each allowance on unchanged, and arms the one that runs. */
  lemma EnterAccounts(t: Timed, state: Io.IoState)
    requires Accounts(t) && InTime(t.s)
    ensures var io := Io.SetState(t.s.io, t.s.now, state);
            !Io.Due(io, t.s.now) ==> Accounts(t.(s := t.s.(io := io)))
  {
  }

  lemma SetIoKept(t: Timed, state: Io.IoState)
    requires Kept(t)
    ensures Kept(t.(s := SetIoState(t.s, state).0))
  {
    hide Accounts, Fail, Expired, Io.SetState;
    var io := Io.SetState(t.s.io, t.s.now, state);
    var u := t.s.(io := io);
    FailUntimed(t.s, Timeout, true);
    FailUntimed(u, Timeout, true);
    DiesByFailing(t.s, Timeout, true);
    DiesByFailing(u, Timeout, true);
    if InTime(t.s) && Live(t.s) {
      EnterAccounts(t, state);
      SameStateIsQuiet(t.s.io, t.s.now, state);
      assert t.s.(io := t.s.io) == t.s;
    }
  }

  lemma SameStateIsQuiet(io: Io.Clock, now: nat, state: Io.IoState)
    ensures io.state == state ==> Io.SetState(io, now, state) == io
  {
  }

  lemma DiesByFailing(s: Stream, error: Error, notify: bool)
    ensures !Live(Fail(s, error, notify))
  {
    hide Io.Stop, Wrap, Notice;
  }

  /** Positive progress restores the whole network allowance. */
  lemma ProgressAccounts(t: Timed, bytes: nat)
    requires Accounts(t) && InTime(t.s)
    ensures match Io.Progress(t.s.io, t.s.now, bytes, t.s.config.ioTimeoutMs)
            case None => bytes > 0
            case Some(io) => Accounts(Timed(t.s.(io := io), t.interacted, if bytes > 0 then 0 else t.networked))
  {
    assert t.s.(io := t.s.io) == t.s;
  }

  lemma ProgressKept(t: Timed, bytes: nat)
    requires Kept(t)
    ensures Kept(Observe(t, Do(DoRecordProgress(bytes))))
  {
    hide Fail, Expired, Accounts, Io.Progress;
    FailUntimed(t.s, Timeout, true);
    DiesByFailing(t.s, Timeout, true);
    if InTime(t.s) && Live(t.s) {
      ProgressAccounts(t, bytes);
    }
  }

  lemma TickKept(t: Timed, now: nat)
    requires Kept(t)
    ensures Kept(Observe(t, Do(DoAdvance(now))))
  {
    hide Fail;
    var u := t.s.(now := now);
    FailUntimed(u, Timeout, true);
    DiesByFailing(u, Timeout, true);
  }

  // ---------------------------------------------------------------------------------------------------------------
  // Every run
  // ---------------------------------------------------------------------------------------------------------------

  lemma CallUntimed(s: Stream, op: Op)
    requires !op.DoSetIoState? && !op.DoRecordProgress? && !op.DoAdvance?
    ensures Untimed(s, Apply(s, Do(op)))
  {
    hide Untimed, Write, Read, StartFlush, NextMessage, RequestEnd, StartClose, CompleteClose, FailTerminal, Fail, Disconnect;
    match op
    case DoWrite(input) => WriteUntimed(s, input);
    case DoRead(room) => ReadUntimed(s, room);
    case DoStartFlush => FlushUntimed(s);
    case DoRequestEnd => EndUntimed(s);
    case DoStartClose => CloseUntimed(s);
    case DoCompleteClose(disposition, facts, failure) => ReportUntimed(s, disposition, facts, failure);
    case DoFailTerminal(failure) => FailureUntimed(s, failure);
    case DoCancel => FailUntimed(s, Cancelled, true);
    case DoDisconnect => DisconnectUntimed(s);
    case Take => TakeUntimed(s);
    case Deliver => SameUntimed(s);
  }

  lemma UntimedKept(t: Timed, i: Input)
    requires Kept(t) && Untimed(t.s, Apply(t.s, i)) && !Progressed(t.s, i)
    ensures Kept(Observe(t, i))
  {
    hide Kept, Apply, Progressed;
    UntimedAccounts(t, Apply(t.s, i));
    assert t.(s := Apply(t.s, i)) == Observe(t, i);
  }

  lemma SetIoStays(s: Stream, state: Io.IoState)
    ensures SetIoState(s, state).0.now == s.now
  {
    hide Fail, Expired, Io.SetState, Io.Due;
    FailUntimed(s, Timeout, true);
    FailUntimed(s.(io := Io.SetState(s.io, s.now, state)), Timeout, true);
  }

  lemma ObserveKept(t: Timed, i: Input)
    requires Kept(t)
    ensures Kept(Observe(t, i))
  {
    hide Kept, Receive, Untimed, Write, Read, StartFlush, NextMessage, RequestEnd, StartClose, CompleteClose, FailTerminal, Fail, Disconnect;
    hide SetIoState, RecordProgress, Advance;
    match i
    case Hear(e) =>
      ReceiveUntimed(t.s, e);
      UntimedKept(t, i);
    case Do(op) =>
      if op.DoSetIoState? {
        SetIoKept(t, op.state);
        SetIoStays(t.s, op.state);
        assert t.(s := SetIoState(t.s, op.state).0) == Observe(t, i);
      } else if op.DoRecordProgress? {
        ProgressKept(t, op.bytes);
      } else if op.DoAdvance? {
        TickKept(t, op.now);
      } else {
        CallUntimed(t.s, op);
        UntimedKept(t, i);
      }
  }

  lemma {:induction false} AllowancesAddUp(c: Config, inputs: seq<Input>)
    ensures Kept(Watch(Timed(New(c), 0, 0), inputs))
  {
    hide Observe, Kept;
    if inputs == [] {
      FreshKept(c);
    } else {
      AllowancesAddUp(c, inputs[..|inputs| - 1]);
      ObserveKept(Watch(Timed(New(c), 0, 0), inputs[..|inputs| - 1]), inputs[|inputs| - 1]);
    }
  }

  lemma FreshKept(c: Config)
    ensures Kept(Timed(New(c), 0, 0))
  {
  }

  /** A stream keeps the allowances it was configured with. */
  predicate SameAllowances(s: Stream, t: Stream) {
    t.config.ioTimeoutMs == s.config.ioTimeoutMs && t.config.interactionBudgetMs == s.config.interactionBudgetMs
  }

  lemma ReportsKeepAllowances(s: Stream, state: Io.IoState, bytes: nat, now: nat)
    ensures SameAllowances(s, SetIoState(s, state).0)
    ensures SameAllowances(s, RecordProgress(s, bytes).0)
    ensures SameAllowances(s, Advance(s, now))
  {
    hide Fail, Expired, Io.SetState, Io.Due, Io.Progress;
    FailUntimed(s, Timeout, true);
    FailUntimed(s.(io := Io.SetState(s.io, s.now, state)), Timeout, true);
    FailUntimed(s.(now := now), Timeout, true);
  }

  lemma ApplyKeepsAllowances(s: Stream, i: Input)
    ensures SameAllowances(s, Apply(s, i))
  {
    hide SetIoState, RecordProgress, Advance, SameAllowances, Receive;
    match i
    case Hear(e) =>
      ReceiveUntimed(s, e);
      UntimedKeepsAllowances(s, Receive(s, e).0);
    case Do(op) =>
      match op
      case DoSetIoState(state) => ReportsKeepAllowances(s, state, 0, 0);
      case DoRecordProgress(bytes) => ReportsKeepAllowances(s, Io.Network, bytes, 0);
      case DoAdvance(now) => ReportsKeepAllowances(s, Io.Network, 0, now);
      case _ =>
        CallUntimed(s, op);
        UntimedKeepsAllowances(s, Apply(s, i));
  }

  lemma UntimedKeepsAllowances(s: Stream, t: Stream)
    requires Untimed(s, t)
    ensures SameAllowances(s, t)
  {
    hide Io.Stop;
  }

  lemma {:induction false} AllowancesStay(c: Config, inputs: seq<Input>)
    ensures SameAllowances(New(c), Watch(Timed(New(c), 0, 0), inputs).s)
  {
    hide Apply, Progressed, Io.New;
    if inputs != [] {
      var before := inputs[..|inputs| - 1];
      AllowancesStay(c, before);
      ApplyKeepsAllowances(Watch(Timed(New(c), 0, 0), before).s, inputs[|inputs| - 1]);
    }
  }

  /**
   While a stream lives, its backend never goes a whole `ioTimeoutMs` in Network without progress, nor more than the
   interaction budget in Interaction; and in Network the deadline is armed, ahead, and within the timeout.
   */
  lemma NetworkIsAlwaysWatched(c: Config, inputs: seq<Input>)
    ensures var t := Watch(Timed(New(c), 0, 0), inputs);
            InTime(t.s) && Live(t.s) ==>
              && (c.ioTimeoutMs > 0 ==> t.networked < c.ioTimeoutMs)
              && t.interacted <= c.interactionBudgetMs
              && (c.ioTimeoutMs > 0 && t.s.io.state == Io.Network ==>
                    && t.s.io.deadline.Some?
                    && t.s.now < t.s.io.deadline.value <= t.s.now + c.ioTimeoutMs)
  {
    hide Watch;
    AllowancesAddUp(c, inputs);
    AllowancesStay(c, inputs);
  }
}
