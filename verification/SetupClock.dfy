/** One connection's setup arbitration, `src/pool/setup_clock.rs` and its modules, as values. Wakers are left out. */
module SetupClock {
  import opened Base

  datatype Timer = Disabled | Inactive | Armed(at: int)

  datatype LocalPhase = Admission | Interaction | Wait

  datatype Cause =
    | NetworkAggregate | NetworkStall | LocalDeadline | LocalWaitExpired | PreparationDeadline
    | Cancelled | DriverLost | Completed | ResourceFailure(detail: int)

  datatype Terminal = Terminal(connection: int, phase: int, cause: Cause)

  datatype Slot = Prepared(phase: int, kind: LocalPhase, until: int, expired: bool) | Pending(phase: int)

  datatype Error = ActiveTerminal(terminal: Terminal) | PreparationExpired(terminal: Terminal) | InvalidToken | WrongState | Overflow

  datatype State = State(
    connection: int, now: int, serial: int, phase: int, local: Option<LocalPhase>, localUntil: Option<int>,
    aggregate: Timer, stall: Timer, stallMs: nat, slot: Option<Slot>, acknowledged: bool, terminal: Option<Terminal>)

  function New(connection: int, networkUntil: Option<nat>, stallMs: nat): State {
    State(
      connection, 0, 0, 0, None, None,
      if networkUntil.Some? then Armed(networkUntil.value) else Disabled,
      if stallMs == 0 then Disabled else Inactive,
      stallMs, None, true, None)
  }

  // ---------------------------------------------------------------------------------------------------------------
  // Timers
  // ---------------------------------------------------------------------------------------------------------------

  /** From a deadline to what is left of it. The source subtracts unsigned. */
  function Pause(t: Timer, now: int): Timer {
    if t.Armed? then Armed(t.at - now) else t
  }

  predicate Resumes(t: Timer, now: int) {
    t.Armed? ==> now + t.at <= U64_MAX
  }

  function Resume(t: Timer, now: int): Timer {
    if t.Armed? then Armed(now + t.at) else t
  }

  predicate Reached(t: Timer, now: int) {
    t.Armed? && t.at <= now
  }

  // ---------------------------------------------------------------------------------------------------------------
  // Settling
  // ---------------------------------------------------------------------------------------------------------------

  function Finish(s: State, cause: Cause, phase: int): State {
    if s.terminal.Some? then s else s.(terminal := Some(Terminal(s.connection, phase, cause)), slot := None)
  }

  /** The cause that has come due, if any. Of the two network timers the earlier deadline wins, the aggregate on a tie. */
  function DueCause(s: State): Option<Cause> {
    if s.local.Some? then
      if s.localUntil.Some? && s.localUntil.value <= s.now then
        Some(if s.local == Some(Wait) then LocalWaitExpired else LocalDeadline)
      else None
    else if Reached(s.aggregate, s.now) && Reached(s.stall, s.now) then
      Some(if s.stall.at < s.aggregate.at then NetworkStall else NetworkAggregate)
    else if Reached(s.aggregate, s.now) then Some(NetworkAggregate)
    else if Reached(s.stall, s.now) then Some(NetworkStall)
    else None
  }

  function Age(s: State): State {
    if s.slot.Some? && s.slot.value.Prepared? then
      s.(slot := Some(s.slot.value.(expired := s.slot.value.expired || s.slot.value.until <= s.now)))
    else s
  }

  function Settle(s: State): State {
    if s.terminal.Some? then s
    else
      var cause := DueCause(s);
      Age(if cause.Some? then Finish(s, cause.value, s.phase) else s)
  }

  /** What every operation begins with: read the host's clock, which never goes back, and settle. */
  function SettleAt(s: State, reading: int): State {
    Settle(s.(now := Max(reading, s.now)))
  }

  function Earlier(a: Timer, b: Timer): Option<int> {
    if a.Armed? && b.Armed? then Some(Min(a.at, b.at))
    else if a.Armed? then Some(a.at)
    else if b.Armed? then Some(b.at)
    else None
  }

  function Deadline(s: State): Option<int> {
    if s.local.Some? then s.localUntil else Earlier(s.aggregate, s.stall)
  }

  // ---------------------------------------------------------------------------------------------------------------
  // Operations, on a settled state
  // ---------------------------------------------------------------------------------------------------------------

  datatype Op =
    | Observe
    | PrepareLocal(kind: LocalPhase, until: nat)
    | PublishLocal(phase: int, mine: bool)
    | DropPrepared(phase: int)
    | PublishNetwork
    | BeginNetworkWait
    | NetworkProgress
    | BeginLocalWait(milliseconds: nat)
    | EndLocalWait
    | Acknowledge(connection: int, phase: int)
    | Terminate(cause: Cause)
    | AdmitCompleted

  datatype Answer = Fine | Issued(phase: int) | Refused(error: Error)

  function Dead(s: State): Answer
    requires s.terminal.Some?
  {
    Refused(ActiveTerminal(s.terminal.value))
  }

  function DoPrepareLocal(s: State, kind: LocalPhase, until: nat): (State, Answer) {
    if s.terminal.Some? then (s, Dead(s))
    else if s.slot.Some? then (s, Refused(WrongState))
    else if s.serial + 1 > U64_MAX then (s, Refused(Overflow))
    else
      (s.(serial := s.serial + 1, slot := Some(Prepared(s.serial + 1, kind, until, until <= s.now))), Issued(s.serial + 1))
  }

  function DoPublishLocal(s: State, phase: int, mine: bool): (State, Answer) {
    if s.terminal.Some? then (s, Dead(s))
    else if !mine || s.slot.None? || !s.slot.value.Prepared? || s.slot.value.phase != phase then (s, Refused(InvalidToken))
    else
      var slot := s.slot.value;
      if slot.expired || slot.until <= s.now then
        var t := Finish(s, PreparationDeadline, phase);
        (t, Refused(PreparationExpired(Terminal(s.connection, phase, PreparationDeadline))))
      else
        var paused :=
          if s.local.None? then s.(aggregate := Pause(s.aggregate, s.now), stall := Pause(s.stall, s.now)) else s;
        (paused.(
         local := Some(slot.kind), localUntil := Some(slot.until), phase := phase, slot := Some(Pending(phase)),
         acknowledged := false),
         Issued(phase))
  }

  function DoDropPrepared(s: State, phase: int): (State, Answer) {
    if s.slot.Some? && s.slot.value.Prepared? && s.slot.value.phase == phase then (s.(slot := None), Fine) else (s, Fine)
  }

  /** Both timers run again from what they had left. */
  function Resumed(s: State): State {
    s.(aggregate := Resume(s.aggregate, s.now), stall := Resume(s.stall, s.now), local := None, localUntil := None)
  }

  predicate CanResume(s: State) {
    Resumes(s.aggregate, s.now) && Resumes(s.stall, s.now)
  }

  function DoPublishNetwork(s: State): (State, Answer) {
    if s.terminal.Some? then (s, Dead(s))
    else if s.slot.Some? || s.local.None? then (s, Refused(WrongState))
    else if s.serial + 1 > U64_MAX then (s, Refused(Overflow))
    else
      var t := s.(serial := s.serial + 1);
      if !CanResume(t) then (t, Refused(Overflow))
      else
        (Resumed(t).(phase := t.serial, slot := Some(Pending(t.serial)), acknowledged := false), Issued(t.serial))
  }

  function DoBeginNetworkWait(s: State): (State, Answer) {
    if s.terminal.Some? then (s, Dead(s))
    else if s.local.Some? then (s, Refused(WrongState))
    else if !s.stall.Inactive? then (s, Fine)
    else if s.now + s.stallMs > U64_MAX then (s, Refused(Overflow))
    else (s.(stall := Armed(s.now + s.stallMs)), Fine)
  }

  function DoNetworkProgress(s: State): (State, Answer) {
    if s.terminal.Some? then (s, Dead(s))
    else if s.local.Some? then (s, Refused(WrongState))
    else if s.stallMs == 0 then (s, Fine)
    else if s.now + s.stallMs > U64_MAX then (s, Refused(Overflow))
    else (s.(stall := Armed(s.now + s.stallMs)), Fine)
  }

  function DoBeginLocalWait(s: State, milliseconds: nat): (State, Answer) {
    if s.terminal.Some? then (s, Dead(s))
    else if s.local == Some(Wait) then (s, Fine)
    else if s.local.Some? || s.slot.Some? then (s, Refused(WrongState))
    else if s.now + milliseconds > U64_MAX then (s, Refused(Overflow))
    else
      (s.(
       aggregate := Pause(s.aggregate, s.now), stall := Pause(s.stall, s.now),
       local := Some(Wait), localUntil := Some(s.now + milliseconds)),
       Fine)
  }

  function DoEndLocalWait(s: State): (State, Answer) {
    if s.terminal.Some? then (s, Dead(s))
    else if s.local != Some(Wait) then (s, Refused(WrongState))
    else if !CanResume(s) then (s, Refused(Overflow))
    else (Resumed(s), Fine)
  }

  function DoAcknowledge(s: State, connection: int, phase: int): (State, Answer) {
    if s.terminal.Some? then (s, Dead(s))
    else if connection != s.connection || s.slot != Some(Pending(phase)) then (s, Refused(InvalidToken))
    else (s.(slot := None, acknowledged := true), Fine)
  }

  function DoAdmitCompleted(s: State): (State, Answer) {
    if s.terminal.Some? then (s, Dead(s))
    else if s.local.Some? || !s.acknowledged || s.slot.Some? then (s, Refused(WrongState))
    else (Finish(s, Completed, s.phase), Fine)
  }

  function Act(s: State, op: Op): (State, Answer) {
    match op
    case Observe => (s, Fine)
    case PrepareLocal(kind, until) => DoPrepareLocal(s, kind, until)
    case PublishLocal(phase, mine) => DoPublishLocal(s, phase, mine)
    case DropPrepared(phase) => DoDropPrepared(s, phase)
    case PublishNetwork => DoPublishNetwork(s)
    case BeginNetworkWait => DoBeginNetworkWait(s)
    case NetworkProgress => DoNetworkProgress(s)
    case BeginLocalWait(milliseconds) => DoBeginLocalWait(s, milliseconds)
    case EndLocalWait => DoEndLocalWait(s)
    case Acknowledge(connection, phase) => DoAcknowledge(s, connection, phase)
    case Terminate(cause) => (Finish(s, cause, s.phase), Fine)
    case AdmitCompleted => DoAdmitCompleted(s)
  }

  /** One operation at one reading of the host's clock. */
  function Change(s: State, reading: int, op: Op): (State, Answer) {
    Act(SettleAt(s, reading), op)
  }
}
