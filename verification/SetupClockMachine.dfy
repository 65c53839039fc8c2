/** The setup clock as the source has it: one shared state that every operation first brings up to date. */
module SetupClockMachine {
  import opened Base
  import opened SetupClock

  class Authority {
    const connection: int
    const stallMs: nat
    var now: int
    var serial: int
    var phase: int
    var local: Option<LocalPhase>
    var localUntil: Option<int>
    var aggregate: Timer
    var stall: Timer
    var slot: Option<Slot>
    var acknowledged: bool
    var terminal: Option<Terminal>

    function Value(): State
      reads this
    {
      State(connection, now, serial, phase, local, localUntil, aggregate, stall, stallMs, slot, acknowledged, terminal)
    }

    constructor (connection: int, networkUntil: Option<nat>, stallMs: nat)
      ensures Value() == New(connection, networkUntil, stallMs)
    {
      this.connection, this.stallMs := connection, stallMs;
      now, serial, phase := 0, 0, 0;
      local, localUntil := None, None;
      aggregate := if networkUntil.Some? then Armed(networkUntil.value) else Disabled;
      stall := if stallMs == 0 then Disabled else Inactive;
      slot, acknowledged, terminal := None, true, None;
    }

    /** Record a terminal unless there is one: the first stays. */
    method FinishWith(cause: Cause, at: int)
      modifies this`terminal, this`slot
      ensures Value() == Finish(old(Value()), cause, at)
    {
      if terminal.None? {
        terminal := Some(Terminal(connection, at, cause));
        slot := None;
      }
    }

    /** The cause that has come due, found the way the source compares the two expired deadlines. */
    method FindCause() returns (cause: Option<Cause>)
      ensures cause == DueCause(Value())
    {
      if local.Some? {
        if localUntil.Some? && localUntil.value <= now {
          return Some(if local == Some(Wait) then LocalWaitExpired else LocalDeadline);
        }
        return None;
      }
      var a, s := Reached(aggregate, now), Reached(stall, now);
      if a && s && stall.at < aggregate.at {
        return Some(NetworkStall);
      }
      if a {
        return Some(NetworkAggregate);
      }
      if s {
        return Some(NetworkStall);
      }
      return None;
    }

    /** Read the clock, never backwards, and settle. */
    method Begin(reading: int)
      modifies this
      ensures Value() == SettleAt(old(Value()), reading)
    {
      hide DueCause;
      now := Max(reading, now);
      assert Value() == old(Value()).(now := Max(reading, old(now)));
      if terminal.Some? {
        return;
      }
      var cause := FindCause();
      if cause.Some? {
        FinishWith(cause.value, phase);
      }
      if slot.Some? && slot.value.Prepared? {
        var p := slot.value;
        slot := Some(p.(expired := p.expired || p.until <= now));
      }
    }

    method LookAt(reading: int) returns (deadline: Option<int>, ended: Option<Terminal>)
      modifies this
      ensures Value() == Change(old(Value()), reading, Observe).0
      ensures deadline == Deadline(Value()) && ended == Value().terminal
    {
      hide SettleAt;
      Begin(reading);
      ended := terminal;
      if local.Some? {
        return localUntil, ended;
      }
      return Earlier(aggregate, stall), ended;
    }

    method Prepare(reading: int, kind: LocalPhase, until: nat) returns (a: Answer)
      modifies this
      ensures (Value(), a) == Change(old(Value()), reading, PrepareLocal(kind, until))
    {
      hide SettleAt;
      Begin(reading);
      if terminal.Some? {
        return Refused(ActiveTerminal(terminal.value));
      }
      if slot.Some? {
        return Refused(WrongState);
      }
      if serial + 1 > U64_MAX {
        return Refused(Overflow);
      }
      serial := serial + 1;
      slot := Some(Prepared(serial, kind, until, until <= now));
      return Issued(serial);
    }

    method PauseTimers()
      modifies this`aggregate, this`stall
      ensures Value() == old(Value()).(aggregate := Pause(old(aggregate), now), stall := Pause(old(stall), now))
    {
      if aggregate.Armed? {
        aggregate := Armed(aggregate.at - now);
      }
      if stall.Armed? {
        stall := Armed(stall.at - now);
      }
    }

    /** Both timers or neither. */
    method ResumeTimers() returns (ok: bool)
      modifies this
      ensures ok == CanResume(old(Value()))
      ensures Value() == if ok then Resumed(old(Value())) else old(Value())
    {
      if (aggregate.Armed? && now + aggregate.at > U64_MAX) || (stall.Armed? && now + stall.at > U64_MAX) {
        return false;
      }
      aggregate, stall := Resume(aggregate, now), Resume(stall, now);
      local, localUntil := None, None;
      return true;
    }

    method PublishPrepared(reading: int, token: int, mine: bool) returns (a: Answer)
      modifies this
      ensures (Value(), a) == Change(old(Value()), reading, PublishLocal(token, mine))
    {
      hide SettleAt, Pause;
      Begin(reading);
      if terminal.Some? {
        return Refused(ActiveTerminal(terminal.value));
      }
      if !mine || slot.None? || !slot.value.Prepared? || slot.value.phase != token {
        return Refused(InvalidToken);
      }
      var prepared := slot.value;
      if prepared.expired || prepared.until <= now {
        FinishWith(PreparationDeadline, token);
        return Refused(PreparationExpired(terminal.value));
      }
      if local.None? {
        PauseTimers();
      }
      local, localUntil := Some(prepared.kind), Some(prepared.until);
      phase, slot, acknowledged := token, Some(Pending(token)), false;
      return Issued(token);
    }

    method Discard(reading: int, token: int)
      modifies this
      ensures Value() == Change(old(Value()), reading, DropPrepared(token)).0
    {
      hide SettleAt;
      Begin(reading);
      if slot.Some? && slot.value.Prepared? && slot.value.phase == token {
        slot := None;
      }
    }

    method Publish(reading: int) returns (a: Answer)
      modifies this
      ensures (Value(), a) == Change(old(Value()), reading, PublishNetwork)
    {
      hide SettleAt, CanResume, Resumed;
      Begin(reading);
      if terminal.Some? {
        return Refused(ActiveTerminal(terminal.value));
      }
      if slot.Some? || local.None? {
        return Refused(WrongState);
      }
      if serial + 1 > U64_MAX {
        return Refused(Overflow);
      }
      ghost var settled := Value();
      serial := serial + 1;
      assert Value() == settled.(serial := settled.serial + 1);
      var ok := ResumeTimers();
      if !ok {
        return Refused(Overflow);
      }
      ResumedKeeps(settled.(serial := settled.serial + 1));
      phase, slot, acknowledged := serial, Some(Pending(serial)), false;
      return Issued(serial);
    }

    static lemma ResumedKeeps(s: State)
      ensures Resumed(s).serial == s.serial
    {
    }

    method WaitOnNetwork(reading: int) returns (a: Answer)
      modifies this
      ensures (Value(), a) == Change(old(Value()), reading, BeginNetworkWait)
    {
      hide SettleAt;
      Begin(reading);
      if terminal.Some? {
        return Refused(ActiveTerminal(terminal.value));
      }
      if local.Some? {
        return Refused(WrongState);
      }
      if stall.Inactive? {
        if now + stallMs > U64_MAX {
          return Refused(Overflow);
        }
        stall := Armed(now + stallMs);
      }
      return Fine;
    }

    method Progressed(reading: int) returns (a: Answer)
      modifies this
      ensures (Value(), a) == Change(old(Value()), reading, NetworkProgress)
    {
      hide SettleAt;
      Begin(reading);
      if terminal.Some? {
        return Refused(ActiveTerminal(terminal.value));
      }
      if local.Some? {
        return Refused(WrongState);
      }
      if stallMs != 0 {
        if now + stallMs > U64_MAX {
          return Refused(Overflow);
        }
        stall := Armed(now + stallMs);
      }
      return Fine;
    }

    method WaitLocally(reading: int, milliseconds: nat) returns (a: Answer)
      modifies this
      ensures (Value(), a) == Change(old(Value()), reading, BeginLocalWait(milliseconds))
    {
      hide SettleAt, Pause;
      Begin(reading);
      if terminal.Some? {
        return Refused(ActiveTerminal(terminal.value));
      }
      if local == Some(Wait) {
        return Fine;
      }
      if local.Some? || slot.Some? {
        return Refused(WrongState);
      }
      if now + milliseconds > U64_MAX {
        return Refused(Overflow);
      }
      PauseTimers();
      local, localUntil := Some(Wait), Some(now + milliseconds);
      return Fine;
    }

    method StopWaiting(reading: int) returns (a: Answer)
      modifies this
      ensures (Value(), a) == Change(old(Value()), reading, EndLocalWait)
    {
      hide SettleAt, CanResume, Resumed;
      Begin(reading);
      if terminal.Some? {
        return Refused(ActiveTerminal(terminal.value));
      }
      if local != Some(Wait) {
        return Refused(WrongState);
      }
      var ok := ResumeTimers();
      return if ok then Fine else Refused(Overflow);
    }

    method Confirm(reading: int, who: int, token: int) returns (a: Answer)
      modifies this
      ensures (Value(), a) == Change(old(Value()), reading, Acknowledge(who, token))
    {
      hide SettleAt;
      Begin(reading);
      if terminal.Some? {
        return Refused(ActiveTerminal(terminal.value));
      }
      if who != connection || slot != Some(Pending(token)) {
        return Refused(InvalidToken);
      }
      slot := None;
      acknowledged := true;
      return Fine;
    }

    method End(reading: int, cause: Cause) returns (t: Terminal)
      modifies this
      ensures Value() == Change(old(Value()), reading, Terminate(cause)).0 && Value().terminal == Some(t)
    {
      hide SettleAt;
      Begin(reading);
      FinishWith(cause, phase);
      return terminal.value;
    }

    method Complete(reading: int) returns (a: Answer)
      modifies this
      ensures (Value(), a) == Change(old(Value()), reading, AdmitCompleted)
    {
      hide SettleAt;
      Begin(reading);
      if terminal.Some? {
        return Refused(ActiveTerminal(terminal.value));
      }
      if local.Some? || !acknowledged || slot.Some? {
        return Refused(WrongState);
      }
      FinishWith(Completed, phase);
      return Fine;
    }
  }
}
