/** Host-reported active-I/O accounting: `src/stream/io_clock.rs`. The source's clock is a plain copied value. */
module IoClock {
  import opened Base

  datatype IoState = Idle | Network | Backpressure | Interaction

  datatype Clock = Clock(state: IoState, network: nat, interaction: nat, deadline: Option<nat>)

  datatype Status = Status(state: IoState, network: nat, interaction: nat, deadline: Option<nat>)

  function New(networkMs: nat, interactionMs: nat): Clock {
    Clock(Idle, networkMs, interactionMs, None)
  }

  /** Stores what the running allowance has left and disarms the deadline. */
  function Account(c: Clock, now: nat): Clock {
    if c.deadline.None? then c
    else
      var remaining := SubSat(c.deadline.value, now);
      match c.state
      case Network => c.(network := remaining, deadline := None)
      case Interaction => c.(interaction := remaining, deadline := None)
      case _ => c.(deadline := None)
  }

  function SetState(c: Clock, now: nat, state: IoState): Clock {
    if c.state == state then c
    else
      var a := Account(c, now);
      var deadline :=
        match state
        case Network => if a.network > 0 then Some(AddSatU64(now, a.network)) else None
        case Interaction => Some(AddSatU64(now, a.interaction))
        case _ => None;
      a.(state := state, deadline := deadline)
  }

  /** Positive progress restores the network allowance; it counts only in `Network`. */
  function Progress(c: Clock, now: nat, bytes: nat, timeoutMs: nat): Option<Clock> {
    if bytes == 0 then Some(c)
    else if c.state != Network then None
    else
      Some(c.(
           network := timeoutMs,
           deadline := if timeoutMs > 0 then Some(AddSatU64(now, timeoutMs)) else None))
  }

  function Stop(c: Clock, now: nat): Clock {
    Account(c, now).(state := Idle)
  }

  predicate Due(c: Clock, now: nat) {
    c.deadline.Some? && now >= c.deadline.value
  }

  function Left(deadline: Option<nat>, now: nat, stored: nat): nat {
    if deadline.Some? then SubSat(deadline.value, now) else stored
  }

  function StatusAt(c: Clock, now: nat): Status {
    match c.state
    case Network => Status(c.state, Left(c.deadline, now, c.network), c.interaction, c.deadline)
    case Interaction => Status(c.state, c.network, Left(c.deadline, now, c.interaction), c.deadline)
    case _ => Status(c.state, c.network, c.interaction, c.deadline)
  }
}
