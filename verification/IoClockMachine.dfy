/** The I/O clock updated in place. */
module IoClockMachine {
  import opened Base
  import opened IoClock

  class IoClockCell {
    var state: IoState
    var network: nat
    var interaction: nat
    var deadline: Option<nat>

    function Value(): Clock
      reads this
    {
      Clock(state, network, interaction, deadline)
    }

    constructor (networkMs: nat, interactionMs: nat)
      ensures Value() == New(networkMs, interactionMs)
    {
      state := Idle;
      network := networkMs;
      interaction := interactionMs;
      deadline := None;
    }

    method AccountAt(now: nat)
      modifies this
      ensures Value() == Account(old(Value()), now)
    {
      if deadline.Some? {
        var remaining := SubSat(deadline.value, now);
        match state {
          case Network => network := remaining;
          case Interaction => interaction := remaining;
          case Idle =>
          case Backpressure =>
        }
        deadline := None;
      }
    }

    method Enter(now: nat, next: IoState)
      modifies this
      ensures Value() == SetState(old(Value()), now, next)
    {
      if state == next {
        return;
      }
      AccountAt(now);
      state := next;
      match next {
        case Network =>
          if network > 0 {
            deadline := Some(AddSatU64(now, network));
          } else {
            deadline := None;
          }
        case Interaction => deadline := Some(AddSatU64(now, interaction));
        case Idle => deadline := None;
        case Backpressure => deadline := None;
      }
    }

    method Advanced(now: nat, bytes: nat, timeoutMs: nat) returns (ok: bool)
      modifies this
      ensures ok <==> Progress(old(Value()), now, bytes, timeoutMs).Some?
      ensures Value() == if ok then Progress(old(Value()), now, bytes, timeoutMs).value else old(Value())
    {
      if bytes == 0 {
        return true;
      }
      if state != Network {
        return false;
      }
      network := timeoutMs;
      deadline := if timeoutMs > 0 then Some(AddSatU64(now, timeoutMs)) else None;
      return true;
    }

    method Halt(now: nat)
      modifies this
      ensures Value() == Stop(old(Value()), now)
    {
      AccountAt(now);
      state := Idle;
    }
  }
}
