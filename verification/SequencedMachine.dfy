/** The ordering kernel as the source has it: two objects whose queues, maps and counters change in place. */
module SequencedMachine {
  import opened Base
  import opened Cost
  import opened Sums
  import opened SequencedSpec
  import opened SequencedAccounts

  class OutboundQueue {
    const session: seq<byte>
    const direction: Direction
    const limits: Limits
    const maxQueued: nat
    var queue: seq<Queued>
    var queuedCharge: int
    var next: map<int, Int64>
    var ended: set<int>
    var closeSent: set<int>

    function State(): Outbound
      reads this
    {
      Outbound(session, direction, limits, maxQueued, queue, queuedCharge, next, ended, closeSent)
    }

    constructor (session: seq<byte>, direction: Direction, limits: Limits, maxQueued: nat)
      ensures State() == NewOutbound(session, direction, limits, maxQueued)
    {
      this.session, this.direction, this.limits, this.maxQueued := session, direction, limits, maxQueued;
      queue, queuedCharge, next, ended, closeSent := [], 0, map[], {}, {};
    }

    method Push(m: Message, cost: Option<nat>) returns (r: Result<int, Error>)
      modifies this
      ensures (State(), r) == Enqueue(old(State()), m, cost)
    {
      hide Objection, QueueFull;
      var objection := Objection(State(), m);
      if objection.Some? {
        return Err(objection.value);
      }
      if cost.None? {
        return Err(InvalidMessage);
      }
      NumbersLeft(State(), m);
      var sequence := if m.stream in next then next[m.stream] else 1;
      var charge := cost.value + FRAME_OVERHEAD;
      if QueueFull(State(), m.kind, charge) {
        return Err(WouldBlock);
      }
      queuedCharge := queuedCharge + charge;
      queue := queue + [Queued(Frame(m.stream, sequence, m.kind, m.rest), charge)];
      next := next[m.stream := sequence + 1];
      if m.kind.Close? {
        closeSent := closeSent + {m.stream};
      }
      if Final(m.kind) {
        ended := ended + {m.stream};
      }
      return Ok(sequence);
    }

    static lemma NumbersLeft(o: Outbound, m: Message)
      requires Objection(o, m).None?
      ensures NextSequence(o, m.stream) + 1 <= I64_MAX
    {
    }

    method PopFirst() returns (f: Option<Frame>)
      modifies this
      ensures (State(), f) == Pop(old(State()))
    {
      if queue == [] {
        return None;
      }
      var first := queue[0];
      queue := queue[1..];
      queuedCharge := queuedCharge - first.charge;
      return Some(first.frame);
    }
  }

  // ---------------------------------------------------------------------------------------------------------------
  // Loops over the waiting frames
  // ---------------------------------------------------------------------------------------------------------------

  predicate InRange(pending: map<int, Pending>) {
    forall k | k in pending :: 1 <= k <= I64_MAX
  }

  method WaitingCharge(pending: map<int, Pending>) returns (total: int)
    requires InRange(pending)
    ensures total == PendingCharge(pending)
  {
    total := 0;
    var rest := pending;
    while rest != map[]
      invariant InRange(rest) && total + PendingCharge(rest) == PendingCharge(pending)
      decreases |rest|
    {
      HasKey(rest);
      var k :| k in rest;
      ChargeShrinks(rest, k);
      total := total + rest[k].charge;
      rest := rest - {k};
    }
    ChargeOfNone();
  }

  method LeastKey(pending: map<int, Pending>) returns (k: int)
    requires pending != map[]
    ensures k in pending && forall i | i in pending :: k <= i
  {
    HasKey(pending);
    k :| k in pending;
    var rest := pending.Keys - {k};
    while rest != {}
      invariant k in pending && rest <= pending.Keys
      invariant forall i | i in pending && i !in rest :: k <= i
      decreases |rest|
    {
      HasElement(rest);
      var i :| i in rest;
      if i < k {
        k := i;
      }
      rest := rest - {i};
    }
  }

  /** Every waiting frame is superseded, in order. */
  method SupersedeAll(id: int, pending: map<int, Pending>) returns (resolved: seq<Resolution>)
    requires InRange(pending)
    ensures resolved == Superseding(id, KeysTo(pending, I64_MAX))
  {
    resolved := [];
    var rest := pending;
    ghost var keys := [];
    while rest != map[]
      invariant InRange(rest) && keys + KeysTo(rest, I64_MAX) == KeysTo(pending, I64_MAX)
      invariant resolved == Superseding(id, keys)
      decreases |rest|
    {
      var k := LeastKey(rest);
      KeysFromLeast(rest, k, I64_MAX);
      ChargeShrinks(rest, k);
      assert Superseding(id, keys + [k]) == Superseding(id, keys) + [Resolution(id, k, Superseded)];
      resolved := resolved + [Resolution(id, k, Superseded)];
      keys := keys + [k];
      rest := rest - {k};
    }
    NoKeys(rest, I64_MAX);
    assert keys + [] == keys;
  }

  // ---------------------------------------------------------------------------------------------------------------
  // The receiver
  // ---------------------------------------------------------------------------------------------------------------

  predicate Ranged(st: StreamState) {
    1 <= st.expected <= I64_MAX && Keyed(st)
  }

  lemma MarkRanged(d: Desk, f: Frame, charge: nat)
    requires Ranged(d.st) && f.number == d.st.expected && f.number !in d.st.pending
    ensures Ranged(MarkApplied(d, f, charge).0.st)
  {
  }

  lemma {:induction false} DrainRanged(d: Desk, answers: nat -> Answer, k: nat)
    requires Ranged(d.st)
    ensures Ranged(Drain(d, answers, k).0.st)
    decreases |d.st.pending|
  {
    hide MarkApplied;
    if d.st.expected in d.st.pending {
      var p := d.st.pending[d.st.expected];
      MarkRanged(Uncharged(Deliver(Unbuffered(d), p.frame), p.charge), p.frame, p.charge);
      DrainRanged(TakePending(d).0, answers, k + 1);
    }
  }

  lemma SubmitRanged(
    d: Desk, l: Limits, direction: Direction, streams: nat, f: Frame, charge: nat, now: nat, answers: nat -> Answer)
    requires Ranged(d.st) && f.number < I64_MAX
    ensures Ranged(SubmitFrame(d, l, direction, streams, f, charge, now, answers).0.st)
  {
    hide MarkApplied, Drain, BarsJump, RetainFits, BufferFits, PendingCharge, Superseding, Jumps, AfterEnd;
    if f.number == d.st.expected && f.number !in d.st.pending {
      MarkRanged(Deliver(d, f), f, charge);
      DrainRanged(Note(MarkApplied(Deliver(d, f), f, charge).0, f, Applied), answers, 1);
    }
  }

  class Assembler {
    const session: seq<byte>
    const direction: Direction
    const limits: Limits
    var streams: map<int, StreamState>
    var frames: int
    var charge: int
    var retained: int
    var failed: bool

    ghost function State(): Receiver
      reads this
    {
      Receiver(session, direction, limits, streams, frames, charge, retained, failed)
    }

    /** Waiting frames are filed under their own numbers. */
    ghost predicate Valid()
      reads this
    {
      forall id | id in streams :: Ranged(streams[id])
    }

    constructor (session: seq<byte>, direction: Direction, limits: Limits)
      ensures State() == NewReceiver(session, direction, limits) && Valid()
    {
      this.session, this.direction, this.limits := session, direction, limits;
      streams, frames, charge, retained, failed := map[], 0, 0, 0, false;
    }

    method RegisterStream(id: Int64) returns (r: Result<(), Error>)
      requires Valid()
      modifies this
      ensures Valid() && (State(), r) == Register(old(State()), id)
    {
      if failed {
        return Err(ClosedError);
      }
      if id <= 0 || id in streams {
        return Err(Protocol);
      }
      var active := set i | i in streams && streams[i].terminal.None?;
      if |streams| >= MAX_LIFETIME_STREAMS || |active| >= MAX_ACTIVE_STREAMS {
        return Err(CapacityError);
      }
      if Records(|streams| + 1) + retained + charge + PredecessorReserve(limits) > Available(limits) {
        return Err(CapacityError);
      }
      streams := streams[id := FRESH];
      return Ok(());
    }

    method TickAt(now: nat) returns (error: Option<Error>)
      requires Valid()
      modifies this
      ensures Valid() && (State(), error) == Tick(old(State()), now)
    {
      if failed {
        return Some(ClosedError);
      }
      if exists id | id in streams ::
          streams[id].gapSince.Some? && now >= AddSatU64(streams[id].gapSince.value, GAP_TIMEOUT_MS)
      {
        failed := true;
        return Some(GapTimeout);
      }
      return None;
    }

    // -------------------------------------------------------------------------------------------------------------
    // One stream, off the map while it is worked on
    // -------------------------------------------------------------------------------------------------------------

    ghost function OnDesk(id: int, st: StreamState, applied: seq<Frame>, resolved: seq<Resolution>): Desk
      reads this
    {
      Desk(id, st, frames, charge, retained, applied, resolved)
    }

    method Mark(id: int, st0: StreamState, f: Frame, cost: nat, ghost applied: seq<Frame>, ghost resolved: seq<Resolution>)
      returns (st: StreamState, error: Option<Error>)
      modifies this`retained
      ensures (OnDesk(id, st, applied, resolved), error) == MarkApplied(old(OnDesk(id, st0, applied, resolved)), f, cost)
    {
      st := st0;
      if f.number == 1 && !Final(f.kind) {
        st := st.(opening := Some(f));
        retained := retained + cost;
      }
      if f.number + 1 > I64_MAX {
        return st, Some(CapacityError);
      }
      st := st.(expected := f.number + 1);
      if Final(f.kind) {
        if st.pending != map[] {
          return st, Some(Protocol);
        }
        st := st.(terminal := Some(f));
        if f.number != 1 {
          retained := retained + cost;
        }
      }
      return st, None;
    }

    /** Apply waiting frames while the next expected one is among them. */
    method DrainPending(
      id: int, st0: StreamState, answers: nat -> Answer, k0: nat, applied0: seq<Frame>, resolved0: seq<Resolution>)
      returns (st: StreamState, error: Option<Error>, applied: seq<Frame>, resolved: seq<Resolution>)
      modifies this`frames, this`charge, this`retained
      ensures (OnDesk(id, st, applied, resolved), error) == Drain(old(OnDesk(id, st0, applied0, resolved0)), answers, k0)
    {
      hide MarkApplied;
      st, applied, resolved := st0, applied0, resolved0;
      var k := k0;
      while st.expected in st.pending
        invariant Drain(OnDesk(id, st, applied, resolved), answers, k) == Drain(old(OnDesk(id, st0, applied0, resolved0)), answers, k0)
        decreases |st.pending|
      {
        ghost var before := OnDesk(id, st, applied, resolved);
        var p := st.pending[st.expected];
        var rest := st.pending - {st.expected};
        if Final(p.frame.kind) && rest != map[] {
          return st, Some(Protocol), applied, resolved;
        }
        match answers(k) {
          case Blocked =>
            return st, None, applied, resolved;
          case Refused =>
            st := st.(pending := rest);
            return st, Some(ApplyRejected), applied, resolved;
          case Done =>
            st := st.(pending := rest);
            applied := applied + [p.frame];
            frames := frames - 1;
            charge := charge - p.charge;
            assert OnDesk(id, st, applied, resolved) == Uncharged(Deliver(Unbuffered(before), p.frame), p.charge);
            st, error := Mark(id, st, p.frame, p.charge, applied, resolved);
            if error.Some? {
              return st, error, applied, resolved;
            }
            resolved := resolved + [Resolution(id, p.frame.number, Applied)];
            k := k + 1;
        }
      }
      if st.pending == map[] {
        st := st.(gapSince := None);
      }
      return st, None, applied, resolved;
    }
  
    /** A waiting frame is filed and charged. */
    method File(id: int, st0: StreamState, f: Frame, cost: nat, now: nat, outOfOrder: bool, count: nat)
      returns (st: StreamState, ok: bool)
      modifies this`frames, this`charge
      ensures ok == BufferFits(old(OnDesk(id, st0, [], [])), limits, count, cost, outOfOrder)
      ensures OnDesk(id, st, [], []) ==
              if ok then Buffer(old(OnDesk(id, st0, [], [])), f, cost, now) else old(OnDesk(id, st0, [], []))
    {
      var beyond := set k | k in st0.pending && k > st0.expected;
      if outOfOrder && (|beyond| >= MAX_REORDER_PER_STREAM || frames >= MAX_REORDER_PER_BINDING) {
        return st0, false;
      }
      var reserve := if outOfOrder then PredecessorReserve(limits) else 0;
      if charge + retained + Records(count) + cost + reserve > Available(limits)
         || frames + 1 + (if outOfOrder then 1 else 0) > limits.queuedFrames - limits.controlReserveFrames
      {
        return st0, false;
      }
      frames := frames + 1;
      charge := charge + cost;
      st := st0;
      if st.gapSince.None? {
        st := st.(gapSince := Some(now));
      }
      st := st.(pending := st.pending[f.number := Pending(f, cost)]);
      return st, true;
    }

    /** An abort that jumps a gap. */
    method JumpTo(id: int, st0: StreamState, f: Frame, cost: nat, count: nat, answers: nat -> Answer)
      returns (st: StreamState, answer: Result<Status, Error>, applied: seq<Frame>, resolved: seq<Resolution>)
      requires InRange(st0.pending)
      modifies this`frames, this`charge, this`retained
      ensures (OnDesk(id, st, applied, resolved), answer) ==
              Abort(old(OnDesk(id, st0, [], [])), limits, count, f, cost, answers)
    {
      hide PendingCharge, Superseding, KeysTo;
      st, applied, resolved := st0, [], [];
      if (exists k | k in st.pending && k < f.number :: Final(st.pending[k].frame.kind))
         || (exists k | k in st.pending :: k > f.number)
      {
        return st, Err(Protocol), applied, resolved;
      }
      var superseded := WaitingCharge(st.pending);
      if Records(count) + retained + SubSat(charge, superseded) + cost > Available(limits) {
        return st, Err(WouldBlock), applied, resolved;
      }
      match answers(0) {
        case Blocked =>
          return st, Err(WouldBlock), applied, resolved;
        case Refused =>
          return st, Err(ApplyRejected), applied, resolved;
        case Done =>
          resolved := SupersedeAll(id, st.pending);
          assert [] + resolved == resolved;
          frames := frames - |st.pending|;
          charge := charge - superseded;
          st := st.(pending := map[], terminal := Some(f), gapSince := None);
          retained := retained + cost;
          applied := [f];
          resolved := resolved + [Resolution(id, f.number, Applied)];
          assert [] + [f] == applied;
          assert OnDesk(id, st, applied, resolved) == Aborted(old(OnDesk(id, st0, [], [])), f, cost);
          return st, Ok(Applied), applied, resolved;
      }
    }

    /** The frame that is next in order. */
    method TakeNext(id: int, st0: StreamState, f: Frame, cost: nat, now: nat, count: nat, answers: nat -> Answer)
      returns (st: StreamState, answer: Result<Status, Error>, applied: seq<Frame>, resolved: seq<Resolution>)
      modifies this`frames, this`charge, this`retained
      ensures (OnDesk(id, st, applied, resolved), answer) ==
              Advance(old(OnDesk(id, st0, [], [])), limits, count, f, cost, now, answers)
    {
      hide BufferFits, Buffer, Drain, MarkApplied;
      st, applied, resolved := st0, [], [];
      if Final(f.kind) && st.pending != map[] {
        return st, Err(Protocol), applied, resolved;
      }
      if (f.number == 1 || Final(f.kind)) && Records(count) + retained + SubSat(charge, 0) + cost > Available(limits) {
        return st, Err(WouldBlock), applied, resolved;
      }
      match answers(0) {
        case Refused =>
          return st, Err(ApplyRejected), applied, resolved;
        case Blocked =>
          var ok;
          st, ok := File(id, st, f, cost, now, false, count);
          return st, if ok then Ok(Buffered) else Err(WouldBlock), applied, resolved;
        case Done =>
          var error;
          applied := [f];
          assert OnDesk(id, st, applied, resolved) == Deliver(old(OnDesk(id, st0, [], [])), f);
          st, error := Mark(id, st, f, cost, applied, resolved);
          if error.Some? {
            return st, Err(error.value), applied, resolved;
          }
          ghost var marked := OnDesk(id, st, applied, resolved);
          resolved := [Resolution(id, f.number, Applied)];
          assert OnDesk(id, st, applied, resolved) == Note(marked, f, Applied);
          st, error, applied, resolved := DrainPending(id, st, answers, 1, applied, resolved);
          return st, if error.Some? then Err(error.value) else Ok(Applied), applied, resolved;
      }
    }

    method Place(id: int, st0: StreamState, f: Frame, cost: nat, now: nat, count: nat, answers: nat -> Answer)
      returns (st: StreamState, answer: Result<Status, Error>, applied: seq<Frame>, resolved: seq<Resolution>)
      requires InRange(st0.pending)
      modifies this`frames, this`charge, this`retained
      ensures (OnDesk(id, st, applied, resolved), answer) ==
              SubmitFrame(old(OnDesk(id, st0, [], [])), limits, direction, count, f, cost, now, answers)
    {
      hide BufferFits, Buffer, Abort, Advance;
      st, applied, resolved := st0, [], [];
      if st.terminal.Some? {
        return st, AfterEnd(st, f), applied, resolved;
      }
      if f.number < st.expected {
        if f.number == 1 && st.opening != Some(f) {
          return st, Err(Protocol), applied, resolved;
        }
        return st, Ok(AlreadyResolved), applied, resolved;
      }
      if f.number in st.pending {
        if st.pending[f.number].frame != f {
          return st, Err(Protocol), applied, resolved;
        }
        return st, Ok(Buffered), applied, resolved;
      }
      if f.number == 1 && !FirstKind(direction, f.kind) {
        return st, Err(Protocol), applied, resolved;
      }
      if Jumps(st, direction, f) {
        st, answer, applied, resolved := JumpTo(id, st, f, cost, count, answers);
        return;
      }
      if f.number > st.expected {
        var ok;
        st, ok := File(id, st, f, cost, now, true, count);
        return st, if ok then Ok(Buffered) else Err(WouldBlock), applied, resolved;
      }
      st, answer, applied, resolved := TakeNext(id, st, f, cost, now, count, answers);
    }
  
    // -------------------------------------------------------------------------------------------------------------
    // The host's calls
    // -------------------------------------------------------------------------------------------------------------

    method SubmitMessage(m: Message, cost: Option<nat>, now: nat, answers: nat -> Answer)
      returns (answer: Result<Report, Error>, applied: seq<Frame>)
      requires Valid()
      modifies this
      ensures Valid() && Outcome(State(), answer, applied) == Submit(old(State()), m, cost, now, answers)
    {
      hide SubmitFrame, Ranged, GapExpired;
      var error := TickAt(now);
      if error.Some? {
        return Err(error.value), [];
      }
      if m.session != session {
        return Err(WrongSession), [];
      }
      if m.version != 3 || m.stream <= 0 || !Numberable(m.number) || cost.None? {
        return Err(InvalidMessage), [];
      }
      if m.stream !in streams {
        return Err(Protocol), [];
      }
      var f := Frame(m.stream, m.number.value, m.kind, m.rest);
      var st, count := streams[m.stream], |streams|;
      RangedInRange(st);
      SubmitRanged(OnDesk(m.stream, st, [], []), limits, direction, count, f, cost.value + FRAME_OVERHEAD, now, answers);
      var status, resolved;
      st, status, applied, resolved := Place(m.stream, st, f, cost.value + FRAME_OVERHEAD, now, count, answers);
      streams := streams[m.stream := st];
      match status {
        case Ok(value) =>
          return Ok(Report(value, resolved)), applied;
        case Err(e) =>
          failed := failed || e.Protocol? || e.ApplyRejected?;
          return Err(e), applied;
      }
    }

    /** Try again what the application could not take before. */
    method RetryStream(id: Int64, now: nat, answers: nat -> Answer)
      returns (answer: Result<Report, Error>, applied: seq<Frame>)
      requires Valid()
      modifies this
      ensures Valid() && Outcome(State(), answer, applied) == Retry(old(State()), id, now, answers)
    {
      hide Drain, Ranged, GapExpired;
      var error := TickAt(now);
      if error.Some? {
        return Err(error.value), [];
      }
      if id !in streams {
        return Err(Protocol), [];
      }
      DrainRanged(OnDesk(id, streams[id], [], []), answers, 0);
      var st, failure, resolved;
      st, failure, applied, resolved := DrainPending(id, streams[id], answers, 0, [], []);
      streams := streams[id := st];
      if failure.Some? {
        failed := failed || failure.value.Protocol? || failure.value.ApplyRejected?;
        return Err(failure.value), applied;
      }
      var status :=
        if resolved != [] then Applied else if st.pending == map[] then AlreadyResolved else Buffered;
      return Ok(Report(status, resolved)), applied;
    }
  }

  lemma RangedInRange(st: StreamState)
    requires Ranged(st)
    ensures InRange(st.pending)
  {
  }
}
