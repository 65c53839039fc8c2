/** The profile-3 ordering kernel of `src/sequenced.rs` as values: a numbering sender and a reassembling receiver. */
module SequencedSpec {
  import opened Base
  import opened Cost
  import opened Sums

  type Int64 = x: int | -0x8000_0000_0000_0000 <= x <= 0x7FFF_FFFF_FFFF_FFFF

  const MAX_LIFETIME_STREAMS: nat := 4096
  const MAX_ACTIVE_STREAMS: nat := 64
  const MAX_REORDER_PER_STREAM: nat := 8
  const MAX_REORDER_PER_BINDING: nat := 32
  const GAP_TIMEOUT_MS: nat := 30_000

  /** Charges that include the compiler's size of a record: left open here. */
  type RecordSize = n: nat | 256 <= n <= 4096 witness 512
  const RECORD_CHARGE: RecordSize
  type FrameSize = n: nat | 128 <= n <= 4096 witness 512
  const FRAME_OVERHEAD: FrameSize

  datatype Direction = FromInitiator | FromEndpoint

  datatype Kind =
    | Open | CheckIdentity | Opened | OpenFailed | IdentityChecked | IdentityCheckFailed
    | Failed | Cancel | Closed | Close | Window | Flushed | Data | OtherKind(field: int)

  /** A message as it is handed in; `rest` stands for all its other fields. */
  datatype Message = Message(session: seq<byte>, version: int, stream: Int64, number: Option<Int64>, kind: Kind, rest: int)

  /** A numbered message of the session. */
  datatype Frame = Frame(stream: Int64, number: Int64, kind: Kind, rest: int)

  datatype Error =
    | InvalidMessage | WrongSession | CapacityError | WouldBlock | Protocol | GapTimeout | ApplyRejected | ClosedError

  /** What the host's apply callback answers to one frame. */
  datatype Answer = Done | Blocked | Refused

  datatype Status = Buffered | Applied | Superseded | AlreadyResolved

  datatype Resolution = Resolution(stream: int, number: int, status: Status)

  datatype Report = Report(submitted: Status, resolved: seq<Resolution>)

  predicate SequencedLimits(l: Limits) {
    && ValidLimits(l)
    && l.queuedBytes >= 2 * (l.encodedFrame + l.decodeAllocation + FRAME_OVERHEAD) + l.controlReserveBytes + RECORD_CHARGE
    && l.queuedFrames >= l.controlReserveFrames + 2
  }

  predicate FirstKind(direction: Direction, kind: Kind) {
    match direction
    case FromInitiator => kind.Open? || kind.CheckIdentity?
    case FromEndpoint =>
      kind.Opened? || kind.OpenFailed? || kind.IdentityChecked? || kind.IdentityCheckFailed? || kind.Failed?
  }

  predicate Abortive(kind: Kind) {
    kind.OpenFailed? || kind.IdentityCheckFailed? || kind.Failed? || kind.Cancel?
  }

  predicate Final(kind: Kind) {
    Abortive(kind) || kind.Closed? || kind.IdentityChecked?
  }

  // ---------------------------------------------------------------------------------------------------------------
  // The sender
  // ---------------------------------------------------------------------------------------------------------------

  datatype Queued = Queued(frame: Frame, charge: nat)

  datatype Outbound = Outbound(
    session: seq<byte>, direction: Direction, limits: Limits, maxQueued: nat,
    queue: seq<Queued>, queuedCharge: int, next: map<int, Int64>, ended: set<int>, closeSent: set<int>)

  function NewOutbound(session: seq<byte>, direction: Direction, limits: Limits, maxQueued: nat): Outbound {
    Outbound(session, direction, limits, maxQueued, [], 0, map[], {}, {})
  }

  /** What a stream that has sent Close may still send. */
  predicate AfterClose(kind: Kind) {
    kind.Window? || kind.Flushed? || kind.Cancel? || kind.Failed?
  }

  /** Why `m` may not be numbered, if it may not. */
  function Objection(o: Outbound, m: Message): Option<Error> {
    var newStream := m.stream !in o.next;
    if m.session != o.session then Some(WrongSession)
    else if m.version != 3 || m.stream <= 0 || m.number.Some? then Some(InvalidMessage)
    else if m.stream in o.ended then Some(ClosedError)
    else if m.stream in o.closeSent && !AfterClose(m.kind) then Some(Protocol)
    else if newStream && |o.next| >= MAX_LIFETIME_STREAMS then Some(CapacityError)
    else if newStream && SubSat(|o.next|, |o.ended|) >= MAX_ACTIVE_STREAMS then Some(CapacityError)
    else if newStream && !FirstKind(o.direction, m.kind) then Some(Protocol)
    else if !newStream && o.next[m.stream] + 1 > I64_MAX then Some(CapacityError)
    else None
  }

  function NextSequence(o: Outbound, stream: int): Int64 {
    if stream in o.next then o.next[stream] else 1
  }

  predicate QueueFull(o: Outbound, kind: Kind, charge: nat) {
    var control := !kind.Data?;
    || |o.queue| >= o.maxQueued + (if control then o.limits.controlReserveFrames else 0)
    || o.queuedCharge + charge > o.limits.queuedBytes - (if control then 0 else o.limits.controlReserveBytes)
  }

  /** `cost` is typed admission's charge for the numbered message, or nothing when it is inadmissible. */
  function Enqueue(o: Outbound, m: Message, cost: Option<nat>): (Outbound, Result<int, Error>) {
    match Objection(o, m)
    case Some(error) => (o, Err(error))
    case None =>
      if cost.None? then (o, Err(InvalidMessage))
      else
        var charge := cost.value + FRAME_OVERHEAD;
        var sequence := NextSequence(o, m.stream);
        if QueueFull(o, m.kind, charge) then (o, Err(WouldBlock))
        else
          (o.(
           queuedCharge := o.queuedCharge + charge,
           queue := o.queue + [Queued(Frame(m.stream, sequence, m.kind, m.rest), charge)],
           next := o.next[m.stream := sequence + 1],
           closeSent := if m.kind.Close? then o.closeSent + {m.stream} else o.closeSent,
           ended := if Final(m.kind) then o.ended + {m.stream} else o.ended),
           Ok(sequence))
  }

  function Pop(o: Outbound): (Outbound, Option<Frame>) {
    if o.queue == [] then (o, None)
    else
      (o.(queue := o.queue[1..], queuedCharge := o.queuedCharge - o.queue[0].charge), Some(o.queue[0].frame))
  }

  // ---------------------------------------------------------------------------------------------------------------
  // One stream of the receiver
  // ---------------------------------------------------------------------------------------------------------------

  datatype Pending = Pending(frame: Frame, charge: nat)

  datatype StreamState = StreamState(
    expected: int,
    pending: map<int, Pending>,
    gapSince: Option<nat>,
    opening: Option<Frame>,
    terminal: Option<Frame>)

  const FRESH: StreamState := StreamState(1, map[], None, None, None)

  /** One stream on the desk, with the receiver's counters and what this call has applied and resolved so far. */
  datatype Desk = Desk(
    id: int, st: StreamState, frames: int, charge: int, retained: int, applied: seq<Frame>, resolved: seq<Resolution>)

  function ChargeOf(p: Pending): int {
    p.charge
  }

  ghost function PendingCharge(pending: map<int, Pending>): int {
    SumTo(pending, ChargeOf, I64_MAX)
  }

  /** What the records of that many streams are charged. */
  function Records(streams: nat): int {
    streams * RECORD_CHARGE
  }

  function Available(l: Limits): int {
    l.queuedBytes - l.controlReserveBytes
  }

  function PredecessorReserve(l: Limits): int {
    l.encodedFrame + l.decodeAllocation + FRAME_OVERHEAD
  }

  /** Room to retain `charge`, once `releasing` is given up. `streams` counts all registered streams. */
  predicate RetainFits(d: Desk, l: Limits, streams: nat, charge: nat, releasing: int) {
    Records(streams) + d.retained + SubSat(d.charge, releasing) + charge <= Available(l)
  }

  /** The frames that wait beyond the next expected one. */
  function Beyond(st: StreamState): set<int> {
    set k | k in st.pending && k > st.expected
  }

  predicate BufferFits(d: Desk, l: Limits, streams: nat, charge: nat, outOfOrder: bool) {
    && !(outOfOrder && (|Beyond(d.st)| >= MAX_REORDER_PER_STREAM || d.frames >= MAX_REORDER_PER_BINDING))
    && d.charge + d.retained + Records(streams) + charge + (if outOfOrder then PredecessorReserve(l) else 0)
       <= Available(l)
    && d.frames + 1 + (if outOfOrder then 1 else 0) <= l.queuedFrames - l.controlReserveFrames
  }

  function Buffer(d: Desk, f: Frame, charge: nat, now: nat): Desk {
    d.(
    frames := d.frames + 1,
    charge := d.charge + charge,
    st := d.st.(
      gapSince := if d.st.gapSince.Some? then d.st.gapSince else Some(now),
      pending := d.st.pending[f.number := Pending(f, charge)]))
  }

  /** An applied frame moves the stream on; the first one and the last one are retained for comparison. */
  function MarkApplied(d: Desk, f: Frame, charge: nat): (r: (Desk, Option<Error>))
    ensures r.0.st.pending == d.st.pending
  {
    var opens := f.number == 1 && !Final(f.kind);
    var d1 := if opens then d.(st := d.st.(opening := Some(f)), retained := d.retained + charge) else d;
    if f.number + 1 > I64_MAX then (d1, Some(CapacityError))
    else
      var d2 := d1.(st := d1.st.(expected := f.number + 1));
      if !Final(f.kind) then (d2, None)
      else if d2.st.pending != map[] then (d2, Some(Protocol))
      else
        (d2.(st := d2.st.(terminal := Some(f)), retained := d2.retained + (if f.number != 1 then charge else 0)), None)
  }

  /** The frame at `expected` taken off the pending ones. */
  function Unbuffered(d: Desk): Desk
    requires d.st.expected in d.st.pending
  {
    d.(st := d.st.(pending := d.st.pending - {d.st.expected}))
  }

  function Uncharged(d: Desk, charge: nat): Desk {
    d.(frames := d.frames - 1, charge := d.charge - charge)
  }

  function Note(d: Desk, f: Frame, status: Status): Desk {
    d.(resolved := d.resolved + [Resolution(d.id, f.number, status)])
  }

  function Deliver(d: Desk, f: Frame): Desk {
    d.(applied := d.applied + [f])
  }

  /** An applied frame that was waiting, accounted for. */
  function TakePending(d: Desk): (r: (Desk, Option<Error>))
    requires d.st.expected in d.st.pending
    ensures r.0.st.pending == d.st.pending - {d.st.expected}
  {
    var p := d.st.pending[d.st.expected];
    var (d1, error) := MarkApplied(Uncharged(Deliver(Unbuffered(d), p.frame), p.charge), p.frame, p.charge);
    (if error.Some? then d1 else Note(d1, p.frame, Applied), error)
  }

  function CloseGap(d: Desk): Desk {
    if d.st.pending == map[] then d.(st := d.st.(gapSince := None)) else d
  }

  /** Apply waiting frames while the next expected one is among them; the `k`-th answer is the callback's next. */
  function Drain(d: Desk, answers: nat -> Answer, k: nat): (Desk, Option<Error>)
    decreases |d.st.pending|
  {
    if d.st.expected !in d.st.pending then (CloseGap(d), None)
    else
      var p := d.st.pending[d.st.expected];
      if Final(p.frame.kind) && Unbuffered(d).st.pending != map[] then (d, Some(Protocol))
      else
        match answers(k)
        case Blocked => (CloseGap(d), None)
        case Refused => (Unbuffered(d), Some(ApplyRejected))
        case Done =>
          var (d1, error) := TakePending(d);
          if error.Some? then (d1, error) else Drain(d1, answers, k + 1)
  }

  /** The answer to a frame of a stream that has ended. */
  function AfterEnd(st: StreamState, f: Frame): Result<Status, Error>
    requires st.terminal.Some?
  {
    var t := st.terminal.value;
    if f.number == 1 && st.opening.Some? && st.opening.value != f then Err(Protocol)
    else if f.number < t.number then Ok(if f.number < st.expected then AlreadyResolved else Superseded)
    else if f == t then Ok(AlreadyResolved)
    else Err(Protocol)
  }

  /** An abort that may jump a gap. */
  predicate Jumps(st: StreamState, direction: Direction, f: Frame) {
    && f.number > st.expected && Abortive(f.kind)
    && (st.opening.Some? || (direction == FromInitiator && f.kind.Cancel?))
  }

  /** Pending frames that an abort may not jump: a final one before it, or any after it. */
  predicate BarsJump(st: StreamState, f: Frame) {
    || (exists k | k in st.pending && k < f.number :: Final(st.pending[k].frame.kind))
    || (exists k | k in st.pending :: k > f.number)
  }

  ghost function Superseding(stream: int, keys: seq<int>): seq<Resolution> {
    seq(|keys|, i requires 0 <= i < |keys| => Resolution(stream, keys[i], Superseded))
  }

  /** The stream after an abort: what was waiting is superseded. */
  ghost function Aborted(d: Desk, f: Frame, charge: nat): Desk {
    var waiting := d.st.pending;
    Deliver(d, f).(
    st := d.st.(pending := map[], terminal := Some(f), gapSince := None),
    frames := d.frames - |waiting|,
    charge := d.charge - PendingCharge(waiting),
    retained := d.retained + charge,
    resolved := d.resolved + Superseding(d.id, KeysTo(waiting, I64_MAX)) + [Resolution(d.id, f.number, Applied)])
  }

  ghost function Abort(d: Desk, l: Limits, streams: nat, f: Frame, charge: nat, answers: nat -> Answer)
    : (Desk, Result<Status, Error>)
  {
    if BarsJump(d.st, f) then (d, Err(Protocol))
    else if !RetainFits(d, l, streams, charge, PendingCharge(d.st.pending)) then (d, Err(WouldBlock))
    else
      match answers(0)
      case Blocked => (d, Err(WouldBlock))
      case Refused => (d, Err(ApplyRejected))
      case Done => (Aborted(d, f, charge), Ok(Applied))
  }

  /** The next frame, applied: it is marked, noted, and what waited behind it drained. */
  function Applying(d: Desk, f: Frame, charge: nat, answers: nat -> Answer): (Desk, Option<Error>) {
    var (d1, error) := MarkApplied(Deliver(d, f), f, charge);
    if error.Some? then (d1, error) else Drain(Note(d1, f, Applied), answers, 1)
  }

  /** The frame that is next in order. */
  function Advance(d: Desk, l: Limits, streams: nat, f: Frame, charge: nat, now: nat, answers: nat -> Answer)
    : (Desk, Result<Status, Error>)
  {
    if Final(f.kind) && d.st.pending != map[] then (d, Err(Protocol))
    else if (f.number == 1 || Final(f.kind)) && !RetainFits(d, l, streams, charge, 0) then (d, Err(WouldBlock))
    else
      match answers(0)
      case Refused => (d, Err(ApplyRejected))
      case Blocked =>
        if BufferFits(d, l, streams, charge, false) then (Buffer(d, f, charge, now), Ok(Buffered)) else (d, Err(WouldBlock))
      case Done =>
        var (d1, error) := Applying(d, f, charge, answers);
        (d1, if error.Some? then Err(error.value) else Ok(Applied))
  }

  /** `submit_inner`. */
  ghost function SubmitFrame(
    d: Desk, l: Limits, direction: Direction, streams: nat, f: Frame, charge: nat, now: nat, answers: nat -> Answer)
    : (Desk, Result<Status, Error>)
  {
    if d.st.terminal.Some? then (d, AfterEnd(d.st, f))
    else if f.number < d.st.expected then
      (d, if f.number == 1 && d.st.opening != Some(f) then Err(Protocol) else Ok(AlreadyResolved))
    else if f.number in d.st.pending then (d, if d.st.pending[f.number].frame != f then Err(Protocol) else Ok(Buffered))
    else if f.number == 1 && !FirstKind(direction, f.kind) then (d, Err(Protocol))
    else if Jumps(d.st, direction, f) then Abort(d, l, streams, f, charge, answers)
    else if f.number > d.st.expected then
      if BufferFits(d, l, streams, charge, true) then (Buffer(d, f, charge, now), Ok(Buffered)) else (d, Err(WouldBlock))
    else Advance(d, l, streams, f, charge, now, answers)
  }

  // ---------------------------------------------------------------------------------------------------------------
  // The receiver
  // ---------------------------------------------------------------------------------------------------------------

  datatype Receiver = Receiver(
    session: seq<byte>, direction: Direction, limits: Limits, streams: map<int, StreamState>,
    frames: int, charge: int, retained: int, failed: bool)

  function NewReceiver(session: seq<byte>, direction: Direction, limits: Limits): Receiver {
    Receiver(session, direction, limits, map[], 0, 0, 0, false)
  }

  function Active(r: Receiver): set<int> {
    set id | id in r.streams && r.streams[id].terminal.None?
  }

  function Register(r: Receiver, id: Int64): (Receiver, Result<(), Error>) {
    if r.failed then (r, Err(ClosedError))
    else if id <= 0 || id in r.streams then (r, Err(Protocol))
    else if |r.streams| >= MAX_LIFETIME_STREAMS || |Active(r)| >= MAX_ACTIVE_STREAMS then (r, Err(CapacityError))
    else if Records(|r.streams| + 1) + r.retained + r.charge + PredecessorReserve(r.limits) > Available(r.limits) then
      (r, Err(CapacityError))
    else (r.(streams := r.streams[id := FRESH]), Ok(()))
  }

  predicate GapExpired(r: Receiver, now: nat) {
    exists id | id in r.streams ::
      r.streams[id].gapSince.Some? && now >= AddSatU64(r.streams[id].gapSince.value, GAP_TIMEOUT_MS)
  }

  function Tick(r: Receiver, now: nat): (Receiver, Option<Error>) {
    if r.failed then (r, Some(ClosedError))
    else if GapExpired(r, now) then (r.(failed := true), Some(GapTimeout))
    else (r, None)
  }

  function Lift(r: Receiver, id: int): Desk
    requires id in r.streams
  {
    Desk(id, r.streams[id], r.frames, r.charge, r.retained, [], [])
  }

  predicate Fatal(error: Option<Error>) {
    error.Some? && (error.value.Protocol? || error.value.ApplyRejected?)
  }

  function Settle(r: Receiver, id: int, d: Desk, error: Option<Error>): Receiver {
    r.(
    streams := r.streams[id := d.st], frames := d.frames, charge := d.charge, retained := d.retained,
    failed := r.failed || Fatal(error))
  }

  function ErrorOf<T>(r: Result<T, Error>): Option<Error> {
    match r
    case Ok(_) => None
    case Err(e) => Some(e)
  }

  /** The sequence numbers that admission lets a message carry. */
  predicate Numberable(number: Option<Int64>) {
    number.Some? && 0 < number.value < I64_MAX
  }

  datatype Outcome = Outcome(r: Receiver, answer: Result<Report, Error>, applied: seq<Frame>)

  ghost function Submit(r: Receiver, m: Message, cost: Option<nat>, now: nat, answers: nat -> Answer): Outcome {
    var (r1, error) := Tick(r, now);
    if error.Some? then Outcome(r1, Err(error.value), [])
    else if m.session != r.session then Outcome(r, Err(WrongSession), [])
    else if m.version != 3 || m.stream <= 0 || !Numberable(m.number) || cost.None? then Outcome(r, Err(InvalidMessage), [])
    else if m.stream !in r.streams then Outcome(r, Err(Protocol), [])
    else
      var f := Frame(m.stream, m.number.value, m.kind, m.rest);
      var (d, answer) :=
        SubmitFrame(
          Lift(r, m.stream), r.limits, r.direction, |r.streams|, f, cost.value + FRAME_OVERHEAD, now, answers);
      Outcome(
        Settle(r, m.stream, d, ErrorOf(answer)),
        match answer case Ok(status) => Ok(Report(status, d.resolved)) case Err(e) => Err(e),
        d.applied)
  }

  function Retry(r: Receiver, id: Int64, now: nat, answers: nat -> Answer): Outcome {
    var (r1, error) := Tick(r, now);
    if error.Some? then Outcome(r1, Err(error.value), [])
    else if id !in r.streams then Outcome(r, Err(Protocol), [])
    else
      var (d, failure) := Drain(Lift(r, id), answers, 0);
      var status :=
        if d.resolved != [] then Applied else if d.st.pending == map[] then AlreadyResolved else Buffered;
      Outcome(
        Settle(r, id, d, failure),
        if failure.Some? then Err(failure.value) else Ok(Report(status, d.resolved)),
        d.applied)
  }
}
