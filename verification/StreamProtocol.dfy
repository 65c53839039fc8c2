/** The typed messages of one stream, the trees they encode to, and their admission. */
module StreamProtocol {
  import opened Base
  import opened Cbor
  import opened Cost

  datatype ErrorCode =
    | UnsupportedVersion | UnsupportedOperation | Unavailable | InvalidRequest | Capacity | TimeoutCode
    | CancelledCode | Authentication | Trust | Io | ProtocolCode | CarrierLostCode | RepositoryRefused

  datatype Effect = NoEffect | PossibleEffect

  datatype Disposition = Reusable | Discarded

  /**
   A part of a message that the stream only carries: connection facts or a failure's diagnostic detail. Its tree is
   what admission charges for; `wellFormed` is the verdict of the flat field checks on it (`src/codec/validate.rs`,
   `src/codec/failure_detail.rs`).
   */
  datatype Part = Part(tree: Cbor, wellFormed: bool)

  datatype Failure = Failure(
    code: ErrorCode,
    effect: Effect,
    facts: Option<Part>,
    setupCause: Option<int>,
    detail: Option<Part>)

  datatype ClosedReport = ClosedReport(
    disposition: Disposition,
    unreadResponseDiscarded: bool,
    facts: Part,
    failure: Option<Failure>)

  datatype Barrier = Barrier(id: int, offset: int)

  /** One body per message kind; `Foreign` stands for the kinds that no established stream exchanges. */
  datatype Body =
    | Data(offset: int, payload: seq<byte>)
    | Window(maxOffset: int)
    | Flush(barrier: Barrier)
    | Flushed(barrier: Barrier)
    | EndWrite(finalOffset: int)
    | Close(finalOffset: int)
    | Closed(report: ClosedReport)
    | Cancel(reason: ErrorCode)
    | Failed(failure: Failure)
    | Foreign(field: int, part: Part)

  /** `number` is the sequence number of a profile-3 message. */
  datatype Envelope = Envelope(version: int, session: seq<byte>, stream: int, number: Option<int>, body: Body)

  /** The fields of the kinds that are not written out: bind to open_failed, and the identity checks. */
  predicate ForeignField(field: int) {
    10 <= field <= 15 || 25 <= field <= 27
  }

  // ---------------------------------------------------------------------------------------------------------------
  // Trees
  // ---------------------------------------------------------------------------------------------------------------

  function CodeWire(c: ErrorCode): int {
    match c
    case UnsupportedVersion => 1
    case UnsupportedOperation => 2
    case Unavailable => 3
    case InvalidRequest => 4
    case Capacity => 5
    case TimeoutCode => 6
    case CancelledCode => 7
    case Authentication => 8
    case Trust => 9
    case Io => 10
    case ProtocolCode => 11
    case CarrierLostCode => 12
    case RepositoryRefused => 13
  }

  function EffectWire(e: Effect): int {
    if e.NoEffect? then 1 else 2
  }

  function DispositionWire(d: Disposition): int {
    if d.Reusable? then 1 else 2
  }

  function PartTree(part: Option<Part>): Cbor {
    if part.Some? then part.value.tree else Null
  }

  function FailureTree(f: Failure): Cbor {
    Map([
          Entry(1, Int(CodeWire(f.code))),
          Entry(2, Int(EffectWire(f.effect))),
          Entry(3, PartTree(f.facts)),
          Entry(4, if f.setupCause.Some? then Int(f.setupCause.value) else Null),
          Entry(5, PartTree(f.detail))])
  }

  function BodyTree(b: Body): Cbor {
    match b
    case Data(offset, payload) => Map([Entry(1, Int(offset)), Entry(2, Bytes(payload))])
    case Window(maxOffset) => Map([Entry(1, Int(maxOffset))])
    case Flush(barrier) => Map([Entry(1, Int(barrier.id)), Entry(2, Int(barrier.offset))])
    case Flushed(barrier) => Map([Entry(1, Int(barrier.id)), Entry(2, Int(barrier.offset))])
    case EndWrite(finalOffset) => Map([Entry(1, Int(finalOffset))])
    case Close(finalOffset) => Map([Entry(1, Int(finalOffset))])
    case Closed(report) =>
      Map([
            Entry(1, Int(DispositionWire(report.disposition))),
            Entry(2, Bool(report.unreadResponseDiscarded)),
            Entry(3, report.facts.tree),
            Entry(4, if report.failure.Some? then FailureTree(report.failure.value) else Null)])
    case Cancel(reason) => Map([Entry(1, Int(CodeWire(reason)))])
    case Failed(failure) => FailureTree(failure)
    case Foreign(_, part) => part.tree
  }

  /** The envelope field that carries the body; the kind's wire number is nine less. */
  function BodyField(b: Body): int {
    match b
    case Data(_, _) => 16
    case Window(_) => 17
    case Flush(_) => 18
    case Flushed(_) => 19
    case EndWrite(_) => 20
    case Close(_) => 21
    case Closed(_) => 22
    case Cancel(_) => 23
    case Failed(_) => 24
    case Foreign(field, _) => field
  }

  /** The body fields from `key` to 27: one holds the body, the others are null. */
  function Slots(key: int, field: int, tree: Cbor): seq<Entry>
    decreases 28 - key
  {
    if key > 27 then [] else [Entry(key, if key == field then tree else Null)] + Slots(key + 1, field, tree)
  }

  function NumberTree(number: Option<int>): Cbor {
    if number.Some? then Int(number.value) else Null
  }

  function HeaderSlots(e: Envelope): seq<Entry> {
    [
      Entry(1, Int(e.version)),
      Entry(2, Text(e.session)),
      Entry(3, Int(e.stream)),
      Entry(4, Int(BodyField(e.body) - 9)),
      Entry(5, NumberTree(e.number))]
  }

  function EnvelopeTree(e: Envelope): Cbor {
    Map(HeaderSlots(e) + Slots(10, BodyField(e.body), BodyTree(e.body)))
  }

  // ---------------------------------------------------------------------------------------------------------------
  // Admission
  // ---------------------------------------------------------------------------------------------------------------

  predicate FailureValid(f: Failure) {
    && (f.detail.Some? ==> f.detail.value.wellFormed)
    && (f.facts.Some? ==> f.facts.value.wellFormed)
  }

  predicate BodyValid(b: Body, version: int) {
    match b
    case Data(offset, payload) => 0 <= offset && offset + |payload| <= I64_MAX
    case Window(maxOffset) => 0 <= maxOffset
    case Flush(barrier) => 0 <= barrier.offset && 0 < barrier.id
    case Flushed(barrier) => 0 <= barrier.offset && 0 < barrier.id
    case EndWrite(finalOffset) => 0 <= finalOffset
    case Close(finalOffset) => 0 <= finalOffset
    case Closed(report) =>
      && report.facts.wellFormed
      && (report.failure.Some? ==>
            && FailureValid(report.failure.value)
            && report.failure.value.facts.None?
            && !(version == 1 && report.failure.value.code.RepositoryRefused?))
    case Cancel(reason) => reason.CancelledCode? || reason.TimeoutCode?
    case Failed(failure) =>
      && FailureValid(failure)
      && !(version == 1 && (failure.facts.Some? || failure.code.RepositoryRefused?))
    case Foreign(field, part) => ForeignField(field) && part.wellFormed && (field >= 25 ==> version >= 2)
  }

  /** `validate::envelope`: bootstrap kinds on stream zero of profile 1, and numbers exactly on the streams of profile 3. */
  predicate EnvelopeValid(e: Envelope) {
    && 1 <= e.version <= 3
    && 1 <= |e.session| <= 128
    && (if BodyField(e.body) <= 12 then e.stream == 0 && e.version == 1 else e.stream > 0)
    && (if e.version == 3 && e.stream > 0 then e.number.Some? && 0 < e.number.value < I64_MAX else e.number.None?)
    && BodyValid(e.body, e.version)
  }

  /** `codec::admit_limited`. */
  predicate Admitted(e: Envelope, l: Limits) {
    ValidLimits(l) && EnvelopeValid(e) && Fits(EnvelopeTree(e), l)
  }

  /** `binding::usable`. */
  predicate Usable(l: Limits) {
    && l.encodedFrame >= 4096
    && l.metadataBytes >= 256
    && l.nesting >= 10
    && l.collectionEntries >= 128
    && l.decodeAllocation >= 65536
    && l.controlReserveBytes >= 4096
    && l.controlReserveFrames >= 2
    && l.queuedBytes - l.controlReserveBytes >= l.encodedFrame + l.decodeAllocation
    && l.queuedFrames - l.controlReserveFrames >= 2
    && l.receiveWindow <= l.queuedBytes - l.controlReserveBytes
  }
}
