/**
 The admission cost of a message tree, stated once and independently of any walk: how many bytes it encodes to, how
 many nodes it has, how much a decode of it is charged, how deep it goes and which lengths it carries.

 Two walks of the source have to agree with it: the typed walk before encoding (`src/budget.rs`, `src/admission.rs`)
 and the scan of the encoded bytes before decoding (`src/codec/preflight.rs`).
 */
module Cost {
  import opened Base
  import opened Cbor

  const MAX_FRAME := 128 * 1024
  const MAX_BOOTSTRAP := 64 * 1024
  const MAX_DATA := 64 * 1024
  const MAX_METADATA := 16 * 1024
  const MAX_DEPTH := 16
  const MAX_ENTRIES := 256
  const MAX_ALLOCATION := 512 * 1024
  const MAX_BOOTSTRAP_ALLOCATION := 256 * 1024

  /** The in-memory size of one decoded value: fixed by the compiler, left open here. */
  type CborSize = n: nat | 1 <= n <= 512 witness 32
  const CBOR_SIZE: CborSize
  const NODE_CHARGE: nat := 4 * CBOR_SIZE + 32
  const KEY_CHARGE: nat := 32

  datatype Limits = Limits(
    encodedFrame: int,
    dataPayload: int,
    metadataBytes: int,
    nesting: int,
    collectionEntries: int,
    decodeAllocation: int,
    queuedBytes: int,
    queuedFrames: int,
    receiveWindow: int,
    controlReserveBytes: int,
    controlReserveFrames: int)

  /** `validate::limits`. */
  predicate ValidLimits(l: Limits) {
    && 0 < l.encodedFrame <= MAX_FRAME
    && 0 < l.dataPayload <= MAX_DATA
    && 0 < l.metadataBytes <= MAX_METADATA
    && 0 < l.nesting <= MAX_DEPTH
    && 0 < l.collectionEntries <= MAX_ENTRIES
    && 0 < l.decodeAllocation <= MAX_ALLOCATION
    && 0 < l.queuedBytes <= 4 * 1024 * 1024
    && 0 < l.queuedFrames <= 64
    && 0 < l.receiveWindow <= l.queuedBytes
    && 0 < l.controlReserveBytes < l.queuedBytes
    && 0 < l.controlReserveFrames < l.queuedFrames
  }

  /** The frame bound and the allocation bound, smaller for a bootstrap message. */
  function FrameCap(l: Limits, bootstrap: bool): int {
    if bootstrap then Min(l.encodedFrame, MAX_BOOTSTRAP) else l.encodedFrame
  }

  function AllocationCap(l: Limits, bootstrap: bool): int {
    if bootstrap then Min(l.decodeAllocation, MAX_BOOTSTRAP_ALLOCATION) else l.decodeAllocation
  }

  // ---------------------------------------------------------------------------------------------------------------
  // Nodes, allocation and height
  // ---------------------------------------------------------------------------------------------------------------

  function Nodes(v: Cbor): (n: nat)
    ensures n >= 1
    decreases v, 0
  {
    match v
    case Array(items) => 1 + NodesItems(items)
    case Map(es) => 1 + NodesEntries(es)
    case _ => 1
  }

  function NodesItems(items: seq<Cbor>): (n: nat)
    ensures n >= |items|
    decreases items, 1
  {
    if items == [] then 0 else Nodes(items[0]) + NodesItems(items[1..])
  }

  function NodesEntry(e: Entry): (n: nat)
    ensures n >= 1
    decreases e, 0
  {
    Nodes(e.value)
  }

  function NodesEntries(es: seq<Entry>): (n: nat)
    ensures n >= |es|
    decreases es, 1
  {
    if es == [] then 0 else NodesEntry(es[0]) + NodesEntries(es[1..])
  }

  /** The conservative charge for the decoded tree, its keys, its string capacity and its typed copies. */
  function Allocation(v: Cbor): (n: nat)
    decreases v, 0
  {
    NODE_CHARGE +
    match v
    case Bytes(b) => 4 * |b|
    case Text(t) => 4 * |t|
    case Array(items) => AllocationItems(items)
    case Map(es) => AllocationEntries(es)
    case _ => 0
  }

  function AllocationItems(items: seq<Cbor>): (n: nat)
    decreases items, 1
  {
    if items == [] then 0 else Allocation(items[0]) + AllocationItems(items[1..])
  }

  function AllocationEntry(e: Entry): (n: nat)
    decreases e, 0
  {
    KEY_CHARGE + Allocation(e.value)
  }

  function AllocationEntries(es: seq<Entry>): (n: nat)
    decreases es, 1
  {
    if es == [] then 0 else AllocationEntry(es[0]) + AllocationEntries(es[1..])
  }

  /** How far below `v` its deepest node lies. */
  function Height(v: Cbor): (h: nat)
    decreases v, 0
  {
    match v
    case Array(items) => HeightItems(items)
    case Map(es) => HeightEntries(es)
    case _ => 0
  }

  function HeightItems(items: seq<Cbor>): (h: nat)
    decreases items, 1
  {
    if items == [] then 0 else Max(1 + Height(items[0]), HeightItems(items[1..]))
  }

  function HeightEntry(e: Entry): (h: nat)
    decreases e, 0
  {
    Height(e.value)
  }

  function HeightEntries(es: seq<Entry>): (h: nat)
    decreases es, 1
  {
    if es == [] then 0 else Max(1 + HeightEntry(es[0]), HeightEntries(es[1..]))
  }

  // ---------------------------------------------------------------------------------------------------------------
  // Positions that matter: the payload of Data and the stream number
  // ---------------------------------------------------------------------------------------------------------------

  /** Envelope field 16 is Data and its field 2 the payload: the one string bounded by `dataPayload`. */
  predicate PayloadKey(depth: nat, parent: int, key: int) {
    depth == 1 && parent == 16 && key == 2
  }

  predicate LengthsFit(v: Cbor, depth: nat, parent: int, payload: bool, l: Limits)
    decreases v, 0
  {
    match v
    case Bytes(b) => |b| <= if payload then l.dataPayload else l.metadataBytes
    case Text(t) => |t| <= l.metadataBytes
    case Array(items) => LengthsFitItems(items, depth + 1, l)
    case Map(es) => LengthsFitEntries(es, depth, parent, l)
    case _ => true
  }

  predicate LengthsFitItems(items: seq<Cbor>, depth: nat, l: Limits)
    decreases items, 1
  {
    items != [] ==> LengthsFit(items[0], depth, 0, false, l) && LengthsFitItems(items[1..], depth, l)
  }

  predicate LengthsFitEntry(e: Entry, depth: nat, parent: int, l: Limits)
    decreases e, 0
  {
    LengthsFit(e.value, depth + 1, e.key, PayloadKey(depth, parent, e.key), l)
  }

  predicate LengthsFitEntries(es: seq<Entry>, depth: nat, parent: int, l: Limits)
    decreases es, 1
  {
    es != [] ==> LengthsFitEntry(es[0], depth, parent, l) && LengthsFitEntries(es[1..], depth, parent, l)
  }

  /** Every string within the metadata bound, wherever it stands. */
  predicate MetaFit(v: Cbor, l: Limits)
    decreases v, 0
  {
    match v
    case Bytes(b) => |b| <= l.metadataBytes
    case Text(t) => |t| <= l.metadataBytes
    case Array(items) => MetaFitItems(items, l)
    case Map(es) => MetaFitEntries(es, l)
    case _ => true
  }

  predicate MetaFitItems(items: seq<Cbor>, l: Limits)
    decreases items, 1
  {
    items != [] ==> MetaFit(items[0], l) && MetaFitItems(items[1..], l)
  }

  predicate MetaFitEntry(e: Entry, l: Limits)
    decreases e, 0
  {
    MetaFit(e.value, l)
  }

  predicate MetaFitEntries(es: seq<Entry>, l: Limits)
    decreases es, 1
  {
    es != [] ==> MetaFitEntry(es[0], l) && MetaFitEntries(es[1..], l)
  }

  /** Whether `v` is, or holds, the stream number zero: envelope field 3, at depth one. */
  predicate MarksBootstrap(v: Cbor, depth: nat, parent: int)
    decreases v, 0
  {
    || (depth == 1 && parent == 3 && v == Int(0))
    || match v {
         case Array(items) => MarksItems(items, depth + 1)
         case Map(es) => MarksEntries(es, depth)
         case _ => false
       }
  }

  predicate MarksItems(items: seq<Cbor>, depth: nat)
    decreases items, 1
  {
    items != [] && (MarksBootstrap(items[0], depth, 0) || MarksItems(items[1..], depth))
  }

  predicate MarksEntry(e: Entry, depth: nat)
    decreases e, 0
  {
    MarksBootstrap(e.value, depth + 1, e.key)
  }

  predicate MarksEntries(es: seq<Entry>, depth: nat)
    decreases es, 1
  {
    es != [] && (MarksEntry(es[0], depth) || MarksEntries(es[1..], depth))
  }

  // ---------------------------------------------------------------------------------------------------------------
  // The verdict
  // ---------------------------------------------------------------------------------------------------------------

  /** What is charged in all: the encoded bytes and the decode allocation. */
  function TotalCharge(v: Cbor): nat {
    |Flat(v)| + Allocation(v)
  }

  /** The tree fits every negotiated bound. */
  predicate Fits(v: Cbor, l: Limits) {
    var bootstrap := MarksBootstrap(v, 0, 0);
    && Height(v) <= l.nesting
    && Nodes(v) <= l.collectionEntries
    && LengthsFit(v, 0, 0, false, l)
    && |Flat(v)| <= FrameCap(l, bootstrap)
    && TotalCharge(v) <= AllocationCap(l, bootstrap)
  }
}
