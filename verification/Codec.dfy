/** The codec's pipeline, from typed messages to bytes and back: `src/codec.rs`. */
module Codec {
  import opened Base
  import opened Cbor
  import opened CborProofs
  import opened CborCodec
  import opened CborMachine
  import opened Cost
  import opened StreamProtocol
  import opened StreamAdmission
  import opened EnvelopeReader
  import opened EnvelopeTrees
  import opened Admission
  import P = Preflight

  datatype Error = FrameTooLarge | Bounds | InvalidMessage | Malformed

  const DEFAULT_LIMITS: Limits :=
    Limits(131072, 65536, 16384, 16, 256, 524288, 4194304, 64, 1048576, 65536, 8)

  /** What fits negotiated limits fits the default ones, which are the ceilings. */
  lemma {:induction false} DefaultsAreCeilings(v: Cbor, depth: nat, parent: int, payload: bool, l: Limits)
    requires ValidLimits(l) && LengthsFit(v, depth, parent, payload, l)
    ensures LengthsFit(v, depth, parent, payload, DEFAULT_LIMITS)
    decreases v, 0
  {
    match v
    case Array(items) => DefaultsForItems(items, depth + 1, l);
    case Map(es) => DefaultsForEntries(es, depth, parent, l);
    case _ =>
  }

  lemma {:induction false} DefaultsForItems(items: seq<Cbor>, depth: nat, l: Limits)
    requires ValidLimits(l) && LengthsFitItems(items, depth, l)
    ensures LengthsFitItems(items, depth, DEFAULT_LIMITS)
    decreases items, 1
  {
    if items != [] {
      DefaultsAreCeilings(items[0], depth, 0, false, l);
      DefaultsForItems(items[1..], depth, l);
    }
  }

  lemma {:induction false} DefaultsForEntry(e: Entry, depth: nat, parent: int, l: Limits)
    requires ValidLimits(l) && LengthsFitEntry(e, depth, parent, l)
    ensures LengthsFitEntry(e, depth, parent, DEFAULT_LIMITS)
    decreases e, 0
  {
    DefaultsAreCeilings(e.value, depth + 1, e.key, PayloadKey(depth, parent, e.key), l);
  }

  lemma {:induction false} DefaultsForEntries(es: seq<Entry>, depth: nat, parent: int, l: Limits)
    requires ValidLimits(l) && LengthsFitEntries(es, depth, parent, l)
    ensures LengthsFitEntries(es, depth, parent, DEFAULT_LIMITS)
    decreases es, 1
  {
    if es != [] {
      DefaultsForEntry(es[0], depth, parent, l);
      DefaultsForEntries(es[1..], depth, parent, l);
    }
  }

  lemma {:induction false} DepthWithinHeight(v: Cbor)
    ensures Depth(v) <= Height(v) + 1
    decreases v, 0
  {
    match v
    case Array(items) => DepthItemsWithinHeight(items);
    case Map(es) => DepthEntriesWithinHeight(es);
    case _ =>
  }

  lemma {:induction false} DepthItemsWithinHeight(items: seq<Cbor>)
    ensures DepthItems(items) <= HeightItems(items)
    decreases items, 1
  {
    if items != [] {
      DepthWithinHeight(items[0]);
      DepthItemsWithinHeight(items[1..]);
    }
  }

  lemma {:induction false} DepthEntryWithinHeight(e: Entry)
    ensures DepthEntry(e) <= HeightEntry(e) + 1
    decreases e, 0
  {
    DepthWithinHeight(e.value);
  }

  lemma {:induction false} DepthEntriesWithinHeight(es: seq<Entry>)
    ensures DepthEntries(es) <= HeightEntries(es)
    decreases es, 1
  {
    if es != [] {
      DepthEntryWithinHeight(es[0]);
      DepthEntriesWithinHeight(es[1..]);
    }
  }

  /** The message is admitted under the defaults wherever it is admitted at all. */
  lemma DefaultsAdmit(e: Envelope, l: Limits)
    requires Admitted(e, l)
    ensures Admitted(e, DEFAULT_LIMITS)
  {
    hide Flat, Nodes, Allocation, Height, LengthsFit, MarksBootstrap, EnvelopeTree, EnvelopeValid;
    DefaultsAreCeilings(EnvelopeTree(e), 0, 0, false, l);
  }

  /** `admit_limited`. */
  method Admit(e: Envelope, limits: Limits) returns (r: Result<(), Error>)
    requires EnvelopeSound(e)
    ensures r.Ok? <==> Admitted(e, limits)
  {
    hide EnvelopeSound, EnvelopeTree, Fits, TotalCharge;
    if !ValidLimits(limits) {
      return Err(Bounds);
    }
    if !EnvelopeValid(e) {
      return Err(InvalidMessage);
    }
    var charge := AllocationCharge(e, limits);
    return if charge.Some? then Ok(()) else Err(Bounds);
  }

  /**
   `encode_limited`: admission under the negotiated and the default limits, the canonical bytes, and the scan of those
   bytes under both. The scans never refuse what the typed walk admitted.
   */
  method EncodeLimited(e: Envelope, limits: Limits) returns (r: Result<seq<byte>, Error>)
    requires EnvelopeSound(e)
    ensures r.Ok? <==> Admitted(e, limits)
    ensures r.Ok? ==> r.value == Encode(EnvelopeTree(e))
  {
    hide Wire, Flat, Fits, Ascending, Canon, EnvelopeTree, EnvelopeSound, EnvelopeValid;
    var admitted := Admit(e, limits);
    if admitted.Err? {
      return Err(admitted.error);
    }
    DefaultsAdmit(e, limits);
    admitted := Admit(e, DEFAULT_LIMITS);
    if admitted.Err? {
      return Err(Bounds);
    }
    EnvelopeTreeSound(e);
    var tree := EnvelopeTree(e);
    FloatFreeWire(tree);
    var bytes := EncodeInto(tree, []);
    AscendingIsCanonical(tree);
    assert bytes == Encode(tree);
    var scan := P.Check(bytes, DEFAULT_LIMITS);
    if scan.Ok? {
      scan := P.Check(bytes, limits);
    }
    if scan.Err? {
      return Err(Malformed);
    }
    BootstrapIsShort(e, limits);
    if e.stream == 0 && |bytes| > MAX_BOOTSTRAP {
      return Err(FrameTooLarge);
    }
    return Ok(bytes);
  }

  lemma BootstrapIsShort(e: Envelope, l: Limits)
    requires EnvelopeSound(e) && Admitted(e, l)
    ensures e.stream == 0 ==> |Flat(EnvelopeTree(e))| <= MAX_BOOTSTRAP
  {
    hide Flat, Nodes, Allocation, Height, LengthsFit, MarksBootstrap, EnvelopeTree, EnvelopeValid, EnvelopeSound;
    SoundField(e);
    EnvelopeCost(e, l);
  }

  lemma {:induction false} FloatFreeWire(v: Cbor)
    requires Wire(v)
    ensures FloatFree(v)
    decreases v, 0
  {
    match v
    case Array(items) => FloatFreeWireItems(items);
    case Map(es) => FloatFreeWireEntries(es);
    case _ =>
  }

  lemma {:induction false} FloatFreeWireItems(items: seq<Cbor>)
    requires WireItems(items)
    ensures FloatFreeItems(items)
    decreases items, 1
  {
    if items != [] {
      FloatFreeWire(items[0]);
      FloatFreeWireItems(items[1..]);
    }
  }

  lemma {:induction false} FloatFreeWireEntry(e: Entry)
    requires WireEntry(e)
    ensures FloatFreeEntry(e)
    decreases e, 0
  {
    FloatFreeWire(e.value);
  }

  lemma {:induction false} FloatFreeWireEntries(es: seq<Entry>)
    requires WireEntries(es)
    ensures FloatFreeEntries(es)
    decreases es, 1
  {
    if es != [] {
      FloatFreeWireEntry(es[0]);
      FloatFreeWireEntries(es[1..]);
    }
  }

  /**
   The scan and the decoder, up to the message tree: whatever bytes come in, a float-free tree that comes out fits the limits
   and has exactly these bytes; and a tree comes out of its own canonical bytes if it fits, and else nothing does.
   */
  method DecodeTree(bytes: seq<byte>, limits: Limits) returns (r: Result<Cbor, Error>)
    ensures r.Ok? && FloatFree(r.value) ==>
              ValidLimits(limits) && Wire(r.value) && Flat(r.value) == bytes && Fits(r.value, limits)
    ensures forall v | Wire(v) && Flat(v) == bytes ::
              if ValidLimits(limits) && Fits(v, limits) then r == Ok(v) else r.Err?
  {
    hide Wire, Flat, Nodes, Allocation, LengthsFit, MarksBootstrap, Ascending, Canon, FloatFree, DecItem, Height;
    if !ValidLimits(limits) {
      return Err(Bounds);
    }
    var scan := P.Check(bytes, limits);
    if scan.Err? {
      return Err(Malformed);
    }
    var item := DecodeAt(bytes, 0, 0, DEFAULT_MAX_DEPTH);
    assert bytes[0..|bytes|] == bytes;
    forall v | Wire(v) && Flat(v) == bytes && Fits(v, limits) ensures item == Ok((v, |bytes|)) {
      DepthWithinHeight(v);
      DecodesFlat(v, bytes, 0, 0, DEFAULT_MAX_DEPTH);
    }
    if item.Err? || item.value.1 != |bytes| {
      return Err(Malformed);
    }
    var v := item.value.0;
    if FloatFree(v) {
      FlattensDecoded(bytes, 0, 0, DEFAULT_MAX_DEPTH, v, |bytes|);
    }
    return Ok(v);
  }

  predicate ShortBootstrap(e: Envelope, bytes: seq<byte>) {
    e.stream == 0 ==> |bytes| <= MAX_BOOTSTRAP
  }

  /** The tree holds a message, and a valid one that may have come in so many bytes. */
  predicate Holds(reader: PartReader, v: Cbor, bytes: seq<byte>) {
    var m := ReadMessage(reader, v);
    m.Some? && EnvelopeValid(m.value) && ShortBootstrap(m.value, bytes)
  }

  /**
   `decode_limited`: whatever comes out is valid; and out of the bytes of a tree comes the message that it holds, if it
   holds one and fits the limits, and else nothing.
   */
  method DecodeLimited(bytes: seq<byte>, limits: Limits, reader: PartReader) returns (r: Result<Envelope, Error>)
    ensures r.Ok? ==> ValidLimits(limits) && EnvelopeValid(r.value) && ShortBootstrap(r.value, bytes)
    ensures forall v | Wire(v) && Flat(v) == bytes ::
              if ValidLimits(limits) && Fits(v, limits) && Holds(reader, v, bytes) then r == Ok(ReadMessage(reader, v).value)
              else r.Err?
  {
    hide Wire, Flat, Fits, FloatFree, ReadRecord, MessageOf, EnvelopeValid;
    var tree := DecodeTree(bytes, limits);
    if tree.Err? {
      return Err(tree.error);
    }
    if !ValidLimits(limits) {
      return Err(Bounds);
    }
    var record := ReadRecord(reader, tree.value);
    if record.None? {
      return Err(Malformed);
    }
    var message := MessageOf(record.value);
    if message.None? || !EnvelopeValid(message.value) {
      return Err(InvalidMessage);
    }
    if message.value.stream == 0 && |bytes| > MAX_BOOTSTRAP {
      return Err(FrameTooLarge);
    }
    return Ok(message.value);
  }

  /**
   Encodes a message and decodes its bytes under the same limits, whether or not the encoder let them out: encoder and
   decoder accept exactly the admitted messages, and then the very message comes back.
   */
  method ThereAndBack(e: Envelope, limits: Limits, reader: PartReader)
    returns (bytes: Result<seq<byte>, Error>, back: Result<Envelope, Error>)
    requires EnvelopeSound(e) && BodyReturns(reader, e.version, e.body)
    ensures bytes.Ok? <==> Admitted(e, limits)
    ensures bytes.Ok? ==> bytes.value == Flat(EnvelopeTree(e))
    ensures if Admitted(e, limits) then back == Ok(e) else back.Err?
  {
    hide Wire, Flat, Canon, Fits, EnvelopeTree, Ascending, ValidLimits, EnvelopeSound, EnvelopeValid, FloatFree, ReadMessage, BodyReturns;
    EnvelopeTreeSound(e);
    MessageComesBack(reader, e);
    var tree := EnvelopeTree(e);
    AscendingIsCanonical(tree);
    FloatFreeWire(tree);
    bytes := EncodeLimited(e, limits);
    var raw := EncodeInto(tree, []);
    assert raw == Flat(tree);
    back := DecodeLimited(raw, limits, reader);
    if Admitted(e, limits) {
      BootstrapIsShort(e, limits);
      assert Holds(reader, tree, raw);
    }
  }

  /** Two messages with the same bytes are the same message. */
  lemma BytesIdentify(e: Envelope, f: Envelope)
    requires EnvelopeSound(e) && EnvelopeSound(f) && Carries(e.body) && Carries(f.body)
    requires Flat(EnvelopeTree(e)) == Flat(EnvelopeTree(f))
    ensures Erase(e) == Erase(f)
  {
    hide Flat, Wire, Ascending, EnvelopeTree, EnvelopeSound, Carries, Erase;
    EnvelopeTreeSound(e);
    EnvelopeTreeSound(f);
    FlatInjective(EnvelopeTree(e), EnvelopeTree(f));
    TreeIdentifies(e, f);
  }
}
