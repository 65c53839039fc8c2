/** The typed admission walk over a whole message: `visit_envelope` and its entry points in `src/admission.rs`. */
module Admission {
  import opened Base
  import opened Cbor
  import opened CborProofs
  import opened Cost
  import opened StreamProtocol
  import opened StreamAdmission
  import opened EnvelopeTrees
  import B = Budget

  // ---------------------------------------------------------------------------------------------------------------
  // Where the strings stand
  // ---------------------------------------------------------------------------------------------------------------

  /** Everywhere but in the fields of Data, the scan bounds strings as metadata. */
  lemma {:induction false} MetaIsLengths(v: Cbor, depth: nat, parent: int, l: Limits)
    requires depth >= 2 || (depth == 1 && parent != 16)
    ensures LengthsFit(v, depth, parent, false, l) <==> MetaFit(v, l)
    decreases v, 0
  {
    match v
    case Array(items) => MetaIsItems(items, depth + 1, l);
    case Map(es) => MetaIsEntries(es, depth, parent, l);
    case _ =>
  }

  lemma {:induction false} MetaIsItems(items: seq<Cbor>, depth: nat, l: Limits)
    requires depth >= 2
    ensures LengthsFitItems(items, depth, l) <==> MetaFitItems(items, l)
    decreases items, 1
  {
    if items != [] {
      MetaIsLengths(items[0], depth, 0, l);
      MetaIsItems(items[1..], depth, l);
    }
  }

  lemma {:induction false} MetaIsEntry(e: Entry, depth: nat, parent: int, l: Limits)
    requires depth >= 2 || (depth == 1 && parent != 16)
    ensures LengthsFitEntry(e, depth, parent, l) <==> MetaFitEntry(e, l)
    decreases e, 0
  {
    MetaIsLengths(e.value, depth + 1, e.key, l);
  }

  lemma {:induction false} MetaIsEntries(es: seq<Entry>, depth: nat, parent: int, l: Limits)
    requires depth >= 2 || (depth == 1 && parent != 16)
    ensures LengthsFitEntries(es, depth, parent, l) <==> MetaFitEntries(es, l)
    decreases es, 1
  {
    if es != [] {
      MetaIsEntry(es[0], depth, parent, l);
      MetaIsEntries(es[1..], depth, parent, l);
    }
  }

  // ---------------------------------------------------------------------------------------------------------------
  // Bodies
  // ---------------------------------------------------------------------------------------------------------------

  /** There is room for what a list of fields costs, as the scan counts it. */
  ghost predicate SumFits(b: B.Budget, s: Sum)
    reads b
  {
    && s.nodes >= 0 && s.bytes >= 0 && s.allocation >= 0
    && s.height <= b.limits.nesting && s.lengths && b.RoomFor(s.nodes, s.bytes, s.allocation)
  }

  /** `visit_data`: the payload is the one string bounded by the payload limit. */
  method VisitData(b: B.Budget, offset: int, payload: seq<byte>) returns (ok: bool)
    requires ValidLimits(b.limits) && InI64(offset) && |payload| <= U64_MAX
    modifies b
    ensures var t := BodyTree(Data(offset, payload));
            ok <==> 1 + Height(t) <= b.limits.nesting && LengthsFit(t, 1, 16, false, b.limits)
                    && old(b.RoomFor(Nodes(t), |Flat(t)|, Allocation(t)))
    ensures var t := BodyTree(Data(offset, payload));
            ok ==> b.Grew(Nodes(t), |Flat(t)|, Allocation(t)) && b.Within()
  {
    hide BodyTree, Flat, Nodes, Allocation, Height, LengthsFit, BigEndian;
    DataCost(offset, payload, b.limits);
    ok := b.Container(2, 1);
    if ok {
      ok := b.Key(1);
    }
    if ok {
      ok := b.Node(2, 1 + ArgWidth(IntArg(offset)));
    }
    if ok {
      ok := b.Key(2);
    }
    if ok {
      ok := b.String(|payload|, MAX_DATA, 2);
    }
  }

  /** The body of a message, at its place in the envelope. */
  method VisitBody(b: B.Budget, body: Body) returns (ok: bool)
    requires ValidLimits(b.limits) && BodySound(body)
    modifies b
    ensures var t := BodyTree(body);
            ok <==> 1 + Height(t) <= b.limits.nesting && LengthsFit(t, 1, BodyField(body), false, b.limits)
                    && old(b.RoomFor(Nodes(t), |Flat(t)|, Allocation(t)))
    ensures var t := BodyTree(body); ok ==> b.Grew(Nodes(t), |Flat(t)|, Allocation(t)) && b.Within()
  {
    hide BodyTree, Flat, Nodes, Allocation, Height, LengthsFit, Sound, MetaFit;
    if body.Data? {
      ok := VisitData(b, body.offset, body.payload);
    } else {
      BodyTreeSound(body);
      SoundIsWire(BodyTree(body));
      MetaIsLengths(BodyTree(body), 1, BodyField(body), b.limits);
      ok := b.Visit(BodyTree(body), 1);
    }
  }

  lemma SoundIsWire(v: Cbor)
    requires Sound(v)
    ensures Wire(v)
  {
    hide Wire;
  }

  // ---------------------------------------------------------------------------------------------------------------
  // Envelopes
  // ---------------------------------------------------------------------------------------------------------------

  /** One body field: its key, and the body or a null. */
  method VisitSlot(b: B.Budget, key: nat, body: Body) returns (ok: bool)
    requires ValidLimits(b.limits) && BodySound(body) && 10 <= key <= 27
    modifies b
    ensures var v := if key == BodyField(body) then BodyTree(body) else Null;
            var s := EntrySum(key, v, 0, 0, b.limits);
            ok <==> old(SumFits(b, s))
    ensures var v := if key == BodyField(body) then BodyTree(body) else Null;
            var s := EntrySum(key, v, 0, 0, b.limits);
            ok ==> b.Grew(s.nodes, s.bytes, s.allocation) && b.Within()
  {
    hide BodyTree, BodySound, BigEndian;
    hide Flat, Nodes, Allocation, Height, LengthsFit;
    ok := b.Key(key);
    if key == BodyField(body) {
      if ok {
        ok := VisitBody(b, body);
      }
    } else {
      NullCosts(b.limits, key);
      if ok {
        ok := b.Node(1, 1);
      }
    }
  }

  lemma NullCosts(l: Limits, key: int)
    ensures |Flat(Null)| == 1 && Nodes(Null) == 1 && Allocation(Null) == NODE_CHARGE && Height(Null) == 0
    ensures LengthsFit(Null, 1, key, false, l)
  {
  }

  /** All body fields, in the order of their keys. */
  method VisitSlots(b: B.Budget, body: Body) returns (ok: bool)
    requires ValidLimits(b.limits) && BodySound(body) && b.RoomFor(0, 0, 0)
    modifies b
    ensures var s := EntriesSum(Slots(10, BodyField(body), BodyTree(body)), 0, 0, b.limits);
            ok <==> old(SumFits(b, s))
    ensures var s := EntriesSum(Slots(10, BodyField(body), BodyTree(body)), 0, 0, b.limits);
            ok ==> b.Grew(s.nodes, s.bytes, s.allocation) && b.Within()
  {
    hide BodyTree, BodySound, EntriesSum, EntrySum;
    ghost var field, tree, l := BodyField(body), BodyTree(body), b.limits;
    ghost var all := EntriesSum(Slots(10, field, tree), 0, 0, l);
    ghost var fits := SumFits(b, all);
    SumIsPositive(Slots(10, field, tree), 0, 0, l);
    var key := 10;
    while key <= 27
      invariant 10 <= key <= 28 && b.RoomFor(0, 0, 0) && b.limits == l
      invariant var s := EntriesSum(Slots(key, field, tree), 0, 0, l);
                && fits == SumFits(b, s)
                && b.entries + s.nodes == old(b.entries) + all.nodes
                && b.encoded + s.bytes == old(b.encoded) + all.bytes
                && b.allocation + s.allocation == old(b.allocation) + all.allocation
    {
      SlotSplits(key, field, tree, l);
      ok := VisitSlot(b, key, body);
      if !ok {
        return;
      }
      key := key + 1;
    }
    NoSum(0, 0, l);
    ok := true;
  }

  lemma SumIsPositive(es: seq<Entry>, depth: nat, parent: int, l: Limits)
    ensures var s := EntriesSum(es, depth, parent, l); s.nodes >= 0 && s.bytes >= 0 && s.allocation >= 0 && s.height >= 0
  {
  }

  /** The slots from one on are that slot and those behind it. */
  lemma SlotSplits(key: int, field: int, tree: Cbor, l: Limits)
    requires key <= 27
    ensures var v := if key == field then tree else Null;
            var (a, b) := (EntrySum(key, v, 0, 0, l), EntriesSum(Slots(key + 1, field, tree), 0, 0, l));
            && EntriesSum(Slots(key, field, tree), 0, 0, l) == Add(a, b)
            && a.nodes >= 0 && a.bytes >= 0 && a.allocation >= 0 && b.nodes >= 0 && b.bytes >= 0 && b.allocation >= 0
  {
    hide EntriesSum, EntrySum;
    var v, rest := if key == field then tree else Null, Slots(key + 1, field, tree);
    ConsSum(key, v, rest, 0, 0, l);
    SumIsPositive(rest, 0, 0, l);
    EntryIsPositive(key, v, 0, 0, l);
  }

  lemma EntryIsPositive(key: int, v: Cbor, depth: nat, parent: int, l: Limits)
    ensures var s := EntrySum(key, v, depth, parent, l); s.nodes >= 0 && s.bytes >= 0 && s.allocation >= 0 && s.height >= 0
  {
  }

  lemma ConsMeta(key: int, v: Cbor, rest: seq<Entry>, l: Limits)
    ensures WireEntries([Entry(key, v)] + rest) <==> WireEntry(Entry(key, v)) && WireEntries(rest)
    ensures MetaFitEntries([Entry(key, v)] + rest, l) <==> MetaFit(v, l) && MetaFitEntries(rest, l)
  {
    hide WireEntry;
    var es := [Entry(key, v)] + rest;
    assert es[0] == Entry(key, v) && es[1..] == rest;
    assert MetaFitEntry(Entry(key, v), l) == MetaFit(v, l);
  }

  /** The header holds five scalars and strings, all of them metadata. */
  lemma HeaderIsMeta(e: Envelope, l: Limits)
    requires EnvelopeSound(e) && 10 <= BodyField(e.body) <= 27
    ensures WireEntries(HeaderSlots(e)) && (MetaFitEntries(HeaderSlots(e), l) <==> |e.session| <= l.metadataBytes)
  {
    hide Utf8, BodySound, WireEntries, MetaFitEntries;
    var r5 := [Entry(5, NumberTree(e.number))] + [];
    var r4 := [Entry(4, Int(BodyField(e.body) - 9))] + r5;
    var r3 := [Entry(3, Int(e.stream))] + r4;
    var r2 := [Entry(2, Text(e.session))] + r3;
    assert HeaderSlots(e) == [Entry(1, Int(e.version))] + r2;
    NoneMeta(l);
    ConsMeta(5, NumberTree(e.number), [], l);
    ConsMeta(4, Int(BodyField(e.body) - 9), r5, l);
    ConsMeta(3, Int(e.stream), r4, l);
    ConsMeta(2, Text(e.session), r3, l);
    ConsMeta(1, Int(e.version), r2, l);
  }

  lemma NoneMeta(l: Limits)
    ensures WireEntries([]) && MetaFitEntries([], l)
  {
  }

  lemma HeaderSums(e: Envelope, l: Limits)
    requires 10 <= BodyField(e.body) <= 27
    ensures EntriesSum(HeaderSlots(e), 0, 0, l) == HeaderSum(e, l)
  {
    hide EntriesSum, HeaderSlots;
    HeaderCost(e, [], l);
    NoSum(0, 0, l);
    assert HeaderSlots(e) + [] == HeaderSlots(e);
  }

  method VisitHeader(b: B.Budget, e: Envelope) returns (ok: bool)
    requires ValidLimits(b.limits) && EnvelopeSound(e) && b.RoomFor(0, 0, 0)
    modifies b
    ensures ok <==> old(SumFits(b, HeaderSum(e, b.limits)))
    ensures var s := HeaderSum(e, b.limits); ok ==> b.Grew(s.nodes, s.bytes, s.allocation) && b.Within()
  {
    hide EnvelopeSound, HeaderSlots, FlatEntries, NodesEntries, AllocationEntries, HeightEntries, MetaFitEntries;
    SoundField(e);
    HeaderIsMeta(e, b.limits);
    HeaderSums(e, b.limits);
    ok := b.VisitEntries(HeaderSlots(e), 0);
  }

  lemma SoundField(e: Envelope)
    requires EnvelopeSound(e)
    ensures 10 <= BodyField(e.body) <= 27 && BodySound(e.body)
  {
    hide Sound;
  }

  /** `visit_envelope`: accepts exactly the messages whose tree has room, and charges exactly its cost. */
  method VisitEnvelope(b: B.Budget, e: Envelope) returns (ok: bool)
    requires ValidLimits(b.limits) && EnvelopeSound(e) && b.encoded == b.allocation == b.entries == 0
    modifies b
    ensures var t := EnvelopeTree(e);
            ok <==> Height(t) <= b.limits.nesting && LengthsFit(t, 0, 0, false, b.limits)
                    && old(b.RoomFor(Nodes(t), |Flat(t)|, Allocation(t)))
    ensures var t := EnvelopeTree(e); ok ==> b.Grew(Nodes(t), |Flat(t)|, Allocation(t)) && b.Within()
  {
    hide EnvelopeSound, EnvelopeTree, BodyTree, Slots, HeaderSum, EntriesSum, Flat, Nodes, Allocation, Height, LengthsFit;
    SoundField(e);
    WholeSum(e, b.limits);
    SumIsPositive(Slots(10, BodyField(e.body), BodyTree(e.body)), 0, 0, b.limits);
    HeaderIsPositive(e, b.limits);
    ok := b.Container(23, 0);
    if ok {
      ok := VisitHeader(b, e);
    }
    if ok {
      ok := VisitSlots(b, e.body);
    }
  }

  lemma HeaderIsPositive(e: Envelope, l: Limits)
    ensures var s := HeaderSum(e, l); s.nodes == 5 && s.bytes >= 0 && s.allocation >= 0 && s.height == 1
  {
  }

  /** The tree of an envelope, by its header and its slots. */
  lemma WholeSum(e: Envelope, l: Limits)
    requires 10 <= BodyField(e.body) <= 27
    ensures var t := EnvelopeTree(e);
            var s := EntriesSum(Slots(10, BodyField(e.body), BodyTree(e.body)), 0, 0, l);
            var h := HeaderSum(e, l);
            && |Flat(t)| == 1 + h.bytes + s.bytes && Nodes(t) == 1 + h.nodes + s.nodes && s.nodes >= 18
            && Allocation(t) == NODE_CHARGE + h.allocation + s.allocation
            && Height(t) == Max(h.height, s.height) && (LengthsFit(t, 0, 0, false, l) <==> h.lengths && s.lengths)
  {
    hide HeaderSlots, HeaderSum, Slots, BodyTree, FlatEntries, NodesEntries, AllocationEntries, HeightEntries, LengthsFitEntries;
    var slots := Slots(10, BodyField(e.body), BodyTree(e.body));
    HeaderCost(e, slots, l);
    EnvelopeFields(e);
    var es := HeaderSlots(e) + slots;
    assert EnvelopeTree(e) == Map(es) && |es| == 23;
  }

  /** `admission::allocation_charge`: the typed walk accepts exactly what fits, and reports exactly its cost. */
  method AllocationCharge(e: Envelope, limits: Limits) returns (charge: Option<nat>)
    requires EnvelopeSound(e) && ValidLimits(limits)
    ensures charge.Some? <==> Fits(EnvelopeTree(e), limits)
    ensures charge.Some? ==> charge.value == TotalCharge(EnvelopeTree(e))
  {
    hide EnvelopeSound, EnvelopeTree, BodyTree, Flat, Nodes, Allocation, Height, LengthsFit, MarksBootstrap;
    SoundField(e);
    EnvelopeCost(e, limits);
    var budget := new B.Budget(e.stream == 0, limits);
    var ok := VisitEnvelope(budget, e);
    return if ok then Some(budget.encoded + budget.allocation) else None;
  }
}
