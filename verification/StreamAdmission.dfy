/** Which messages admission can never refuse: the ones a stream emits on its own under validated limits. */
module StreamAdmission {
  import opened Base
  import opened Cbor
  import opened Cost
  import opened StreamProtocol

  // ---------------------------------------------------------------------------------------------------------------
  // Costs of entry lists add up
  // ---------------------------------------------------------------------------------------------------------------

  /** The five numbers and verdicts that admission reads off a list of map entries. */
  datatype Sum = Sum(bytes: int, nodes: int, allocation: int, height: int, lengths: bool, marks: bool)

  function Add(a: Sum, b: Sum): Sum {
    Sum(
      a.bytes + b.bytes, a.nodes + b.nodes, a.allocation + b.allocation, Max(a.height, b.height),
      a.lengths && b.lengths, a.marks || b.marks)
  }

  const ZERO := Sum(0, 0, 0, 0, true, false)

  function EntriesSum(es: seq<Entry>, depth: nat, parent: int, l: Limits): Sum {
    Sum(
      |FlatEntries(es)|, NodesEntries(es), AllocationEntries(es), HeightEntries(es),
      LengthsFitEntries(es, depth, parent, l), MarksEntries(es, depth))
  }

  function EntrySum(key: int, v: Cbor, depth: nat, parent: int, l: Limits): Sum {
    Sum(
      |Head(0, KeyArg(key))| + |Flat(v)|, Nodes(v), KEY_CHARGE + Allocation(v), 1 + Height(v),
      LengthsFit(v, depth + 1, key, PayloadKey(depth, parent, key), l), MarksBootstrap(v, depth + 1, key))
  }

  lemma ConsSum(key: int, v: Cbor, rest: seq<Entry>, depth: nat, parent: int, l: Limits)
    ensures EntriesSum([Entry(key, v)] + rest, depth, parent, l)
            == Add(EntrySum(key, v, depth, parent, l), EntriesSum(rest, depth, parent, l))
  {
    hide Head;
    var e := Entry(key, v);
    var s := [e] + rest;
    assert s[0] == e && s[1..] == rest;
    assert FlatEntry(e) == Head(0, KeyArg(key)) + Flat(v);
    assert NodesEntry(e) == Nodes(v) && AllocationEntry(e) == KEY_CHARGE + Allocation(v) && HeightEntry(e) == Height(v);
    assert LengthsFitEntry(e, depth, parent, l) <==> LengthsFit(v, depth + 1, key, PayloadKey(depth, parent, key), l);
    assert MarksEntry(e, depth) <==> MarksBootstrap(v, depth + 1, key);
  }

  lemma NoSum(depth: nat, parent: int, l: Limits)
    ensures EntriesSum([], depth, parent, l) == ZERO
  {
  }

  /** A scalar or string in a map, at the depth of an envelope field or of a body field. */
  lemma LeafSum(key: int, v: Cbor, depth: nat, parent: int, l: Limits)
    requires 0 <= key <= 27 && !v.Array? && !v.Map? && !v.Float?
    ensures EntrySum(key, v, depth, parent, l)
            == Sum(
                 1 + ArgWidth(key) + LeafBytes(v), 1, KEY_CHARGE + NODE_CHARGE + 4 * LeafLength(v), 1,
                 LengthsFit(v, depth + 1, key, PayloadKey(depth, parent, key), l), depth == 0 && key == 3 && v == Int(0))
  {
    hide BigEndian;
  }

  function LeafLength(v: Cbor): nat {
    match v
    case Bytes(b) => |b|
    case Text(t) => |t|
    case _ => 0
  }

  function LeafBytes(v: Cbor): nat {
    match v
    case Int(n) => 1 + ArgWidth(IntArg(n))
    case Bytes(b) => 1 + ArgWidth(|b|) + |b|
    case Text(t) => 1 + ArgWidth(|t|) + |t|
    case _ => 1
  }

  // ---------------------------------------------------------------------------------------------------------------
  // An envelope's cost, by its header and its body
  // ---------------------------------------------------------------------------------------------------------------

  /** Null slots from `key` on. */
  function NullSum(key: int): Sum
    requires 0 <= key
    decreases 28 - key
  {
    if key > 27 then ZERO
    else Add(Sum(2 + ArgWidth(key), 1, KEY_CHARGE + NODE_CHARGE, 1, true, false), NullSum(key + 1))
  }

  lemma NullSlots()
    ensures NullSum(10) == Sum(40, 18, 18 * (KEY_CHARGE + NODE_CHARGE), 1, true, false)
  {
    var c := KEY_CHARGE + NODE_CHARGE;
    assert NullSum(26) == Sum(6, 2, 2 * c, 1, true, false);
    assert NullSum(24) == Sum(12, 4, 4 * c, 1, true, false);
    assert NullSum(22) == Sum(16, 6, 6 * c, 1, true, false);
    assert NullSum(20) == Sum(20, 8, 8 * c, 1, true, false);
    assert NullSum(18) == Sum(24, 10, 10 * c, 1, true, false);
    assert NullSum(16) == Sum(28, 12, 12 * c, 1, true, false);
    assert NullSum(14) == Sum(32, 14, 14 * c, 1, true, false);
    assert NullSum(12) == Sum(36, 16, 16 * c, 1, true, false);
  }

  /** The slots cost what null slots cost, with the body's cost in place of one null. */
  lemma {:induction false} SlotsSum(key: int, field: int, tree: Cbor, l: Limits)
    requires 10 <= key <= 28 && field <= 27
    ensures var s, n := EntriesSum(Slots(key, field, tree), 0, 0, l), NullSum(key);
            if key <= field then
              s == Sum(
                n.bytes + |Flat(tree)| - 1, n.nodes + Nodes(tree) - 1, n.allocation + Allocation(tree) - NODE_CHARGE,
                1 + Height(tree), LengthsFit(tree, 1, field, false, l), MarksBootstrap(tree, 1, field))
            else s == n
    decreases 28 - key
  {
    hide EntriesSum, Flat, Nodes, Allocation, Height, MarksBootstrap, Head, NODE_CHARGE;
    if key > 27 {
      NoSum(0, 0, l);
    } else {
      SlotsSum(key + 1, field, tree, l);
      NullHeight(key + 1);
      if key == field {
        ConsSum(key, tree, Slots(key + 1, field, tree), 0, 0, l);
      } else {
        ConsSum(key, Null, Slots(key + 1, field, tree), 0, 0, l);
        LeafSum(key, Null, 0, 0, l);
      }
    }
  }

  lemma {:induction false} NullHeight(key: int)
    requires 0 <= key
    ensures NullSum(key).height <= 1 && NullSum(key).lengths && !NullSum(key).marks
    decreases 28 - key
  {
    if key <= 27 {
      NullHeight(key + 1);
    }
  }

  /** What every envelope spends on its own fields, whatever its body. */
  function HeaderBytes(e: Envelope): nat {
    10 + ArgWidth(IntArg(e.version)) + ArgWidth(|e.session|) + |e.session| + ArgWidth(IntArg(e.stream))
    + if e.number.Some? then ArgWidth(IntArg(e.number.value)) else 0
  }

  function HeaderSum(e: Envelope, l: Limits): Sum {
    Sum(
      HeaderBytes(e), 5, 5 * (KEY_CHARGE + NODE_CHARGE) + 4 * |e.session|, 1,
      |e.session| <= l.metadataBytes, e.stream == 0)
  }

  lemma HeaderCost(e: Envelope, rest: seq<Entry>, l: Limits)
    requires 10 <= BodyField(e.body) <= 27
    ensures EntriesSum(HeaderSlots(e) + rest, 0, 0, l) == Add(HeaderSum(e, l), EntriesSum(rest, 0, 0, l))
  {
    hide EntriesSum, NODE_CHARGE, EntrySum;
    var v1, v2, v3, v4 := Int(e.version), Text(e.session), Int(e.stream), Int(BodyField(e.body) - 9);
    var v5 := NumberTree(e.number);
    var r5 := [Entry(5, v5)] + rest;
    var r4 := [Entry(4, v4)] + r5;
    var r3 := [Entry(3, v3)] + r4;
    var r2 := [Entry(2, v2)] + r3;
    assert HeaderSlots(e) + rest == [Entry(1, v1)] + r2;
    ConsSum(1, v1, r2, 0, 0, l);
    ConsSum(2, v2, r3, 0, 0, l);
    ConsSum(3, v3, r4, 0, 0, l);
    ConsSum(4, v4, r5, 0, 0, l);
    ConsSum(5, v5, rest, 0, 0, l);
    LeafSum(1, v1, 0, 0, l);
    LeafSum(2, v2, 0, 0, l);
    LeafSum(3, v3, 0, 0, l);
    LeafSum(4, v4, 0, 0, l);
    LeafSum(5, v5, 0, 0, l);
  }

  /** Everything the verdict on an envelope depends on. */
  lemma EnvelopeCost(e: Envelope, l: Limits)
    requires 10 <= BodyField(e.body) <= 27
    ensures var t, b := EnvelopeTree(e), BodyTree(e.body);
            && |Flat(t)| == 40 + HeaderBytes(e) + |Flat(b)|
            && Nodes(t) == 23 + Nodes(b)
            && Allocation(t) == 23 * (KEY_CHARGE + NODE_CHARGE) + 4 * |e.session| + Allocation(b)
            && Height(t) == 1 + Height(b)
            && (LengthsFit(t, 0, 0, false, l) <==> |e.session| <= l.metadataBytes && LengthsFit(b, 1, BodyField(e.body), false, l))
            && (MarksBootstrap(t, 0, 0) <==> e.stream == 0)
  {
    hide HeaderSlots, Slots, FlatEntries, NodesEntries, AllocationEntries, HeightEntries;
    hide LengthsFitEntries, MarksEntries, HeaderBytes, BodyTree, NullSum, BigEndian, NODE_CHARGE;
    var field, b := BodyField(e.body), BodyTree(e.body);
    var slots := Slots(10, field, b);
    HeaderCost(e, slots, l);
    SlotsSum(10, field, b, l);
    NullSlots();
    NoMarksBelow(b, 1, field);
    EnvelopeFields(e);
    var es := HeaderSlots(e) + slots;
    assert EnvelopeTree(e) == Map(es) && |es| == 23;
  }

  /** Below the envelope's own fields nothing is taken for the stream number. */
  lemma {:induction false} NoMarksBelow(v: Cbor, depth: nat, parent: int)
    requires depth >= 2 || (depth == 1 && parent != 3)
    ensures !MarksBootstrap(v, depth, parent)
    decreases v, 0
  {
    match v
    case Array(items) => NoMarksInItems(items, depth + 1);
    case Map(es) => NoMarksInEntries(es, depth);
    case _ =>
  }

  lemma {:induction false} NoMarksInItems(items: seq<Cbor>, depth: nat)
    requires depth >= 2
    ensures !MarksItems(items, depth)
    decreases items, 1
  {
    if items != [] {
      NoMarksBelow(items[0], depth, 0);
      NoMarksInItems(items[1..], depth);
    }
  }

  lemma {:induction false} NoMarksInEntry(e: Entry, depth: nat)
    requires depth >= 1
    ensures !MarksEntry(e, depth)
    decreases e, 0
  {
    NoMarksBelow(e.value, depth + 1, e.key);
  }

  lemma {:induction false} NoMarksInEntries(es: seq<Entry>, depth: nat)
    requires depth >= 1
    ensures !MarksEntries(es, depth)
    decreases es, 1
  {
    if es != [] {
      NoMarksInEntry(es[0], depth);
      NoMarksInEntries(es[1..], depth);
    }
  }

  lemma EnvelopeFields(e: Envelope)
    ensures |HeaderSlots(e)| == 5 && |Slots(10, BodyField(e.body), BodyTree(e.body))| == 18
  {
    SlotsLength(10, BodyField(e.body), BodyTree(e.body));
  }

  lemma {:induction false} SlotsLength(key: int, field: int, tree: Cbor)
    requires key <= 28
    ensures |Slots(key, field, tree)| == 28 - key
    decreases 28 - key
  {
    if key <= 27 {
      SlotsLength(key + 1, field, tree);
    }
  }

  // ---------------------------------------------------------------------------------------------------------------
  // Messages a stream emits on its own
  // ---------------------------------------------------------------------------------------------------------------

  lemma BodyCost(es: seq<Entry>, field: int, l: Limits)
    requires |es| < 24
    ensures var t, s := Map(es), EntriesSum(es, 1, field, l);
            && |Flat(t)| == 1 + s.bytes && Nodes(t) == 1 + s.nodes && Allocation(t) == NODE_CHARGE + s.allocation
            && Height(t) == s.height
            && (LengthsFit(t, 1, field, false, l) <==> s.lengths) && (MarksBootstrap(t, 1, field) <==> s.marks)
  {
    hide BigEndian;
  }

  /** The probe of construction time: the largest Data at the largest offset, under profile 1. */
  function Probe(session: seq<byte>, stream: int, maxPayload: nat): Envelope {
    Envelope(1, session, stream, None, Data(I64_MAX - maxPayload, seq(maxPayload, _ => 0)))
  }

  lemma DataCost(offset: int, payload: seq<byte>, l: Limits)
    ensures var t := BodyTree(Data(offset, payload));
            && |Flat(t)| == 5 + ArgWidth(IntArg(offset)) + ArgWidth(|payload|) + |payload|
            && Nodes(t) == 3 && Height(t) == 1
            && Allocation(t) == 3 * NODE_CHARGE + 2 * KEY_CHARGE + 4 * |payload|
            && (LengthsFit(t, 1, 16, false, l) <==> |payload| <= l.dataPayload)
            && !MarksBootstrap(t, 1, 16)
  {
    hide EntriesSum, NODE_CHARGE, EntrySum, Flat, Nodes, Allocation, Height, MarksBootstrap;
    var v1, v2 := Int(offset), Bytes(payload);
    var r: seq<Entry> := [Entry(2, v2)] + [];
    assert [Entry(1, v1), Entry(2, v2)] == [Entry(1, v1)] + r;
    ConsSum(1, v1, r, 1, 16, l);
    ConsSum(2, v2, [], 1, 16, l);
    NoSum(1, 16, l);
    LeafSum(1, v1, 1, 16, l);
    LeafSum(2, v2, 1, 16, l);
    BodyCost([Entry(1, v1)] + r, 16, l);
  }

  /** Every Data message a stream can emit costs no more than the probe its construction was admitted with. */
  lemma ProbeDominatesData(e: Envelope, maxPayload: nat, l: Limits)
    requires 1 <= e.version <= 2 && e.number.None? && e.body.Data?
    requires 0 <= e.body.offset && e.body.offset + |e.body.payload| <= I64_MAX
    requires |e.body.payload| <= maxPayload <= I64_MAX
    requires Admitted(Probe(e.session, e.stream, maxPayload), l) && |e.session| <= l.metadataBytes
    ensures Admitted(e, l)
  {
    hide BodyTree, EnvelopeTree, Flat, Nodes, Allocation, Height, MarksBootstrap, LengthsFit, NODE_CHARGE;
    var p := Probe(e.session, e.stream, maxPayload);
    EnvelopeCost(e, l);
    EnvelopeCost(p, l);
    DataCost(e.body.offset, e.body.payload, l);
    DataCost(p.body.offset, p.body.payload, l);
  }

  /** Bodies made of a few integers and nulls: every control message a stream builds without its host's help. */
  predicate Small(b: Body) {
    match b
    case Window(_) => true
    case Flush(_) => true
    case Flushed(_) => true
    case EndWrite(_) => true
    case Close(_) => true
    case Cancel(_) => true
    case Failed(f) => f.facts.None? && f.setupCause.None? && f.detail.None?
    case _ => false
  }

  predicate SmallEntries(es: seq<Entry>) {
    forall i | 0 <= i < |es| :: 0 <= es[i].key <= 5 && (es[i].value.Int? || es[i].value.Null?)
  }

  lemma {:induction false} SmallSum(es: seq<Entry>, field: int, l: Limits)
    requires SmallEntries(es)
    ensures var s := EntriesSum(es, 1, field, l);
            s.bytes <= 10 * |es| && s.nodes <= |es| && s.allocation <= 2112 * |es| && s.height <= 1 && s.lengths && !s.marks
  {
    hide EntriesSum, EntrySum;
    if es == [] {
      NoSum(1, field, l);
    } else {
      var e, rest := es[0], es[1..];
      assert es == [e] + rest && e == Entry(e.key, e.value);
      assert SmallEntries(rest) by {
        assert forall i | 0 <= i < |rest| :: rest[i] == es[i + 1];
      }
      SmallSum(rest, field, l);
      ConsSum(e.key, e.value, rest, 1, field, l);
      LeafSum(e.key, e.value, 1, field, l);
    }
  }

  lemma SmallTree(b: Body)
    requires Small(b)
    ensures BodyTree(b).Map? && |BodyTree(b).entries| <= 5 && SmallEntries(BodyTree(b).entries)
  {
  }

  /** Usable limits admit every control message that a stream builds by itself. */
  lemma ControlAdmitted(e: Envelope, l: Limits)
    requires ValidLimits(l) && Usable(l) && EnvelopeValid(e) && Small(e.body)
    ensures Admitted(e, l)
  {
    hide BodyTree, EnvelopeTree, Flat, Nodes, Allocation, Height, MarksBootstrap, LengthsFit, EntriesSum;
    EnvelopeCost(e, l);
    SmallTree(e.body);
    var es := BodyTree(e.body).entries;
    SmallSum(es, BodyField(e.body), l);
    BodyCost(es, BodyField(e.body), l);
  }
}
