/**
 The counters of the typed admission walk: `src/budget.rs`, and the generated visitors of `src/admission.rs` for the
 parts of a message that hold only metadata. Those visitors follow the message schema; here they follow the tree that
 the same schema's `to_cbor` builds, field for field.
 */
module Budget {
  import opened Base
  import opened Cbor
  import opened CborProofs
  import opened Cost

  class Budget {
    var encoded: nat
    var allocation: nat
    var entries: nat
    const bootstrap: bool
    const limits: Limits

    constructor (bootstrap: bool, limits: Limits)
      ensures encoded == 0 && allocation == 0 && entries == 0
      ensures this.bootstrap == bootstrap && this.limits == limits
    {
      encoded, allocation, entries := 0, 0, 0;
      this.bootstrap, this.limits := bootstrap, limits;
    }

    /** Every charge accepted so far fits. */
    ghost predicate Within()
      reads this
    {
      encoded <= FrameCap(limits, bootstrap) && allocation + encoded <= AllocationCap(limits, bootstrap)
    }

    /** There is room for `n` more nodes, `e` more encoded bytes and `a` more allocation. */
    ghost predicate RoomFor(n: nat, e: nat, a: nat)
      reads this
    {
      && entries + n <= limits.collectionEntries
      && encoded + e <= FrameCap(limits, bootstrap)
      && allocation + a + encoded + e <= AllocationCap(limits, bootstrap)
    }

    twostate predicate Grew(n: nat, e: nat, a: nat)
      reads this
    {
      entries == old(entries) + n && encoded == old(encoded) + e && allocation == old(allocation) + a
    }

    method Charge(e: nat, a: nat) returns (ok: bool)
      modifies this`encoded, this`allocation
      ensures Grew(0, e, a) && ok == Within()
    {
      encoded := encoded + e;
      allocation := allocation + a;
      ok := encoded <= FrameCap(limits, bootstrap) && allocation + encoded <= AllocationCap(limits, bootstrap);
    }

    method Node(depth: nat, e: nat) returns (ok: bool)
      modifies this
      ensures ok <==> depth <= limits.nesting && old(RoomFor(1, e, NODE_CHARGE))
      ensures ok ==> Grew(1, e, NODE_CHARGE) && Within()
    {
      entries := entries + 1;
      if depth > limits.nesting || entries > limits.collectionEntries {
        return false;
      }
      ok := Charge(e, NODE_CHARGE);
    }

    method Key(tag: nat) returns (ok: bool)
      modifies this
      ensures ok <==> old(encoded) + |Head(0, tag)| <= FrameCap(limits, bootstrap)
                      && old(allocation) + KEY_CHARGE + old(encoded) + |Head(0, tag)| <= AllocationCap(limits, bootstrap)
      ensures ok ==> Grew(0, |Head(0, tag)|, KEY_CHARGE) && Within()
    {
      ok := Charge(1 + ArgWidth(tag), KEY_CHARGE);
    }

    method String(len: nat, max: nat, depth: nat) returns (ok: bool)
      requires max == MAX_DATA || max == MAX_METADATA
      requires ValidLimits(limits)
      modifies this
      ensures var bound := if max == MAX_DATA then limits.dataPayload else limits.metadataBytes;
              ok <==> len <= bound && depth <= limits.nesting
                      && old(RoomFor(1, 1 + ArgWidth(len) + len, NODE_CHARGE + 4 * len))
      ensures ok ==> Grew(1, 1 + ArgWidth(len) + len, NODE_CHARGE + 4 * len) && Within()
    {
      var negotiated := if max == MAX_DATA then limits.dataPayload else limits.metadataBytes;
      if len > Min(max, negotiated) {
        return false;
      }
      ok := Node(depth, 1 + ArgWidth(len));
      if ok {
        ok := Charge(len, len * 4);
      }
    }

    method Container(count: nat, depth: nat) returns (ok: bool)
      modifies this
      ensures ok <==> depth <= limits.nesting && old(entries) + 1 + count <= limits.collectionEntries
                      && old(RoomFor(1, 1 + ArgWidth(count), NODE_CHARGE))
      ensures ok ==> Grew(1, 1 + ArgWidth(count), NODE_CHARGE) && Within()
    {
      ok := Node(depth, 1 + ArgWidth(count));
      if ok && count > SubSat(limits.collectionEntries, entries) {
        ok := false;
      }
    }

    /**
     Walks a part of a message whose strings are all metadata: accepts exactly when everything in it still fits, and
     charges exactly its cost.
     */
    method Visit(v: Cbor, depth: nat) returns (ok: bool)
      requires ValidLimits(limits) && Wire(v)
      modifies this
      ensures ok <==> depth + Height(v) <= limits.nesting && MetaFit(v, limits)
                      && old(RoomFor(Nodes(v), |Flat(v)|, Allocation(v)))
      ensures ok ==> Grew(Nodes(v), |Flat(v)|, Allocation(v)) && Within()
      decreases v, 0
    {
      hide BigEndian, FlatItems, FlatEntries, NodesItems, NodesEntries, AllocationItems, AllocationEntries;
      hide HeightItems, HeightEntries, MetaFitItems, MetaFitEntries;
      match v
      case Int(n) =>
        ok := Node(depth, 1 + ArgWidth(IntArg(n)));
      case Bytes(b) =>
        ok := String(|b|, MAX_METADATA, depth);
      case Text(t) =>
        ok := String(|t|, MAX_METADATA, depth);
      case Array(items) =>
        ok := Container(|items|, depth);
        if ok {
          ok := VisitItems(items, depth + 1);
        }
      case Map(es) =>
        ok := Container(|es|, depth);
        if ok {
          ok := VisitEntries(es, depth);
        }
      case Bool(_) =>
        ok := Node(depth, 1);
      case Null =>
        ok := Node(depth, 1);
    }

    /** The room that items still to visit need, at the depth they stand at. */
    ghost predicate RoomForItems(items: seq<Cbor>, depth: nat)
      reads this
    {
      && depth + HeightItems(items) <= limits.nesting + 1
      && MetaFitItems(items, limits)
      && RoomFor(NodesItems(items), |FlatItems(items)|, AllocationItems(items))
    }

    method VisitItems(items: seq<Cbor>, depth: nat) returns (ok: bool)
      requires ValidLimits(limits) && WireItems(items) && RoomFor(0, 0, 0) && depth <= limits.nesting + 1
      modifies this
      ensures ok <==> old(RoomForItems(items, depth))
      ensures ok ==> Grew(NodesItems(items), |FlatItems(items)|, AllocationItems(items)) && Within()
      decreases items, 1
    {
      hide Flat, Nodes, Allocation, Height, MetaFit, Wire;
      ghost var fits := RoomForItems(items, depth);
      var i := 0;
      while i < |items|
        invariant 0 <= i <= |items| && RoomFor(0, 0, 0) && WireItems(items[i..])
        invariant fits == RoomForItems(items[i..], depth)
        invariant entries + NodesItems(items[i..]) == old(entries) + NodesItems(items)
        invariant encoded + |FlatItems(items[i..])| == old(encoded) + |FlatItems(items)|
        invariant allocation + AllocationItems(items[i..]) == old(allocation) + AllocationItems(items)
      {
        ghost var rest := items[i..];
        assert rest[0] == items[i] && rest[1..] == items[i + 1..];
        ok := Visit(items[i], depth);
        if !ok {
          return;
        }
        i := i + 1;
      }
      assert items[i..] == [];
      ok := true;
    }

    ghost predicate RoomForEntries(es: seq<Entry>, depth: nat)
      reads this
    {
      && depth + HeightEntries(es) <= limits.nesting
      && MetaFitEntries(es, limits)
      && RoomFor(NodesEntries(es), |FlatEntries(es)|, AllocationEntries(es))
    }

    method VisitEntry(e: Entry, depth: nat) returns (ok: bool)
      requires ValidLimits(limits) && WireEntry(e)
      modifies this
      ensures ok <==> depth + 1 + HeightEntry(e) <= limits.nesting && MetaFitEntry(e, limits)
                      && old(RoomFor(NodesEntry(e), |FlatEntry(e)|, AllocationEntry(e)))
      ensures ok ==> Grew(NodesEntry(e), |FlatEntry(e)|, AllocationEntry(e)) && Within()
      decreases e, 0
    {
      hide Flat, Nodes, Allocation, Height, MetaFit, Wire, BigEndian;
      ok := Key(e.key);
      if ok {
        ok := Visit(e.value, depth + 1);
      }
    }

    method VisitEntries(es: seq<Entry>, depth: nat) returns (ok: bool)
      requires ValidLimits(limits) && WireEntries(es) && RoomFor(0, 0, 0) && depth <= limits.nesting
      modifies this
      ensures ok <==> old(RoomForEntries(es, depth))
      ensures ok ==> Grew(NodesEntries(es), |FlatEntries(es)|, AllocationEntries(es)) && Within()
      decreases es, 1
    {
      hide Flat, Nodes, Allocation, Height, MetaFit, Wire;
      hide FlatEntry, NodesEntry, AllocationEntry, HeightEntry, MetaFitEntry, WireEntry;
      ghost var fits := RoomForEntries(es, depth);
      var i := 0;
      while i < |es|
        invariant 0 <= i <= |es| && RoomFor(0, 0, 0) && WireEntries(es[i..])
        invariant fits == RoomForEntries(es[i..], depth)
        invariant entries + NodesEntries(es[i..]) == old(entries) + NodesEntries(es)
        invariant encoded + |FlatEntries(es[i..])| == old(encoded) + |FlatEntries(es)|
        invariant allocation + AllocationEntries(es[i..]) == old(allocation) + AllocationEntries(es)
      {
        ghost var rest := es[i..];
        assert rest[0] == es[i] && rest[1..] == es[i + 1..];
        ok := VisitEntry(es[i], depth);
        if !ok {
          return;
        }
        i := i + 1;
      }
      assert es[i..] == [];
      ok := true;
    }
  }
}
