/** The scan of encoded bytes before anything is decoded: `src/codec/preflight.rs`. */
module Preflight {
  import opened Base
  import opened Cbor
  import opened CborProofs
  import opened CborCodec
  import opened Cost

  datatype Error = FrameTooLarge | Bounds | Malformed

  /** A head anywhere in the input: unlike the decoder's, it need not be in its shortest form. */
  function ReadHead(input: seq<byte>, at: nat): (r: Result<(nat, nat, nat), Error>)
    ensures r.Ok? ==> at < r.value.2 <= |input| && r.value.0 < 8
  {
    if at >= |input| then Err(Malformed)
    else
      var major, info := input[at] as nat / 32, input[at] as nat % 32;
      if info < 24 then Ok((major, info, at + 1))
      else if info > 27 || at + 1 + InfoWidth(info) > |input| then Err(Malformed)
      else Ok((major, FromBigEndian(input[at + 1..at + 1 + InfoWidth(info)]), at + 1 + InfoWidth(info)))
  }

  lemma ReadHeadReads(major: nat, n: nat, rest: seq<byte>, input: seq<byte>, at: nat)
    requires major < 8 && n <= U64_MAX && At(input, at, Head(major, n) + rest)
    ensures var o := at + |Head(major, n)|;
            ReadHead(input, at) == Ok((major, n, o)) && At(input, o, rest) && o + |rest| <= |input|
  {
    hide BigEndian, FromBigEndian;
    AtSplit(input, at, Head(major, n), rest);
    HeadReads(major, n, input, at);
  }

  class Scan {
    const input: seq<byte>
    const limits: Limits
    var at: nat
    var entries: nat
    var allocation: nat
    var bootstrap: bool

    constructor (input: seq<byte>, limits: Limits)
      ensures this.input == input && this.limits == limits
      ensures at == 0 && entries == 0 && allocation == |input| && !bootstrap
    {
      this.input, this.limits := input, limits;
      at, entries, allocation, bootstrap := 0, 0, |input|, false;
    }

    twostate predicate Moved(bytes: nat, n: nat, a: nat)
      reads this
    {
      at == old(at) + bytes && entries == old(entries) + n && allocation == old(allocation) + a
    }

    method TakeBytes(count: nat) returns (r: Result<(), Error>)
      requires at <= |input|
      modifies this`at
      ensures at <= |input|
      ensures r.Ok? <==> old(at) + count <= |input|
      ensures r.Ok? ==> at == old(at) + count
    {
      if at + count > |input| {
        return Err(Malformed);
      }
      at := at + count;
      return Ok(());
    }

    method TakeHead() returns (r: Result<(nat, nat), Error>)
      requires at <= |input|
      modifies this`at
      ensures at <= |input|
      ensures var h := ReadHead(input, old(at));
              if h.Ok? then r == Ok((h.value.0, h.value.1)) && at == h.value.2 else r.Err?
    {
      var h := ReadHead(input, at);
      if h.Err? {
        return Err(h.error);
      }
      at := h.value.2;
      return Ok((h.value.0, h.value.1));
    }

    method Charge(bytes: nat) returns (r: Result<(), Error>)
      modifies this`allocation
      ensures allocation == old(allocation) + bytes
      ensures r.Ok? <==> allocation <= limits.decodeAllocation
    {
      allocation := allocation + bytes;
      return if allocation > limits.decodeAllocation then Err(Bounds) else Ok(());
    }

    /** What an accepted value needs, and how far a scan of it moves. */
    ghost predicate RoomFor(n: nat, a: nat)
      reads this
    {
      entries + n <= limits.collectionEntries && allocation + a <= limits.decodeAllocation
    }

    /**
     Scans one item. On any input it stays inside the input; on the bytes of a value `v` it accepts exactly when `v`
     still fits, and then moves past exactly those bytes, charging exactly the cost of `v`.
     */
    method Item(depth: nat, parent: int, payload: bool, ghost v: Cbor) returns (r: Result<(), Error>)
      requires at <= |input|
      modifies this
      ensures at <= |input|
      ensures Wire(v) && At(input, old(at), Flat(v)) ==>
                (r.Ok? <==> depth + Height(v) <= limits.nesting && LengthsFit(v, depth, parent, payload, limits)
                            && old(RoomFor(Nodes(v), Allocation(v))))
      ensures Wire(v) && At(input, old(at), Flat(v)) && r.Ok? ==>
                && Moved(|Flat(v)|, Nodes(v), Allocation(v)) && RoomFor(0, 0)
                && bootstrap == (old(bootstrap) || MarksBootstrap(v, depth, parent))
      decreases Max(0, limits.nesting + 1 - depth), 1
    {
      hide BigEndian, FromBigEndian, Utf8, Head, ReadHead, At, Wire, Flat;
      ghost var described := Wire(v) && At(input, at, Flat(v));
      ghost var (m, n, tail) := Shape(v);
      if described {
        ShapeFlat(v);
        ReadHeadReads(m, n, tail, input, at);
      }
      if depth > limits.nesting {
        return Err(Bounds);
      }
      entries := entries + 1;
      if entries > limits.collectionEntries {
        return Err(Bounds);
      }
      r := Charge(NODE_CHARGE);
      if r.Err? {
        return;
      }
      var head := TakeHead();
      if head.Err? {
        return Err(head.error);
      }
      var (major, argument) := head.value;
      if depth == 1 && parent == 3 && major == 0 && argument == 0 {
        bootstrap := true;
      }
      r := Body(major, argument, depth, parent, payload, v);
    }

    /** What follows an item's head. */
    method Body(major: nat, argument: nat, depth: nat, parent: int, payload: bool, ghost v: Cbor)
      returns (r: Result<(), Error>)
      requires at <= |input| && depth <= limits.nesting && RoomFor(0, 0)
      modifies this
      ensures at <= |input|
      ensures Wire(v) && Shape(v).0 == major && Shape(v).1 == argument && At(input, old(at), Shape(v).2) ==>
                (r.Ok? <==> depth + Height(v) <= limits.nesting && LengthsFit(v, depth, parent, payload, limits)
                            && old(RoomFor(Nodes(v) - 1, Allocation(v) - NODE_CHARGE)))
      ensures Wire(v) && Shape(v).0 == major && Shape(v).1 == argument && At(input, old(at), Shape(v).2) && r.Ok? ==>
                && Moved(|Shape(v).2|, Nodes(v) - 1, Allocation(v) - NODE_CHARGE) && RoomFor(0, 0)
                && bootstrap == (old(bootstrap) || (!v.Int? && MarksBootstrap(v, depth, parent)))
      decreases Max(0, limits.nesting + 1 - depth), 0
    {
      hide Utf8, Flat;
      if major == 2 || major == 3 {
        r := StringBody(major, argument, payload);
      } else if major == 4 || major == 5 {
        if argument > SubSat(limits.collectionEntries, entries) {
          return Err(Bounds);
        }
        if major == 5 {
          r := Entries(argument, depth, parent, if v.Map? then v.entries else []);
        } else {
          r := Items(argument, depth + 1, if v.Array? then v.items else []);
        }
      } else if major == 6 {
        return Err(Malformed);
      } else {
        r := Ok(());
      }
    }

    method StringBody(major: nat, len: nat, payload: bool) returns (r: Result<(), Error>)
      requires at <= |input|
      modifies this
      ensures at <= |input| && bootstrap == old(bootstrap) && entries == old(entries)
      ensures r.Ok? <==>
              && len <= (if major == 2 && payload then limits.dataPayload else limits.metadataBytes)
              && old(allocation) + 4 * len <= limits.decodeAllocation && old(at) + len <= |input|
      ensures r.Ok? ==> at == old(at) + len && allocation == old(allocation) + 4 * len
    {
      var max := if major == 2 && payload then limits.dataPayload else limits.metadataBytes;
      if len > max {
        return Err(Bounds);
      }
      r := Charge(len * 4);
      if r.Ok? {
        r := TakeBytes(len);
      }
    }

    ghost predicate RoomForItems(items: seq<Cbor>, depth: nat)
      reads this
    {
      && depth + HeightItems(items) <= limits.nesting + 1
      && LengthsFitItems(items, depth, limits)
      && RoomFor(NodesItems(items), AllocationItems(items))
    }

    method Items(count: nat, depth: nat, ghost items: seq<Cbor>) returns (r: Result<(), Error>)
      requires at <= |input| && 1 <= depth <= limits.nesting + 1 && RoomFor(0, 0)
      modifies this
      ensures at <= |input|
      ensures |items| == count && WireItems(items) && At(input, old(at), FlatItems(items)) ==>
                (r.Ok? <==> old(RoomForItems(items, depth)))
      ensures |items| == count && WireItems(items) && At(input, old(at), FlatItems(items)) && r.Ok? ==>
                && Moved(|FlatItems(items)|, NodesItems(items), AllocationItems(items)) && RoomFor(0, 0)
                && bootstrap == (old(bootstrap) || MarksItems(items, depth))
      decreases Max(0, limits.nesting + 1 - depth), 2
    {
      hide Flat, Nodes, Allocation, Height, LengthsFit, Wire, MarksBootstrap, At;
      ghost var described := |items| == count && WireItems(items) && At(input, at, FlatItems(items));
      ghost var fits := RoomForItems(items, depth);
      var i := 0;
      while i < count
        invariant 0 <= i <= count && at <= |input|
        invariant described ==>
            && |items| == count && WireItems(items[i..]) && At(input, at, FlatItems(items[i..]))
            && RoomFor(0, 0) && fits == RoomForItems(items[i..], depth)
            && entries + NodesItems(items[i..]) == old(entries) + NodesItems(items)
            && allocation + AllocationItems(items[i..]) == old(allocation) + AllocationItems(items)
            && at + |FlatItems(items[i..])| == old(at) + |FlatItems(items)|
            && (bootstrap || MarksItems(items[i..], depth)) == (old(bootstrap) || MarksItems(items, depth))
      {
        ghost var rest := if described then items[i..] else [Null];
        ghost var item := rest[0];
        if described {
          assert rest[1..] == items[i + 1..];
          AtSplit(input, at, Flat(item), FlatItems(rest[1..]));
        }
        r := Item(depth, 0, false, item);
        if r.Err? {
          return;
        }
        i := i + 1;
      }
      assert described ==> items[i..] == [];
      r := Ok(());
    }

    ghost predicate RoomForEntries(es: seq<Entry>, depth: nat, parent: int)
      reads this
    {
      && depth + HeightEntries(es) <= limits.nesting
      && LengthsFitEntries(es, depth, parent, limits)
      && RoomFor(NodesEntries(es), AllocationEntries(es))
    }

    method EntryAt(depth: nat, parent: int, ghost e: Entry) returns (r: Result<(), Error>)
      requires at <= |input| && depth <= limits.nesting
      modifies this
      ensures at <= |input|
      ensures WireEntry(e) && At(input, old(at), FlatEntry(e)) ==>
                (r.Ok? <==> depth + 1 + HeightEntry(e) <= limits.nesting && LengthsFitEntry(e, depth, parent, limits)
                            && old(RoomFor(NodesEntry(e), AllocationEntry(e))))
      ensures WireEntry(e) && At(input, old(at), FlatEntry(e)) && r.Ok? ==>
                && Moved(|FlatEntry(e)|, NodesEntry(e), AllocationEntry(e)) && RoomFor(0, 0)
                && bootstrap == (old(bootstrap) || MarksEntry(e, depth))
      decreases Max(0, limits.nesting - depth), 2
    {
      hide Flat, Nodes, Allocation, Height, LengthsFit, Wire, MarksBootstrap, At, Head, ReadHead;
      if WireEntry(e) && At(input, at, FlatEntry(e)) {
        ReadHeadReads(0, e.key, Flat(e.value), input, at);
      }
      var head := TakeHead();
      if head.Err? {
        return Err(head.error);
      }
      var (major, key) := head.value;
      if major != 0 {
        return Err(Malformed);
      }
      r := Charge(KEY_CHARGE);
      if r.Ok? {
        r := Item(depth + 1, key, PayloadKey(depth, parent, key), e.value);
      }
    }

    method Entries(count: nat, depth: nat, parent: int, ghost es: seq<Entry>) returns (r: Result<(), Error>)
      requires at <= |input| && depth <= limits.nesting && RoomFor(0, 0)
      modifies this
      ensures at <= |input|
      ensures |es| == count && WireEntries(es) && At(input, old(at), FlatEntries(es)) ==>
                (r.Ok? <==> old(RoomForEntries(es, depth, parent)))
      ensures |es| == count && WireEntries(es) && At(input, old(at), FlatEntries(es)) && r.Ok? ==>
                && Moved(|FlatEntries(es)|, NodesEntries(es), AllocationEntries(es)) && RoomFor(0, 0)
                && bootstrap == (old(bootstrap) || MarksEntries(es, depth))
      decreases Max(0, limits.nesting - depth), 3
    {
      hide FlatEntry, NodesEntry, AllocationEntry, HeightEntry, LengthsFitEntry, WireEntry, MarksEntry, At;
      ghost var described := |es| == count && WireEntries(es) && At(input, at, FlatEntries(es));
      ghost var fits := RoomForEntries(es, depth, parent);
      var i := 0;
      while i < count
        invariant 0 <= i <= count && at <= |input|
        invariant described ==>
            && |es| == count && WireEntries(es[i..]) && At(input, at, FlatEntries(es[i..]))
            && RoomFor(0, 0) && fits == RoomForEntries(es[i..], depth, parent)
            && entries + NodesEntries(es[i..]) == old(entries) + NodesEntries(es)
            && allocation + AllocationEntries(es[i..]) == old(allocation) + AllocationEntries(es)
            && at + |FlatEntries(es[i..])| == old(at) + |FlatEntries(es)|
            && (bootstrap || MarksEntries(es[i..], depth)) == (old(bootstrap) || MarksEntries(es, depth))
      {
        ghost var rest := if described then es[i..] else [Entry(0, Null)];
        ghost var e := rest[0];
        if described {
          assert rest[1..] == es[i + 1..];
          AtSplit(input, at, FlatEntry(e), FlatEntries(rest[1..]));
        }
        r := EntryAt(depth, parent, e);
        if r.Err? {
          return;
        }
        i := i + 1;
      }
      assert described ==> es[i..] == [];
      r := Ok(());
    }
  }

  /** A value's first head and what follows it. */
  ghost function Shape(v: Cbor): (nat, nat, seq<byte>) {
    match v
    case Int(n) => (if n >= 0 then 0 else 1, IntArg(n), [])
    case Bytes(b) => (2, |b|, b)
    case Text(t) => (3, |t|, t)
    case Array(items) => (4, |items|, FlatItems(items))
    case Map(es) => (5, |es|, FlatEntries(es))
    case Bool(flag) => (7, if flag then 21 else 20, [])
    case Null => (7, 22, [])
    case Float(_) => (7, 0, [])
  }

  lemma ShapeFlat(v: Cbor)
    requires Wire(v)
    ensures var (major, n, tail) := Shape(v);
            major < 8 && n <= U64_MAX && Flat(v) == Head(major, n) + tail
  {
    var (major, n, tail) := Shape(v);
    if tail == [] {
      assert Head(major, n) + [] == Head(major, n);
    }
  }

  /**
   `check`: on the bytes of any wire value, the scan accepts exactly when the value fits every bound; the bootstrap
   caps apply exactly when the value is a bootstrap message.
   */
  method Check(input: seq<byte>, limits: Limits) returns (r: Result<(), Error>)
    requires ValidLimits(limits)
    ensures forall v | Wire(v) && Flat(v) == input :: r.Ok? <==> Fits(v, limits)
  {
    hide Wire, Flat, Nodes, Allocation, Height, LengthsFit, MarksBootstrap;
    ghost var v: Cbor :| (exists w :: Wire(w) && Flat(w) == input) ==> Wire(v) && Flat(v) == input;
    forall w | Wire(w) && Flat(w) == input ensures w == v {
      FlatInjective(v, w);
    }
    if |input| > limits.encodedFrame {
      return Err(FrameTooLarge);
    }
    var scan := new Scan(input, limits);
    assert input[0..|input|] == input;
    r := scan.Item(0, 0, false, v);
    if r.Err? {
      return;
    }
    if scan.bootstrap && (|input| > MAX_BOOTSTRAP || scan.allocation > MAX_BOOTSTRAP_ALLOCATION) {
      return Err(Bounds);
    }
    if scan.at != |input| {
      return Err(Malformed);
    }
  }
}
