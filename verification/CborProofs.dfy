/** Round trips of the CBOR codec, in both directions and for every value and every input. */
module CborProofs {
  import opened Base
  import opened Cbor

  predicate DistinctKeys(es: seq<Entry>) {
    forall i, j | 0 <= i < j < |es| :: es[i].key != es[j].key
  }

  /** The values a wire item can denote: carrier ranges, UTF-8 text, non-negative distinct map keys, no floats. */
  predicate Wire(v: Cbor)
    decreases v, 0
  {
    match v
    case Int(n) => I64_MIN <= n <= I64_MAX
    case Float(_) => false
    case Bytes(b) => |b| <= U64_MAX
    case Text(t) => |t| <= U64_MAX && Utf8(t)
    case Array(items) => |items| <= U64_MAX && WireItems(items)
    case Map(es) => |es| <= U64_MAX && WireEntries(es) && DistinctKeys(es)
    case _ => true
  }

  predicate WireItems(items: seq<Cbor>)
    decreases items, 1
  {
    items != [] ==> Wire(items[0]) && WireItems(items[1..])
  }

  predicate WireEntry(e: Entry)
    decreases e, 0
  {
    0 <= e.key <= I64_MAX && Wire(e.value)
  }

  predicate WireEntries(es: seq<Entry>)
    decreases es, 1
  {
    es != [] ==> WireEntry(es[0]) && WireEntries(es[1..])
  }

  /** How many arrays and maps nest in `v`. */
  function Depth(v: Cbor): (d: nat)
    decreases v, 0
  {
    match v
    case Array(items) => 1 + DepthItems(items)
    case Map(es) => 1 + DepthEntries(es)
    case _ => 0
  }

  function DepthItems(items: seq<Cbor>): (d: nat)
    decreases items, 1
  {
    if items == [] then 0 else Max(Depth(items[0]), DepthItems(items[1..]))
  }

  function DepthEntry(e: Entry): (d: nat)
    decreases e, 0
  {
    Depth(e.value)
  }

  function DepthEntries(es: seq<Entry>): (d: nat)
    decreases es, 1
  {
    if es == [] then 0 else Max(DepthEntry(es[0]), DepthEntries(es[1..]))
  }

  predicate FloatFree(v: Cbor)
    decreases v, 0
  {
    match v
    case Float(_) => false
    case Array(items) => FloatFreeItems(items)
    case Map(es) => FloatFreeEntries(es)
    case _ => true
  }

  predicate FloatFreeItems(items: seq<Cbor>)
    decreases items, 1
  {
    items != [] ==> FloatFree(items[0]) && FloatFreeItems(items[1..])
  }

  predicate FloatFreeEntry(e: Entry)
    decreases e, 0
  {
    FloatFree(e.value)
  }

  predicate FloatFreeEntries(es: seq<Entry>)
    decreases es, 1
  {
    es != [] ==> FloatFreeEntry(es[0]) && FloatFreeEntries(es[1..])
  }

  /** Whether `bs` stands in `data` at `off`. */
  predicate At(data: seq<byte>, off: nat, bs: seq<byte>) {
    off + |bs| <= |data| && data[off..off + |bs|] == bs
  }

  lemma AtSplit(data: seq<byte>, off: nat, a: seq<byte>, b: seq<byte>)
    ensures At(data, off, a + b) <==> At(data, off, a) && At(data, off + |a|, b)
  {
    if At(data, off, a + b) {
      assert data[off..off + |a|] == data[off..off + |a + b|][..|a|];
      assert data[off + |a|..off + |a| + |b|] == data[off..off + |a + b|][|a|..];
    }
    if At(data, off, a) && At(data, off + |a|, b) {
      assert data[off..off + |a + b|] == data[off..off + |a|] + data[off + |a|..off + |a| + |b|];
    }
  }

  lemma AtOne(data: seq<byte>, off: nat)
    requires off < |data|
    ensures At(data, off, [data[off]])
  {
    var one := data[off..off + 1];
    assert |one| == 1 && one[0] == data[off];
  }

  // ---------------------------------------------------------------------------------------------------------------
  // Heads
  // ---------------------------------------------------------------------------------------------------------------

  lemma Pow256Values()
    ensures Pow256(1) == 0x100 && Pow256(2) == 0x1_0000 && Pow256(4) == 0x1_0000_0000 && Pow256(8) == U64_MAX + 1
  {
    assert Pow256(3) == 0x100_0000;
    assert Pow256(5) == 0x100_0000_0000;
    assert Pow256(6) == 0x1_0000_0000_0000;
    assert Pow256(7) == 0x100_0000_0000_0000;
  }

  /** A head that stands in the input reads back as its major type and argument. */
  lemma HeadReads(major: nat, n: nat, data: seq<byte>, off: nat)
    requires major < 8 && n <= U64_MAX
    requires At(data, off, Head(major, n))
    ensures off < |data| && data[off] as nat / 32 == major && data[off] as nat % 32 == ArgInfo(n)
    ensures ReadArg(data, off + 1, ArgInfo(n)) == Ok((n, off + |Head(major, n)|))
  {
    hide BigEndian, FromBigEndian, Pow256;
    var first := [(major * 32 + ArgInfo(n)) as byte];
    AtSplit(data, off, first, BigEndian(n, ArgWidth(n)));
    assert data[off..off + 1][0] == first[0];
    if n >= 24 {
      Pow256Values();
      BigEndianRoundTrip(n, ArgWidth(n));
    }
  }

  /** Decoding past a head goes on with the head's argument. */
  lemma HeadDecodes(major: nat, n: nat, rest: seq<byte>, data: seq<byte>, off: nat, depth: nat, limit: nat)
    requires major < 6 && n <= U64_MAX && depth <= limit
    requires At(data, off, Head(major, n) + rest)
    ensures var o := off + |Head(major, n)|;
            At(data, o, rest) && DecItem(data, off, depth, limit) == DecBody(data, o, major, n, depth, limit)
  {
    AtSplit(data, off, Head(major, n), rest);
    HeadReads(major, n, data, off);
  }

  /** A head the decoder reads is the canonical head of what it reads. */
  lemma ReadIsHead(data: seq<byte>, off: nat, n: nat, o: nat)
    requires off < |data|
    requires ReadArg(data, off + 1, data[off] as nat % 32) == Ok((n, o))
    ensures n <= U64_MAX && o == off + |Head(data[off] as nat / 32, n)|
    ensures At(data, off, Head(data[off] as nat / 32, n))
  {
    var info := data[off] as nat % 32;
    var major := data[off] as nat / 32;
    var first := [data[off]];
    AtOne(data, off);
    if info < 24 {
      assert Head(major, n) == first;
    } else {
      Pow256Values();
      var b := data[off + 1..off + 1 + InfoWidth(info)];
      FromBigEndianRoundTrip(b);
      FromBigEndianBound(b);
      assert At(data, off + 1, b);
      AtSplit(data, off, first, b);
    }
  }

  // ---------------------------------------------------------------------------------------------------------------
  // Decoding what was encoded
  // ---------------------------------------------------------------------------------------------------------------

  lemma DecodesString(v: Cbor, data: seq<byte>, off: nat, depth: nat, limit: nat)
    requires Wire(v) && (v.Bytes? || v.Text?) && depth <= limit
    requires At(data, off, Flat(v))
    ensures DecItem(data, off, depth, limit) == Ok((v, off + |Flat(v)|))
  {
    hide BigEndian, Utf8, DecItems, DecEntries, DecItem, Head;
    var major, s := if v.Bytes? then 2 else 3, if v.Bytes? then v.bytes else v.utf8;
    HeadDecodes(major, |s|, s, data, off, depth, limit);
  }

  lemma DecodesScalar(v: Cbor, data: seq<byte>, off: nat, depth: nat, limit: nat)
    requires Wire(v) && (v.Int? || v.Bool? || v.Null?) && depth <= limit
    requires At(data, off, Flat(v))
    ensures DecItem(data, off, depth, limit) == Ok((v, off + |Flat(v)|))
  {
    if v.Int? {
      var major := if v.n >= 0 then 0 else 1;
      assert Flat(v) == Head(major, IntArg(v.n)) + [];
      HeadDecodes(major, IntArg(v.n), [], data, off, depth, limit);
    } else {
      assert data[off..off + 1][0] == Flat(v)[0];
    }
  }

  lemma DecodesContainer(v: Cbor, rest: seq<byte>, data: seq<byte>, off: nat, depth: nat, limit: nat)
    requires Wire(v) && depth < limit
    requires (v.Array? && rest == FlatItems(v.items)) || (v.Map? && rest == FlatEntries(v.entries))
    requires At(data, off, Flat(v))
    ensures var n := if v.Array? then |v.items| else |v.entries|;
            var major := if v.Array? then 4 else 5;
            var o := off + |Head(major, n)|;
            && At(data, o, rest)
            && DecItem(data, off, depth, limit) == DecBody(data, o, major, n, depth, limit)
            && off + |Flat(v)| == o + |rest|
  {
    hide Head, At, Utf8, DecItem, DecBody;
    if v.Array? {
      HeadDecodes(4, |v.items|, rest, data, off, depth, limit);
    } else {
      HeadDecodes(5, |v.entries|, rest, data, off, depth, limit);
    }
  }

  /** Decoding stored bytes returns the value and stops right after them, wherever they stand in the input. */
  lemma {:induction false} DecodesFlat(v: Cbor, data: seq<byte>, off: nat, depth: nat, limit: nat)
    requires Wire(v) && depth + Depth(v) <= limit
    requires At(data, off, Flat(v))
    ensures DecItem(data, off, depth, limit) == Ok((v, off + |Flat(v)|))
    decreases v, 0
  {
    hide Head, At, Utf8, DecItem, DecSimple;
    match v
    case Array(items) =>
      DecodesContainer(v, FlatItems(items), data, off, depth, limit);
      DecodesItems(items, data, off + |Head(4, |items|)|, depth + 1, limit);
    case Map(es) =>
      DecodesContainer(v, FlatEntries(es), data, off, depth, limit);
      DecodesEntries(es, data, off + |Head(5, |es|)|, depth + 1, limit, {});
    case Bytes(_) =>
      DecodesString(v, data, off, depth, limit);
    case Text(_) =>
      DecodesString(v, data, off, depth, limit);
    case _ =>
      DecodesScalar(v, data, off, depth, limit);
  }

  lemma {:induction false} DecodesItems(items: seq<Cbor>, data: seq<byte>, off: nat, depth: nat, limit: nat)
    requires WireItems(items) && depth + DepthItems(items) <= limit
    requires At(data, off, FlatItems(items))
    ensures DecItems(data, off, |items|, depth, limit) == Ok((items, off + |FlatItems(items)|))
    decreases items, 1
  {
    hide Head, At, Utf8, DecItem, Flat, DecSimple, DecBody;
    if items != [] {
      var v, rest := items[0], items[1..];
      AtSplit(data, off, Flat(v), FlatItems(rest));
      DecodesFlat(v, data, off, depth, limit);
      DecodesItems(rest, data, off + |Flat(v)|, depth, limit);
      assert items == [v] + rest;
    }
  }

  lemma {:induction false} DecodesEntry(
    e: Entry, data: seq<byte>, off: nat, depth: nat, limit: nat, seen: set<int>)
    requires WireEntry(e) && e.key !in seen && depth + DepthEntry(e) <= limit
    requires At(data, off, FlatEntry(e))
    ensures var o := off + |Head(0, e.key)|;
            && DecKey(data, off, depth, limit, seen) == Ok((e.key, o))
            && DecItem(data, o, depth, limit) == Ok((e.value, off + |FlatEntry(e)|))
    decreases e, 0
  {
    hide Head, At, Utf8, Flat;
    HeadDecodes(0, e.key, Flat(e.value), data, off, depth, limit);
    DecodesFlat(e.value, data, off + |Head(0, e.key)|, depth, limit);
  }

  /** The keys still to read are distinct and none was read before. */
  predicate FreshKeys(es: seq<Entry>, seen: set<int>) {
    DistinctKeys(es) && forall i | 0 <= i < |es| :: es[i].key !in seen
  }

  lemma FreshTail(es: seq<Entry>, seen: set<int>)
    requires es != []
    ensures FreshKeys(es, seen) <==> es[0].key !in seen && FreshKeys(es[1..], seen + {es[0].key})
  {
    var e, rest := es[0], es[1..];
    assert forall i | 0 <= i < |rest| :: rest[i] == es[i + 1];
    if e.key !in seen && FreshKeys(rest, seen + {e.key}) {
      forall i, j | 0 <= i < j < |es| ensures es[i].key != es[j].key {
        assert es[j] == rest[j - 1];
      }
      assert forall i | 1 <= i < |es| :: es[i] == rest[i - 1];
    }
  }

  lemma {:induction false} DecodesEntries(
    es: seq<Entry>, data: seq<byte>, off: nat, depth: nat, limit: nat, seen: set<int>)
    requires WireEntries(es) && FreshKeys(es, seen) && depth + DepthEntries(es) <= limit
    requires At(data, off, FlatEntries(es))
    ensures DecEntries(data, off, |es|, depth, limit, seen) == Ok((es, off + |FlatEntries(es)|))
    decreases es, 1
  {
    hide Head, At, Utf8, DecItem, DecKey, Flat, FlatEntry, FreshKeys, DecSimple, DecBody;
    if es != [] {
      var e, rest := es[0], es[1..];
      AtSplit(data, off, FlatEntry(e), FlatEntries(rest));
      FreshTail(es, seen);
      DecodesEntry(e, data, off, depth, limit, seen);
      DecodesEntries(rest, data, off + |FlatEntry(e)|, depth, limit, seen + {e.key});
      assert es == [e] + rest;
    }
  }

  // ---------------------------------------------------------------------------------------------------------------
  // Encoding what was decoded
  // ---------------------------------------------------------------------------------------------------------------

  lemma FlattensSimple(data: seq<byte>, off: nat, v: Cbor, o: nat)
    requires off < |data| && data[off] as nat / 32 == 7
    requires DecSimple(data, off + 1, data[off] as nat % 32) == Ok((v, o)) && FloatFree(v)
    ensures Wire(v) && Depth(v) == 0 && At(data, off, Flat(v)) && o == off + |Flat(v)|
  {
    AtOne(data, off);
  }

  /** Whatever float-free value the decoder returns, its stored-order bytes are exactly the bytes it consumed. */
  lemma {:induction false} FlattensDecoded(data: seq<byte>, off: nat, depth: nat, limit: nat, v: Cbor, o: nat)
    requires depth <= limit
    requires DecItem(data, off, depth, limit) == Ok((v, o)) && FloatFree(v)
    ensures Wire(v) && depth + Depth(v) <= limit
    ensures At(data, off, Flat(v)) && o == off + |Flat(v)|
    decreases limit - depth, 1, 0
  {
    hide DecSimple, DecBody, ReadArg, Wire, Depth, Flat, Head, FloatFree;
    var major := data[off] as nat / 32;
    if major == 7 {
      FlattensSimple(data, off, v, o);
    } else {
      var (n, p) := ReadArg(data, off + 1, data[off] as nat % 32).value;
      ReadIsHead(data, off, n, p);
      FlattensBody(data, p, major, n, depth, limit, v, o);
      AtSplit(data, off, Head(major, n), data[p..o]);
      assert Head(major, n) + data[p..o] == Flat(v);
    }
  }

  lemma {:induction false} FlattensBody(
    data: seq<byte>, p: nat, major: nat, n: nat, depth: nat, limit: nat, v: Cbor, o: nat)
    requires depth <= limit && p <= |data| && major < 6 && n <= U64_MAX
    requires DecBody(data, p, major, n, depth, limit) == Ok((v, o)) && FloatFree(v)
    ensures Wire(v) && depth + Depth(v) <= limit
    ensures p <= o <= |data| && Flat(v) == Head(major, n) + data[p..o]
    decreases limit - depth, 0, 0
  {
    hide BigEndian, Utf8, DecItem, DecItems, DecEntries;
    if major <= 1 {
      assert data[p..o] == [];
      assert Head(major, n) + [] == Head(major, n);
    } else if major == 4 {
      FlattensItems(data, p, n, depth + 1, limit, v.items, o);
    } else if major == 5 {
      FlattensEntries(data, p, n, depth + 1, limit, {}, v.entries, o);
    }
  }

  lemma {:induction false} FlattensItems(
    data: seq<byte>, off: nat, n: nat, depth: nat, limit: nat, items: seq<Cbor>, o: nat)
    requires depth <= limit && off <= |data|
    requires DecItems(data, off, n, depth, limit) == Ok((items, o)) && FloatFreeItems(items)
    ensures WireItems(items) && depth + DepthItems(items) <= limit
    ensures At(data, off, FlatItems(items)) && o == off + |FlatItems(items)|
    decreases limit - depth, 2, n
  {
    hide Head, Utf8, DecItem, Flat, DecBody;
    if n != 0 {
      var (v, p) := DecItem(data, off, depth, limit).value;
      var (rest, _) := DecItems(data, p, n - 1, depth, limit).value;
      assert items[0] == v && items[1..] == rest;
      FlattensDecoded(data, off, depth, limit, v, p);
      FlattensItems(data, p, n - 1, depth, limit, rest, o);
      AtSplit(data, off, Flat(v), FlatItems(rest));
    }
  }

  lemma {:induction false} FlattensEntry(
    data: seq<byte>, off: nat, depth: nat, limit: nat, seen: set<int>, e: Entry, p: nat, o: nat)
    requires depth <= limit
    requires DecKey(data, off, depth, limit, seen) == Ok((e.key, p))
    requires DecItem(data, p, depth, limit) == Ok((e.value, o)) && FloatFree(e.value)
    ensures WireEntry(e) && e.key !in seen && depth + DepthEntry(e) <= limit
    ensures At(data, off, FlatEntry(e)) && o == off + |FlatEntry(e)|
    decreases limit - depth, 1, 2
  {
    hide Head, At, Utf8, DecItem, DecBody;
    FlattensDecoded(data, off, depth, limit, Int(e.key), p);
    FlattensDecoded(data, p, depth, limit, e.value, o);
    AtSplit(data, off, Head(0, e.key), Flat(e.value));
  }

  lemma {:induction false} FlattensEntries(
    data: seq<byte>, off: nat, n: nat, depth: nat, limit: nat, seen: set<int>, es: seq<Entry>, o: nat)
    requires depth <= limit && off <= |data|
    requires DecEntries(data, off, n, depth, limit, seen) == Ok((es, o)) && FloatFreeEntries(es)
    ensures WireEntries(es) && depth + DepthEntries(es) <= limit
    ensures FreshKeys(es, seen)
    ensures At(data, off, FlatEntries(es)) && o == off + |FlatEntries(es)|
    decreases limit - depth, 2, n
  {
    hide Head, Utf8, DecItem, DecKey, Flat, FlatEntry, DecBody;
    if n != 0 {
      var (key, p) := DecKey(data, off, depth, limit, seen).value;
      var (v, q) := DecItem(data, p, depth, limit).value;
      var (rest, _) := DecEntries(data, q, n - 1, depth, limit, seen + {key}).value;
      assert es[0] == Entry(key, v) && es[1..] == rest;
      FlattensEntry(data, off, depth, limit, seen, es[0], p, q);
      FlattensEntries(data, q, n - 1, depth, limit, seen + {key}, rest, o);
      FreshTail(es, seen);
      AtSplit(data, off, FlatEntry(es[0]), FlatEntries(rest));
    }
  }
}
