/** The encoder and decoder as the source runs them, and what they guarantee together. */
module CborCodec {
  import opened Base
  import opened Cbor
  import opened CborProofs

  /** `encode`: the canonical bytes, every map in ascending key order. */
  function Encode(v: Cbor): (bs: seq<byte>) {
    Flat(Canon(v))
  }

  // ---------------------------------------------------------------------------------------------------------------
  // Sorting keeps what the wire cares about
  // ---------------------------------------------------------------------------------------------------------------

  predicate Absent(key: int, es: seq<Entry>) {
    forall i | 0 <= i < |es| :: es[i].key != key
  }

  /** Every map, at every level, has strictly ascending keys. */
  predicate Ascending(v: Cbor)
    decreases v, 0
  {
    match v
    case Array(items) => AscendingItems(items)
    case Map(es) => AscendingEntries(es)
    case _ => true
  }

  predicate AscendingItems(items: seq<Cbor>)
    decreases items, 1
  {
    items != [] ==> Ascending(items[0]) && AscendingItems(items[1..])
  }

  predicate AscendingEntry(e: Entry)
    decreases e, 0
  {
    Ascending(e.value)
  }

  predicate AscendingEntries(es: seq<Entry>)
    decreases es, 1
  {
    es != [] ==> AscendingEntry(es[0]) && AscendingEntries(es[1..]) && (|es| > 1 ==> es[0].key < es[1].key)
  }

  lemma {:induction false} InsertKeeps(e: Entry, es: seq<Entry>)
    ensures WireEntries(Insert(e, es)) <==> WireEntry(e) && WireEntries(es)
    ensures DepthEntries(Insert(e, es)) == Max(DepthEntry(e), DepthEntries(es))
  {
    var r := Insert(e, es);
    if es != [] && e.key > es[0].key {
      InsertKeeps(e, es[1..]);
      assert r[0] == es[0] && r[1..] == Insert(e, es[1..]);
    } else {
      assert r[0] == e && r[1..] == es;
    }
  }

  lemma {:induction false} InsertAbsent(key: int, e: Entry, es: seq<Entry>)
    ensures Absent(key, Insert(e, es)) <==> key != e.key && Absent(key, es)
  {
    var r := Insert(e, es);
    if es != [] && e.key > es[0].key {
      InsertAbsent(key, e, es[1..]);
      AbsentCons(key, es[0], es[1..]);
      AbsentCons(key, es[0], Insert(e, es[1..]));
      assert es == [es[0]] + es[1..];
    } else {
      AbsentCons(key, e, es);
    }
  }

  lemma AbsentCons(key: int, e: Entry, es: seq<Entry>)
    ensures Absent(key, [e] + es) <==> e.key != key && Absent(key, es)
  {
    var r := [e] + es;
    assert forall i | 0 <= i < |es| :: es[i] == r[i + 1];
    assert r[0] == e;
    if e.key != key && Absent(key, es) {
      assert forall i | 1 <= i < |r| :: r[i] == es[i - 1];
    }
  }

  lemma DistinctCons(e: Entry, es: seq<Entry>)
    ensures DistinctKeys([e] + es) <==> Absent(e.key, es) && DistinctKeys(es)
  {
    var r := [e] + es;
    assert r[0] == e && forall i | 0 <= i < |es| :: es[i] == r[i + 1];
    if DistinctKeys(r) {
      forall i, j | 0 <= i < j < |es| ensures es[i].key != es[j].key {
        assert es[i] == r[i + 1] && es[j] == r[j + 1];
      }
    }
    if Absent(e.key, es) && DistinctKeys(es) {
      forall i, j | 0 <= i < j < |r| ensures r[i].key != r[j].key {
        assert r[j] == es[j - 1];
        if i > 0 {
          assert r[i] == es[i - 1];
        }
      }
    }
  }

  /** Inserting a new key into ascending entries leaves them ascending. */
  lemma {:induction false} InsertAscends(e: Entry, es: seq<Entry>)
    requires AscendingEntry(e) && AscendingEntries(es) && Absent(e.key, es)
    ensures AscendingEntries(Insert(e, es))
  {
    var r := Insert(e, es);
    if es != [] && e.key > es[0].key {
      assert es == [es[0]] + es[1..];
      AbsentCons(e.key, es[0], es[1..]);
      InsertAscends(e, es[1..]);
      var rest := Insert(e, es[1..]);
      assert r[0] == es[0] && r[1..] == rest;
      assert r[1] == rest[0] && (rest[0] == e || (|es| > 1 && rest[0] == es[1]));
    } else {
      assert r[0] == e && r[1..] == es;
    }
  }

  /** Sorting entries of distinct keys gives ascending entries, and loses nothing. */
  lemma {:induction false} SortAscends(es: seq<Entry>)
    requires WireEntries(es) && DistinctKeys(es) && (forall i | 0 <= i < |es| :: AscendingEntry(es[i]))
    ensures WireEntries(SortByKey(es)) && DistinctKeys(SortByKey(es)) && AscendingEntries(SortByKey(es))
    ensures DepthEntries(SortByKey(es)) == DepthEntries(es)
    ensures forall key | Absent(key, es) :: Absent(key, SortByKey(es))
  {
    if es != [] {
      var e, rest := es[0], es[1..];
      assert es == [e] + rest;
      DistinctCons(e, rest);
      SortAscends(rest);
      var sorted := SortByKey(rest);
      InsertKeeps(e, sorted);
      InsertAscends(e, sorted);
      InsertDistinct(e, sorted);
      forall key | Absent(key, es) ensures Absent(key, SortByKey(es)) {
        AbsentCons(key, e, rest);
        InsertAbsent(key, e, sorted);
      }
    }
  }

  lemma {:induction false} InsertDistinct(e: Entry, es: seq<Entry>)
    requires DistinctKeys(es) && Absent(e.key, es)
    ensures DistinctKeys(Insert(e, es))
  {
    if es != [] && e.key > es[0].key {
      var h, rest := es[0], es[1..];
      assert es == [h] + rest;
      DistinctCons(h, rest);
      AbsentCons(e.key, h, rest);
      InsertDistinct(e, rest);
      InsertAbsent(h.key, e, rest);
      DistinctCons(h, Insert(e, rest));
    } else {
      DistinctCons(e, es);
    }
  }

  // ---------------------------------------------------------------------------------------------------------------
  // The canonical form is on the wire what the value was, with ascending keys
  // ---------------------------------------------------------------------------------------------------------------

  lemma {:induction false} CanonKeeps(v: Cbor)
    requires Wire(v)
    ensures Wire(Canon(v)) && Ascending(Canon(v)) && Depth(Canon(v)) == Depth(v)
    decreases v, 0
  {
    hide Insert, SortByKey, Utf8;
    match v
    case Array(items) =>
      CanonItemsKeeps(items);
    case Map(es) =>
      CanonEntriesKeeps(es);
      SortAscends(CanonEntries(es));
    case _ =>
  }

  lemma {:induction false} CanonItemsKeeps(items: seq<Cbor>)
    requires WireItems(items)
    ensures WireItems(CanonItems(items)) && AscendingItems(CanonItems(items))
    ensures DepthItems(CanonItems(items)) == DepthItems(items)
    decreases items, 1
  {
    hide Canon, Wire, Ascending, Depth;
    if items != [] {
      CanonKeeps(items[0]);
      CanonItemsKeeps(items[1..]);
      var r := CanonItems(items);
      assert r[0] == Canon(items[0]) && r[1..] == CanonItems(items[1..]);
    }
  }

  lemma {:induction false} CanonEntryKeeps(e: Entry)
    requires WireEntry(e)
    ensures WireEntry(CanonEntry(e)) && AscendingEntry(CanonEntry(e)) && DepthEntry(CanonEntry(e)) == DepthEntry(e)
    decreases e, 0
  {
    CanonKeeps(e.value);
  }

  lemma {:induction false} CanonEntriesKeeps(es: seq<Entry>)
    requires WireEntries(es)
    ensures var r := CanonEntries(es);
            && WireEntries(r)
            && DepthEntries(r) == DepthEntries(es)
            && (forall i | 0 <= i < |es| :: AscendingEntry(r[i]) && r[i].key == es[i].key)
            && (DistinctKeys(es) ==> DistinctKeys(r))
    decreases es, 1
  {
    hide WireEntry, AscendingEntry, DepthEntry;
    if es != [] {
      CanonEntryKeeps(es[0]);
      CanonEntriesKeeps(es[1..]);
      var r, tail := CanonEntries(es), CanonEntries(es[1..]);
      assert r[0] == CanonEntry(es[0]) && r[1..] == tail;
      forall i | 0 <= i < |es| ensures AscendingEntry(r[i]) && r[i].key == es[i].key {
        if i > 0 {
          assert r[i] == tail[i - 1] && es[i] == es[1..][i - 1];
        }
      }
    }
  }

  /** A value whose maps already ascend is its own canonical form. */
  lemma {:induction false} AscendingIsCanonical(v: Cbor)
    requires Ascending(v)
    ensures Canon(v) == v
    decreases v, 0
  {
    match v
    case Array(items) =>
      AscendingItemsAreCanonical(items);
    case Map(es) =>
      AscendingEntriesAreCanonical(es);
      SortedIsSorted(es);
    case _ =>
  }

  lemma {:induction false} AscendingItemsAreCanonical(items: seq<Cbor>)
    requires AscendingItems(items)
    ensures CanonItems(items) == items
    decreases items, 1
  {
    if items != [] {
      AscendingIsCanonical(items[0]);
      AscendingItemsAreCanonical(items[1..]);
    }
  }

  lemma {:induction false} AscendingEntryIsCanonical(e: Entry)
    requires AscendingEntry(e)
    ensures CanonEntry(e) == e
    decreases e, 0
  {
    AscendingIsCanonical(e.value);
  }

  lemma {:induction false} AscendingEntriesAreCanonical(es: seq<Entry>)
    requires AscendingEntries(es)
    ensures CanonEntries(es) == es
    decreases es, 1
  {
    hide AscendingEntry, CanonEntry;
    if es != [] {
      AscendingEntryIsCanonical(es[0]);
      AscendingEntriesAreCanonical(es[1..]);
    }
  }

  lemma {:induction false} SortedIsSorted(es: seq<Entry>)
    requires AscendingEntries(es)
    ensures SortByKey(es) == es
  {
    hide AscendingEntry;
    if es != [] {
      SortedIsSorted(es[1..]);
    }
  }

  // ---------------------------------------------------------------------------------------------------------------
  // Main results
  // ---------------------------------------------------------------------------------------------------------------

  /** Decoding an encoding returns the value with every map key-sorted, and consumes exactly its bytes. */
  lemma RoundTrip(v: Cbor, maxDepth: nat)
    requires Wire(v) && 1 <= maxDepth && Depth(v) <= Min(maxDepth, MAX_DEPTH_CEILING)
    ensures TryDecode(Encode(v), maxDepth, None) == Ok(Canon(v))
  {
    hide Wire, Depth, Flat, Canon, DecItem;
    CanonKeeps(v);
    var bs := Encode(v);
    assert At(bs, 0, bs) by { assert bs[0..|bs|] == bs; }
    DecodesFlat(Canon(v), bs, 0, 0, Min(maxDepth, MAX_DEPTH_CEILING));
  }

  /** Distinct wire values have distinct bytes. */
  lemma FlatInjective(v: Cbor, w: Cbor)
    requires Wire(v) && Wire(w) && Flat(v) == Flat(w)
    ensures v == w
  {
    hide Wire, Depth, Flat, DecItem;
    var bs := Flat(v);
    assert At(bs, 0, bs) by { assert bs[0..|bs|] == bs; }
    var limit := Max(Depth(v), Depth(w));
    DecodesFlat(v, bs, 0, 0, limit);
    DecodesFlat(w, bs, 0, 0, limit);
  }

  /**
   Re-encoding an accepted float-free input gives the input back exactly when every map in it has ascending keys.
   The decoder does not check key order, so this condition cannot be dropped.
   */
  lemma ReencodesIffAscending(data: seq<byte>, maxDepth: nat, maxLen: Option<nat>, v: Cbor)
    requires 1 <= maxDepth && TryDecode(data, maxDepth, maxLen) == Ok(v) && FloatFree(v)
    ensures Encode(v) == data <==> Ascending(v)
  {
    hide Wire, Depth, Flat, Canon, DecItem, Ascending, FloatFree;
    FlattensDecoded(data, 0, 0, Min(maxDepth, MAX_DEPTH_CEILING), v, |data|);
    assert data == Flat(v) by { assert data[0..|data|] == data; }
    CanonKeeps(v);
    if Ascending(v) {
      AscendingIsCanonical(v);
    }
    if Encode(v) == data {
      FlatInjective(Canon(v), v);
    }
  }

  const DESCENDING: Cbor := Map([Entry(2, Null), Entry(1, Null)])
  const DESCENDING_BYTES: seq<byte> := [0xA2, 0x02, 0xF6, 0x01, 0xF6]

  lemma DescendingBytes()
    ensures Flat(DESCENDING) == DESCENDING_BYTES
  {
    var e2, e1 := Entry(2, Null), Entry(1, Null);
    var es, one, none: seq<Entry> := [e2, e1], [e1], [];
    assert es[1..] == one && one[1..] == none;
    assert FlatEntry(e2) == [0x02, 0xF6] && FlatEntry(e1) == [0x01, 0xF6];
    assert FlatEntries(one) == [0x01, 0xF6] + FlatEntries(none);
    assert FlatEntries(es) == [0x02, 0xF6] + [0x01, 0xF6];
  }

  lemma DescendingIsWire()
    ensures Wire(DESCENDING) && Depth(DESCENDING) == 1 && !Ascending(DESCENDING)
  {
    var e2, e1 := Entry(2, Null), Entry(1, Null);
    var es, one, none: seq<Entry> := [e2, e1], [e1], [];
    assert es[1..] == one && one[1..] == none;
    assert DepthEntry(e1) == 0 && DepthEntry(e2) == 0 && WireEntry(e1) && WireEntry(e2);
    assert DepthEntries(none) == 0 && WireEntries(none);
    assert DepthEntries(one) == 0 && WireEntries(one);
    assert DepthEntries(es) == 0 && WireEntries(es);
  }

  /** The key order is not checked: an input with descending keys is accepted and re-encodes to other bytes. */
  lemma KeyOrderIsNotChecked()
    ensures TryDecode(DESCENDING_BYTES, DEFAULT_MAX_DEPTH, None) == Ok(DESCENDING)
    ensures Encode(DESCENDING) != DESCENDING_BYTES
  {
    hide Wire, Depth, Flat, Canon, DecItem, Ascending;
    DescendingBytes();
    DescendingIsWire();
    assert DESCENDING_BYTES[0..5] == DESCENDING_BYTES;
    DecodesFlat(DESCENDING, DESCENDING_BYTES, 0, 0, DEFAULT_MAX_DEPTH);
    ReencodesIffAscending(DESCENDING_BYTES, DEFAULT_MAX_DEPTH, None, DESCENDING);
  }
}
