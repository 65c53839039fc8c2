/** The encoder and decoder loops of `src/cbor.rs`, proved against the functions of `Cbor`. */
module CborMachine {
  import opened Base
  import opened Cbor
  import opened CborProofs
  import opened CborCodec

  // ---------------------------------------------------------------------------------------------------------------
  // Encoder
  // ---------------------------------------------------------------------------------------------------------------

  /** `head`: one branch per argument width. */
  method WriteHead(out: seq<byte>, major: nat, n: nat) returns (r: seq<byte>)
    requires major < 8
    ensures r == out + Head(major, n)
  {
    var mt := major * 32;
    if n < 24 {
      r := out + [(mt + n) as byte];
    } else if n < 0x100 {
      r := out + [(mt + 24) as byte] + BigEndian(n, 1);
    } else if n < 0x1_0000 {
      r := out + [(mt + 25) as byte] + BigEndian(n, 2);
    } else if n < 0x1_0000_0000 {
      r := out + [(mt + 26) as byte] + BigEndian(n, 4);
    } else {
      r := out + [(mt + 27) as byte] + BigEndian(n, 8);
    }
  }

  lemma CanonCons(e: Entry, es: seq<Entry>)
    ensures CanonEntries([e] + es) == [CanonEntry(e)] + CanonEntries(es)
  {
    hide Canon;
    assert ([e] + es)[1..] == es;
  }

  lemma InsertCons(e: Entry, first: Entry, rest: seq<Entry>)
    ensures Insert(e, [first] + rest) == if e.key <= first.key then [e] + ([first] + rest) else [first] + Insert(e, rest)
  {
    assert ([first] + rest)[1..] == rest;
  }

  lemma {:induction false} InsertCommutes(e: Entry, es: seq<Entry>)
    ensures CanonEntries(Insert(e, es)) == Insert(CanonEntry(e), CanonEntries(es))
  {
    hide Canon, CanonEntries, Insert;
    if es == [] {
      InsertsAlone(e);
    } else {
      var first, rest := es[0], es[1..];
      assert es == [first] + rest;
      InsertCommutes(e, rest);
      InsertCons(e, first, rest);
      CanonCons(first, rest);
      InsertCons(CanonEntry(e), CanonEntry(first), CanonEntries(rest));
      CanonCons(e, es);
      CanonCons(first, Insert(e, rest));
    }
  }

  lemma InsertsAlone(e: Entry)
    ensures CanonEntries(Insert(e, [])) == Insert(CanonEntry(e), CanonEntries([]))
  {
    hide Canon;
    assert [e] + [] == [e] && [e][1..] == [];
  }

  /** Sorting the map and then canonicalising its values is canonicalising first and sorting then. */
  lemma {:induction false} SortCommutes(es: seq<Entry>)
    ensures CanonEntries(SortByKey(es)) == SortByKey(CanonEntries(es))
  {
    if es != [] {
      SortCommutes(es[1..]);
      InsertCommutes(es[0], SortByKey(es[1..]));
      assert CanonEntries(es)[0] == CanonEntry(es[0]) && CanonEntries(es)[1..] == CanonEntries(es[1..]);
    }
  }

  /** `enc`: appends the canonical bytes of `v`, sorting each map's entries on the way. */
  method EncodeInto(v: Cbor, out: seq<byte>) returns (r: seq<byte>)
    requires FloatFree(v)
    ensures r == out + Encode(v)
    decreases v, 0
  {
    hide Insert, SortByKey, BigEndian, Head, FlatItems, FlatEntries, CanonItems, CanonEntries;
    match v
    case Int(n) =>
      r := WriteHead(out, if n >= 0 then 0 else 1, IntArg(n));
    case Bytes(b) =>
      r := WriteHead(out, 2, |b|);
      r := r + b;
    case Text(t) =>
      r := WriteHead(out, 3, |t|);
      r := r + t;
    case Array(items) =>
      r := WriteHead(out, 4, |items|);
      r := EncodeItems(items, r);
    case Map(es) =>
      r := WriteHead(out, 5, |es|);
      SortCommutes(es);
      r := EncodeEntries(es, r);
    case Bool(flag) =>
      r := out + [if flag then 0xF5 else 0xF4];
    case Null =>
      r := out + [0xF6];
  }

  method EncodeItems(items: seq<Cbor>, out: seq<byte>) returns (r: seq<byte>)
    requires FloatFreeItems(items)
    ensures r == out + FlatItems(CanonItems(items))
    decreases items, 1
  {
    hide Canon, Flat, FloatFree;
    r := out;
    var i := 0;
    while i < |items|
      invariant 0 <= i <= |items|
      invariant FloatFreeItems(items[i..])
      invariant r + FlatItems(CanonItems(items[i..])) == out + FlatItems(CanonItems(items))
    {
      var rest := items[i..];
      assert rest[0] == items[i] && rest[1..] == items[i + 1..];
      assert CanonItems(rest)[0] == Canon(items[i]) && CanonItems(rest)[1..] == CanonItems(items[i + 1..]);
      ghost var before := r;
      r := EncodeInto(items[i], r);
      assert r + FlatItems(CanonItems(items[i + 1..])) == before + FlatItems(CanonItems(rest));
      i := i + 1;
    }
    assert items[i..] == [];
  }

  method EncodeEntry(e: Entry, out: seq<byte>) returns (r: seq<byte>)
    requires FloatFreeEntry(e)
    ensures r == out + FlatEntry(CanonEntry(e))
    decreases e, 0
  {
    hide Head, Canon, Flat, FloatFree;
    r := WriteHead(out, 0, KeyArg(e.key));
    r := EncodeInto(e.value, r);
  }

  lemma {:induction false} FloatFreeMembers(es: seq<Entry>)
    requires FloatFreeEntries(es)
    ensures forall e | e in es :: FloatFreeEntry(e)
  {
    if es != [] {
      FloatFreeMembers(es[1..]);
      assert forall e | e in es :: e == es[0] || e in es[1..];
    }
  }

  method EncodeEntries(es: seq<Entry>, out: seq<byte>) returns (r: seq<byte>)
    requires FloatFreeEntries(es)
    ensures r == out + FlatEntries(CanonEntries(SortByKey(es)))
    decreases es, 1
  {
    hide Insert, SortByKey, CanonEntry, FlatEntry, FloatFreeEntry, FloatFreeEntries;
    FloatFreeMembers(es);
    var sorted := SortByKey(es);
    r := out;
    var i := 0;
    while i < |sorted|
      invariant 0 <= i <= |sorted|
      invariant r + FlatEntries(CanonEntries(sorted[i..])) == out + FlatEntries(CanonEntries(sorted))
    {
      var rest := sorted[i..];
      assert rest[0] == sorted[i] && rest[1..] == sorted[i + 1..];
      assert CanonEntries(rest)[0] == CanonEntry(sorted[i]) && CanonEntries(rest)[1..] == CanonEntries(sorted[i + 1..]);
      ghost var before := r;
      assert sorted[i] in multiset(es);
      r := EncodeEntry(sorted[i], r);
      assert r + FlatEntries(CanonEntries(sorted[i + 1..])) == before + FlatEntries(CanonEntries(rest));
      i := i + 1;
    }
    assert sorted[i..] == [];
  }

  // ---------------------------------------------------------------------------------------------------------------
  // Decoder
  // ---------------------------------------------------------------------------------------------------------------

  /** `dec`: one item, with recursion no deeper than `limit`. */
  method DecodeAt(data: seq<byte>, off: nat, depth: nat, limit: nat) returns (r: Result<(Cbor, nat), DecodeError>)
    requires depth <= limit
    ensures r == DecItem(data, off, depth, limit)
    decreases limit - depth, 1
  {
    hide Utf8, FromBigEndian;
    if off >= |data| {
      return Err(Truncated);
    }
    var major, info := data[off] as nat / 32, data[off] as nat % 32;
    if major == 6 {
      return Err(UnsupportedMajor(major));
    }
    if major == 7 {
      return DecSimple(data, off + 1, info);
    }
    var arg := ReadArg(data, off + 1, info);
    if arg.Err? {
      return Err(arg.error);
    }
    var (n, o) := arg.value;
    if major < 4 {
      return DecBody(data, o, major, n, depth, limit);
    }
    if depth >= limit {
      return Err(TooDeep(limit));
    }
    if major == 4 {
      var items := DecodeItems(data, o, n, depth + 1, limit);
      return if items.Err? then Err(items.error) else Ok((Array(items.value.0), items.value.1));
    }
    var entries := DecodeEntries(data, o, n, depth + 1, limit);
    return if entries.Err? then Err(entries.error) else Ok((Map(entries.value.0), entries.value.1));
  }

  /** What a partial read of `a` leaves to add: `a` followed by the rest, or the rest's error. */
  function After<T>(a: seq<T>, rest: Result<(seq<T>, nat), DecodeError>): Result<(seq<T>, nat), DecodeError> {
    if rest.Err? then rest else Ok((a + rest.value.0, rest.value.1))
  }

  lemma AfterNothing<T>(rest: Result<(seq<T>, nat), DecodeError>)
    ensures After([], rest) == rest
  {
    if rest.Ok? {
      assert [] + rest.value.0 == rest.value.0;
    }
  }

  method DecodeItems(data: seq<byte>, off: nat, n: nat, depth: nat, limit: nat)
    returns (r: Result<(seq<Cbor>, nat), DecodeError>)
    requires depth <= limit && off <= |data|
    ensures r == DecItems(data, off, n, depth, limit)
    decreases limit - depth, 2
  {
    hide DecItem;
    var a: seq<Cbor> := [];
    var o: nat := off;
    var i := 0;
    AfterNothing(DecItems(data, off, n, depth, limit));
    while i < n
      invariant 0 <= i <= n && o <= |data|
      invariant DecItems(data, off, n, depth, limit) == After(a, DecItems(data, o, n - i, depth, limit))
    {
      var item := DecodeAt(data, o, depth, limit);
      if item.Err? {
        return Err(item.error);
      }
      ghost var rest := DecItems(data, item.value.1, n - i - 1, depth, limit);
      assert rest.Ok? ==> a + ([item.value.0] + rest.value.0) == (a + [item.value.0]) + rest.value.0;
      a := a + [item.value.0];
      o := item.value.1;
      i := i + 1;
    }
    assert a + [] == a;
    return Ok((a, o));
  }

  method DecodeEntries(data: seq<byte>, off: nat, n: nat, depth: nat, limit: nat)
    returns (r: Result<(seq<Entry>, nat), DecodeError>)
    requires depth <= limit && off <= |data|
    ensures r == DecEntries(data, off, n, depth, limit, {})
    decreases limit - depth, 2
  {
    hide DecItem;
    var m: seq<Entry> := [];
    var seen: set<int> := {};
    var o: nat := off;
    var i := 0;
    AfterNothing(DecEntries(data, off, n, depth, limit, {}));
    while i < n
      invariant 0 <= i <= n && o <= |data|
      invariant DecEntries(data, off, n, depth, limit, {}) == After(m, DecEntries(data, o, n - i, depth, limit, seen))
    {
      var k := DecodeAt(data, o, depth, limit);
      if k.Err? {
        return Err(k.error);
      }
      if !k.value.0.Int? {
        return Err(NonIntegerMapKey);
      }
      var key := k.value.0.n;
      if key < 0 {
        return Err(NegativeMapKey(key));
      }
      if key in seen {
        return Err(DuplicateMapKey(key));
      }
      var v := DecodeAt(data, k.value.1, depth, limit);
      if v.Err? {
        return Err(v.error);
      }
      ghost var e := Entry(key, v.value.0);
      ghost var rest := DecEntries(data, v.value.1, n - i - 1, depth, limit, seen + {key});
      assert rest.Ok? ==> m + ([e] + rest.value.0) == (m + [e]) + rest.value.0;
      m := m + [Entry(key, v.value.0)];
      seen := seen + {key};
      o := v.value.1;
      i := i + 1;
    }
    assert m + [] == m;
    return Ok((m, o));
  }
}
