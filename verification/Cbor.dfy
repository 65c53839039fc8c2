/**
 The deterministic CBOR subset of `src/cbor.rs`: values, canonical encoding and fail-closed decoding.

 A float keeps its raw wire bytes: its numeric value, and the encoder's choice of the shortest float form, are
 outside the model, so encoding asks for float-free values.
 */
module Cbor {
  import opened Base

  datatype Cbor =
    | Int(n: int)
    | Float(raw: seq<byte>)
    | Bytes(bytes: seq<byte>)
    | Text(utf8: seq<byte>)
    | Array(items: seq<Cbor>)
    | Map(entries: seq<Entry>)
    | Bool(flag: bool)
    | Null

  datatype Entry = Entry(key: int, value: Cbor)

  datatype DecodeError =
    | Truncated
    | TrailingBytes
    | InvalidUtf8
    | UnsupportedInfo(info: int)
    | UnsupportedMajor(major: int)
    | NonIntegerMapKey
    | DuplicateMapKey(key: int)
    | IntOverflow
    | NonCanonicalInt(value: int)
    | NegativeMapKey(key: int)
    | TooDeep(limit: int)
    | TooLarge(len: int, limit: int)

  const DEFAULT_MAX_DEPTH := 32
  const MAX_DEPTH_CEILING := 128

  // ---------------------------------------------------------------------------------------------------------------
  // Big-endian arguments
  // ---------------------------------------------------------------------------------------------------------------

  function Pow256(k: nat): (r: nat)
    ensures r >= 1
  {
    if k == 0 then 1 else 256 * Pow256(k - 1)
  }

  /** The `k` low bytes of `n`, most significant first. */
  function BigEndian(n: nat, k: nat): (bs: seq<byte>)
    ensures |bs| == k
  {
    if k == 0 then [] else BigEndian(n / 256, k - 1) + [(n % 256) as byte]
  }

  function FromBigEndian(bs: seq<byte>): nat {
    if bs == [] then 0 else FromBigEndian(bs[..|bs| - 1]) * 256 + bs[|bs| - 1] as nat
  }

  lemma {:induction false} FromBigEndianBound(bs: seq<byte>)
    ensures FromBigEndian(bs) < Pow256(|bs|)
  {
    if bs != [] {
      FromBigEndianBound(bs[..|bs| - 1]);
    }
  }

  lemma {:induction false} BigEndianRoundTrip(n: nat, k: nat)
    requires n < Pow256(k)
    ensures FromBigEndian(BigEndian(n, k)) == n
  {
    if k != 0 {
      BigEndianRoundTrip(n / 256, k - 1);
      assert BigEndian(n, k)[..k - 1] == BigEndian(n / 256, k - 1);
    }
  }

  lemma {:induction false} FromBigEndianRoundTrip(bs: seq<byte>)
    ensures BigEndian(FromBigEndian(bs), |bs|) == bs
  {
    if bs != [] {
      FromBigEndianRoundTrip(bs[..|bs| - 1]);
      var n := FromBigEndian(bs);
      assert n / 256 == FromBigEndian(bs[..|bs| - 1]) && n % 256 == bs[|bs| - 1] as nat;
      assert bs == bs[..|bs| - 1] + [bs[|bs| - 1]];
    }
  }

  // ---------------------------------------------------------------------------------------------------------------
  // Encoding
  // ---------------------------------------------------------------------------------------------------------------

  /** How many argument bytes follow the initial byte for argument `n`. */
  function ArgWidth(n: nat): nat {
    if n < 24 then 0 else if n < 0x100 then 1 else if n < 0x1_0000 then 2 else if n < 0x1_0000_0000 then 4 else 8
  }

  /** The low five bits of the initial byte. */
  function ArgInfo(n: nat): nat {
    if n < 24 then n else if n < 0x100 then 24 else if n < 0x1_0000 then 25 else if n < 0x1_0000_0000 then 26 else 27
  }

  /** The initial byte and argument bytes of an item. */
  function Head(major: nat, n: nat): (bs: seq<byte>)
    requires major < 8
    ensures |bs| == 1 + ArgWidth(n)
  {
    [(major * 32 + ArgInfo(n)) as byte] + BigEndian(n, ArgWidth(n))
  }

  function IntArg(n: int): nat {
    if n >= 0 then n else -1 - n
  }

  /** A map key is written as its cast to an unsigned 64-bit integer. */
  function KeyArg(key: int): nat {
    if key >= 0 then key else key % (U64_MAX + 1)
  }

  /** The bytes of `v` with every map written in its stored order. */
  function Flat(v: Cbor): (bs: seq<byte>)
    ensures |bs| >= 1
    decreases v, 0
  {
    match v
    case Int(n) => Head(if n >= 0 then 0 else 1, IntArg(n))
    case Float(raw) => [if |raw| == 2 then 0xF9 else if |raw| == 4 then 0xFA else 0xFB] + raw
    case Bytes(b) => Head(2, |b|) + b
    case Text(t) => Head(3, |t|) + t
    case Array(items) => Head(4, |items|) + FlatItems(items)
    case Map(es) => Head(5, |es|) + FlatEntries(es)
    case Bool(flag) => [if flag then 0xF5 else 0xF4]
    case Null => [0xF6]
  }

  function FlatItems(items: seq<Cbor>): (bs: seq<byte>)
    ensures |bs| >= |items|
    decreases items, 1
  {
    if items == [] then [] else Flat(items[0]) + FlatItems(items[1..])
  }

  function FlatEntry(e: Entry): (bs: seq<byte>)
    ensures |bs| >= 2
    decreases e, 0
  {
    Head(0, KeyArg(e.key)) + Flat(e.value)
  }

  function FlatEntries(es: seq<Entry>): (bs: seq<byte>)
    ensures |bs| >= 2 * |es|
    decreases es, 1
  {
    if es == [] then [] else FlatEntry(es[0]) + FlatEntries(es[1..])
  }

  // ---------------------------------------------------------------------------------------------------------------
  // Canonical form: every map in ascending key order
  // ---------------------------------------------------------------------------------------------------------------

  /** Puts `e` before the first entry whose key is not smaller: the step of a stable sort. */
  function Insert(e: Entry, es: seq<Entry>): (r: seq<Entry>)
    ensures multiset(r) == multiset([e]) + multiset(es)
    ensures |r| == |es| + 1
  {
    if es == [] || e.key <= es[0].key then [e] + es
    else
      assert es == [es[0]] + es[1..];
      [es[0]] + Insert(e, es[1..])
  }

  function SortByKey(es: seq<Entry>): (r: seq<Entry>)
    ensures multiset(r) == multiset(es)
    ensures |r| == |es|
  {
    if es == [] then []
    else
      assert es == [es[0]] + es[1..];
      Insert(es[0], SortByKey(es[1..]))
  }

  function Canon(v: Cbor): (r: Cbor)
    decreases v, 0
  {
    match v
    case Array(items) => Array(CanonItems(items))
    case Map(es) => Map(SortByKey(CanonEntries(es)))
    case _ => v
  }

  function CanonItems(items: seq<Cbor>): (r: seq<Cbor>)
    ensures |r| == |items|
    decreases items, 1
  {
    if items == [] then [] else [Canon(items[0])] + CanonItems(items[1..])
  }

  function CanonEntry(e: Entry): (r: Entry)
    decreases e, 0
  {
    Entry(e.key, Canon(e.value))
  }

  function CanonEntries(es: seq<Entry>): (r: seq<Entry>)
    ensures |r| == |es|
    decreases es, 1
  {
    if es == [] then [] else [CanonEntry(es[0])] + CanonEntries(es[1..])
  }

  // ---------------------------------------------------------------------------------------------------------------
  // Decoding
  // ---------------------------------------------------------------------------------------------------------------

  predicate Continuation(b: byte) {
    0x80 <= b <= 0xBF
  }

  /** Well-formed UTF-8: no overlong form, no surrogate, nothing above U+10FFFF. */
  predicate Utf8(s: seq<byte>) {
    if s == [] then true
    else if s[0] < 0x80 then Utf8(s[1..])
    else if 0xC2 <= s[0] <= 0xDF then
      |s| >= 2 && Continuation(s[1]) && Utf8(s[2..])
    else if 0xE0 <= s[0] <= 0xEF then
      && |s| >= 3 && Continuation(s[1]) && Continuation(s[2])
      && (s[0] == 0xE0 ==> s[1] >= 0xA0)
      && (s[0] == 0xED ==> s[1] <= 0x9F)
      && Utf8(s[3..])
    else if 0xF0 <= s[0] <= 0xF4 then
      && |s| >= 4 && Continuation(s[1]) && Continuation(s[2]) && Continuation(s[3])
      && (s[0] == 0xF0 ==> s[1] >= 0x90)
      && (s[0] == 0xF4 ==> s[1] <= 0x8F)
      && Utf8(s[4..])
    else false
  }

  function Take(data: seq<byte>, off: nat, len: nat): (r: Result<seq<byte>, DecodeError>) {
    if off + len <= |data| then Ok(data[off..off + len]) else Err(Truncated)
  }

  /** The argument width that the low five bits of an initial byte announce. */
  function InfoWidth(info: nat): nat {
    if info == 24 then 1 else if info == 25 then 2 else if info == 26 then 4 else if info == 27 then 8 else 0
  }

  /** The argument, and the offset after it; an argument that fits a shorter form is refused. */
  function ReadArg(data: seq<byte>, off: nat, info: nat): (r: Result<(nat, nat), DecodeError>)
    requires info < 32
    ensures r.Ok? ==> off <= r.value.1 && (off <= |data| ==> r.value.1 <= |data|)
  {
    if info < 24 then Ok((info, off))
    else if info > 27 then Err(UnsupportedInfo(info))
    else
      match Take(data, off, InfoWidth(info))
      case Err(e) => Err(e)
      case Ok(b) =>
        var value := FromBigEndian(b);
        if ArgInfo(value) != info then Err(NonCanonicalInt(value)) else Ok((value, off + InfoWidth(info)))
  }

  /** The item at `off`, inside `depth` arrays and maps, under depth bound `limit`; and the offset after it. */
  function DecItem(data: seq<byte>, off: nat, depth: nat, limit: nat): (r: Result<(Cbor, nat), DecodeError>)
    requires depth <= limit
    ensures r.Ok? ==> off < r.value.1 <= |data|
    decreases limit - depth, 1, 0
  {
    if off >= |data| then Err(Truncated)
    else
      var major, info := data[off] as nat / 32, data[off] as nat % 32;
      if major == 6 then Err(UnsupportedMajor(major))
      else if major == 7 then DecSimple(data, off + 1, info)
      else
        match ReadArg(data, off + 1, info)
        case Err(e) => Err(e)
        case Ok((n, o)) => DecBody(data, o, major, n, depth, limit)
  }

  /** Major type 7: booleans, null and floats. */
  function DecSimple(data: seq<byte>, off: nat, info: nat): (r: Result<(Cbor, nat), DecodeError>)
    requires off <= |data|
    ensures r.Ok? ==> off <= r.value.1 <= |data|
  {
    if info == 20 then Ok((Bool(false), off))
    else if info == 21 then Ok((Bool(true), off))
    else if info == 22 then Ok((Null, off))
    else if 25 <= info <= 27 then
      match Take(data, off, InfoWidth(info))
      case Err(e) => Err(e)
      case Ok(raw) => Ok((Float(raw), off + InfoWidth(info)))
    else Err(UnsupportedInfo(info))
  }

  /** What follows a head of major type 0 to 5 with argument `n`. */
  function DecBody(data: seq<byte>, o: nat, major: nat, n: nat, depth: nat, limit: nat)
    : (r: Result<(Cbor, nat), DecodeError>)
    requires depth <= limit && o <= |data| && major < 6
    ensures r.Ok? ==> o <= r.value.1 <= |data|
    decreases limit - depth, 0, 0
  {
    if major <= 1 then
      if n > I64_MAX then Err(IntOverflow) else Ok((Int(if major == 0 then n else -1 - n), o))
    else if major <= 3 then
      match Take(data, o, n)
      case Err(e) => Err(e)
      case Ok(b) =>
        if major == 2 then Ok((Bytes(b), o + n))
        else if !Utf8(b) then Err(InvalidUtf8)
        else Ok((Text(b), o + n))
    else if depth >= limit then Err(TooDeep(limit))
    else if major == 4 then
      match DecItems(data, o, n, depth + 1, limit)
      case Err(e) => Err(e)
      case Ok((items, o2)) => Ok((Array(items), o2))
    else
      match DecEntries(data, o, n, depth + 1, limit, {})
      case Err(e) => Err(e)
      case Ok((es, o2)) => Ok((Map(es), o2))
  }

  function DecItems(data: seq<byte>, off: nat, n: nat, depth: nat, limit: nat)
    : (r: Result<(seq<Cbor>, nat), DecodeError>)
    requires depth <= limit && off <= |data|
    ensures r.Ok? ==> off <= r.value.1 <= |data| && |r.value.0| == n
    decreases limit - depth, 2, n
  {
    if n == 0 then Ok(([], off))
    else
      match DecItem(data, off, depth, limit)
      case Err(e) => Err(e)
      case Ok((v, o)) =>
        match DecItems(data, o, n - 1, depth, limit)
        case Err(e) => Err(e)
        case Ok((rest, o2)) => Ok(([v] + rest, o2))
  }

  /** One entry's key: read and checked before its value is read. */
  function DecKey(data: seq<byte>, off: nat, depth: nat, limit: nat, seen: set<int>)
    : (r: Result<(int, nat), DecodeError>)
    requires depth <= limit
    ensures r.Ok? ==> off < r.value.1 <= |data|
    decreases limit - depth, 1, 1
  {
    match DecItem(data, off, depth, limit)
    case Err(e) => Err(e)
    case Ok((k, o)) =>
      if !k.Int? then Err(NonIntegerMapKey)
      else if k.n < 0 then Err(NegativeMapKey(k.n))
      else if k.n in seen then Err(DuplicateMapKey(k.n))
      else Ok((k.n, o))
  }

  function DecEntries(data: seq<byte>, off: nat, n: nat, depth: nat, limit: nat, seen: set<int>)
    : (r: Result<(seq<Entry>, nat), DecodeError>)
    requires depth <= limit && off <= |data|
    ensures r.Ok? ==> off <= r.value.1 <= |data| && |r.value.0| == n
    decreases limit - depth, 2, n
  {
    if n == 0 then Ok(([], off))
    else
      match DecKey(data, off, depth, limit, seen)
      case Err(e) => Err(e)
      case Ok((key, o)) =>
        match DecItem(data, o, depth, limit)
        case Err(e) => Err(e)
        case Ok((v, o2)) =>
          match DecEntries(data, o2, n - 1, depth, limit, seen + {key})
          case Err(e) => Err(e)
          case Ok((rest, o3)) => Ok(([Entry(key, v)] + rest, o3))
  }

  /** `try_decode_with`: the whole input is one item, within the depth bound (at most the ceiling) and length bound. */
  function TryDecode(data: seq<byte>, maxDepth: nat, maxLen: Option<nat>): (r: Result<Cbor, DecodeError>)
    requires maxDepth >= 1
  {
    if maxLen.Some? && |data| > maxLen.value then Err(TooLarge(|data|, maxLen.value))
    else
      match DecItem(data, 0, 0, Min(maxDepth, MAX_DEPTH_CEILING))
      case Err(e) => Err(e)
      case Ok((v, o)) => if o != |data| then Err(TrailingBytes) else Ok(v)
  }
}
