/**
 Reading a message back from its tree: the generated record readers of `src/protocol.rs`, and the rule of
 `src/codec/validate.rs` that a message has exactly one body, the one that its kind names.
 */
module EnvelopeReader {
  import opened Base
  import opened Cbor
  import opened StreamProtocol
  import opened EnvelopeTrees

  datatype PartKind = FactsPart | DetailPart | BodyPart(field: int)

  /** What the readers and the flat field checks make of a part that the stream only carries, in a given version. */
  type PartReader = (PartKind, int, Cbor) -> Option<Part>

  // ---------------------------------------------------------------------------------------------------------------
  // Fields
  // ---------------------------------------------------------------------------------------------------------------

  function Find(es: seq<Entry>, key: int): Option<Cbor> {
    if es == [] then None else if es[0].key == key then Some(es[0].value) else Find(es[1..], key)
  }

  /** `try_get`: nothing when the key is missing or this is not a map. */
  function Get(c: Cbor, key: int): Option<Cbor> {
    if c.Map? then Find(c.entries, key) else None
  }

  function GetInt(c: Cbor, key: int): Option<int> {
    var v := Get(c, key);
    if v.Some? && v.value.Int? then Some(v.value.n) else None
  }

  /** A field that may be missing or null, and must otherwise be read by `read`; the outer option is the reader's. */
  function Maybe<T>(v: Option<Cbor>, read: Cbor -> Option<T>): Option<Option<T>> {
    if v.None? || v.value.Null? then Some(None)
    else
      var r := read(v.value);
      if r.Some? then Some(r) else None
  }

  function IntOf(v: Cbor): Option<int> {
    if v.Int? then Some(v.n) else None
  }

  function CodeOf(n: int): Option<ErrorCode> {
    match n
    case 1 => Some(UnsupportedVersion)
    case 2 => Some(UnsupportedOperation)
    case 3 => Some(Unavailable)
    case 4 => Some(InvalidRequest)
    case 5 => Some(Capacity)
    case 6 => Some(TimeoutCode)
    case 7 => Some(CancelledCode)
    case 8 => Some(Authentication)
    case 9 => Some(Trust)
    case 10 => Some(Io)
    case 11 => Some(ProtocolCode)
    case 12 => Some(CarrierLostCode)
    case 13 => Some(RepositoryRefused)
    case _ => None
  }

  function EffectOf(n: int): Option<Effect> {
    if n == 1 then Some(NoEffect) else if n == 2 then Some(PossibleEffect) else None
  }

  function DispositionOf(n: int): Option<Disposition> {
    if n == 1 then Some(Reusable) else if n == 2 then Some(Discarded) else None
  }

  /** The causes of a failed setup have the wire numbers 1 to 7. */
  predicate CauseKnown(n: int) {
    1 <= n <= 7
  }

  function CauseOf(v: Cbor): Option<int> {
    if v.Int? && CauseKnown(v.n) then Some(v.n) else None
  }

  /** The number at a key, taken through an enumeration. */
  function Enum<T>(n: Option<int>, named: int -> Option<T>): Option<T> {
    if n.Some? then named(n.value) else None
  }

  // ---------------------------------------------------------------------------------------------------------------
  // Records
  // ---------------------------------------------------------------------------------------------------------------

  function ReadFailure(reader: PartReader, version: int, c: Cbor): Option<Failure> {
    var code, effect := Enum(GetInt(c, 1), CodeOf), Enum(GetInt(c, 2), EffectOf);
    var facts := Maybe(Get(c, 3), v => reader(FactsPart, version, v));
    var cause := Maybe(Get(c, 4), CauseOf);
    var detail := Maybe(Get(c, 5), v => reader(DetailPart, version, v));
    if code.None? || effect.None? || facts.None? || cause.None? || detail.None? then None
    else Some(Failure(code.value, effect.value, facts.value, cause.value, detail.value))
  }

  function ReadReport(reader: PartReader, version: int, c: Cbor): Option<ClosedReport> {
    var disposition, unread := Enum(GetInt(c, 1), DispositionOf), Get(c, 2);
    var facts := if Get(c, 3).Some? then reader(FactsPart, version, Get(c, 3).value) else None;
    var failure := Maybe(Get(c, 4), v => ReadFailure(reader, version, v));
    if disposition.None? || unread.None? || !unread.value.Bool? || facts.None? || Get(c, 4).None? || failure.None? then None
    else Some(ClosedReport(disposition.value, unread.value.flag, facts.value, failure.value))
  }

  function ReadData(c: Cbor): Option<Body> {
    var offset, payload := GetInt(c, 1), Get(c, 2);
    if offset.Some? && payload.Some? && payload.value.Bytes? then Some(Data(offset.value, payload.value.bytes)) else None
  }

  function ReadBarrier(c: Cbor): Option<Barrier> {
    var id, offset := GetInt(c, 1), GetInt(c, 2);
    if id.Some? && offset.Some? then Some(Barrier(id.value, offset.value)) else None
  }

  function ReadBody(reader: PartReader, version: int, field: int, c: Cbor): Option<Body> {
    match field
    case 16 => ReadData(c)
    case 17 => if GetInt(c, 1).Some? then Some(Window(GetInt(c, 1).value)) else None
    case 18 => if ReadBarrier(c).Some? then Some(Flush(ReadBarrier(c).value)) else None
    case 19 => if ReadBarrier(c).Some? then Some(Flushed(ReadBarrier(c).value)) else None
    case 20 => if GetInt(c, 1).Some? then Some(EndWrite(GetInt(c, 1).value)) else None
    case 21 => if GetInt(c, 1).Some? then Some(Close(GetInt(c, 1).value)) else None
    case 22 => if ReadReport(reader, version, c).Some? then Some(Closed(ReadReport(reader, version, c).value)) else None
    case 23 => if Enum(GetInt(c, 1), CodeOf).Some? then Some(Cancel(Enum(GetInt(c, 1), CodeOf).value)) else None
    case 24 => if ReadFailure(reader, version, c).Some? then Some(Failed(ReadFailure(reader, version, c).value)) else None
    case _ =>
      var part := reader(BodyPart(field), version, c);
      if part.Some? then Some(Foreign(field, part.value)) else None
  }

  /** The body fields from `key` to 27: each must be there, null or a readable body. */
  function ReadBodies(reader: PartReader, version: int, c: Cbor, key: int): Option<seq<Option<Body>>>
    decreases 28 - key
  {
    if key > 27 then Some([])
    else if Get(c, key).None? then None
    else
      var body, rest :=
        Maybe(Get(c, key), v => ReadBody(reader, version, key, v)), ReadBodies(reader, version, c, key + 1);
      if body.None? || rest.None? then None else Some([body.value] + rest.value)
  }

  /** The record as the generated reader gives it: any of the eighteen bodies may be there. */
  datatype Record = Record(
    version: int, session: seq<byte>, stream: int, kind: int, number: Option<int>, bodies: seq<Option<Body>>)

  function ReadRecord(reader: PartReader, c: Cbor): Option<Record> {
    var version, session, stream, kind := GetInt(c, 1), Get(c, 2), GetInt(c, 3), GetInt(c, 4);
    var number := Maybe(Get(c, 5), IntOf);
    if version.None? || session.None? || !session.value.Text? || stream.None? || kind.None? || number.None? then None
    else if !(1 <= kind.value <= 18) then None
    else
      var bodies := ReadBodies(reader, version.value, c, 10);
      if bodies.None? then None
      else Some(Record(version.value, session.value.utf8, stream.value, kind.value, number.value, bodies.value))
  }

  function Present(bodies: seq<Option<Body>>): nat {
    if bodies == [] then 0 else (if bodies[0].Some? then 1 else 0) + Present(bodies[1..])
  }

  /** A record is a message if it has one body, at the place of its kind. */
  function MessageOf(r: Record): Option<Envelope> {
    if Present(r.bodies) == 1 && 1 <= r.kind <= |r.bodies| && r.bodies[r.kind - 1].Some? then
      Some(Envelope(r.version, r.session, r.stream, r.number, r.bodies[r.kind - 1].value))
    else None
  }

  function ReadMessage(reader: PartReader, c: Cbor): Option<Envelope> {
    var r := ReadRecord(reader, c);
    if r.Some? then MessageOf(r.value) else None
  }

  // ---------------------------------------------------------------------------------------------------------------
  // A message comes back from its own tree
  // ---------------------------------------------------------------------------------------------------------------

  /** The reader knows the message's own parts, which are records, never null. */
  predicate PartReturns(reader: PartReader, kind: PartKind, version: int, part: Part) {
    !part.tree.Null? && reader(kind, version, part.tree) == Some(part)
  }

  predicate FailureReturns(reader: PartReader, version: int, f: Failure) {
    && (f.facts.Some? ==> PartReturns(reader, FactsPart, version, f.facts.value))
    && (f.detail.Some? ==> PartReturns(reader, DetailPart, version, f.detail.value))
    && (f.setupCause.Some? ==> CauseKnown(f.setupCause.value))
  }

  predicate BodyReturns(reader: PartReader, version: int, b: Body) {
    match b
    case Closed(report) =>
      && PartReturns(reader, FactsPart, version, report.facts)
      && (report.failure.Some? ==> FailureReturns(reader, version, report.failure.value))
    case Failed(failure) => FailureReturns(reader, version, failure)
    case Foreign(field, part) => ForeignField(field) && PartReturns(reader, BodyPart(field), version, part)
    case _ => true
  }

  lemma CodeReturns(c: ErrorCode)
    ensures CodeOf(CodeWire(c)) == Some(c)
  {
  }

  lemma FindFirst(e: Entry, rest: seq<Entry>, key: int)
    ensures Find([e] + rest, key) == if e.key == key then Some(e.value) else Find(rest, key)
  {
    assert ([e] + rest)[1..] == rest;
  }

  lemma FailureFields(f: Failure)
    ensures var c := FailureTree(f);
            && Get(c, 1) == Some(Int(CodeWire(f.code))) && Get(c, 2) == Some(Int(EffectWire(f.effect)))
            && Get(c, 3) == Some(PartTree(f.facts)) && Get(c, 5) == Some(PartTree(f.detail))
            && Get(c, 4) == Some(if f.setupCause.Some? then Int(f.setupCause.value) else Null)
  {
    hide CodeWire, EffectWire, PartTree;
    var es := FailureTree(f).entries;
    assert es == [es[0]] + ([es[1]] + ([es[2]] + ([es[3]] + ([es[4]] + []))));
    FieldsOfFive(es[0], es[1], es[2], es[3], es[4]);
  }

  lemma FieldsOfFive(a: Entry, b: Entry, c: Entry, d: Entry, e: Entry)
    requires a.key == 1 && b.key == 2 && c.key == 3 && d.key == 4 && e.key == 5
    ensures var es := [a] + ([b] + ([c] + ([d] + ([e] + []))));
            && Find(es, 1) == Some(a.value) && Find(es, 2) == Some(b.value) && Find(es, 3) == Some(c.value)
            && Find(es, 4) == Some(d.value) && Find(es, 5) == Some(e.value)
  {
    var e5 := [e] + [];
    var e4 := [d] + e5;
    var e3 := [c] + e4;
    var e2 := [b] + e3;
    forall key: int
      ensures Find([a] + e2, key) ==
              if key == 1 then Some(a.value) else if key == 2 then Some(b.value) else if key == 3 then Some(c.value)
              else if key == 4 then Some(d.value) else if key == 5 then Some(e.value) else None
    {
      FindFirst(a, e2, key);
      FindFirst(b, e3, key);
      FindFirst(c, e4, key);
      FindFirst(d, e5, key);
      FindFirst(e, [], key);
    }
  }

  lemma FailureComesBack(reader: PartReader, version: int, f: Failure)
    requires FailureReturns(reader, version, f)
    ensures ReadFailure(reader, version, FailureTree(f)) == Some(f)
  {
    hide FailureTree, CodeOf, CodeWire, Get;
    FailureFields(f);
    CodeReturns(f.code);
  }

  lemma ReportFields(report: ClosedReport)
    ensures var c := BodyTree(Closed(report));
            && Get(c, 1) == Some(Int(DispositionWire(report.disposition)))
            && Get(c, 2) == Some(Bool(report.unreadResponseDiscarded)) && Get(c, 3) == Some(report.facts.tree)
            && Get(c, 4) == Some(if report.failure.Some? then FailureTree(report.failure.value) else Null)
  {
    hide FailureTree, DispositionWire;
    var es := BodyTree(Closed(report)).entries;
    var e4 := [es[3]] + [];
    var e3 := [es[2]] + e4;
    var e2 := [es[1]] + e3;
    assert es == [es[0]] + e2;
    forall key: int | 1 <= key <= 4 ensures Find(es, key) == Some(es[key - 1].value) {
      FindFirst(es[0], e2, key);
      FindFirst(es[1], e3, key);
      FindFirst(es[2], e4, key);
      FindFirst(es[3], [], key);
    }
    assert Find(es, 1) == Some(es[0].value) && Find(es, 2) == Some(es[1].value);
    assert Find(es, 3) == Some(es[2].value) && Find(es, 4) == Some(es[3].value);
  }

  lemma ReportComesBack(reader: PartReader, version: int, report: ClosedReport)
    requires BodyReturns(reader, version, Closed(report))
    ensures ReadReport(reader, version, BodyTree(Closed(report))) == Some(report)
  {
    hide FailureTree, FailureReturns, ReadFailure, BodyTree, Get;
    ReportFields(report);
    if report.failure.Some? {
      FailureComesBack(reader, version, report.failure.value);
      FailureIsMap(report.failure);
    }
  }

  lemma TwoFields(a: Entry, b: Entry)
    requires a.key == 1 && b.key == 2
    ensures Find([a, b], 1) == Some(a.value) && Find([a, b], 2) == Some(b.value)
  {
    assert [a, b] == [a] + [b] && [b] == [b] + [];
    FindFirst(a, [b], 1);
    FindFirst(a, [b], 2);
    FindFirst(b, [], 2);
  }

  lemma BodyComesBack(reader: PartReader, version: int, b: Body)
    requires BodyReturns(reader, version, b)
    ensures ReadBody(reader, version, BodyField(b), BodyTree(b)) == Some(b)
    ensures !BodyTree(b).Null?
  {
    hide FailureTree, FailureReturns, ReadFailure, ReadReport, CodeOf, CodeWire;
    match b
    case Data(offset, payload) => TwoFields(Entry(1, Int(offset)), Entry(2, Bytes(payload)));
    case Flush(barrier) => TwoFields(Entry(1, Int(barrier.id)), Entry(2, Int(barrier.offset)));
    case Flushed(barrier) => TwoFields(Entry(1, Int(barrier.id)), Entry(2, Int(barrier.offset)));
    case Closed(report) => ReportComesBack(reader, version, report);
    case Cancel(reason) => CodeReturns(reason);
    case Failed(failure) =>
      FailureComesBack(reader, version, failure);
      FailureIsMap(Some(failure));
    case _ =>
  }

  lemma {:induction false} FindBehind(front: seq<Entry>, back: seq<Entry>, key: int)
    ensures Find(front + back, key) == if Find(front, key).Some? then Find(front, key) else Find(back, key)
  {
    if front == [] {
      assert front + back == back;
    } else {
      assert (front + back)[0] == front[0] && (front + back)[1..] == front[1..] + back;
      FindBehind(front[1..], back, key);
    }
  }

  lemma {:induction false} FindSlot(low: int, field: int, tree: Cbor, key: int)
    requires low <= 28
    ensures Find(Slots(low, field, tree), key) ==
            if low <= key <= 27 then Some(if key == field then tree else Null) else None
    decreases 28 - low
  {
    if low <= 27 {
      FindFirst(Entry(low, if low == field then tree else Null), Slots(low + 1, field, tree), key);
      FindSlot(low + 1, field, tree, key);
    }
  }

  lemma HeaderFields(e: Envelope, key: int)
    ensures Find(HeaderSlots(e), key) ==
            if key == 1 then Some(Int(e.version)) else if key == 2 then Some(Text(e.session))
            else if key == 3 then Some(Int(e.stream)) else if key == 4 then Some(Int(BodyField(e.body) - 9))
            else if key == 5 then Some(NumberTree(e.number)) else None
  {
    hide BodyField, NumberTree;
    var es := HeaderSlots(e);
    var e5 := [es[4]] + [];
    var e4 := [es[3]] + e5;
    var e3 := [es[2]] + e4;
    var e2 := [es[1]] + e3;
    assert es == [es[0]] + e2;
    FindFirst(es[0], e2, key);
    FindFirst(es[1], e3, key);
    FindFirst(es[2], e4, key);
    FindFirst(es[3], e5, key);
    FindFirst(es[4], [], key);
  }

  lemma EnvelopeFields(e: Envelope, key: int)
    requires 10 <= BodyField(e.body) <= 27
    ensures Get(EnvelopeTree(e), key) ==
            if 10 <= key <= 27 then Some(if key == BodyField(e.body) then BodyTree(e.body) else Null)
            else Find(HeaderSlots(e), key)
  {
    hide BodyField, BodyTree, Slots, HeaderSlots;
    FindBehind(HeaderSlots(e), Slots(10, BodyField(e.body), BodyTree(e.body)), key);
    FindSlot(10, BodyField(e.body), BodyTree(e.body), key);
    HeaderFields(e, key);
  }

  /** The bodies from `key` on with one filled. */
  function OneBody(key: int, field: int, b: Body): seq<Option<Body>>
    decreases 28 - key
  {
    if key > 27 then [] else [if key == field then Some(b) else None] + OneBody(key + 1, field, b)
  }

  lemma {:induction false} BodiesComeBack(reader: PartReader, e: Envelope, key: int)
    requires 10 <= BodyField(e.body) <= 27 && BodyReturns(reader, e.version, e.body) && 10 <= key <= 28
    ensures ReadBodies(reader, e.version, EnvelopeTree(e), key) == Some(OneBody(key, BodyField(e.body), e.body))
    decreases 28 - key
  {
    hide BodyTree, BodyField, EnvelopeTree, Get, ReadBody, BodyReturns, HeaderSlots;
    if key <= 27 {
      EnvelopeFields(e, key);
      BodyComesBack(reader, e.version, e.body);
      BodiesComeBack(reader, e, key + 1);
    }
  }

  lemma {:induction false} OnePresent(key: int, field: int, b: Body)
    requires key <= 28 && field <= 27
    ensures |OneBody(key, field, b)| == 28 - key
    ensures Present(OneBody(key, field, b)) == if key <= field then 1 else 0
    ensures key <= field ==> OneBody(key, field, b)[field - key] == Some(b)
    decreases 28 - key
  {
    if key <= 27 {
      OnePresent(key + 1, field, b);
      var rest := OneBody(key + 1, field, b);
      assert OneBody(key, field, b)[1..] == rest;
      if key < field {
        assert OneBody(key, field, b)[field - key] == rest[field - key - 1];
      }
    }
  }

  /** What is read from a message's own tree is the message. */
  lemma MessageComesBack(reader: PartReader, e: Envelope)
    requires EnvelopeSound(e) && BodyReturns(reader, e.version, e.body)
    ensures ReadMessage(reader, EnvelopeTree(e)) == Some(e)
  {
    hide BodyTree, BodyField, EnvelopeTree, Get, BodyReturns, HeaderSlots, BodySound, ReadBodies, OneBody, Present, Utf8;
    FieldInRange(e.body);
    forall key: int | 1 <= key <= 5 ensures Get(EnvelopeTree(e), key) == Find(HeaderSlots(e), key) {
      EnvelopeFields(e, key);
    }
    HeaderFields(e, 1);
    HeaderFields(e, 2);
    HeaderFields(e, 3);
    HeaderFields(e, 4);
    HeaderFields(e, 5);
    BodiesComeBack(reader, e, 10);
    OnePresent(10, BodyField(e.body), e.body);
  }

  // ---------------------------------------------------------------------------------------------------------------
  // What an older or a newer peer may leave out or add
  // ---------------------------------------------------------------------------------------------------------------

  predicate Named(key: int) {
    1 <= key <= 5 || 10 <= key <= 27
  }

  lemma {:induction false} BodiesSame(reader: PartReader, version: int, c: Cbor, d: Cbor, key: int)
    requires forall k | 10 <= k <= 27 :: Get(c, k) == Get(d, k)
    requires 10 <= key
    ensures ReadBodies(reader, version, c, key) == ReadBodies(reader, version, d, key)
    decreases 28 - key
  {
    hide Get, ReadBody;
    if key <= 27 {
      assert Get(c, key) == Get(d, key);
      BodiesSame(reader, version, c, d, key + 1);
    }
  }

  /** Only the fields that the schema names are read, so a newer peer may add others. */
  lemma UnknownFieldsAreIgnored(reader: PartReader, es: seq<Entry>, extra: Entry)
    requires !Named(extra.key)
    ensures ReadMessage(reader, Map(es + [extra])) == ReadMessage(reader, Map(es))
  {
    hide ReadBodies;
    var c, d := Map(es + [extra]), Map(es);
    forall k | Named(k) ensures Get(c, k) == Get(d, k) {
      FindBehind(es, [extra], k);
      assert [extra] == [extra] + [];
      FindFirst(extra, [], k);
    }
    forall version: int ensures ReadBodies(reader, version, c, 10) == ReadBodies(reader, version, d, 10) {
      BodiesSame(reader, version, c, d, 10);
    }
  }

  /** And an older one may leave out the number, which then counts as none. */
  lemma NumberMayBeMissing(reader: PartReader, front: seq<Entry>, back: seq<Entry>)
    requires Find(front, 5).None? && Find(back, 5).None?
    ensures ReadMessage(reader, Map(front + back)) == ReadMessage(reader, Map(front + [Entry(5, Null)] + back))
  {
    hide ReadBodies;
    var c, d := Map(front + back), Map(front + [Entry(5, Null)] + back);
    forall k: int ensures if k == 5 then Get(c, k).None? && Get(d, k) == Some(Null) else Get(c, k) == Get(d, k) {
      FindBehind(front, back, k);
      FindBehind(front + [Entry(5, Null)], back, k);
      FindBehind(front, [Entry(5, Null)], k);
      assert [Entry(5, Null)] == [Entry(5, Null)] + [];
      FindFirst(Entry(5, Null), [], k);
    }
    forall version: int ensures ReadBodies(reader, version, c, 10) == ReadBodies(reader, version, d, 10) {
      BodiesSame(reader, version, c, d, 10);
    }
  }
}
