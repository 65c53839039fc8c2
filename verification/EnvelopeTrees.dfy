/** Every message has a canonical tree with a wire form. */
module EnvelopeTrees {
  import opened Base
  import opened Cbor
  import opened CborProofs
  import opened CborCodec
  import opened StreamProtocol

  /** A tree with a wire form whose maps are in key order. */
  predicate Sound(v: Cbor) {
    Wire(v) && Ascending(v)
  }

  predicate SoundEntries(es: seq<Entry>) {
    WireEntries(es) && AscendingEntries(es)
  }

  predicate InI64(n: int) {
    I64_MIN <= n <= I64_MAX
  }

  /** The parts that a message only carries are themselves sound, and its numbers are 64-bit. */
  predicate FailureSound(f: Failure) {
    && (f.facts.Some? ==> Sound(f.facts.value.tree)) && (f.detail.Some? ==> Sound(f.detail.value.tree))
    && (f.setupCause.Some? ==> InI64(f.setupCause.value))
  }

  predicate BodySound(b: Body) {
    match b
    case Data(offset, payload) => InI64(offset) && |payload| <= U64_MAX
    case Window(maxOffset) => InI64(maxOffset)
    case Flush(barrier) => InI64(barrier.id) && InI64(barrier.offset)
    case Flushed(barrier) => InI64(barrier.id) && InI64(barrier.offset)
    case EndWrite(finalOffset) => InI64(finalOffset)
    case Close(finalOffset) => InI64(finalOffset)
    case Closed(report) => Sound(report.facts.tree) && (report.failure.Some? ==> FailureSound(report.failure.value))
    case Cancel(_) => true
    case Failed(failure) => FailureSound(failure)
    case Foreign(field, part) => ForeignField(field) && Sound(part.tree)
  }

  predicate EnvelopeSound(e: Envelope) {
    && InI64(e.version) && InI64(e.stream) && (e.number.Some? ==> InI64(e.number.value))
    && |e.session| <= U64_MAX && Utf8(e.session) && BodySound(e.body)
  }

  // ---------------------------------------------------------------------------------------------------------------
  // Maps, entry by entry
  // ---------------------------------------------------------------------------------------------------------------

  lemma ConsSound(key: int, v: Cbor, rest: seq<Entry>)
    requires Sound(v) && 0 <= key <= I64_MAX && SoundEntries(rest) && (rest != [] ==> key < rest[0].key)
    ensures SoundEntries([Entry(key, v)] + rest)
  {
    hide Wire, Ascending;
    var es := [Entry(key, v)] + rest;
    assert es[0] == Entry(key, v) && es[1..] == rest;
    assert rest != [] ==> es[1] == rest[0];
    assert WireEntry(es[0]) && AscendingEntry(es[0]);
  }

  lemma {:induction false} AscendingDistinct(es: seq<Entry>)
    requires AscendingEntries(es)
    ensures forall i, j | 0 <= i < j < |es| :: es[i].key < es[j].key
  {
    hide Ascending;
    if es != [] {
      AscendingDistinct(es[1..]);
      forall i, j | 0 <= i < j < |es| ensures es[i].key < es[j].key {
        if i > 0 {
          assert es[i] == es[1..][i - 1] && es[j] == es[1..][j - 1];
        } else if j > 1 {
          assert es[1] == es[1..][0] && es[j] == es[1..][j - 1];
        }
      }
    }
  }

  lemma MapSound(es: seq<Entry>)
    requires SoundEntries(es) && |es| <= U64_MAX
    ensures Sound(Map(es))
  {
    AscendingDistinct(es);
  }

  lemma NoneSound()
    ensures SoundEntries([])
  {
  }

  lemma PartSound(part: Option<Part>)
    requires part.Some? ==> Sound(part.value.tree)
    ensures Sound(PartTree(part))
  {
  }

  lemma FailureTreeSound(f: Failure)
    requires FailureSound(f)
    ensures Sound(FailureTree(f))
  {
    hide SoundEntries, Wire, Ascending;
    var cause := if f.setupCause.Some? then Int(f.setupCause.value) else Null;
    LeafSound(cause);
    LeafSound(Int(CodeWire(f.code)));
    LeafSound(Int(EffectWire(f.effect)));
    PartSound(f.facts);
    PartSound(f.detail);
    NoneSound();
    ConsSound(5, PartTree(f.detail), []);
    ConsSound(4, cause, [Entry(5, PartTree(f.detail))] + []);
    var tail := [Entry(4, cause)] + ([Entry(5, PartTree(f.detail))] + []);
    ConsSound(3, PartTree(f.facts), tail);
    ConsSound(2, Int(EffectWire(f.effect)), [Entry(3, PartTree(f.facts))] + tail);
    var whole := [Entry(2, Int(EffectWire(f.effect)))] + ([Entry(3, PartTree(f.facts))] + tail);
    ConsSound(1, Int(CodeWire(f.code)), whole);
    MapSound([Entry(1, Int(CodeWire(f.code)))] + whole);
    assert [Entry(1, Int(CodeWire(f.code)))] + whole == [
        Entry(1, Int(CodeWire(f.code))), Entry(2, Int(EffectWire(f.effect))), Entry(3, PartTree(f.facts)), Entry(4, cause),
        Entry(5, PartTree(f.detail))];
  }

  lemma LeafSound(v: Cbor)
    requires v.Null? || v.Bool? || (v.Int? && InI64(v.n)) || (v.Bytes? && |v.bytes| <= U64_MAX)
    ensures Sound(v)
  {
  }

  lemma OneSound(v: Cbor)
    requires Sound(v)
    ensures Sound(Map([Entry(1, v)]))
  {
    hide SoundEntries, Sound;
    NoneSound();
    ConsSound(1, v, []);
    assert [Entry(1, v)] + [] == [Entry(1, v)];
    MapSound([Entry(1, v)]);
  }

  lemma TwoSound(v: Cbor, w: Cbor)
    requires Sound(v) && Sound(w)
    ensures Sound(Map([Entry(1, v), Entry(2, w)]))
  {
    hide SoundEntries, Sound;
    NoneSound();
    ConsSound(2, w, []);
    ConsSound(1, v, [Entry(2, w)] + []);
    assert [Entry(1, v)] + ([Entry(2, w)] + []) == [Entry(1, v), Entry(2, w)];
    MapSound([Entry(1, v), Entry(2, w)]);
  }

  lemma FourSound(a: Cbor, b: Cbor, c: Cbor, d: Cbor)
    requires Sound(a) && Sound(b) && Sound(c) && Sound(d)
    ensures Sound(Map([Entry(1, a), Entry(2, b), Entry(3, c), Entry(4, d)]))
  {
    hide SoundEntries, Sound;
    NoneSound();
    ConsSound(4, d, []);
    ConsSound(3, c, [Entry(4, d)] + []);
    var tail := [Entry(3, c)] + ([Entry(4, d)] + []);
    ConsSound(2, b, tail);
    ConsSound(1, a, [Entry(2, b)] + tail);
    assert [Entry(1, a)] + ([Entry(2, b)] + tail) == [Entry(1, a), Entry(2, b), Entry(3, c), Entry(4, d)];
    MapSound([Entry(1, a), Entry(2, b), Entry(3, c), Entry(4, d)]);
  }

  lemma BodyTreeSound(b: Body)
    requires BodySound(b)
    ensures Sound(BodyTree(b))
  {
    hide Sound, FailureTree;
    match b
    case Data(offset, payload) =>
      LeafSound(Int(offset));
      LeafSound(Bytes(payload));
      TwoSound(Int(offset), Bytes(payload));
    case Window(maxOffset) =>
      LeafSound(Int(maxOffset));
      OneSound(Int(maxOffset));
    case Flush(barrier) => BarrierSound(barrier);
    case Flushed(barrier) => BarrierSound(barrier);
    case EndWrite(finalOffset) =>
      LeafSound(Int(finalOffset));
      OneSound(Int(finalOffset));
    case Close(finalOffset) =>
      LeafSound(Int(finalOffset));
      OneSound(Int(finalOffset));
    case Closed(report) =>
      LeafSound(Int(DispositionWire(report.disposition)));
      LeafSound(Bool(report.unreadResponseDiscarded));
      LeafSound(Null);
      if report.failure.Some? {
        FailureTreeSound(report.failure.value);
      }
      FourSound(
        Int(DispositionWire(report.disposition)), Bool(report.unreadResponseDiscarded), report.facts.tree,
        if report.failure.Some? then FailureTree(report.failure.value) else Null);
    case Cancel(reason) =>
      LeafSound(Int(CodeWire(reason)));
      OneSound(Int(CodeWire(reason)));
    case Failed(failure) => FailureTreeSound(failure);
    case Foreign(_, part) =>
  }

  lemma BarrierSound(barrier: Barrier)
    requires InI64(barrier.id) && InI64(barrier.offset)
    ensures Sound(Map([Entry(1, Int(barrier.id)), Entry(2, Int(barrier.offset))]))
  {
    LeafSound(Int(barrier.id));
    LeafSound(Int(barrier.offset));
    TwoSound(Int(barrier.id), Int(barrier.offset));
  }

  lemma {:induction false} SlotsSound(key: int, field: int, tree: Cbor)
    requires 10 <= key <= 28 && Sound(tree)
    ensures SoundEntries(Slots(key, field, tree)) && |Slots(key, field, tree)| == 28 - key
    ensures Slots(key, field, tree) != [] ==> Slots(key, field, tree)[0].key == key
    decreases 28 - key
  {
    hide SoundEntries, Sound;
    NoneSound();
    if key <= 27 {
      SlotsSound(key + 1, field, tree);
      LeafSound(Null);
      ConsSound(key, if key == field then tree else Null, Slots(key + 1, field, tree));
    }
  }

  /** Every well-formed message has a wire form, and its maps are already in key order. */
  lemma EnvelopeTreeSound(e: Envelope)
    requires EnvelopeSound(e)
    ensures Sound(EnvelopeTree(e))
  {
    hide SoundEntries, Sound, BodyTree, Slots;
    var slots := Slots(10, BodyField(e.body), BodyTree(e.body));
    BodyTreeSound(e.body);
    SlotsSound(10, BodyField(e.body), BodyTree(e.body));
    LeafSound(Null);
    LeafSound(Int(BodyField(e.body) - 9));
    LeafSound(Int(e.stream));
    LeafSound(Int(e.version));
    LeafSound(NumberTree(e.number));
    TextSound(e.session);
    ConsSound(5, NumberTree(e.number), slots);
    var s5 := [Entry(5, NumberTree(e.number))] + slots;
    ConsSound(4, Int(BodyField(e.body) - 9), s5);
    var s4 := [Entry(4, Int(BodyField(e.body) - 9))] + s5;
    ConsSound(3, Int(e.stream), s4);
    var s3 := [Entry(3, Int(e.stream))] + s4;
    ConsSound(2, Text(e.session), s3);
    var s2 := [Entry(2, Text(e.session))] + s3;
    ConsSound(1, Int(e.version), s2);
    var s1 := [Entry(1, Int(e.version))] + s2;
    MapSound(s1);
    assert s1 == HeaderSlots(e) + slots;
  }

  lemma TextSound(t: seq<byte>)
    requires |t| <= U64_MAX && Utf8(t)
    ensures Sound(Text(t))
  {
  }

  // ---------------------------------------------------------------------------------------------------------------
  // A tree identifies its message
  // ---------------------------------------------------------------------------------------------------------------

  /** A message without the verdicts on its parts, which are not sent. */
  function ErasePart(part: Part): Part {
    Part(part.tree, true)
  }

  function EraseOption(part: Option<Part>): Option<Part> {
    if part.Some? then Some(ErasePart(part.value)) else None
  }

  function EraseFailure(f: Failure): Failure {
    f.(facts := EraseOption(f.facts), detail := EraseOption(f.detail))
  }

  function EraseBody(b: Body): Body {
    match b
    case Closed(report) =>
      Closed(report.(
             facts := ErasePart(report.facts),
             failure := if report.failure.Some? then Some(EraseFailure(report.failure.value)) else None))
    case Failed(failure) => Failed(EraseFailure(failure))
    case Foreign(field, part) => Foreign(field, ErasePart(part))
    case _ => b
  }

  function Erase(e: Envelope): Envelope {
    e.(body := EraseBody(e.body))
  }

  /** The parts that a message carries are records, never null. */
  predicate FailureCarries(f: Failure) {
    (f.facts.Some? ==> !f.facts.value.tree.Null?) && (f.detail.Some? ==> !f.detail.value.tree.Null?)
  }

  predicate Carries(b: Body) {
    match b
    case Closed(report) => report.failure.Some? ==> FailureCarries(report.failure.value)
    case Failed(failure) => FailureCarries(failure)
    case _ => true
  }

  lemma CodesDiffer(c: ErrorCode, d: ErrorCode)
    requires CodeWire(c) == CodeWire(d)
    ensures c == d
  {
  }

  lemma FailureIdentified(f: Failure, g: Failure)
    requires FailureCarries(f) && FailureCarries(g) && FailureTree(f) == FailureTree(g)
    ensures EraseFailure(f) == EraseFailure(g)
  {
    hide CodeWire;
    var a, b := FailureTree(f).entries, FailureTree(g).entries;
    assert a[0] == b[0] && a[1] == b[1] && a[2] == b[2] && a[3] == b[3] && a[4] == b[4];
    CodesDiffer(f.code, g.code);
  }

  lemma BodyIdentified(b: Body, c: Body)
    requires BodySound(b) && BodySound(c) && Carries(b) && Carries(c)
    requires BodyField(b) == BodyField(c) && BodyTree(b) == BodyTree(c)
    ensures EraseBody(b) == EraseBody(c)
  {
    hide FailureTree, EraseFailure, FailureCarries, CodeWire, FailureSound;
    match b
    case Closed(report) =>
      var other := c.report;
      var x, y := BodyTree(b).entries, BodyTree(c).entries;
      assert x[0] == y[0] && x[1] == y[1] && x[2] == y[2] && x[3] == y[3];
      FailureIsMap(report.failure);
      FailureIsMap(other.failure);
      if report.failure.Some? && other.failure.Some? {
        FailureIdentified(report.failure.value, other.failure.value);
      }
    case Failed(failure) => FailureIdentified(failure, c.failure);
    case Foreign(_, _) =>
    case Cancel(reason) =>
      assert BodyTree(b).entries[0] == BodyTree(c).entries[0];
      CodesDiffer(reason, c.reason);
    case Data(_, _) => TwoIdentified(b, c);
    case Flush(_) => TwoIdentified(b, c);
    case Flushed(_) => TwoIdentified(b, c);
    case _ =>
      assert BodyTree(b).entries[0] == BodyTree(c).entries[0];
  }

  lemma TwoIdentified(b: Body, c: Body)
    requires b.Data? || b.Flush? || b.Flushed?
    requires BodyField(b) == BodyField(c) && BodyTree(b) == BodyTree(c) && BodySound(c)
    ensures b == c
  {
    var x, y := BodyTree(b).entries, BodyTree(c).entries;
    assert x[0] == y[0] && x[1] == y[1];
  }

  lemma FailureIsMap(failure: Option<Failure>)
    ensures failure.Some? ==> FailureTree(failure.value).Map?
  {
  }

  lemma {:induction false} SlotIs(key: int, field: int, tree: Cbor)
    requires key <= field <= 27
    ensures |Slots(key, field, tree)| == 28 - key && Slots(key, field, tree)[field - key] == Entry(field, tree)
    decreases field - key
  {
    if key < field {
      SlotIs(key + 1, field, tree);
    } else {
      SlotsCount(key + 1, field, tree);
    }
  }

  lemma {:induction false} SlotsCount(key: int, field: int, tree: Cbor)
    requires key <= 28
    ensures |Slots(key, field, tree)| == 28 - key
    decreases 28 - key
  {
    if key <= 27 {
      SlotsCount(key + 1, field, tree);
    }
  }

  /** Two messages with the same tree, so with the same bytes, are the same message. */
  lemma TreeIdentifies(e: Envelope, f: Envelope)
    requires EnvelopeSound(e) && EnvelopeSound(f) && Carries(e.body) && Carries(f.body)
    requires EnvelopeTree(e) == EnvelopeTree(f)
    ensures Erase(e) == Erase(f)
  {
    hide BodySound, BodyTree, Slots, EraseBody, Carries, Utf8;
    FieldInRange(e.body);
    FieldInRange(f.body);
    var field := BodyField(e.body);
    SlotIs(10, field, BodyTree(e.body));
    SlotIs(10, BodyField(f.body), BodyTree(f.body));
    var x, y := EnvelopeTree(e).entries, EnvelopeTree(f).entries;
    assert x[0] == y[0] && x[1] == y[1] && x[2] == y[2] && x[3] == y[3] && x[4] == y[4];
    assert BodyField(f.body) == field;
    assert x[field - 5] == Entry(field, BodyTree(e.body)) && y[field - 5] == Entry(field, BodyTree(f.body));
    BodyIdentified(e.body, f.body);
  }

  lemma FieldInRange(b: Body)
    requires BodySound(b)
    ensures 10 <= BodyField(b) <= 27
  {
    hide Sound, FailureSound;
  }
}
