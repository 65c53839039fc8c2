/** The receiver's counters and resolutions, over every run and for any input whatever. */
module SequencedAccounts {
  import opened Base
  import opened Cost
  import opened Sums
  import opened SequencedSpec

  // ---------------------------------------------------------------------------------------------------------------
  // One stream
  // ---------------------------------------------------------------------------------------------------------------

  predicate Keyed(st: StreamState) {
    forall k | k in st.pending :: st.expected <= k < I64_MAX && st.pending[k].frame.number == k
  }

  predicate StreamSound(st: StreamState) {
    && 1 <= st.expected <= I64_MAX && Keyed(st)
    && (st.pending != map[] ==> st.gapSince.Some?)
    && |Beyond(st)| <= MAX_REORDER_PER_STREAM
    && (st.terminal.Some? ==> st.pending == map[])
  }

  /** A gap is timed exactly while frames wait. */
  predicate GapTimed(st: StreamState) {
    st.gapSince.Some? <==> st.pending != map[]
  }

  /** The stream on the desk is sound, and the counters are its share on top of the other streams'. */
  ghost predicate Balanced(d: Desk, l: Limits, streams: nat, otherFrames: int, otherCharge: int) {
    && StreamSound(d.st) && 0 <= otherFrames && 0 <= otherCharge
    && d.frames == otherFrames + |d.st.pending| <= l.queuedFrames - l.controlReserveFrames
    && d.charge == otherCharge + PendingCharge(d.st.pending)
    && Records(streams) + d.retained + d.charge <= Available(l)
  }

  lemma ChargeIsPositive(pending: map<int, Pending>)
    ensures 0 <= PendingCharge(pending)
  {
    SumPositive(pending, ChargeOf, I64_MAX);
  }

  lemma ChargeGrows(pending: map<int, Pending>, k: int, p: Pending)
    requires 1 <= k <= I64_MAX && k !in pending
    ensures PendingCharge(pending[k := p]) == PendingCharge(pending) + p.charge
  {
    SumChange(pending, pending[k := p], ChargeOf, k, I64_MAX);
  }

  lemma ChargeShrinks(pending: map<int, Pending>, k: int)
    requires 1 <= k <= I64_MAX && k in pending
    ensures PendingCharge(pending - {k}) == PendingCharge(pending) - pending[k].charge
    ensures |pending - {k}| == |pending| - 1
  {
    var rest := pending - {k};
    SumChange(pending, rest, ChargeOf, k, I64_MAX);
    assert rest.Keys == pending.Keys - {k};
  }

  lemma ChargeOfNone()
    ensures PendingCharge(map[]) == 0
  {
    SumNone<Pending>(ChargeOf, I64_MAX);
  }

  // ---------------------------------------------------------------------------------------------------------------
  // Buffering
  // ---------------------------------------------------------------------------------------------------------------

  lemma BeyondGrows(st: StreamState, f: Frame, charge: nat)
    requires f.number !in st.pending
    ensures var t := st.(pending := st.pending[f.number := Pending(f, charge)]);
            Beyond(t) == if f.number > st.expected then Beyond(st) + {f.number} else Beyond(st)
  {
  }

  lemma BufferBalanced(
    d: Desk, l: Limits, streams: nat, otherFrames: int, otherCharge: int, f: Frame, charge: nat, now: nat, outOfOrder: bool)
    requires Balanced(d, l, streams, otherFrames, otherCharge) && BufferFits(d, l, streams, charge, outOfOrder)
    requires ValidLimits(l) && d.st.terminal.None? && d.st.expected <= f.number < I64_MAX && f.number !in d.st.pending
    requires outOfOrder <==> f.number > d.st.expected
    ensures Balanced(Buffer(d, f, charge, now), l, streams, otherFrames, otherCharge)
  {
    ChargeGrows(d.st.pending, f.number, Pending(f, charge));
    BeyondGrows(d.st, f, charge);
    var t := Buffer(d, f, charge, now).st;
    assert t.pending.Keys == d.st.pending.Keys + {f.number};
    assert Beyond(t) == Beyond(d.st.(pending := t.pending));
  }

  // ---------------------------------------------------------------------------------------------------------------
  // Applying
  // ---------------------------------------------------------------------------------------------------------------

  lemma SubsetSize<T>(a: set<T>, b: set<T>)
    requires a <= b
    ensures |a| <= |b|
  {
    assert b == a + (b - a);
  }

  /** A frame that is next in order and not waiting any more is marked; what it retains must fit. */
  lemma MarkBalanced(d: Desk, l: Limits, streams: nat, otherFrames: int, otherCharge: int, f: Frame, charge: nat)
    requires Balanced(d, l, streams, otherFrames, otherCharge) && d.st.terminal.None?
    requires f.number == d.st.expected < I64_MAX && f.number !in d.st.pending && (Final(f.kind) ==> d.st.pending == map[])
    requires f.number == 1 || Final(f.kind) ==> Records(streams) + d.retained + d.charge + charge <= Available(l)
    ensures var (d1, error) := MarkApplied(d, f, charge);
            && error.None? && Balanced(d1, l, streams, otherFrames, otherCharge) && d1.st.expected == d.st.expected + 1
            && d1.st.gapSince == d.st.gapSince && d1.resolved == d.resolved && d1.id == d.id && d1.applied == d.applied
            && (Final(f.kind) <==> d1.st.terminal.Some?)
  {
    var (d1, error) := MarkApplied(d, f, charge);
    SubsetSize(Beyond(d1.st), Beyond(d.st));
  }

  /** Taking the waiting frame off first makes room for what it retains. */
  lemma UnbufferBalanced(d: Desk, l: Limits, streams: nat, otherFrames: int, otherCharge: int)
    requires Balanced(d, l, streams, otherFrames, otherCharge) && d.st.expected in d.st.pending
    ensures var p := d.st.pending[d.st.expected];
            var d1 := Uncharged(Deliver(Unbuffered(d), p.frame), p.charge);
            && Balanced(d1, l, streams, otherFrames, otherCharge) && d1.st.terminal.None?
            && Records(streams) + d1.retained + d1.charge + p.charge <= Available(l)
  {
    var p := d.st.pending[d.st.expected];
    var d1 := Uncharged(Deliver(Unbuffered(d), p.frame), p.charge);
    ChargeShrinks(d.st.pending, d.st.expected);
    SubsetSize(Beyond(d1.st), Beyond(d.st));
  }

  lemma TakeBalanced(d: Desk, l: Limits, streams: nat, otherFrames: int, otherCharge: int)
    requires Balanced(d, l, streams, otherFrames, otherCharge) && d.st.expected in d.st.pending
    requires Final(d.st.pending[d.st.expected].frame.kind) ==> d.st.pending - {d.st.expected} == map[]
    ensures var (d1, error) := TakePending(d);
            && error.None? && Balanced(d1, l, streams, otherFrames, otherCharge) && d1.st.expected == d.st.expected + 1
            && d1.resolved == d.resolved + [Resolution(d.id, d.st.expected, Applied)] && d1.id == d.id
            && |d.applied| < |d1.applied|
  {
    hide Uncharged, Deliver, Unbuffered, MarkApplied, Balanced;
    var p := d.st.pending[d.st.expected];
    var d1 := Uncharged(Deliver(Unbuffered(d), p.frame), p.charge);
    NumberedByKey(d, l, streams, otherFrames, otherCharge);
    UnbufferBalanced(d, l, streams, otherFrames, otherCharge);
    Unbuffering(d);
    MarkBalanced(d1, l, streams, otherFrames, otherCharge, p.frame, p.charge);
    NoteBalanced(MarkApplied(d1, p.frame, p.charge).0, l, streams, otherFrames, otherCharge, p.frame, Applied);
  }

  lemma NumberedByKey(d: Desk, l: Limits, streams: nat, otherFrames: int, otherCharge: int)
    requires Balanced(d, l, streams, otherFrames, otherCharge) && d.st.expected in d.st.pending
    ensures d.st.pending[d.st.expected].frame.number == d.st.expected < I64_MAX
  {
  }

  lemma Unbuffering(d: Desk)
    requires d.st.expected in d.st.pending
    ensures var p := d.st.pending[d.st.expected];
            var d1 := Uncharged(Deliver(Unbuffered(d), p.frame), p.charge);
            && d1.st.expected == d.st.expected && d1.st.pending == d.st.pending - {d.st.expected}
            && d1.resolved == d.resolved && d1.id == d.id && d1.applied == d.applied + [p.frame]
  {
  }

  lemma NoteBalanced(d: Desk, l: Limits, streams: nat, otherFrames: int, otherCharge: int, f: Frame, status: Status)
    ensures Balanced(Note(d, f, status), l, streams, otherFrames, otherCharge) <==> Balanced(d, l, streams, otherFrames, otherCharge)
  {
  }

  lemma CloseGapBalanced(d: Desk, l: Limits, streams: nat, otherFrames: int, otherCharge: int)
    requires Balanced(d, l, streams, otherFrames, otherCharge)
    ensures Balanced(CloseGap(d), l, streams, otherFrames, otherCharge) && GapTimed(CloseGap(d).st)
    ensures CloseGap(d).resolved == d.resolved && CloseGap(d).st.expected == d.st.expected
    ensures CloseGap(d).st.terminal == d.st.terminal && CloseGap(d).id == d.id && CloseGap(d).applied == d.applied
  {
    assert Beyond(CloseGap(d).st) == Beyond(d.st);
  }

  // ---------------------------------------------------------------------------------------------------------------
  // A refusal
  // ---------------------------------------------------------------------------------------------------------------

  /** The counters hold one frame more than what waits. */
  ghost predicate Overcharged(d: Desk, otherFrames: int, otherCharge: int) {
    d.frames == otherFrames + |d.st.pending| + 1 && d.charge >= otherCharge + PendingCharge(d.st.pending)
  }

  /** A waiting frame that the application refuses is off the list and still in the counters. */
  lemma RefusedStaysCharged(d: Desk, l: Limits, streams: nat, otherFrames: int, otherCharge: int)
    requires Balanced(d, l, streams, otherFrames, otherCharge) && d.st.expected in d.st.pending
    ensures Overcharged(Unbuffered(d), otherFrames, otherCharge)
    ensures Unbuffered(d).charge == otherCharge + PendingCharge(Unbuffered(d).st.pending) + d.st.pending[d.st.expected].charge
  {
    ChargeShrinks(d.st.pending, d.st.expected);
  }

  // ---------------------------------------------------------------------------------------------------------------
  // Resolutions
  // ---------------------------------------------------------------------------------------------------------------

  /** Resolutions for stream `id`, ascending, none below `low`. */
  predicate Climbing(rs: seq<Resolution>, id: int, low: int) {
    && (forall i | 0 <= i < |rs| :: rs[i].stream == id && low <= rs[i].number)
    && (forall i, j | 0 <= i < j < |rs| :: rs[i].number < rs[j].number)
  }

  predicate Below(rs: seq<Resolution>, high: int) {
    forall i | 0 <= i < |rs| :: rs[i].number < high
  }

  /** The desk's list, grown by new resolutions only; a live stream's next number lies beyond all of them. */
  predicate Resolving(d: Desk, low: int) {
    Climbing(d.resolved, d.id, low) && (d.st.terminal.None? ==> Below(d.resolved, d.st.expected)) && low <= d.st.expected
  }

  lemma ClimbOne(rs: seq<Resolution>, id: int, low: int, number: int, status: Status)
    requires Climbing(rs, id, low) && Below(rs, number) && low <= number
    ensures Climbing(rs + [Resolution(id, number, status)], id, low)
    ensures forall high | number < high :: Below(rs + [Resolution(id, number, status)], high)
  {
  }

  lemma {:induction false} DrainBalanced(
    d: Desk, l: Limits, streams: nat, otherFrames: int, otherCharge: int, answers: nat -> Answer, k: nat, low: int)
    requires Balanced(d, l, streams, otherFrames, otherCharge) && Resolving(d, low) && Below(d.resolved, d.st.expected)
    ensures var (d1, error) := Drain(d, answers, k);
            && (if error == Some(ApplyRejected) then Overcharged(d1, otherFrames, otherCharge)
                else Balanced(d1, l, streams, otherFrames, otherCharge) && GapTimed(d1.st))
            && d.st.expected <= d1.st.expected && |d.applied| <= |d1.applied|
            && (error.None? ==> Resolving(d1, low) && d1.id == d.id)
    decreases |d.st.pending|
  {
    hide Balanced, TakePending, CloseGap, Climbing, Below, Overcharged;
    CloseGapBalanced(d, l, streams, otherFrames, otherCharge);
    if d.st.expected in d.st.pending {
      var p := d.st.pending[d.st.expected];
      WaitingIsTimed(d, l, streams, otherFrames, otherCharge);
      if !(Final(p.frame.kind) && Unbuffered(d).st.pending != map[]) {
        if answers(k) == Done {
          TakeBalanced(d, l, streams, otherFrames, otherCharge);
          ClimbOne(d.resolved, d.id, low, d.st.expected, Applied);
          DrainBalanced(TakePending(d).0, l, streams, otherFrames, otherCharge, answers, k + 1, low);
        } else if answers(k) == Refused {
          RefusedStaysCharged(d, l, streams, otherFrames, otherCharge);
        }
      }
    }
  }

  lemma WaitingIsTimed(d: Desk, l: Limits, streams: nat, otherFrames: int, otherCharge: int)
    requires Balanced(d, l, streams, otherFrames, otherCharge) && d.st.expected in d.st.pending
    ensures GapTimed(d.st)
  {
  }

  // ---------------------------------------------------------------------------------------------------------------
  // Submitting
  // ---------------------------------------------------------------------------------------------------------------

  /** What one call makes of the desk `d`: the accounts are exact unless it was `refused` a frame that had waited. */
  ghost predicate Kept(
    d: Desk, l: Limits, streams: nat, otherFrames: int, otherCharge: int, d1: Desk, error: Option<Error>, refused: bool)
  {
    && (if refused then error == Some(ApplyRejected) && Overcharged(d1, otherFrames, otherCharge)
        else Balanced(d1, l, streams, otherFrames, otherCharge) && GapTimed(d1.st))
    && d.st.expected <= d1.st.expected
    && (!Fatal(error) ==> d.st.terminal.Some? ==> d1.st.terminal.Some? && d1.resolved == [])
    && (error.None? ==> d1.id == d.id && Resolving(d1, d.st.expected))
  }

  /** The application refused a frame after taking the one that was submitted. */
  predicate RefusedLater(d1: Desk, error: Option<Error>) {
    error == Some(ApplyRejected) && d1.applied != []
  }

  /** A desk as a call finds it. */
  ghost predicate Laid(d: Desk, l: Limits, streams: nat, otherFrames: int, otherCharge: int) {
    Balanced(d, l, streams, otherFrames, otherCharge) && GapTimed(d.st) && d.resolved == [] && d.applied == []
  }

  lemma {:induction false} SupersededClimb(id: int, pending: map<int, Pending>, low: int, number: int)
    requires forall k | k in pending :: low <= k < number
    requires low <= number
    ensures Climbing(Superseding(id, KeysTo(pending, I64_MAX)) + [Resolution(id, number, Applied)], id, low)
  {
    var keys := KeysTo(pending, I64_MAX);
    KeysAre(pending, I64_MAX);
    assert forall i | 0 <= i < |keys| :: low <= keys[i] < number;
    ClimbOne(Superseding(id, keys), id, low, number, Applied);
  }

  lemma AbortedBalanced(d: Desk, l: Limits, streams: nat, otherFrames: int, otherCharge: int, f: Frame, charge: nat)
    requires Balanced(d, l, streams, otherFrames, otherCharge)
    requires RetainFits(d, l, streams, charge, PendingCharge(d.st.pending))
    ensures Balanced(Aborted(d, f, charge), l, streams, otherFrames, otherCharge)
  {
    hide PendingCharge, Superseding;
    ChargeOfNone();
    ChargeIsPositive(d.st.pending);
    assert Beyond(Aborted(d, f, charge).st) == {};
  }

  lemma AbortedResolves(d: Desk, f: Frame, charge: nat)
    requires Keyed(d.st) && !BarsJump(d.st, f) && f.number !in d.st.pending && d.st.expected < f.number && d.resolved == []
    ensures Resolving(Aborted(d, f, charge), d.st.expected) && GapTimed(Aborted(d, f, charge).st)
    ensures Aborted(d, f, charge).id == d.id && Aborted(d, f, charge).st.expected == d.st.expected
  {
    hide Superseding, Climbing, PendingCharge;
    SupersededClimb(d.id, d.st.pending, d.st.expected, f.number);
    var keys := KeysTo(d.st.pending, I64_MAX);
    assert [] + Superseding(d.id, keys) == Superseding(d.id, keys);
  }

  lemma AbortKept(
    d: Desk, l: Limits, direction: Direction, streams: nat, otherFrames: int, otherCharge: int, f: Frame, charge: nat,
    answers: nat -> Answer)
    requires Laid(d, l, streams, otherFrames, otherCharge) && Jumps(d.st, direction, f) && d.st.terminal.None?
    requires f.number !in d.st.pending
    ensures var (d1, answer) := Abort(d, l, streams, f, charge, answers);
            Kept(d, l, streams, otherFrames, otherCharge, d1, ErrorOf(answer), RefusedLater(d1, ErrorOf(answer)))
  {
    hide Balanced, Aborted, BarsJump, RetainFits, PendingCharge, Resolving, GapTimed;
    BalancedIsKeyed(d, l, streams, otherFrames, otherCharge);
    if !BarsJump(d.st, f) && RetainFits(d, l, streams, charge, PendingCharge(d.st.pending)) {
      AbortedBalanced(d, l, streams, otherFrames, otherCharge, f, charge);
      AbortedResolves(d, f, charge);
    }
  }

  lemma BalancedIsKeyed(d: Desk, l: Limits, streams: nat, otherFrames: int, otherCharge: int)
    requires Balanced(d, l, streams, otherFrames, otherCharge)
    ensures Keyed(d.st)
  {
  }

  lemma ApplyingKept(
    d: Desk, l: Limits, streams: nat, otherFrames: int, otherCharge: int, f: Frame, charge: nat, answers: nat -> Answer)
    requires Laid(d, l, streams, otherFrames, otherCharge) && d.st.terminal.None?
    requires f.number == d.st.expected < I64_MAX && f.number !in d.st.pending && (Final(f.kind) ==> d.st.pending == map[])
    requires f.number == 1 || Final(f.kind) ==> Records(streams) + d.retained + d.charge + charge <= Available(l)
    ensures var (d1, error) := Applying(d, f, charge, answers);
            Kept(d, l, streams, otherFrames, otherCharge, d1, error, RefusedLater(d1, error))
  {
    hide MarkApplied, Drain, Balanced, Climbing, Below;
    var d0 := Deliver(d, f);
    DeliverBalanced(d, l, streams, otherFrames, otherCharge, f);
    MarkBalanced(d0, l, streams, otherFrames, otherCharge, f, charge);
    var d1 := MarkApplied(d0, f, charge).0;
    NoteBalanced(d1, l, streams, otherFrames, otherCharge, f, Applied);
    NothingClimbs(d.id, d.st.expected);
    ClimbOne([], d.id, d.st.expected, f.number, Applied);
    assert Note(d1, f, Applied).resolved == [] + [Resolution(d.id, f.number, Applied)];
    DrainBalanced(Note(d1, f, Applied), l, streams, otherFrames, otherCharge, answers, 1, d.st.expected);
  }

  lemma NothingClimbs(id: int, low: int)
    ensures Climbing([], id, low) && Below([], low)
  {
  }

  lemma DeliverBalanced(d: Desk, l: Limits, streams: nat, otherFrames: int, otherCharge: int, f: Frame)
    ensures Balanced(Deliver(d, f), l, streams, otherFrames, otherCharge) <==> Balanced(d, l, streams, otherFrames, otherCharge)
  {
  }

  lemma AdvanceKept(
    d: Desk, l: Limits, streams: nat, otherFrames: int, otherCharge: int, f: Frame, charge: nat, now: nat,
    answers: nat -> Answer)
    requires Laid(d, l, streams, otherFrames, otherCharge) && ValidLimits(l) && d.st.terminal.None?
    requires f.number == d.st.expected < I64_MAX && f.number !in d.st.pending
    ensures var (d1, answer) := Advance(d, l, streams, f, charge, now, answers);
            Kept(d, l, streams, otherFrames, otherCharge, d1, ErrorOf(answer), RefusedLater(d1, ErrorOf(answer)))
  {
    hide Applying, Buffer, BufferFits, Kept, Balanced;
    NoChangeKept(d, l, streams, otherFrames, otherCharge);
    BalancedCharge(d, l, streams, otherFrames, otherCharge);
    if answers(0) == Blocked {
      if BufferFits(d, l, streams, charge, false) {
        BufferKept(d, l, streams, otherFrames, otherCharge, f, charge, now, false);
      }
    } else if answers(0) == Done {
      if !(Final(f.kind) && d.st.pending != map[])
         && (!(f.number == 1 || Final(f.kind)) || RetainFits(d, l, streams, charge, 0))
      {
        ApplyingKept(d, l, streams, otherFrames, otherCharge, f, charge, answers);
        var error := Applying(d, f, charge, answers).1;
        assert error == ErrorOf<Status>(if error.Some? then Err(error.value) else Ok(Applied));
      }
    }
  }

  lemma BalancedCharge(d: Desk, l: Limits, streams: nat, otherFrames: int, otherCharge: int)
    requires Balanced(d, l, streams, otherFrames, otherCharge)
    ensures 0 <= d.charge && d.st.expected <= I64_MAX
  {
    ChargeIsPositive(d.st.pending);
  }

  lemma NoChangeKept(d: Desk, l: Limits, streams: nat, otherFrames: int, otherCharge: int)
    requires Laid(d, l, streams, otherFrames, otherCharge)
    ensures forall error: Option<Error> :: error.Some? ==>
              Kept(d, l, streams, otherFrames, otherCharge, d, error, RefusedLater(d, error))
  {
  }

  lemma BufferKept(
    d: Desk, l: Limits, streams: nat, otherFrames: int, otherCharge: int, f: Frame, charge: nat, now: nat, outOfOrder: bool)
    requires Laid(d, l, streams, otherFrames, otherCharge) && BufferFits(d, l, streams, charge, outOfOrder)
    requires ValidLimits(l) && d.st.terminal.None? && d.st.expected <= f.number < I64_MAX && f.number !in d.st.pending
    requires outOfOrder <==> f.number > d.st.expected
    ensures Kept(d, l, streams, otherFrames, otherCharge, Buffer(d, f, charge, now), None, false)
  {
    hide BufferFits, Balanced;
    BufferBalanced(d, l, streams, otherFrames, otherCharge, f, charge, now, outOfOrder);
    assert f.number in Buffer(d, f, charge, now).st.pending;
  }

  lemma SubmitKept(
    d: Desk, l: Limits, direction: Direction, streams: nat, otherFrames: int, otherCharge: int, f: Frame, charge: nat,
    now: nat, answers: nat -> Answer)
    requires Laid(d, l, streams, otherFrames, otherCharge) && ValidLimits(l) && f.number < I64_MAX
    ensures var (d1, answer) := SubmitFrame(d, l, direction, streams, f, charge, now, answers);
            Kept(d, l, streams, otherFrames, otherCharge, d1, ErrorOf(answer), RefusedLater(d1, ErrorOf(answer)))
  {
    hide Balanced, Abort, Advance, Buffer, BufferFits, Jumps, AfterEnd, Final, FirstKind;
    if d.st.terminal.None? && f.number >= d.st.expected && f.number !in d.st.pending {
      if Jumps(d.st, direction, f) {
        AbortKept(d, l, direction, streams, otherFrames, otherCharge, f, charge, answers);
      } else if f.number > d.st.expected {
        if BufferFits(d, l, streams, charge, true) {
          BufferKept(d, l, streams, otherFrames, otherCharge, f, charge, now, true);
        }
      } else {
        AdvanceKept(d, l, streams, otherFrames, otherCharge, f, charge, now, answers);
      }
    }
  }

  lemma RetryKept(d: Desk, l: Limits, streams: nat, otherFrames: int, otherCharge: int, answers: nat -> Answer)
    requires Laid(d, l, streams, otherFrames, otherCharge)
    ensures var (d1, error) := Drain(d, answers, 0);
            Kept(d, l, streams, otherFrames, otherCharge, d1, error, error == Some(ApplyRejected))
  {
    DrainBalanced(d, l, streams, otherFrames, otherCharge, answers, 0, d.st.expected);
  }

  // ---------------------------------------------------------------------------------------------------------------
  // The whole receiver
  // ---------------------------------------------------------------------------------------------------------------

  function CountOf(st: StreamState): int {
    |st.pending|
  }

  ghost function WeightOf(st: StreamState): int {
    PendingCharge(st.pending)
  }

  predicate StreamsSound(streams: map<int, StreamState>) {
    forall id | id in streams :: 1 <= id <= I64_MAX && StreamSound(streams[id]) && GapTimed(streams[id])
  }

  /** The counters are the sums over all waiting frames, and everything held fits. */
  ghost predicate Accounted(r: Receiver) {
    && ValidLimits(r.limits) && StreamsSound(r.streams)
    && r.frames == SumTo(r.streams, CountOf, I64_MAX) <= r.limits.queuedFrames - r.limits.controlReserveFrames
    && r.charge == SumTo(r.streams, WeightOf, I64_MAX)
    && Records(|r.streams|) + r.retained + r.charge <= Available(r.limits)
  }

  lemma LiftLaid(r: Receiver, id: int)
    requires Accounted(r) && id in r.streams
    ensures var st := r.streams[id];
            Laid(Lift(r, id), r.limits, |r.streams|, r.frames - CountOf(st), r.charge - WeightOf(st))
  {
    hide PendingCharge;
    forall i | i in r.streams ensures WeightOf(r.streams[i]) >= 0 {
      ChargeIsPositive(r.streams[i].pending);
    }
    SumBound(r.streams, CountOf, id, I64_MAX);
    SumBound(r.streams, WeightOf, id, I64_MAX);
  }

  lemma SettleAccounted(r: Receiver, id: int, d: Desk, error: Option<Error>)
    requires Accounted(r) && id in r.streams && GapTimed(d.st)
    requires Balanced(d, r.limits, |r.streams|, r.frames - CountOf(r.streams[id]), r.charge - WeightOf(r.streams[id]))
    ensures Accounted(Settle(r, id, d, error))
  {
    hide PendingCharge, StreamSound, GapTimed;
    var streams := r.streams[id := d.st];
    SumChange(r.streams, streams, CountOf, id, I64_MAX);
    SumChange(r.streams, streams, WeightOf, id, I64_MAX);
    assert streams.Keys == r.streams.Keys;
    assert |streams| == |r.streams|;
    BalancedIsSound(d, r.limits, |r.streams|, r.frames - CountOf(r.streams[id]), r.charge - WeightOf(r.streams[id]));
  }

  /** One frame too many in the counters is one too many in the sums. */
  lemma SettleOvercharged(r: Receiver, id: int, d: Desk, error: Option<Error>)
    requires Accounted(r) && id in r.streams
    requires Overcharged(d, r.frames - CountOf(r.streams[id]), r.charge - WeightOf(r.streams[id]))
    ensures !Accounted(Settle(r, id, d, error))
  {
    hide PendingCharge, StreamSound, GapTimed;
    SumChange(r.streams, r.streams[id := d.st], CountOf, id, I64_MAX);
  }

  lemma BalancedIsSound(d: Desk, l: Limits, streams: nat, otherFrames: int, otherCharge: int)
    requires Balanced(d, l, streams, otherFrames, otherCharge)
    ensures StreamSound(d.st)
  {
  }

  lemma FreshSound()
    ensures StreamSound(FRESH) && GapTimed(FRESH) && CountOf(FRESH) == 0 && WeightOf(FRESH) == 0
  {
    ChargeOfNone();
    assert Beyond(FRESH) == {};
  }

  lemma NewStreamSums(streams: map<int, StreamState>, id: int)
    requires StreamsSound(streams) && id !in streams && 1 <= id <= I64_MAX
    ensures var w := streams[id := FRESH];
            && StreamsSound(w) && |w| == |streams| + 1
            && SumTo(w, CountOf, I64_MAX) == SumTo(streams, CountOf, I64_MAX)
            && SumTo(w, WeightOf, I64_MAX) == SumTo(streams, WeightOf, I64_MAX)
  {
    hide StreamSound, GapTimed, CountOf, WeightOf, SumTo;
    var w := streams[id := FRESH];
    FreshSound();
    SumChange(streams, w, CountOf, id, I64_MAX);
    SumChange(streams, w, WeightOf, id, I64_MAX);
    assert w.Keys == streams.Keys + {id};
  }

  lemma RegisterAccounted(r: Receiver, id: Int64)
    requires Accounted(r)
    ensures Accounted(Register(r, id).0)
  {
    hide StreamsSound, CountOf, WeightOf, Active, SumTo, Records, FRESH;
    if Register(r, id).1.Ok? {
      NewStreamSums(r.streams, id);
    }
  }
}
