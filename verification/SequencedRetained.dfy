/** What the receiver is charged for the frames that it keeps for comparison, over every run. */
module SequencedRetained {
  import opened Base
  import opened Cost
  import opened Sums
  import opened SequencedSpec
  import opened SequencedRuns

  /** The charge of a frame, when a message's cost is fixed by what it says. */
  function Full(price: Frame -> nat, f: Frame): nat {
    price(f) + FRAME_OVERHEAD
  }

  /** The frames that a stream keeps: its opening and its last one. */
  function HeldCharge(price: Frame -> nat, st: StreamState): int {
    (if st.opening.Some? then Full(price, st.opening.value) else 0)
    + (if st.terminal.Some? then Full(price, st.terminal.value) else 0)
  }

  /** What it is charged for them: a last frame that is also the first goes free. */
  function KeptCharge(price: Frame -> nat, st: StreamState): int {
    if EndsAtOnce(st) then HeldCharge(price, st) - Full(price, st.terminal.value) else HeldCharge(price, st)
  }

  predicate EndsAtOnce(st: StreamState) {
    st.terminal.Some? && st.terminal.value.number == 1
  }

  function Holder(price: Frame -> nat): StreamState -> int {
    st => HeldCharge(price, st)
  }

  function Keeper(price: Frame -> nat): StreamState -> int {
    st => KeptCharge(price, st)
  }

  // ---------------------------------------------------------------------------------------------------------------
  // One stream
  // ---------------------------------------------------------------------------------------------------------------

  /** Every waiting frame is charged its price, and an opening lies behind. */
  predicate Priced(price: Frame -> nat, st: StreamState) {
    && st.expected >= 1 && (st.opening.Some? ==> st.expected >= 2) && (st.terminal.Some? ==> st.pending == map[])
    && (forall k | k in st.pending ::
          k < I64_MAX && st.pending[k].frame.number == k && st.pending[k].charge == Full(price, st.pending[k].frame))
  }

  /** The stream is still priced, and the counter has moved with what it keeps. */
  predicate Moves(price: Frame -> nat, d: Desk, d1: Desk) {
    Priced(price, d1.st) && d1.retained - KeptCharge(price, d1.st) == d.retained - KeptCharge(price, d.st)
  }

  lemma MarkMoves(price: Frame -> nat, d: Desk, f: Frame)
    requires Priced(price, d.st) && d.st.terminal.None? && f.number == d.st.expected < I64_MAX
    ensures Moves(price, d, MarkApplied(d, f, Full(price, f)).0)
  {
  }

  lemma TakeMoves(price: Frame -> nat, d: Desk)
    requires Priced(price, d.st) && d.st.expected in d.st.pending
    ensures Moves(price, d, TakePending(d).0)
  {
    hide MarkApplied, Full;
    var p := d.st.pending[d.st.expected];
    var d1 := Uncharged(Deliver(Unbuffered(d), p.frame), p.charge);
    assert Priced(price, d1.st) && KeptCharge(price, d1.st) == KeptCharge(price, d.st);
    MarkMoves(price, d1, p.frame);
  }

  lemma CloseGapMoves(price: Frame -> nat, d: Desk)
    requires Priced(price, d.st)
    ensures Moves(price, d, CloseGap(d))
  {
  }

  lemma UnbufferedMoves(price: Frame -> nat, d: Desk)
    requires Priced(price, d.st) && d.st.expected in d.st.pending
    ensures Moves(price, d, Unbuffered(d))
  {
  }

  lemma {:induction false} DrainMoves(price: Frame -> nat, d: Desk, answers: nat -> Answer, k: nat)
    requires Priced(price, d.st)
    ensures Moves(price, d, Drain(d, answers, k).0)
    decreases |d.st.pending|
  {
    hide TakePending, CloseGap, KeptCharge, Unbuffered;
    CloseGapMoves(price, d);
    if d.st.expected in d.st.pending {
      UnbufferedMoves(price, d);
      TakeMoves(price, d);
      if answers(k) == Done && TakePending(d).1.None? {
        DrainMoves(price, TakePending(d).0, answers, k + 1);
      }
    }
  }

  lemma ApplyingMoves(price: Frame -> nat, d: Desk, f: Frame, answers: nat -> Answer)
    requires Priced(price, d.st) && d.st.terminal.None? && f.number == d.st.expected < I64_MAX
    ensures Moves(price, d, Applying(d, f, Full(price, f), answers).0)
  {
    hide MarkApplied, Drain, KeptCharge, Full;
    MarkMoves(price, Deliver(d, f), f);
    var (d1, error) := MarkApplied(Deliver(d, f), f, Full(price, f));
    if error.None? {
      DrainMoves(price, Note(d1, f, Applied), answers, 1);
    }
  }

  lemma BufferMoves(price: Frame -> nat, d: Desk, f: Frame, now: nat)
    requires Priced(price, d.st) && d.st.terminal.None? && f.number < I64_MAX
    ensures Moves(price, d, Buffer(d, f, Full(price, f), now))
  {
  }

  lemma AbortedMoves(price: Frame -> nat, d: Desk, f: Frame)
    requires Priced(price, d.st) && d.st.terminal.None? && d.st.expected < f.number
    ensures Moves(price, d, Aborted(d, f, Full(price, f)))
  {
    hide PendingCharge, Superseding;
  }

  lemma SubmitMoves(
    price: Frame -> nat, d: Desk, l: Limits, direction: Direction, streams: nat, f: Frame, now: nat, answers: nat -> Answer)
    requires Priced(price, d.st) && f.number < I64_MAX
    ensures Moves(price, d, SubmitFrame(d, l, direction, streams, f, Full(price, f), now, answers).0)
  {
    hide Moves, Priced, Applying, Buffer, BufferFits, RetainFits, BarsJump, Aborted, PendingCharge, AfterEnd, Final, FirstKind, Full;
    StaysPut(price, d);
    if d.st.terminal.None? {
      BufferMoves(price, d, f, now);
      if f.number == d.st.expected {
        ApplyingMoves(price, d, f, answers);
      } else if f.number > d.st.expected {
        AbortedMoves(price, d, f);
      }
    }
  }

  lemma StaysPut(price: Frame -> nat, d: Desk)
    requires Priced(price, d.st)
    ensures Moves(price, d, d)
  {
  }

  // ---------------------------------------------------------------------------------------------------------------
  // The whole receiver
  // ---------------------------------------------------------------------------------------------------------------

  predicate StreamsPriced(price: Frame -> nat, streams: map<int, StreamState>) {
    forall id | id in streams :: 1 <= id <= I64_MAX && Priced(price, streams[id])
  }

  /** The retained charge is exactly that of what is kept. */
  ghost predicate Retains(price: Frame -> nat, r: Receiver) {
    StreamsPriced(price, r.streams) && r.retained == SumTo(r.streams, Keeper(price), I64_MAX)
  }

  lemma SettleRetains(price: Frame -> nat, r: Receiver, id: int, d: Desk, error: Option<Error>)
    requires Retains(price, r) && id in r.streams && Moves(price, Lift(r, id), d)
    ensures Retains(price, Settle(r, id, d, error))
  {
    hide Priced, KeptCharge;
    SumChange(r.streams, r.streams[id := d.st], Keeper(price), id, I64_MAX);
  }

  /** A submitted message costs what its frame is priced at. */
  predicate Sold(price: Frame -> nat, m: Message, cost: Option<nat>) {
    cost.Some? && m.number.Some? ==> cost.value == price(Frame(m.stream, m.number.value, m.kind, m.rest))
  }

  predicate SoldCall(price: Frame -> nat, c: Call) {
    c.SubmitCall? ==> Sold(price, c.message, c.cost)
  }

  lemma SubmitRetains(price: Frame -> nat, r: Receiver, m: Message, cost: Option<nat>, now: nat, answers: nat -> Answer)
    requires Retains(price, r) && Sold(price, m, cost)
    ensures Retains(price, Submit(r, m, cost, now, answers).r)
  {
    hide Retains, Submit, SubmitFrame, Settle, GapExpired, Moves, Priced;
    SubmitIs(r, m, cost, now, answers);
    if Reaches(r, m, cost, now) {
      var d, f := Lift(r, m.stream), Frame(m.stream, m.number.value, m.kind, m.rest);
      RetainsPriced(price, r, m.stream);
      SubmitMoves(price, d, r.limits, r.direction, |r.streams|, f, now, answers);
      var (d1, answer) := Placed(r, m, cost, now, answers);
      SettleRetains(price, r, m.stream, d1, ErrorOf(answer));
    } else {
      TickRetains(price, r, now);
    }
  }

  lemma RetainsPriced(price: Frame -> nat, r: Receiver, id: int)
    requires Retains(price, r) && id in r.streams
    ensures Priced(price, r.streams[id])
  {
    hide Priced, SumTo;
  }

  lemma TickRetains(price: Frame -> nat, r: Receiver, now: nat)
    requires Retains(price, r)
    ensures Retains(price, Tick(r, now).0)
  {
    hide StreamsPriced, SumTo, GapExpired;
  }

  lemma RetryRetains(price: Frame -> nat, r: Receiver, id: Int64, now: nat, answers: nat -> Answer)
    requires Retains(price, r)
    ensures Retains(price, Retry(r, id, now, answers).r)
  {
    hide Retains, Retry, Drain, Settle, GapExpired, Moves, Priced;
    RetryIs(r, id, now, answers);
    if Tick(r, now).1.None? && id in r.streams {
      RetainsPriced(price, r, id);
      DrainMoves(price, Lift(r, id), answers, 0);
      var (d, error) := Drain(Lift(r, id), answers, 0);
      SettleRetains(price, r, id, d, error);
    } else {
      TickRetains(price, r, now);
    }
  }

  lemma RegisterRetains(price: Frame -> nat, r: Receiver, id: Int64)
    requires Retains(price, r)
    ensures Retains(price, Register(r, id).0)
  {
    hide Active, Records;
    if Register(r, id).1.Ok? {
      SumChange(r.streams, r.streams[id := FRESH], Keeper(price), id, I64_MAX);
    }
  }

  lemma PerformRetains(price: Frame -> nat, b: Book, c: Call)
    requires Retains(price, b.r) && SoldCall(price, c)
    ensures Retains(price, Perform(b, c).r)
  {
    hide Retains, Submit, Retry, Register, Tick, Sold;
    match c
    case RegisterCall(id) => RegisterRetains(price, b.r, id);
    case TickCall(now) => TickRetains(price, b.r, now);
    case SubmitCall(message, cost, now, answers) => SubmitRetains(price, b.r, message, cost, now, answers);
    case RetryCall(id, now, answers) => RetryRetains(price, b.r, id, now, answers);
  }

  /**
   Over every run, refused frames and failed bindings included: the retained charge is the charge of every opening and
   of every last frame that is kept, except the last frames that are also the first of their streams.
   */
  lemma {:induction false} RetainedIsKept(
    price: Frame -> nat, session: seq<byte>, direction: Direction, limits: Limits, calls: seq<Call>)
    requires forall c | c in calls :: SoldCall(price, c)
    ensures Retains(price, PerformAll(SequencedRuns.Opened(session, direction, limits), calls).r)
  {
    hide Retains, Perform, SoldCall;
    if calls == [] {
      NoneRetained(price, session, direction, limits);
    } else {
      var before := calls[..|calls| - 1];
      RetainedIsKept(price, session, direction, limits, before);
      assert calls[|calls| - 1] in calls;
      PerformRetains(price, PerformAll(SequencedRuns.Opened(session, direction, limits), before), calls[|calls| - 1]);
    }
  }

  lemma NoneRetained(price: Frame -> nat, session: seq<byte>, direction: Direction, limits: Limits)
    ensures Retains(price, NewReceiver(session, direction, limits))
  {
    SumNone<StreamState>(Keeper(price), I64_MAX);
  }

  // ---------------------------------------------------------------------------------------------------------------
  // When everything kept is charged
  // ---------------------------------------------------------------------------------------------------------------

  lemma {:induction false} SumLess<T(!new)>(m: map<int, T>, f: T -> int, g: T -> int, n: int)
    requires forall k | k in m :: f(m[k]) <= g(m[k])
    ensures SumTo(m, f, n) <= SumTo(m, g, n)
    ensures SumTo(m, f, n) == SumTo(m, g, n) <==> forall k | k in m && 1 <= k <= n :: f(m[k]) == g(m[k])
    decreases if n < 0 then 0 else n
  {
    if n > 0 {
      SumLess(m, f, g, n - 1);
    }
  }

  /** The retained charge is that of every kept frame if and only if no stream has ended with its first frame. */
  lemma AllKeptIsChargedIff(price: Frame -> nat, r: Receiver)
    requires Retains(price, r)
    ensures r.retained == SumTo(r.streams, Holder(price), I64_MAX) <==>
            forall id | id in r.streams :: !EndsAtOnce(r.streams[id])
  {
    hide SumTo, Priced;
    forall st: StreamState ensures KeptCharge(price, st) <= HeldCharge(price, st)
                           ensures KeptCharge(price, st) == HeldCharge(price, st) <==> !EndsAtOnce(st) {
    }
    SumLess(r.streams, Keeper(price), Holder(price), I64_MAX);
  }

  const ALWAYS_DONE: nat -> Answer := _ => Done

  /** Register a stream and submit one message, which the application takes. */
  function OneFrame(m: Message, cost: nat): seq<Call> {
    [RegisterCall(m.stream), SubmitCall(m, Some(cost), 0, ALWAYS_DONE)]
  }

  /** In any session, a stream that ends with its first frame keeps it free of charge. */
  lemma FinalFirstGoesFree(session: seq<byte>, direction: Direction, limits: Limits, m: Message, cost: nat)
    requires FirstMessage(NewReceiver(session, direction, limits), m, cost) && Final(m.kind)
    ensures var r := PerformAll(SequencedRuns.Opened(session, direction, limits), OneFrame(m, cost)).r;
            && m.stream in r.streams && r.retained == 0
            && r.streams[m.stream].terminal == Some(Frame(m.stream, 1, m.kind, m.rest)) && EndsAtOnce(r.streams[m.stream])
  {
    hide Submit, Register, SequencedLimits, FirstKind, Final;
    var r := NewReceiver(session, direction, limits);
    var calls := OneFrame(m, cost);
    var b := SequencedRuns.Opened(session, direction, limits);
    assert calls[..1] == [calls[0]] && calls[..1][..0] == [];
    assert PerformAll(b, calls[..1]) == Perform(b, calls[0]);
    assert PerformAll(b, calls) == Perform(Perform(b, calls[0]), calls[1]);
    RegisteredFirst(r, m.stream);
    FirstEnds(r.(streams := map[m.stream := FRESH]), m, cost);
  }

  lemma FirstEnds(r: Receiver, m: Message, cost: nat)
    requires FirstMessage(r, m, cost) && Waiting(r, m.stream) && Final(m.kind)
    ensures var q := Submit(r, m, Some(cost), 0, ALWAYS_DONE).r;
            && m.stream in q.streams && q.retained == 0
            && q.streams[m.stream].terminal == Some(Frame(m.stream, 1, m.kind, m.rest))
  {
    hide Final;
    var d := Lift(r, m.stream);
    var f := Frame(m.stream, 1, m.kind, m.rest);
    var charge := cost + FRAME_OVERHEAD;
    assert |r.streams| == 1;
    assert RetainFits(d, r.limits, 1, charge, 0);
    var (d1, error) := MarkApplied(Deliver(d, f), f, charge);
    assert error.None? && d1.st.terminal == Some(f) && d1.retained == 0 && d1.st.pending == map[];
    assert Drain(Note(d1, f, Applied), ALWAYS_DONE, 1) == (CloseGap(Note(d1, f, Applied)), None);
  }
}
