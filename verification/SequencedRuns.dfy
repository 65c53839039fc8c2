/** The receiver over every run of calls, whoever sends the messages and whatever the application answers. */
module SequencedRuns {
  import opened Base
  import opened Cost
  import opened Sums
  import opened SequencedSpec
  import opened SequencedAccounts

  datatype Call =
    | RegisterCall(id: Int64)
    | TickCall(now: nat)
    | SubmitCall(message: Message, cost: Option<nat>, now: nat, answers: nat -> Answer)
    | RetryCall(id: Int64, now: nat, answers: nat -> Answer)

  /** A receiver, every resolution it has reported, and whether the application ever refused a frame that had waited. */
  datatype Book = Book(r: Receiver, resolved: seq<Resolution>, refused: bool)

  function Entered(b: Book, o: Outcome, refused: bool): Book {
    Book(o.r, if o.answer.Ok? then b.resolved + o.answer.value.resolved else b.resolved, b.refused || refused)
  }

  predicate Rejected(o: Outcome) {
    o.answer == Err(ApplyRejected)
  }

  /** A submitted frame was taken, and one that had waited behind it was refused. */
  predicate RejectedWaiting(o: Outcome) {
    Rejected(o) && o.applied != []
  }

  ghost function Perform(b: Book, c: Call): Book {
    match c
    case RegisterCall(id) => b.(r := Register(b.r, id).0)
    case TickCall(now) => b.(r := Tick(b.r, now).0)
    case SubmitCall(message, cost, now, answers) =>
      var o := Submit(b.r, message, cost, now, answers);
      Entered(b, o, RejectedWaiting(o))
    case RetryCall(id, now, answers) =>
      var o := Retry(b.r, id, now, answers);
      Entered(b, o, Rejected(o))
  }

  ghost function PerformAll(b: Book, calls: seq<Call>): Book {
    if calls == [] then b else Perform(PerformAll(b, calls[..|calls| - 1]), calls[|calls| - 1])
  }

  /** No sequence number of a stream is resolved twice. */
  predicate Once(rs: seq<Resolution>) {
    forall i, j | 0 <= i < j < |rs| :: rs[i].stream != rs[j].stream || rs[i].number != rs[j].number
  }

  /** What has been resolved lies behind its stream. */
  predicate Past(r: Receiver, rs: seq<Resolution>) {
    forall i | 0 <= i < |rs| ::
      && rs[i].stream in r.streams
      && (r.streams[rs[i].stream].terminal.Some? || rs[i].number < r.streams[rs[i].stream].expected)
  }

  ghost predicate InOrder(b: Book) {
    && Once(b.resolved) && (!b.r.failed ==> Past(b.r, b.resolved))
    && (Accounted(b.r) <==> !b.refused) && (b.refused ==> b.r.failed)
  }

  /** The effect of one call on one stream: what is behind stays behind, and nothing behind is resolved again. */
  lemma PastSettled(b: Book, id: int, d: Desk, error: Option<Error>)
    requires id in b.r.streams && Past(b.r, b.resolved)
    requires b.r.streams[id].expected <= d.st.expected && (b.r.streams[id].terminal.Some? ==> d.st.terminal.Some?)
    ensures Past(Settle(b.r, id, d, error), b.resolved)
  {
  }

  lemma OnceMore(rs: seq<Resolution>, more: seq<Resolution>, r: Receiver, id: int)
    requires Once(rs) && Past(r, rs) && id in r.streams && Climbing(more, id, r.streams[id].expected)
    requires more != [] ==> r.streams[id].terminal.None?
    ensures Once(rs + more)
  {
    var all := rs + more;
    forall i, j | 0 <= i < j < |all| ensures all[i].stream != all[j].stream || all[i].number != all[j].number {
      if i < |rs| <= j && all[i].stream == all[j].stream {
        assert all[j] == more[j - |rs|] && all[i] == rs[i];
      } else if |rs| <= i {
        assert all[i] == more[i - |rs|] && all[j] == more[j - |rs|];
      }
    }
  }

  lemma PastMore(rs: seq<Resolution>, more: seq<Resolution>, r: Receiver, id: int)
    requires Past(r, rs) && id in r.streams
    requires forall i | 0 <= i < |more| ::
               more[i].stream == id && (r.streams[id].terminal.Some? || more[i].number < r.streams[id].expected)
    ensures Past(r, rs + more)
  {
  }

  /** What a call that worked on one stream has kept. */
  ghost predicate Worked(r: Receiver, id: int, d: Desk, error: Option<Error>, refused: bool)
    requires id in r.streams
  {
    var st := r.streams[id];
    Kept(Lift(r, id), r.limits, |r.streams|, r.frames - CountOf(st), r.charge - WeightOf(st), d, error, refused)
  }

  lemma WorkedAccounts(r: Receiver, id: int, d: Desk, error: Option<Error>, refused: bool)
    requires Accounted(r) && id in r.streams && Worked(r, id, d, error, refused)
    ensures Accounted(Settle(r, id, d, error)) <==> !refused
    ensures refused ==> Settle(r, id, d, error).failed
  {
    hide Balanced, GapTimed, CountOf, WeightOf, Accounted, Overcharged, Resolving;
    if refused {
      SettleOvercharged(r, id, d, error);
    } else {
      SettleAccounted(r, id, d, error);
    }
  }

  lemma WorkedInOrder(b: Book, id: int, d: Desk, error: Option<Error>, refused: bool)
    requires InOrder(b) && !b.r.failed && id in b.r.streams && Worked(b.r, id, d, error, refused)
    ensures InOrder(Book(Settle(b.r, id, d, error), if error.None? then b.resolved + d.resolved else b.resolved, refused))
  {
    hide Balanced, GapTimed, CountOf, WeightOf, Accounted, Once, Past, Overcharged;
    var r1 := Settle(b.r, id, d, error);
    WorkedAccounts(b.r, id, d, error, refused);
    if !Fatal(error) {
      PastSettled(b, id, d, error);
    }
    if error.None? {
      NotFatal(error);
      OnceMore(b.resolved, d.resolved, b.r, id);
      PastMore(b.resolved, d.resolved, r1, id);
    }
  }

  lemma NotFatal(error: Option<Error>)
    requires error.None?
    ensures !Fatal(error)
  {
  }

  // ---------------------------------------------------------------------------------------------------------------
  // Submitting and retrying
  // ---------------------------------------------------------------------------------------------------------------

  /** The message gets as far as its stream. */
  predicate Reaches(r: Receiver, m: Message, cost: Option<nat>, now: nat) {
    && Tick(r, now).1.None? && m.session == r.session && m.version == 3 && m.stream > 0 && Numberable(m.number)
    && cost.Some? && m.stream in r.streams
  }

  ghost function Placed(r: Receiver, m: Message, cost: Option<nat>, now: nat, answers: nat -> Answer): (Desk, Result<Status, Error>)
    requires Reaches(r, m, cost, now)
  {
    SubmitFrame(
      Lift(r, m.stream), r.limits, r.direction, |r.streams|, Frame(m.stream, m.number.value, m.kind, m.rest),
      cost.value + FRAME_OVERHEAD, now, answers)
  }

  lemma SubmitIs(r: Receiver, m: Message, cost: Option<nat>, now: nat, answers: nat -> Answer)
    ensures var o := Submit(r, m, cost, now, answers);
            if Reaches(r, m, cost, now) then
              var (d, answer) := Placed(r, m, cost, now, answers);
              && o.r == Settle(r, m.stream, d, ErrorOf(answer)) && o.applied == d.applied
              && (if answer.Ok? then o.answer == Ok(Report(answer.value, d.resolved)) else o.answer == Err(answer.error))
            else o.r == Tick(r, now).0 && o.answer.Err? && !Rejected(o)
  {
    hide SubmitFrame, Settle, GapExpired;
  }

  lemma SubmitWorked(r: Receiver, m: Message, cost: Option<nat>, now: nat, answers: nat -> Answer)
    requires Accounted(r) && Reaches(r, m, cost, now)
    ensures var (d, answer) := Placed(r, m, cost, now, answers);
            Worked(r, m.stream, d, ErrorOf(answer), RefusedLater(d, ErrorOf(answer)))
  {
    hide SubmitFrame, Kept, Laid, CountOf, WeightOf, Accounted, GapExpired;
    var st := r.streams[m.stream];
    LiftLaid(r, m.stream);
    AccountedLimits(r);
    SubmitKept(
      Lift(r, m.stream), r.limits, r.direction, |r.streams|, r.frames - CountOf(st), r.charge - WeightOf(st),
      Frame(m.stream, m.number.value, m.kind, m.rest), cost.value + FRAME_OVERHEAD, now, answers);
  }

  /** From exact accounts, a submission leaves them exact if and only if no frame that had waited was refused. */
  lemma SubmitKeepsAccountsIff(r: Receiver, m: Message, cost: Option<nat>, now: nat, answers: nat -> Answer)
    requires Accounted(r)
    ensures var o := Submit(r, m, cost, now, answers); Accounted(o.r) <==> !RejectedWaiting(o)
  {
    hide Submit, Accounted, Placed, Worked, Settle, GapExpired;
    SubmitIs(r, m, cost, now, answers);
    if Reaches(r, m, cost, now) {
      SubmitWorked(r, m, cost, now, answers);
      var (d, answer) := Placed(r, m, cost, now, answers);
      WorkedAccounts(r, m.stream, d, ErrorOf(answer), RefusedLater(d, ErrorOf(answer)));
    } else {
      TickAccounted(r, now);
    }
  }

  lemma TickAccounted(r: Receiver, now: nat)
    ensures Accounted(Tick(r, now).0) <==> Accounted(r)
  {
    hide StreamsSound, SumTo, GapExpired;
  }

  lemma SubmitInOrder(b: Book, m: Message, cost: Option<nat>, now: nat, answers: nat -> Answer)
    requires InOrder(b)
    ensures var o := Submit(b.r, m, cost, now, answers); InOrder(Entered(b, o, RejectedWaiting(o)))
  {
    hide Submit, Accounted, Placed, Worked, Settle, GapExpired, Once, Past;
    SubmitIs(b.r, m, cost, now, answers);
    if Reaches(b.r, m, cost, now) {
      ReachedLives(b.r, m, cost, now);
      SubmitWorked(b.r, m, cost, now, answers);
      var (d, answer) := Placed(b.r, m, cost, now, answers);
      WorkedInOrder(b, m.stream, d, ErrorOf(answer), RefusedLater(d, ErrorOf(answer)));
    } else {
      TickInOrder(b, now);
    }
  }

  lemma ReachedLives(r: Receiver, m: Message, cost: Option<nat>, now: nat)
    requires Reaches(r, m, cost, now)
    ensures !r.failed
  {
  }

  lemma AccountedLimits(r: Receiver)
    requires Accounted(r)
    ensures ValidLimits(r.limits)
  {
  }

  lemma RetryIs(r: Receiver, id: Int64, now: nat, answers: nat -> Answer)
    ensures var o := Retry(r, id, now, answers);
            if Tick(r, now).1.None? && id in r.streams then
              var (d, error) := Drain(Lift(r, id), answers, 0);
              && o.r == Settle(r, id, d, error)
              && (if error.Some? then o.answer == Err(error.value) else o.answer.Ok? && o.answer.value.resolved == d.resolved)
            else o.r == Tick(r, now).0 && o.answer.Err? && !Rejected(o)
  {
    hide Drain, Settle, GapExpired;
  }

  lemma RetryWorked(r: Receiver, id: Int64, answers: nat -> Answer)
    requires Accounted(r) && id in r.streams
    ensures var (d, error) := Drain(Lift(r, id), answers, 0); Worked(r, id, d, error, error == Some(ApplyRejected))
  {
    hide Drain, Kept, Laid, CountOf, WeightOf, Accounted;
    var st := r.streams[id];
    LiftLaid(r, id);
    RetryKept(Lift(r, id), r.limits, |r.streams|, r.frames - CountOf(st), r.charge - WeightOf(st), answers);
  }

  /** From exact accounts, a retry leaves them exact if and only if nothing was refused. */
  lemma RetryKeepsAccountsIff(r: Receiver, id: Int64, now: nat, answers: nat -> Answer)
    requires Accounted(r)
    ensures var o := Retry(r, id, now, answers); Accounted(o.r) <==> !Rejected(o)
  {
    hide Retry, Accounted, Drain, Worked, Settle, GapExpired;
    RetryIs(r, id, now, answers);
    if Tick(r, now).1.None? && id in r.streams {
      RetryWorked(r, id, answers);
      var (d, error) := Drain(Lift(r, id), answers, 0);
      WorkedAccounts(r, id, d, error, error == Some(ApplyRejected));
    } else {
      TickAccounted(r, now);
    }
  }

  lemma RetryInOrder(b: Book, id: Int64, now: nat, answers: nat -> Answer)
    requires InOrder(b)
    ensures var o := Retry(b.r, id, now, answers); InOrder(Entered(b, o, Rejected(o)))
  {
    hide Retry, Accounted, Drain, Worked, Settle, GapExpired, Once, Past;
    RetryIs(b.r, id, now, answers);
    if Tick(b.r, now).1.None? && id in b.r.streams {
      RetryWorked(b.r, id, answers);
      var (d, error) := Drain(Lift(b.r, id), answers, 0);
      WorkedInOrder(b, id, d, error, error == Some(ApplyRejected));
    } else {
      TickInOrder(b, now);
    }
  }

  lemma RegisterInOrder(b: Book, id: Int64)
    requires InOrder(b)
    ensures InOrder(b.(r := Register(b.r, id).0))
  {
    hide Accounted, Active, Records;
    if !b.r.failed {
      RegisterAccounted(b.r, id);
    }
  }

  lemma TickInOrder(b: Book, now: nat)
    requires InOrder(b)
    ensures InOrder(b.(r := Tick(b.r, now).0))
  {
    hide Accounted, GapExpired;
    TickAccounted(b.r, now);
  }

  // ---------------------------------------------------------------------------------------------------------------
  // Every run
  // ---------------------------------------------------------------------------------------------------------------

  lemma PerformInOrder(b: Book, c: Call)
    requires InOrder(b)
    ensures InOrder(Perform(b, c))
  {
    hide InOrder, Submit, Retry, Register, Entered, Rejected, RejectedWaiting;
    match c
    case RegisterCall(id) => RegisterInOrder(b, id);
    case TickCall(now) => TickInOrder(b, now);
    case SubmitCall(message, cost, now, answers) => SubmitInOrder(b, message, cost, now, answers);
    case RetryCall(id, now, answers) => RetryInOrder(b, id, now, answers);
  }

  function Opened(session: seq<byte>, direction: Direction, limits: Limits): Book {
    Book(NewReceiver(session, direction, limits), [], false)
  }

  /**
   Over every run, for any messages and answers: no sequence number is ever resolved twice; and the counters are exactly
   the sums over what waits, and all that is held fits, if and only if the application never refused a frame that had
   waited, which always fails the binding.
   */
  lemma {:induction false} AccountsBalance(session: seq<byte>, direction: Direction, limits: Limits, calls: seq<Call>)
    requires SequencedLimits(limits)
    ensures InOrder(PerformAll(Opened(session, direction, limits), calls))
  {
    hide InOrder, Perform;
    if calls == [] {
      FreshInOrder(session, direction, limits);
    } else {
      AccountsBalance(session, direction, limits, calls[..|calls| - 1]);
      PerformInOrder(PerformAll(Opened(session, direction, limits), calls[..|calls| - 1]), calls[|calls| - 1]);
    }
  }

  lemma FreshInOrder(session: seq<byte>, direction: Direction, limits: Limits)
    requires SequencedLimits(limits)
    ensures InOrder(Opened(session, direction, limits))
  {
    SumNone<StreamState>(CountOf, I64_MAX);
    SumNone<StreamState>(WeightOf, I64_MAX);
  }

  // ---------------------------------------------------------------------------------------------------------------
  // A run that unbalances the accounts
  // ---------------------------------------------------------------------------------------------------------------

  const ALWAYS_BLOCKED: nat -> Answer := _ => Blocked
  const ALWAYS_REFUSED: nat -> Answer := _ => Refused

  /** Register a stream, let its first frame wait, and have the retry refused. */
  function Refusal(m: Message, cost: nat): seq<Call> {
    [RegisterCall(m.stream), SubmitCall(m, Some(cost), 0, ALWAYS_BLOCKED), RetryCall(m.stream, 0, ALWAYS_REFUSED)]
  }

  lemma RegisteredFirst(r: Receiver, id: Int64)
    requires r.streams == map[] && !r.failed && r.retained == 0 && r.charge == 0 && SequencedLimits(r.limits) && id > 0
    ensures Register(r, id) == (r.(streams := map[id := FRESH]), Ok(()))
  {
    assert Active(r) == {};
    assert r.streams[id := FRESH] == map[id := FRESH];
  }

  /** The stream with its first frame waiting. */
  function Holding(r: Receiver, m: Message, cost: nat): Receiver
    requires m.number == Some(1)
  {
    var charge := cost + FRAME_OVERHEAD;
    var waiting := map[1 := Pending(Frame(m.stream, 1, m.kind, m.rest), charge)];
    r.(streams := map[m.stream := FRESH.(pending := waiting, gapSince := Some(0))], frames := 1, charge := charge)
  }

  /** A first message for the session, within what the limits admit. */
  predicate FirstMessage(r: Receiver, m: Message, cost: nat) {
    && m.session == r.session && m.version == 3 && m.stream > 0 && m.number == Some(1) && FirstKind(r.direction, m.kind)
    && SequencedLimits(r.limits) && cost <= r.limits.encodedFrame + r.limits.decodeAllocation
  }

  predicate Waiting(r: Receiver, id: int) {
    !r.failed && r.streams == map[id := FRESH] && r.frames == 0 && r.charge == 0 && r.retained == 0
  }

  lemma FirstWaits(r: Receiver, m: Message, cost: nat)
    requires FirstMessage(r, m, cost) && Waiting(r, m.stream)
    ensures Submit(r, m, Some(cost), 0, ALWAYS_BLOCKED).r == Holding(r, m, cost)
  {
    var d := Lift(r, m.stream);
    var f := Frame(m.stream, 1, m.kind, m.rest);
    var charge := cost + FRAME_OVERHEAD;
    assert |r.streams| == 1;
    assert Beyond(d.st) == {};
    assert RetainFits(d, r.limits, 1, charge, 0) && BufferFits(d, r.limits, 1, charge, false);
    assert SubmitFrame(d, r.limits, r.direction, 1, f, charge, 0, ALWAYS_BLOCKED) == (Buffer(d, f, charge, 0), Ok(Buffered));
    assert r.streams[m.stream := Buffer(d, f, charge, 0).st] == Holding(r, m, cost).streams;
  }

  lemma WaitingIsRefused(r: Receiver, m: Message, cost: nat)
    requires FirstMessage(r, m, cost) && !r.failed
    ensures Rejected(Retry(Holding(r, m, cost), m.stream, 0, ALWAYS_REFUSED))
  {
    var h := Holding(r, m, cost);
    var pending := h.streams[m.stream].pending;
    assert pending - {1} == map[];
    assert Drain(Lift(h, m.stream), ALWAYS_REFUSED, 0).1 == Some(ApplyRejected);
  }

  /** In any session a run of three calls leaves the counters above what waits. */
  lemma RefusalUnbalances(session: seq<byte>, direction: Direction, limits: Limits, m: Message, cost: nat)
    requires FirstMessage(NewReceiver(session, direction, limits), m, cost)
    ensures !Accounted(PerformAll(Opened(session, direction, limits), Refusal(m, cost)).r)
  {
    hide InOrder, Accounted, Perform, Submit, Retry, Register, Holding, FirstKind, SequencedLimits;
    var calls := Refusal(m, cost);
    var b0 := Opened(session, direction, limits);
    var b1, b2 := Perform(b0, calls[0]), Perform(Perform(b0, calls[0]), calls[1]);
    ThreeCalls(b0, calls);
    AfterTwo(session, direction, limits, m, cost);
    WaitingIsRefused(NewReceiver(session, direction, limits).(streams := map[m.stream := FRESH]), m, cost);
    AccountsBalance(session, direction, limits, calls);
    RefusedIsNoted(b2, m.stream);
  }

  lemma AfterTwo(session: seq<byte>, direction: Direction, limits: Limits, m: Message, cost: nat)
    requires FirstMessage(NewReceiver(session, direction, limits), m, cost)
    ensures var calls := Refusal(m, cost);
            Perform(Perform(Opened(session, direction, limits), calls[0]), calls[1]).r ==
            Holding(NewReceiver(session, direction, limits).(streams := map[m.stream := FRESH]), m, cost)
  {
    hide Submit, Register, Holding;
    var r := NewReceiver(session, direction, limits);
    RegisteredFirst(r, m.stream);
    FirstWaits(r.(streams := map[m.stream := FRESH]), m, cost);
  }

  lemma ThreeCalls(b: Book, calls: seq<Call>)
    requires |calls| == 3
    ensures PerformAll(b, calls) == Perform(Perform(Perform(b, calls[0]), calls[1]), calls[2])
  {
    hide Perform;
    assert calls[..2][..1] == calls[..1] && calls[..1][..0] == [];
    assert PerformAll(b, calls[..1]) == Perform(b, calls[0]);
    assert PerformAll(b, calls[..2]) == Perform(PerformAll(b, calls[..1]), calls[1]);
  }

  lemma RefusedIsNoted(b: Book, id: Int64)
    requires Rejected(Retry(b.r, id, 0, ALWAYS_REFUSED))
    requires InOrder(Perform(b, RetryCall(id, 0, ALWAYS_REFUSED)))
    ensures !Accounted(Perform(b, RetryCall(id, 0, ALWAYS_REFUSED)).r)
  {
    hide Retry, Accounted;
  }
}
