/** When a call will unbalance the receiver's accounts, told from what waits and how the application will answer. */
module SequencedAnswers {
  import opened Base
  import opened SequencedSpec
  import opened SequencedAccounts
  import opened SequencedRuns

  /** The frame `i` places on waits, is not a last one, and will be taken. */
  predicate TakesAt(st: StreamState, answers: nat -> Answer, k: nat, i: nat) {
    && st.expected + i in st.pending && !Final(st.pending[st.expected + i].frame.kind)
    && answers(k + i) == Done
  }

  /**
   The application takes the next `n` waiting frames and refuses the one behind them, which is there to be offered: no
   frame before it is a last one, and if it is a last one itself, nothing waits behind it.
   */
  predicate RefusesAfter(st: StreamState, answers: nat -> Answer, k: nat, n: nat) {
    && (forall i: nat | i < n :: TakesAt(st, answers, k, i))
    && st.expected + n in st.pending && answers(k + n) == Refused
    && (Final(st.pending[st.expected + n].frame.kind) ==> forall key | key in st.pending :: key <= st.expected + n)
  }

  ghost predicate RefusesWaiting(st: StreamState, answers: nat -> Answer, k: nat) {
    exists n: nat :: RefusesAfter(st, answers, k, n)
  }

  /** A stream whose frames wait under their own numbers. */
  predicate Orderly(st: StreamState) {
    Keyed(st) && (st.terminal.Some? ==> st.pending == map[])
  }

  /** The stream once its next waiting frame has been taken. */
  predicate MovedOn(st: StreamState, t: StreamState) {
    t.expected == st.expected + 1 && t.pending == st.pending - {st.expected}
  }

  lemma RefusesOneLater(st: StreamState, t: StreamState, answers: nat -> Answer, k: nat)
    requires st.expected in st.pending && MovedOn(st, t) && answers(k) == Done && !Final(st.pending[st.expected].frame.kind)
    ensures RefusesWaiting(st, answers, k) <==> RefusesWaiting(t, answers, k + 1)
  {
    hide Final;
    if RefusesWaiting(st, answers, k) {
      var n: nat :| RefusesAfter(st, answers, k, n);
      assert n > 0;
      RefusesSame(st, t, answers, k, n - 1);
    }
    if RefusesWaiting(t, answers, k + 1) {
      var n: nat :| RefusesAfter(t, answers, k + 1, n);
      RefusesSame(st, t, answers, k, n);
    }
  }

  lemma RefusesSame(st: StreamState, t: StreamState, answers: nat -> Answer, k: nat, n: nat)
    requires st.expected in st.pending && MovedOn(st, t) && answers(k) == Done && !Final(st.pending[st.expected].frame.kind)
    ensures RefusesAfter(st, answers, k, n + 1) <==> RefusesAfter(t, answers, k + 1, n)
  {
    hide Final;
    var e, next := st.expected, k + 1;
    if RefusesAfter(t, answers, k + 1, n) {
      forall i: nat | i < n + 1 ensures TakesAt(st, answers, k, i) {
        if i > 0 {
          assert TakesAt(t, answers, k + 1, i - 1);
        }
      }
      assert t.expected + n == e + (n + 1) && k + 1 + n == k + (n + 1);
      assert forall key | key in st.pending :: key == e || key in t.pending;
      assert RefusesAfter(st, answers, k, n + 1);
    }
    if RefusesAfter(st, answers, k, n + 1) {
      forall i: nat | i < n ensures TakesAt(t, answers, next, i) {
        assert TakesAt(st, answers, k, i + 1);
      }
      assert t.expected + n == e + (n + 1) && next + n == k + (n + 1);
      assert t.expected + n in t.pending && t.pending[t.expected + n] == st.pending[e + (n + 1)];
      assert RefusesAfter(t, answers, next, n);
    }
  }

  lemma TakenMovesOn(d: Desk)
    requires Orderly(d.st) && d.st.expected in d.st.pending
    requires Final(d.st.pending[d.st.expected].frame.kind) ==> d.st.pending - {d.st.expected} == map[]
    ensures var (d1, error) := TakePending(d); error.None? && MovedOn(d.st, d1.st) && Orderly(d1.st)
  {
    hide Final;
  }

  /** The last waiting frame is offered only when it is the only one. */
  lemma LastIsAlone(st: StreamState)
    requires Keyed(st) && st.expected in st.pending
    ensures st.pending - {st.expected} == map[] <==> forall key | key in st.pending :: key <= st.expected
  {
    var rest := st.pending - {st.expected};
    if forall key | key in st.pending :: key <= st.expected {
      assert forall key :: key !in rest;
    } else {
      var key :| key in st.pending && key > st.expected;
      assert key in rest;
    }
  }

  lemma {:induction false} DrainRefusesIff(d: Desk, answers: nat -> Answer, k: nat)
    requires Orderly(d.st)
    ensures Drain(d, answers, k).1 == Some(ApplyRejected) <==> RefusesWaiting(d.st, answers, k)
    decreases |d.st.pending|
  {
    hide TakePending, CloseGap, Final, RefusesWaiting, Orderly;
    if d.st.expected !in d.st.pending {
      OffersNext(d.st, answers, k);
    } else {
      var p := d.st.pending[d.st.expected];
      OrderlyIsKeyed(d.st);
      LastIsAlone(d.st);
      FirstAnswer(d.st, answers, k);
      if answers(k) == Done && !(Final(p.frame.kind) && d.st.pending - {d.st.expected} != map[]) {
        TakenMovesOn(d);
        var d1 := TakePending(d).0;
        DrainRefusesIff(d1, answers, k + 1);
        if Final(p.frame.kind) {
          OffersNext(d1.st, answers, k + 1);
        } else {
          RefusesOneLater(d.st, d1.st, answers, k);
        }
      }
    }
  }

  lemma OrderlyIsKeyed(st: StreamState)
    requires Orderly(st)
    ensures Keyed(st)
  {
  }

  lemma OffersNext(st: StreamState, answers: nat -> Answer, k: nat)
    ensures RefusesWaiting(st, answers, k) ==> st.expected in st.pending
  {
    hide Final;
    if RefusesWaiting(st, answers, k) {
      var n: nat :| RefusesAfter(st, answers, k, n);
      if n > 0 {
        assert TakesAt(st, answers, k, 0);
      }
    }
  }

  /** What the next answer decides alone. */
  lemma FirstAnswer(st: StreamState, answers: nat -> Answer, k: nat)
    requires st.expected in st.pending
    ensures answers(k) == Blocked ==> !RefusesWaiting(st, answers, k)
    ensures answers(k) == Done && Final(st.pending[st.expected].frame.kind) ==> !RefusesWaiting(st, answers, k)
    ensures answers(k) == Refused ==>
              (RefusesWaiting(st, answers, k) <==>
               (Final(st.pending[st.expected].frame.kind) ==> forall key | key in st.pending :: key <= st.expected))
  {
    hide Final;
    if RefusesWaiting(st, answers, k) {
      var n: nat :| RefusesAfter(st, answers, k, n);
      assert n > 0 ==> TakesAt(st, answers, k, 0);
    }
    var last := Final(st.pending[st.expected].frame.kind);
    if answers(k) == Refused && (last ==> forall key | key in st.pending :: key <= st.expected) {
      assert RefusesAfter(st, answers, k, 0);
    }
  }

  // ---------------------------------------------------------------------------------------------------------------
  // The calls
  // ---------------------------------------------------------------------------------------------------------------

  /** From exact accounts, a retry unbalances them if and only if the application will refuse a frame that is offered. */
  lemma RetryUnbalancesIff(r: Receiver, id: Int64, now: nat, answers: nat -> Answer)
    requires Accounted(r)
    ensures !Accounted(Retry(r, id, now, answers).r) <==>
            !r.failed && !GapExpired(r, now) && id in r.streams && RefusesWaiting(r.streams[id], answers, 0)
  {
    hide Retry, Accounted, Drain, Settle, RefusesWaiting, GapExpired, Orderly;
    RetryKeepsAccountsIff(r, id, now, answers);
    RetryIs(r, id, now, answers);
    if Tick(r, now).1.None? && id in r.streams {
      AccountedIsOrderly(r, id);
      DrainRefusesIff(Lift(r, id), answers, 0);
    }
  }

  lemma AccountedIsOrderly(r: Receiver, id: int)
    requires Accounted(r) && id in r.streams
    ensures Orderly(r.streams[id]) && 1 <= r.streams[id].expected
  {
  }

  /** The submitted frame is the next one and will be taken. */
  predicate TakesNext(r: Receiver, m: Message, cost: Option<nat>, now: nat, answers: nat -> Answer) {
    && Reaches(r, m, cost, now)
    && var st, number := r.streams[m.stream], m.number.value;
       && st.terminal.None? && number == st.expected && number !in st.pending
       && (number == 1 ==> FirstKind(r.direction, m.kind)) && (Final(m.kind) ==> st.pending == map[])
       && (number == 1 || Final(m.kind) ==>
             RetainFits(Lift(r, m.stream), r.limits, |r.streams|, cost.value + FRAME_OVERHEAD, 0))
       && answers(0) == Done
  }

  /** The stream behind its next frame. */
  function Behind(st: StreamState): StreamState {
    st.(expected := st.expected + 1)
  }

  lemma MarkedBehind(d: Desk, f: Frame, charge: nat)
    requires Orderly(d.st) && d.st.terminal.None? && f.number == d.st.expected < I64_MAX && f.number !in d.st.pending
    requires Final(f.kind) ==> d.st.pending == map[]
    ensures var (d1, error) := MarkApplied(d, f, charge);
            && error.None? && d1.st.expected == d.st.expected + 1 && d1.st.pending == d.st.pending && Orderly(d1.st)
            && d1.applied == d.applied
  {
    hide Final;
  }

  /** Only what waits and what is next decide. */
  lemma SameWaiting(st: StreamState, t: StreamState, answers: nat -> Answer, k: nat)
    requires t.expected == st.expected && t.pending == st.pending
    ensures RefusesWaiting(st, answers, k) <==> RefusesWaiting(t, answers, k)
  {
    hide Final;
    if RefusesWaiting(st, answers, k) {
      var n: nat :| RefusesAfter(st, answers, k, n);
      forall i: nat | i < n ensures TakesAt(t, answers, k, i) {
        assert TakesAt(st, answers, k, i);
      }
      assert RefusesAfter(t, answers, k, n);
    }
    if RefusesWaiting(t, answers, k) {
      var n: nat :| RefusesAfter(t, answers, k, n);
      forall i: nat | i < n ensures TakesAt(st, answers, k, i) {
        assert TakesAt(t, answers, k, i);
      }
      assert RefusesAfter(st, answers, k, n);
    }
  }

  lemma {:induction false} DrainDelivers(d: Desk, answers: nat -> Answer, k: nat)
    ensures |d.applied| <= |Drain(d, answers, k).0.applied|
    decreases |d.st.pending|
  {
    hide Final;
    if d.st.expected in d.st.pending && answers(k) == Done && TakePending(d).1.None? {
      DrainDelivers(TakePending(d).0, answers, k + 1);
    }
  }

  lemma ApplyingRefusesIff(d: Desk, f: Frame, charge: nat, answers: nat -> Answer)
    requires Orderly(d.st) && d.st.terminal.None? && f.number == d.st.expected < I64_MAX && f.number !in d.st.pending
    requires Final(f.kind) ==> d.st.pending == map[]
    ensures var (d1, error) := Applying(d, f, charge, answers);
            d1.applied != [] && (error == Some(ApplyRejected) <==> RefusesWaiting(Behind(d.st), answers, 1))
  {
    hide MarkApplied, Drain, RefusesWaiting, Orderly, Final;
    MarkedBehind(Deliver(d, f), f, charge);
    var d2 := Note(MarkApplied(Deliver(d, f), f, charge).0, f, Applied);
    DrainRefusesIff(d2, answers, 1);
    DrainDelivers(d2, answers, 1);
    SameWaiting(Behind(d.st), d2.st, answers, 1);
  }

  lemma FrameRefusesIff(r: Receiver, m: Message, cost: Option<nat>, now: nat, answers: nat -> Answer)
    requires Accounted(r) && Reaches(r, m, cost, now)
    ensures var (d, answer) := Placed(r, m, cost, now, answers);
            answer == Err(ApplyRejected) && d.applied != [] <==>
            TakesNext(r, m, cost, now, answers) && RefusesWaiting(Behind(r.streams[m.stream]), answers, 1)
  {
    hide Accounted, Applying, Buffer, BufferFits, RetainFits, BarsJump, Aborted, PendingCharge, Final, FirstKind, RefusesWaiting;
    hide Orderly, GapExpired;
    AccountedIsOrderly(r, m.stream);
    if TakesNext(r, m, cost, now, answers) {
      ApplyingRefusesIff(
        Lift(r, m.stream), Frame(m.stream, m.number.value, m.kind, m.rest), cost.value + FRAME_OVERHEAD, answers);
    }
  }

  /**
   From exact accounts, a submission unbalances them if and only if the frame is the next one and is taken, and the
   application will then refuse one that waits behind it.
   */
  lemma SubmitUnbalancesIff(r: Receiver, m: Message, cost: Option<nat>, now: nat, answers: nat -> Answer)
    requires Accounted(r)
    ensures !Accounted(Submit(r, m, cost, now, answers).r) <==>
            TakesNext(r, m, cost, now, answers) && RefusesWaiting(Behind(r.streams[m.stream]), answers, 1)
  {
    hide Submit, Accounted, Placed, Settle, RefusesWaiting, GapExpired;
    SubmitKeepsAccountsIff(r, m, cost, now, answers);
    SubmitIs(r, m, cost, now, answers);
    if Reaches(r, m, cost, now) {
      FrameRefusesIff(r, m, cost, now, answers);
    }
  }
}
