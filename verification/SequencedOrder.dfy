/** One sender, one receiver and a channel that may lose, repeat and reorder: what the receiver's application sees. */
module SequencedOrder {
  import opened Base
  import opened Cost
  import opened SequencedSpec

  // ---------------------------------------------------------------------------------------------------------------
  // One stream: what was numbered, and what the receiver makes of it
  // ---------------------------------------------------------------------------------------------------------------

  /** A stream as the sender numbers it: only its last frame may be final. */
  predicate Honest(id: int, direction: Direction, log: seq<Frame>) {
    && |log| < I64_MAX
    && (forall i | 0 <= i < |log| :: log[i].stream == id && log[i].number == i + 1)
    && (log != [] ==> FirstKind(direction, log[0].kind))
    && (forall i | 0 <= i < |log| - 1 :: !Final(log[i].kind))
  }

  predicate Numbered(st: StreamState, log: seq<Frame>) {
    1 <= st.expected && forall k | k in st.pending :: st.expected <= k <= |log| && st.pending[k].frame == log[k - 1]
  }

  predicate Running(st: StreamState, log: seq<Frame>, applied: seq<Frame>) {
    && 1 <= st.expected <= |log| + 1 && applied == log[..st.expected - 1]
    && (forall i | 0 <= i < st.expected - 1 :: !Final(log[i].kind))
    && st.opening == if st.expected > 1 then Some(log[0]) else None
  }

  /** Ended in order, or by an abort that jumped a gap. */
  predicate EndedWith(st: StreamState, t: Frame, log: seq<Frame>, applied: seq<Frame>) {
    && log != [] && t == log[|log| - 1] && Final(t.kind) && st.pending == map[]
    && (st.opening.Some? ==> st.opening.value == log[0])
    && ((st.expected == |log| + 1 && applied == log)
        || (1 <= st.expected < |log| && Abortive(t.kind) && applied == log[..st.expected - 1] + [t]))
  }

  predicate Consistent(st: StreamState, log: seq<Frame>, applied: seq<Frame>) {
    && Numbered(st, log)
    && (match st.terminal
        case None => Running(st, log, applied)
        case Some(t) => EndedWith(st, t, log, applied))
  }

  /** Every frame that was accepted is behind the stream or waiting. */
  predicate Holds(st: StreamState, accepted: set<int>) {
    st.terminal.Some? || forall k | k in accepted :: k < st.expected || k in st.pending
  }

  // ---------------------------------------------------------------------------------------------------------------
  // Applying
  // ---------------------------------------------------------------------------------------------------------------

  /** Nothing can wait beside or behind the last frame. */
  lemma LastIsAlone(st: StreamState, log: seq<Frame>)
    requires Numbered(st, log) && st.expected == |log|
    ensures st.pending.Keys <= {st.expected}
    ensures st.expected !in st.pending ==> st.pending == map[]
  {
    forall k | k in st.pending.Keys ensures k == st.expected {
      assert k in st.pending;
    }
    if st.expected !in st.pending {
      assert st.pending.Keys == {};
    }
  }

  /** Marking the next frame in order. */
  lemma MarkConsistent(d: Desk, id: int, direction: Direction, log: seq<Frame>, applied: seq<Frame>, charge: nat)
    requires Honest(id, direction, log) && d.st.terminal.None?
    requires Consistent(d.st, log, applied + d.applied) && d.st.expected <= |log| && d.st.expected !in d.st.pending
    ensures var f := log[d.st.expected - 1];
            var (d1, error) := MarkApplied(Deliver(d, f), f, charge);
            && error.None? && Consistent(d1.st, log, applied + d1.applied)
            && d1.st.expected == d.st.expected + 1
  {
    hide Running, EndedWith, Honest, MarkApplied;
    var f, n := log[d.st.expected - 1], d.st.expected;
    assert applied + (d.applied + [f]) == (applied + d.applied) + [f];
    MarkIs(d, id, direction, log, charge);
    StepsConsistent(d.st, id, direction, log, applied + d.applied);
  }

  /** The stream after its next frame, the last one or not. */
  function Stepped(st: StreamState, f: Frame, last: bool): StreamState {
    st.(expected := f.number + 1,
    opening := if f.number == 1 && !Final(f.kind) then Some(f) else st.opening,
    terminal := if last && Final(f.kind) then Some(f) else st.terminal)
  }

  lemma MarkIs(d: Desk, id: int, direction: Direction, log: seq<Frame>, charge: nat)
    requires Honest(id, direction, log) && d.st.terminal.None? && Numbered(d.st, log)
    requires d.st.expected <= |log| && d.st.expected !in d.st.pending
    ensures var f := log[d.st.expected - 1];
            var (d1, error) := MarkApplied(Deliver(d, f), f, charge);
            && error.None? && d1.st == Stepped(d.st, f, d.st.expected == |log|) && d1.applied == d.applied + [f]
  {
    if d.st.expected == |log| {
      LastIsAlone(d.st, log);
    }
  }

  lemma StepsConsistent(st: StreamState, id: int, direction: Direction, log: seq<Frame>, applied: seq<Frame>)
    requires Honest(id, direction, log) && st.terminal.None?
    requires Consistent(st, log, applied) && st.expected <= |log| && st.expected !in st.pending
    ensures var f := log[st.expected - 1];
            var next := Stepped(st, f, st.expected == |log|);
            Consistent(next, log, applied + [f]) && next.expected == st.expected + 1
  {
    var f, n := log[st.expected - 1], st.expected;
    assert log[..n] == log[..n - 1] + [f];
    if n == |log| {
      LastIsAlone(st, log);
      assert log[..n] == log;
    }
  }

  /** Taking a waiting frame off. */
  lemma UnbufferConsistent(d: Desk, log: seq<Frame>, applied: seq<Frame>)
    requires Consistent(d.st, log, applied) && d.st.expected in d.st.pending
    ensures Consistent(Unbuffered(d).st, log, applied) && d.st.terminal.None?
    ensures d.st.expected <= |log| && d.st.pending[d.st.expected].frame == log[d.st.expected - 1]
  {
  }

  lemma TakeConsistent(d: Desk, id: int, direction: Direction, log: seq<Frame>, applied: seq<Frame>)
    requires Honest(id, direction, log) && Consistent(d.st, log, applied + d.applied) && d.st.expected in d.st.pending
    ensures var (d1, error) := TakePending(d);
            error.None? && Consistent(d1.st, log, applied + d1.applied) && d1.st.expected == d.st.expected + 1
  {
    hide Consistent, MarkApplied, Honest;
    var p := d.st.pending[d.st.expected];
    UnbufferConsistent(d, log, applied + d.applied);
    var d1 := Uncharged(Unbuffered(d), p.charge);
    MarkConsistent(d1, id, direction, log, applied, p.charge);
    assert Uncharged(Deliver(Unbuffered(d), p.frame), p.charge) == Deliver(d1, p.frame);
  }

  /** An error that the channel alone cannot cause. */
  predicate SendersFault(error: Option<Error>) {
    error.Some? && (error.value.Protocol? || error.value.CapacityError?)
  }

  lemma {:induction false} DrainConsistent(
    d: Desk, id: int, direction: Direction, log: seq<Frame>, applied: seq<Frame>, accepted: set<int>,
    answers: nat -> Answer, k: nat)
    requires Honest(id, direction, log) && Consistent(d.st, log, applied + d.applied) && Holds(d.st, accepted)
    ensures var (d1, error) := Drain(d, answers, k);
            && !SendersFault(error) && Consistent(d1.st, log, applied + d1.applied)
            && (error.None? ==> Holds(d1.st, accepted) && d.st.expected <= d1.st.expected)
            && (error.None? && (forall i: nat :: answers(i) == Done) ==> d1.st.expected !in d1.st.pending)
    decreases |d.st.pending|
  {
    hide Consistent, TakePending, Honest;
    CloseGapConsistent(d, log, applied + d.applied);
    if d.st.expected in d.st.pending {
      UnbufferConsistent(d, log, applied + d.applied);
      FinalIsLast(d.st, id, direction, log, applied + d.applied);
      if answers(k) == Done {
        TakeConsistent(d, id, direction, log, applied);
        var (d1, error) := TakePending(d);
        DrainConsistent(d1, id, direction, log, applied, accepted, answers, k + 1);
      }
    }
  }

  lemma CloseGapConsistent(d: Desk, log: seq<Frame>, applied: seq<Frame>)
    requires Consistent(d.st, log, applied)
    ensures Consistent(CloseGap(d).st, log, applied)
  {
  }

  lemma FinalIsLast(st: StreamState, id: int, direction: Direction, log: seq<Frame>, applied: seq<Frame>)
    requires Honest(id, direction, log) && Consistent(st, log, applied) && st.expected in st.pending
    ensures Final(st.pending[st.expected].frame.kind) ==> st.pending - {st.expected} == map[]
  {
    if Final(st.pending[st.expected].frame.kind) {
      LastIsAlone(st, log);
      assert (st.pending - {st.expected}).Keys == {};
    }
  }

  // ---------------------------------------------------------------------------------------------------------------
  // Submitting a frame of the log
  // ---------------------------------------------------------------------------------------------------------------

  /** What a call leaves of a stream whose sender is honest. */
  predicate Follows(d: Desk, log: seq<Frame>, applied: seq<Frame>, accepted: set<int>, error: Option<Error>) {
    && !SendersFault(error)
    && Consistent(d.st, log, applied + d.applied)
    && (error.None? ==> Holds(d.st, accepted))
  }

  lemma BufferFollows(
    d: Desk, log: seq<Frame>, applied: seq<Frame>, accepted: set<int>, f: Frame, charge: nat, now: nat)
    requires Consistent(d.st, log, applied + d.applied) && Holds(d.st, accepted) && d.st.terminal.None?
    requires d.st.expected <= f.number <= |log| && log[f.number - 1] == f
    ensures Follows(Buffer(d, f, charge, now), log, applied, accepted + {f.number}, None)
  {
  }

  lemma ApplyingFollows(
    d: Desk, id: int, direction: Direction, log: seq<Frame>, applied: seq<Frame>, accepted: set<int>, f: Frame,
    charge: nat, answers: nat -> Answer)
    requires Honest(id, direction, log) && Consistent(d.st, log, applied + d.applied) && Holds(d.st, accepted)
    requires d.st.terminal.None? && f.number == d.st.expected <= |log| && log[f.number - 1] == f && f.number !in d.st.pending
    ensures var (d1, error) := Applying(d, f, charge, answers); Follows(d1, log, applied, accepted + {f.number}, error)
  {
    hide Consistent, Drain, MarkApplied, Honest;
    MarkConsistent(d, id, direction, log, applied, charge);
    var d1 := MarkApplied(Deliver(d, f), f, charge).0;
    DrainConsistent(Note(d1, f, Applied), id, direction, log, applied, accepted + {f.number}, answers, 1);
  }

  /** An abort comes last, so nothing that waits may bar it. */
  lemma NothingBars(st: StreamState, id: int, direction: Direction, log: seq<Frame>, f: Frame)
    requires Honest(id, direction, log) && Numbered(st, log)
    requires Jumps(st, direction, f) && f.number <= |log| && log[f.number - 1] == f && f.number !in st.pending
    ensures !BarsJump(st, f) && f.number == |log|
  {
    assert f.number == |log|;
  }

  lemma AbortFollows(
    d: Desk, id: int, direction: Direction, log: seq<Frame>, applied: seq<Frame>, accepted: set<int>, f: Frame,
    charge: nat)
    requires Honest(id, direction, log) && Consistent(d.st, log, applied + d.applied) && d.st.terminal.None?
    requires Jumps(d.st, direction, f) && f.number <= |log| && log[f.number - 1] == f && f.number !in d.st.pending
    ensures !BarsJump(d.st, f)
    ensures Follows(Aborted(d, f, charge), log, applied, accepted + {f.number}, None)
  {
    hide PendingCharge, Superseding, BarsJump, Honest, Consistent, EndedWith;
    ConsistentIsNumbered(d.st, log, applied + d.applied);
    NothingBars(d.st, id, direction, log, f);
    EndsByAbort(d.st, log, applied + d.applied, f);
    assert applied + (d.applied + [f]) == (applied + d.applied) + [f];
  }

  lemma ConsistentIsNumbered(st: StreamState, log: seq<Frame>, applied: seq<Frame>)
    requires Consistent(st, log, applied)
    ensures Numbered(st, log)
  {
  }

  lemma EndsByAbort(st: StreamState, log: seq<Frame>, applied: seq<Frame>, f: Frame)
    requires Consistent(st, log, applied) && st.terminal.None? && st.expected < f.number == |log|
    requires log[f.number - 1] == f && Abortive(f.kind)
    ensures Consistent(st.(pending := map[], terminal := Some(f), gapSince := None), log, applied + [f])
  {
  }

  lemma AbortStepFollows(
    d: Desk, l: Limits, id: int, direction: Direction, streams: nat, log: seq<Frame>, applied: seq<Frame>,
    accepted: set<int>, f: Frame, charge: nat, answers: nat -> Answer)
    requires Honest(id, direction, log) && Consistent(d.st, log, applied + d.applied) && d.st.terminal.None?
    requires Jumps(d.st, direction, f) && f.number <= |log| && log[f.number - 1] == f && f.number !in d.st.pending
    ensures var (d1, answer) := Abort(d, l, streams, f, charge, answers);
            Follows(d1, log, applied, accepted + {f.number}, ErrorOf(answer))
  {
    hide Consistent, Aborted, BarsJump, RetainFits, PendingCharge, Honest, Jumps, Holds;
    AbortFollows(d, id, direction, log, applied, accepted, f, charge);
  }

  lemma AdvanceFollows(
    d: Desk, l: Limits, id: int, direction: Direction, streams: nat, log: seq<Frame>, applied: seq<Frame>,
    accepted: set<int>, f: Frame, charge: nat, now: nat, answers: nat -> Answer)
    requires Honest(id, direction, log) && Consistent(d.st, log, applied + d.applied) && Holds(d.st, accepted)
    requires d.st.terminal.None? && 1 <= f.number == d.st.expected <= |log|
    requires log[f.number - 1] == f && f.number !in d.st.pending
    ensures var (d1, answer) := Advance(d, l, streams, f, charge, now, answers);
            Follows(d1, log, applied, accepted + {f.number}, ErrorOf(answer))
  {
    hide Consistent, Applying, Buffer, BufferFits, RetainFits, Honest, Holds;
    FinalStandsAlone(d.st, id, direction, log, applied + d.applied);
    BufferFollows(d, log, applied, accepted, f, charge, now);
    ApplyingFollows(d, id, direction, log, applied, accepted, f, charge, answers);
    var error := Applying(d, f, charge, answers).1;
    assert error == ErrorOf<Status>(if error.Some? then Err(error.value) else Ok(Applied));
  }

  lemma FinalStandsAlone(st: StreamState, id: int, direction: Direction, log: seq<Frame>, applied: seq<Frame>)
    requires Honest(id, direction, log) && Consistent(st, log, applied) && st.expected <= |log|
    requires st.expected !in st.pending && 1 <= st.expected
    ensures Final(log[st.expected - 1].kind) ==> st.pending == map[]
  {
    if Final(log[st.expected - 1].kind) {
      LastIsAlone(st, log);
    }
  }

  /** Frames already dealt with are recognised. */
  lemma OldFollows(d: Desk, id: int, direction: Direction, log: seq<Frame>, applied: seq<Frame>, f: Frame)
    requires Honest(id, direction, log) && Consistent(d.st, log, applied)
    requires 1 <= f.number <= |log| && log[f.number - 1] == f
    ensures d.st.terminal.Some? ==> AfterEnd(d.st, f).Ok?
    ensures d.st.terminal.None? && f.number < d.st.expected && f.number == 1 ==> d.st.opening == Some(f)
    ensures f.number in d.st.pending ==> d.st.pending[f.number].frame == f
    ensures f.number == 1 ==> FirstKind(direction, f.kind)
  {
  }

  lemma SubmitFollows(
    d: Desk, l: Limits, id: int, direction: Direction, streams: nat, log: seq<Frame>, applied: seq<Frame>,
    accepted: set<int>, f: Frame, charge: nat, now: nat, answers: nat -> Answer)
    requires Honest(id, direction, log) && Consistent(d.st, log, applied + d.applied) && Holds(d.st, accepted)
    requires 1 <= f.number <= |log| && log[f.number - 1] == f
    ensures var (d1, answer) := SubmitFrame(d, l, direction, streams, f, charge, now, answers);
            Follows(d1, log, applied, accepted + {f.number}, ErrorOf(answer))
  {
    hide Consistent, Abort, Advance, Buffer, BufferFits, Jumps, AfterEnd, Honest, FirstKind;
    OldFollows(d, id, direction, log, applied + d.applied, f);
    if d.st.terminal.None? && f.number >= d.st.expected && f.number !in d.st.pending {
      if Jumps(d.st, direction, f) {
        AbortStepFollows(d, l, id, direction, streams, log, applied, accepted, f, charge, answers);
      } else if f.number > d.st.expected {
        BufferFollows(d, log, applied, accepted, f, charge, now);
      } else {
        AdvanceFollows(d, l, id, direction, streams, log, applied, accepted, f, charge, now, answers);
      }
    }
  }
}
