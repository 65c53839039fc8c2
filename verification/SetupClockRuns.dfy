/** What the setup clock promises over every run. */
module SetupClockRuns {
  import opened Base
  import opened SetupClock

  datatype Event = Event(reading: nat, op: Op)

  function Run(s: State, events: seq<Event>): State {
    if events == [] then s
    else
      var last := events[|events| - 1];
      Change(Run(s, events[..|events| - 1]), last.reading, last.op).0
  }

  // ---------------------------------------------------------------------------------------------------------------
  // Deadlines are exact
  // ---------------------------------------------------------------------------------------------------------------

  /** A live clock that settles at `reading` survives exactly when its deadline is still ahead. */
  lemma SurvivesIffAhead(s: State, reading: int)
    ensures SettleAt(s, reading).terminal.None? <==>
            s.terminal.None? && (Deadline(s).None? || Deadline(s).value > Max(reading, s.now))
  {
  }

  // ---------------------------------------------------------------------------------------------------------------
  // Looking changes nothing
  // ---------------------------------------------------------------------------------------------------------------

  /** Settling on the way shows in what a later settling finds if and only if it read a time that the later one does not. */
  lemma SettleTwice(s: State, first: int, second: int)
    ensures SettleAt(SettleAt(s, first), second) == SettleAt(s, second) <==> first <= Max(second, s.now)
  {
    if first <= Max(second, s.now) {
      SettleBehind(s, first, second);
    } else {
      SettleReads(SettleAt(s, first), second);
      SettleReads(s, first);
      SettleReads(s, second);
    }
  }

  lemma SettleReads(s: State, reading: int)
    ensures SettleAt(s, reading).now == Max(reading, s.now)
  {
    hide DueCause;
  }

  lemma SettleBehind(s: State, first: int, second: int)
    requires first <= Max(second, s.now)
    ensures SettleAt(SettleAt(s, first), second) == SettleAt(s, second)
  {
  }

  /** An observation shows in a later call, in its state or its answer, if and only if it read a later time. */
  lemma ObservationShowsIffAhead(s: State, reading: int, next: int, op: Op)
    ensures Change(Change(s, reading, Observe).0, next, op) == Change(s, next, op) <==> reading <= Max(next, s.now)
  {
    hide SettleAt, Act;
    ObserveSettles(s, reading);
    SettleTwice(s, reading, next);
    if reading > Max(next, s.now) {
      ChangeReads(s, next, op);
      ChangeReads(SettleAt(s, reading), next, op);
      ChangeReads(s, reading, Observe);
    }
  }

  predicate Forward(events: seq<Event>) {
    forall i, j | 0 <= i < j < |events| :: events[i].reading <= events[j].reading
  }

  predicate NoLater(events: seq<Event>, reading: int) {
    forall i | 0 <= i < |events| :: events[i].reading <= reading
  }

  /** The run with every pure observation left out. */
  function Unobserved(events: seq<Event>): seq<Event> {
    if events == [] then []
    else
      var last := events[|events| - 1];
      var before := Unobserved(events[..|events| - 1]);
      if last.op.Observe? then before else before + [last]
  }

  /** Where readings do not go back, observations leave every later state and answer as it would have been. */
  lemma {:induction false} ForwardObservations(s: State, events: seq<Event>, reading: nat)
    requires Forward(events) && NoLater(events, reading)
    ensures SettleAt(Run(s, events), reading) == SettleAt(Run(s, Unobserved(events)), reading)
    ensures forall op :: Change(Run(s, events), reading, op) == Change(Run(s, Unobserved(events)), reading, op)
  {
    hide SettleAt, Act;
    if events != [] {
      var before, last := events[..|events| - 1], events[|events| - 1];
      ForwardObservations(s, before, last.reading);
      ForwardObservations(s, before, reading);
      if last.op.Observe? {
        ObserveSettles(Run(s, before), last.reading);
        SettleTwice(Run(s, before), last.reading, reading);
      } else {
        var kept := Unobserved(before);
        assert (kept + [last])[..|kept|] == kept;
        assert Run(s, kept + [last]) == Change(Run(s, kept), last.reading, last.op).0;
      }
    }
  }

  lemma ObserveSettles(s: State, reading: int)
    ensures Change(s, reading, Observe) == (SettleAt(s, reading), Fine)
  {
    hide SettleAt;
  }

  /** The latest reading so far, which is where the clock stands. */
  function Latest(events: seq<Event>): nat {
    if events == [] then 0
    else Max(Latest(events[..|events| - 1]), events[|events| - 1].reading)
  }

  /** The run as the clock sees it: a reading that goes back counts as the latest one. */
  function Clamped(events: seq<Event>): (r: seq<Event>)
    ensures |r| == |events|
  {
    if events == [] then []
    else Clamped(events[..|events| - 1]) + [Event(Latest(events), events[|events| - 1].op)]
  }

  lemma {:induction false} ClampedIsForward(events: seq<Event>)
    ensures Forward(Clamped(events)) && NoLater(Clamped(events), Latest(events))
  {
    if events != [] {
      ClampedIsForward(events[..|events| - 1]);
    }
  }

  lemma ChangeReads(s: State, reading: int, op: Op)
    ensures Change(s, reading, op).0.now == Max(reading, s.now)
  {
    hide DueCause;
  }

  /** What a clock is told counts only as far as it is ahead. */
  lemma ReadsAhead(s: State, reading: int, high: int)
    requires reading <= high <= Max(reading, s.now)
    ensures SettleAt(s, reading) == SettleAt(s, high)
  {
    hide Settle;
    assert Max(reading, s.now) == Max(high, s.now);
  }

  lemma {:induction false} ClampedRuns(s: State, events: seq<Event>)
    ensures Run(s, Clamped(events)) == Run(s, events) && Latest(events) <= Max(Run(s, events).now, 0)
  {
    hide SettleAt, Act;
    if events != [] {
      var before, last := events[..|events| - 1], events[|events| - 1];
      ClampedRuns(s, before);
      assert Clamped(events)[..|events| - 1] == Clamped(before);
      ReadsAhead(Run(s, before), last.reading, Latest(events));
      ChangeReads(Run(s, before), last.reading, last.op);
    }
  }

  /** Observations, however many and wherever, leave every later state and answer as it would have been: all that one
      of them tells the clock is the time. */
  lemma ObservationsAreInvisible(s: State, events: seq<Event>, reading: nat)
    ensures var (kept, high) := (Unobserved(Clamped(events)), Max(reading, Latest(events)));
            && SettleAt(Run(s, events), reading) == SettleAt(Run(s, kept), high)
            && (forall op :: Change(Run(s, events), reading, op) == Change(Run(s, kept), high, op))
  {
    hide SettleAt, Act, Run, Clamped, Unobserved, Latest, Forward, NoLater;
    var high := Max(reading, Latest(events));
    ClampedRuns(s, events);
    ClampedIsForward(events);
    HigherReading(Clamped(events), Latest(events), high);
    ForwardObservations(s, Clamped(events), high);
    ReadsAhead(Run(s, events), reading, high);
  }

  lemma HigherReading(events: seq<Event>, low: int, high: int)
    requires NoLater(events, low) && low <= high
    ensures NoLater(events, high)
  {
  }

  /** A reading that runs ahead of a later one does show: the observation ends a clock that the later one spares. */
  lemma BackwardReadingsShow()
    ensures var s := New(1, Some(60), 0);
            Run(s, [Event(100, Observe), Event(50, Observe)]).terminal.Some? && Run(s, [Event(50, Observe)]).terminal.None?
  {
    var s := New(1, Some(60), 0);
    RunOne(s, Event(50, Observe));
    RunOne(s, Event(100, Observe));
    assert [Event(100, Observe), Event(50, Observe)][..1] == [Event(100, Observe)];
  }

  lemma RunOne(s: State, e: Event)
    ensures Run(s, [e]) == Change(s, e.reading, e.op).0
  {
    hide Change;
    assert [e][..0] == [];
  }

  // ---------------------------------------------------------------------------------------------------------------
  // The first terminal stays
  // ---------------------------------------------------------------------------------------------------------------

  lemma ChangeKeepsTerminal(s: State, reading: int, op: Op)
    requires s.terminal.Some?
    ensures Change(s, reading, op).0.terminal == s.terminal
  {
  }

  lemma {:induction false} FirstTerminalStays(s: State, events: seq<Event>, more: seq<Event>)
    requires Run(s, events).terminal.Some?
    ensures Run(s, events + more).terminal == Run(s, events).terminal
    decreases |more|
  {
    hide Change;
    if more == [] {
      assert events + more == events;
    } else {
      var before, last := more[..|more| - 1], more[|more| - 1];
      FirstTerminalStays(s, events, before);
      assert (events + more)[..|events + more| - 1] == events + before;
      ChangeKeepsTerminal(Run(s, events + before), last.reading, last.op);
    }
  }

  // ---------------------------------------------------------------------------------------------------------------
  // Time is conserved
  // ---------------------------------------------------------------------------------------------------------------

  /** A clock with the time it has spent in local phases, the phase ids it issued and those that were published. */
  datatype Trace = Trace(s: State, spent: int, issued: seq<int>, published: seq<int>)

  predicate Issues(op: Op) {
    op.PrepareLocal? || op.PublishNetwork?
  }

  predicate Publishes(op: Op) {
    op.PublishLocal? || op.PublishNetwork?
  }

  function Follow(t: Trace, e: Event): Trace {
    var settled := SettleAt(t.s, e.reading);
    var (s, answer) := Act(settled, e.op);
    Trace(
      s,
      t.spent + (if t.s.local.Some? then settled.now - t.s.now else 0),
      if answer.Issued? && Issues(e.op) then t.issued + [answer.phase] else t.issued,
      if answer.Issued? && Publishes(e.op) then t.published + [answer.phase] else t.published)
  }

  function FollowAll(t: Trace, events: seq<Event>): Trace {
    if events == [] then t else Follow(FollowAll(t, events[..|events| - 1]), events[|events| - 1])
  }

  /** The aggregate deadline, or what is left of it while a local phase has paused it. */
  predicate Conserved(t: Trace, original: Option<nat>) {
    t.s.terminal.None? ==>
      && (match original
          case None => t.s.aggregate.Disabled?
          case Some(until) =>
            && t.s.aggregate == Armed(until + t.spent - (if t.s.local.Some? then t.s.now else 0))
            && (t.s.local.Some? ==> t.s.aggregate.at > 0))
      && (t.s.stallMs == 0 ==> t.s.stall.Disabled?)
      && (t.s.local.Some? && t.s.stall.Armed? ==> t.s.stall.at > 0)
  }

  /** Settling moves time on; what is paused keeps its rest. */
  lemma SettleConserves(t: Trace, original: Option<nat>, reading: int)
    requires Conserved(t, original)
    ensures var s := SettleAt(t.s, reading);
            Conserved(Trace(s, t.spent + (if t.s.local.Some? then s.now - t.s.now else 0), t.issued, t.published), original)
    ensures var s := SettleAt(t.s, reading);
            s.terminal.None? && s.local.None? ==> !Reached(s.aggregate, s.now) && !Reached(s.stall, s.now)
  {
  }

  lemma ActConserves(t: Trace, original: Option<nat>, op: Op)
    requires Conserved(t, original)
    requires t.s.terminal.None? && t.s.local.None? ==> !Reached(t.s.aggregate, t.s.now) && !Reached(t.s.stall, t.s.now)
    ensures Conserved(t.(s := Act(t.s, op).0), original)
  {
  }

  lemma FollowConserves(t: Trace, original: Option<nat>, e: Event)
    requires Conserved(t, original)
    ensures Conserved(Follow(t, e), original)
  {
    hide SettleAt, Act;
    var s := SettleAt(t.s, e.reading);
    var u := Trace(s, t.spent + (if t.s.local.Some? then s.now - t.s.now else 0), t.issued, t.published);
    SettleConserves(t, original, e.reading);
    ActConserves(u, original, e.op);
  }

  function Beginning(connection: int, original: Option<nat>, stallMs: nat): Trace {
    Trace(New(connection, original, stallMs), 0, [], [])
  }

  /**
   In every run: while the clock is alive, its aggregate deadline is the original one moved by exactly the time spent
   in local phases; paused, it holds what was left, which is never nothing.
   */
  lemma {:induction false} LocalTimeIsGivenBack(connection: int, original: Option<nat>, stallMs: nat, events: seq<Event>)
    ensures Conserved(FollowAll(Beginning(connection, original, stallMs), events), original)
  {
    hide Follow, Conserved;
    if events == [] {
      FreshConserves(connection, original, stallMs);
    } else {
      LocalTimeIsGivenBack(connection, original, stallMs, events[..|events| - 1]);
      FollowConserves(
        FollowAll(Beginning(connection, original, stallMs), events[..|events| - 1]), original, events[|events| - 1]);
    }
  }

  lemma FreshConserves(connection: int, original: Option<nat>, stallMs: nat)
    ensures Conserved(Beginning(connection, original, stallMs), original)
  {
  }

  /** Wherever the clock pauses its timers, they are still ahead: the unsigned subtraction cannot wrap. */
  lemma PauseNeverUnderflows(s: State, reading: int)
    ensures var t := SettleAt(s, reading);
            t.terminal.None? && t.local.None? ==>
              && (t.aggregate.Armed? ==> Pause(t.aggregate, t.now).at > 0)
              && (t.stall.Armed? ==> Pause(t.stall, t.now).at > 0)
  {
  }

  // ---------------------------------------------------------------------------------------------------------------
  // Phase ids strictly increase
  // ---------------------------------------------------------------------------------------------------------------

  predicate Rising(ids: seq<int>) {
    forall i, j | 0 <= i < j < |ids| :: ids[i] < ids[j]
  }

  predicate AtMost(ids: seq<int>, high: int) {
    forall i | 0 <= i < |ids| :: ids[i] <= high
  }

  /** The phase has been issued, and one that is prepared is later. */
  predicate Counted(s: State) {
    && s.phase <= s.serial
    && (s.slot.Some? && s.slot.value.Prepared? ==> s.phase < s.slot.value.phase <= s.serial)
  }

  predicate Ordered(t: Trace) {
    && Rising(t.issued) && AtMost(t.issued, t.s.serial)
    && Rising(t.published) && AtMost(t.published, t.s.phase) && Counted(t.s)
  }

  lemma RisesBy(ids: seq<int>, next: int, high: int)
    requires Rising(ids) && AtMost(ids, high) && high < next
    ensures Rising(ids + [next]) && AtMost(ids + [next], next)
  {
  }

  lemma SettleCounted(s: State, reading: int)
    requires Counted(s)
    ensures Counted(SettleAt(s, reading))
    ensures SettleAt(s, reading).serial == s.serial && SettleAt(s, reading).phase == s.phase
  {
    hide DueCause;
  }

  /** What one step does to the numbers. */
  lemma StepNumbers(s: State, e: Event)
    requires Counted(s)
    ensures var (t, answer) := Change(s, e.reading, e.op);
            && Counted(t) && s.serial <= t.serial && s.phase <= t.phase
            && (answer.Issued? && Issues(e.op) ==> s.serial < answer.phase == t.serial)
            && (answer.Issued? && Publishes(e.op) ==> s.phase < answer.phase == t.phase)
  {
    hide SettleAt;
    SettleCounted(s, e.reading);
  }

  lemma FollowOrdered(t: Trace, e: Event)
    requires Ordered(t)
    ensures Ordered(Follow(t, e))
  {
    hide SettleAt, Act, Rising, AtMost;
    StepNumbers(t.s, e);
    var (s, answer) := Change(t.s, e.reading, e.op);
    Higher(t.issued, t.s.serial, s.serial);
    Higher(t.published, t.s.phase, s.phase);
    if answer.Issued? && Issues(e.op) {
      RisesBy(t.issued, answer.phase, t.s.serial);
    }
    if answer.Issued? && Publishes(e.op) {
      RisesBy(t.published, answer.phase, t.s.phase);
    }
  }

  lemma Higher(ids: seq<int>, low: int, high: int)
    requires AtMost(ids, low) && low <= high
    ensures AtMost(ids, high)
  {
  }

  lemma {:induction false} PhasesStrictlyIncrease(connection: int, original: Option<nat>, stallMs: nat, events: seq<Event>)
    ensures Ordered(FollowAll(Beginning(connection, original, stallMs), events))
  {
    hide Follow;
    if events != [] {
      PhasesStrictlyIncrease(connection, original, stallMs, events[..|events| - 1]);
      FollowOrdered(FollowAll(Beginning(connection, original, stallMs), events[..|events| - 1]), events[|events| - 1]);
    }
  }
}
