/** The pool's next deadline misses nothing: until then, time alone changes nothing. */
module PoolTime {
  import opened Base
  import opened PoolTypes
  import opened PoolSchedule
  import opened PoolOps
  import opened PoolLinks
  import opened PoolSteps
  import opened PoolQuiet

  /** `t` comes before the deadline, if there is one. */
  predicate Ahead(t: nat, deadline: Option<nat>) {
    deadline.Some? ==> t < deadline.value
  }

  lemma {:induction false} RequestsAhead(p: Pool, n: int, t: nat, id: int)
    requires Ahead(t, RequestsDue(p, n)) && 1 <= id <= n && id in p.requests
    ensures Ahead(t, RequestDeadline(p, id))
    decreases n
  {
    hide RequestDeadline;
    if id < n {
      RequestsAhead(p, n - 1, t, id);
    }
  }

  lemma {:induction false} EntriesAhead(p: Pool, n: int, t: nat, c: int)
    requires Ahead(t, EntriesDue(p, n)) && 1 <= c <= n && c in p.entries
    ensures Ahead(t, EntryDeadline(p, p.entries[c]))
    decreases n
  {
    hide EntryDeadline;
    if c < n {
      EntriesAhead(p, n - 1, t, c);
    }
  }

  lemma {:induction false} HoldsAhead(p: Pool, n: int, t: nat, c: int)
    requires Ahead(t, HoldsDue(p, n)) && 1 <= c <= n && c in p.holds
    ensures t < p.holds[c].expires
    decreases n
  {
    if c < n {
      HoldsAhead(p, n - 1, t, c);
    }
  }

  /** The deadlines of a linked pool, one by one. */
  lemma DeadlineParts(p: Pool, t: nat)
    requires Linked(p) && Ahead(t, NextDeadline(p))
    ensures forall id | id in p.requests :: Ahead(t, RequestDeadline(p, id))
    ensures forall c | c in p.entries :: Ahead(t, EntryDeadline(p, p.entries[c]))
    ensures forall c | c in p.holds :: t < p.holds[c].expires
  {
    hide RequestDeadline, EntryDeadline, RequestsDue, EntriesDue, HoldsDue;
    forall id | id in p.requests ensures Ahead(t, RequestDeadline(p, id)) {
      LinkedRequest(p, id);
      RequestsAhead(p, p.requestSerial, t, id);
    }
    forall c | c in p.entries ensures Ahead(t, EntryDeadline(p, p.entries[c])) {
      LinkedEntry(p, c);
      EntriesAhead(p, p.connectionSerial, t, c);
    }
    forall c | c in p.holds ensures t < p.holds[c].expires {
      HoldsAhead(p, p.connectionSerial, t, c);
    }
  }

  // ---------------------------------------------------------------------------------------------------------------
  // Before the deadline
  // ---------------------------------------------------------------------------------------------------------------

  lemma NobodyOverdue(p: Pool, t: nat, id: int)
    requires Linked(p) && p.now <= t && id in p.requests && Ahead(t, RequestDeadline(p, id))
    requires forall c | c in p.entries :: Ahead(t, EntryDeadline(p, p.entries[c]))
    ensures Overdue(p.(now := t), p.requests[id]).None?
  {
    hide PreferWaits;
    LinkedRequest(p, id);
    if p.requests[id].state.Opening? {
      LinkedEntry(p, p.requests[id].state.connection);
    }
  }

  lemma {:induction false} NoneOverdue(p: Pool, t: nat, n: int)
    requires Linked(p) && p.now <= t && forall id | id in p.requests :: Ahead(t, RequestDeadline(p, id))
    requires forall c | c in p.entries :: Ahead(t, EntryDeadline(p, p.entries[c]))
    ensures OverdueTo(p.(now := t), n) == []
    decreases if n < 0 then 0 else n
  {
    hide Linked, Overdue, RequestDeadline, EntryDeadline;
    if n > 0 {
      NoneOverdue(p, t, n - 1);
      if n in p.requests {
        NobodyOverdue(p, t, n);
      }
    }
  }

  lemma {:induction false} NoneOutlived(p: Pool, t: nat, n: int)
    requires forall c | c in p.entries :: Ahead(t, EntryDeadline(p, p.entries[c]))
    ensures OutlivedTo(p.(now := t), n) == []
    decreases if n < 0 then 0 else n
  {
    if n > 0 {
      NoneOutlived(p, t, n - 1);
      if n in p.entries {
        assert Ahead(t, EntryDeadline(p, p.entries[n]));
      }
    }
  }

  lemma SomeLapsed(p: Pool, n: int)
    ensures LapsedTo(p, n) != [] ==> exists c :: c in p.holds && p.holds[c].expires <= p.now
  {
    if LapsedTo(p, n) != [] {
      assert LapsedTo(p, n)[0] in LapsedTo(p, n);
    }
  }

  lemma NoneLapsed(p: Pool, t: nat)
    requires forall c | c in p.holds :: t < p.holds[c].expires
    ensures LapseHolds(p.(now := t)) == p.(now := t)
  {
    hide OpenFor;
    var q := p.(now := t);
    var lapsed := LapsedTo(q, q.connectionSerial);
    SomeLapsed(q, q.connectionSerial);
    assert (set c | c in lapsed) == {};
    assert q.holds - {} == q.holds;
  }

  /** Until then the same requests wait for their preferred connections. */
  lemma SamePreferWaits(p: Pool, t: nat, id: int)
    requires p.now <= t && forall i | i in p.requests :: Ahead(t, RequestDeadline(p, i))
    requires IsWaiting(p, id)
    ensures PreferWaits(p.(now := t), id) == PreferWaits(p, id)
  {
    assert Ahead(t, RequestDeadline(p, id));
  }

  lemma OnlyTimePasses(p: Pool, t: nat)
    ensures SamePlaces(p, p.(now := t))
  {
  }

  lemma StillQuiet(p: Pool, t: nat)
    requires Quiet(p) && p.now <= t && forall id | id in p.requests :: Ahead(t, RequestDeadline(p, id))
    ensures Quiet(p.(now := t))
  {
    hide PreferWaits, OwnerFull, Crowded, RequestDeadline, Choice, Victim, SamePlaces;
    var q := p.(now := t);
    assert SamePlaces(p, q) by {
      OnlyTimePasses(p, t);
    }
    forall id: int ensures !CanLease(q, id) && !MayOpen(q, id) && !CanEvict(q, id) {
      assert !CanLease(p, id) && !MayOpen(p, id) && !CanEvict(p, id);
      if IsWaiting(p, id) {
        SamePreferWaits(p, t, id);
        SameChances(p, q, p.requests[id].request);
      }
    }
  }

  /** Where scheduling has nothing to do, time before the next deadline changes nothing but the time. */
  lemma NothingHappensBeforeTheDeadline(p: Pool, t: nat)
    requires Linked(p) && (p.stopped || Quiet(p)) && p.now <= t && Ahead(t, NextDeadline(p))
    ensures Advance(p, t) == p.(now := t)
  {
    hide Linked, Quiet, RequestDeadline, EntryDeadline, NextDeadline, OverdueTo, OutlivedTo, LapseHolds, Schedule;
    var q := p.(now := t);
    DeadlineParts(p, t);
    NoneOverdue(p, t, p.requestSerial);
    NoneOutlived(p, t, p.connectionSerial);
    NoneLapsed(p, t);
    if p.stopped {
      StoppedSchedule(q);
    } else {
      StillQuiet(p, t);
      QuietSchedule(q);
    }
  }

  lemma StoppedSchedule(p: Pool)
    requires p.stopped
    ensures Schedule(p) == p
  {
  }
}
