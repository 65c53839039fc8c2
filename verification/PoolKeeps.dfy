/** The scheduling pass and the loops of the pool keep links, ceilings and limits. */
module PoolKeeps {
  import opened Base
  import opened PoolTypes
  import opened PoolSchedule
  import opened PoolLinks
  import opened PoolSteps
  import opened PoolCapacity

  ghost predicate Limited(p: Pool) {
    WithinCeilings(p) && Modest(p)
  }

  ghost predicate SessionOk(p: Pool, session: string, l: Capacity) {
    AllCarry(p, session, l) && SessionWithin(p, session, l)
  }

  /** What every call keeps; `gone` are the connections it acknowledged as disposed. */
  ghost predicate Kept(p: Pool, q: Pool, gone: set<int>) {
    && Linked(q) && Evolves(p, q, gone) && SameAsked(p, q)
    && (Limited(p) ==> Limited(q))
    && (forall session: string, l: Capacity | SessionOk(p, session, l) :: SessionOk(q, session, l))
  }

  /** What every call keeps that takes no request's connection from it. */
  ghost predicate Keeps(p: Pool, q: Pool, gone: set<int>) {
    Kept(p, q, gone) && Faithful(p, q)
  }

  lemma KeptOn(p: Pool, q: Pool, r: Pool, gone: set<int>, more: set<int>)
    requires Kept(p, q, gone) && Kept(q, r, more)
    ensures Kept(p, r, gone + more)
  {
    hide Linked, Evolves, Limited, SessionOk;
    EvolvesOn(p, q, r, gone, more);
  }

  lemma KeptThen(p: Pool, q: Pool, r: Pool, gone: set<int>)
    requires Kept(p, q, gone) && Kept(q, r, {})
    ensures Kept(p, r, gone)
  {
    hide Kept;
    KeptOn(p, q, r, gone, {});
    assert gone + {} == gone;
  }

  lemma KeepsOn(p: Pool, q: Pool, r: Pool, gone: set<int>, more: set<int>)
    requires Keeps(p, q, gone) && Keeps(q, r, more)
    ensures Keeps(p, r, gone + more)
  {
    hide Kept, Faithful;
    KeptOn(p, q, r, gone, more);
    FaithfulOn(p, q, r);
  }

  lemma KeepsThen(p: Pool, q: Pool, r: Pool, gone: set<int>)
    requires Keeps(p, q, gone) && Keeps(q, r, {})
    ensures Keeps(p, r, gone)
  {
    hide Keeps;
    KeepsOn(p, q, r, gone, {});
    assert gone + {} == gone;
  }

  lemma CalmKeeps(p: Pool, q: Pool, gone: set<int>)
    requires Calm(p, q, gone)
    ensures Keeps(p, q, gone)
  {
    hide Loose, Kept, Faithful;
    LooseKept(p, q, gone);
  }

  lemma LooseKept(p: Pool, q: Pool, gone: set<int>)
    requires Loose(p, q, gone)
    ensures Kept(p, q, gone)
  {
    hide Linked, Evolves, WithinCeilings, SessionWithin;
    RecedesParts(p, q);
    if Limited(p) {
      RecedesCeilings(p, q);
      RecedesModest(p, q);
    }
    forall session: string, l: Capacity | SessionOk(p, session, l) ensures SessionOk(q, session, l) {
      RecedesSession(p, q, session, l);
      CarriesOn(p, q, session, l);
    }
  }

  lemma RecedesParts(p: Pool, q: Pool)
    requires Recedes(p, q)
    ensures SameAsked(p, q) && q.config == p.config
  {
  }

  lemma CarriesOn(p: Pool, q: Pool, session: string, l: Capacity)
    requires AllCarry(p, session, l) && SameAsked(p, q) && q.config == p.config
    ensures AllCarry(q, session, l)
  {
  }

  lemma KeepsSelf(p: Pool)
    requires Linked(p)
    ensures Keeps(p, p, {})
  {
    hide Linked, Calm;
    CalmSelf(p);
    CalmKeeps(p, p, {});
  }

  /** A session takes on a connection that its limits and the ceilings leave room for. */
  lemma GrownKeeps(p: Pool, q: Pool, id: int, c: int)
    requires Grown(p, q) && id in p.requests && Takes(p, q, p.requests[id].request, c)
    requires !OwnerFull(p, p.requests[id].request) && (Limited(p) ==> WithinCeilings(q))
    ensures Keeps(p, q, {})
  {
    hide Linked, WithinCeilings, SessionWithin, OwnerFull, Takes;
    GrownConfig(p, q);
    var r := p.requests[id].request;
    if Limited(p) {
      RecedesModest(p, q);
    }
    forall session: string, l: Capacity | SessionOk(p, session, l) ensures SessionOk(q, session, l) {
      CarriesOn(p, q, session, l);
      if r.owner.session == session {
        assert LimitsOf(p, r) == l;
      }
      TakesSession(p, q, r, c, session, l);
    }
  }

  lemma GrownConfig(p: Pool, q: Pool)
    requires Grown(p, q)
    ensures q.config == p.config
  {
  }

  // ---------------------------------------------------------------------------------------------------------------
  // Scheduling
  // ---------------------------------------------------------------------------------------------------------------

  lemma LeaseIdleKeeps(p: Pool, id: int, c: int)
    requires Linked(p) && MayLease(p, id) && Leasable(p, p.requests[id].request, c)
    ensures Keeps(p, LeaseIdle(p, id, c), {})
  {
    hide Linked, Keeps, OwnerFull, PreferWaits, WithinCeilings, Grown;
    var q := LeaseIdle(p, id, c);
    if p.leaseSerial + 1 > U64_MAX {
      LinkedRequest(p, id);
      RequestCalm(p, q, id);
      CalmKeeps(p, q, {});
    } else {
      LeaseIdleGrown(p, id, c);
      if Limited(p) {
        LeaseIdleCeilings(p, id, c);
      }
      assert Takes(p, q, p.requests[id].request, c);
      GrownKeeps(p, q, id, c);
    }
  }

  lemma ReuseForKeeps(p: Pool, id: int)
    requires Linked(p)
    ensures Keeps(p, ReuseFor(p, id), {})
  {
    hide Linked, Keeps, MayLease, LeaseIdle;
    KeepsSelf(p);
    if MayLease(p, id) {
      MayLeaseWaits(p, id);
      var choice := Choice(p, p.requests[id].request);
      if choice.Some? {
        LeaseIdleKeeps(p, id, choice.value);
      }
    }
  }

  lemma MayLeaseWaits(p: Pool, id: int)
    requires MayLease(p, id)
    ensures IsWaiting(p, id)
  {
  }

  lemma OpenForKeeps(p: Pool, id: int)
    requires Linked(p)
    ensures Keeps(p, OpenFor(p, id), {})
  {
    hide Linked, Keeps, MayOpen, WithinCeilings, Grown, NewEntry;
    if !MayOpen(p, id) {
      KeepsSelf(p);
    } else {
      MayOpenWaits(p, id);
      if p.connectionSerial + 1 > U64_MAX {
        LinkedRequest(p, id);
        RequestCalm(p, OpenFor(p, id), id);
        CalmKeeps(p, OpenFor(p, id), {});
      } else {
        OpenedKeeps(p, id);
      }
    }
  }

  lemma OpenedKeeps(p: Pool, id: int)
    requires Linked(p) && MayOpen(p, id)
    ensures Keeps(p, Opened(p, id), {})
  {
    hide Linked, Keeps, WithinCeilings, Grown, OwnerFull, Crowded, PreferWaits;
    var c := p.connectionSerial + 1;
    LinkedEntry(p, c);
    OpenedGrown(p, id);
    if Limited(p) {
      OpenedCeilings(p, id);
    }
    assert Takes(p, Opened(p, id), p.requests[id].request, c);
    GrownKeeps(p, Opened(p, id), id, c);
  }

  lemma EvictForKeeps(p: Pool, id: int)
    requires Linked(p)
    ensures Keeps(p, EvictFor(p, id), {})
  {
    hide Linked, Keeps, Calm, MayEvict, Evict, CeilingsFor, SiteFull;
    KeepsSelf(p);
    if MayEvict(p, id) {
      MayEvictWaits(p, id);
      var v := Victim(p, p.requests[id].request, p.connectionSerial);
      if v.Some? {
        EvictCalm(p, id, v.value);
        CalmKeeps(p, Evict(p, id, v.value), {});
      }
    }
  }

  lemma MayEvictWaits(p: Pool, id: int)
    requires MayEvict(p, id)
    ensures IsWaiting(p, id)
  {
  }

  lemma KeepsIsLinked(p: Pool, q: Pool, gone: set<int>)
    requires Keeps(p, q, gone)
    ensures Linked(q)
  {
  }

  lemma KeptIsLinked(p: Pool, q: Pool, gone: set<int>)
    requires Kept(p, q, gone)
    ensures Linked(q)
  {
  }

  lemma {:induction false} ReuseAllKeeps(p: Pool, ids: seq<int>)
    requires Linked(p)
    ensures Keeps(p, ReuseAll(p, ids), {})
    decreases |ids|
  {
    hide Linked, Keeps, ReuseFor;
    if ids == [] {
      KeepsSelf(p);
    } else {
      var q := ReuseFor(p, ids[0]);
      ReuseForKeeps(p, ids[0]);
      KeepsIsLinked(p, q, {});
      ReuseAllKeeps(q, ids[1..]);
      KeepsThen(p, q, ReuseAll(p, ids), {});
    }
  }

  lemma {:induction false} OpenAllKeeps(p: Pool, ids: seq<int>)
    requires Linked(p)
    ensures Keeps(p, OpenAll(p, ids), {})
    decreases |ids|
  {
    hide Linked, Keeps, OpenFor;
    if ids == [] {
      KeepsSelf(p);
    } else {
      var q := OpenFor(p, ids[0]);
      OpenForKeeps(p, ids[0]);
      KeepsIsLinked(p, q, {});
      OpenAllKeeps(q, ids[1..]);
      KeepsThen(p, q, OpenAll(p, ids), {});
    }
  }

  lemma {:induction false} EvictAllKeeps(p: Pool, ids: seq<int>)
    requires Linked(p)
    ensures Keeps(p, EvictAll(p, ids), {})
    decreases |ids|
  {
    hide Linked, Keeps, EvictFor;
    if ids == [] {
      KeepsSelf(p);
    } else {
      var q := EvictFor(p, ids[0]);
      EvictForKeeps(p, ids[0]);
      KeepsIsLinked(p, q, {});
      EvictAllKeeps(q, ids[1..]);
      KeepsThen(p, q, EvictAll(p, ids), {});
    }
  }

  lemma ScheduleKeeps(p: Pool)
    requires Linked(p)
    ensures Keeps(p, Schedule(p), {})
  {
    hide Linked, Keeps, ReuseAll, OpenAll, EvictAll;
    if p.stopped {
      KeepsSelf(p);
    } else {
      var ids := WaitingTo(p, p.requestSerial);
      var q := ReuseAll(p, ids);
      var r := OpenAll(q, ids);
      ReuseAllKeeps(p, ids);
      KeepsIsLinked(p, q, {});
      OpenAllKeeps(q, ids);
      KeepsIsLinked(q, r, {});
      EvictAllKeeps(r, ids);
      KeepsThen(p, q, r, {});
      KeepsThen(p, r, EvictAll(r, ids), {});
    }
  }

  /** The outcome of a scheduling pass over a linked pool. */
  ghost predicate Scheduled(q: Pool) {
    exists p: Pool :: Linked(p) && q == Schedule(p)
  }

  lemma IsScheduled(p: Pool)
    requires Linked(p)
    ensures Scheduled(Schedule(p))
  {
    hide Linked, Schedule;
  }

  /** Nothing has happened, or a scheduling pass came last. */
  ghost predicate Placed(p: Pool, q: Pool) {
    q == p || Scheduled(q)
  }

  /** A change and then a scheduling pass. */
  lemma ThenSchedule(p: Pool, q: Pool, gone: set<int>)
    requires Keeps(p, q, gone)
    ensures Keeps(p, Schedule(q), gone) && Scheduled(Schedule(q))
  {
    hide Keeps, Schedule;
    KeepsIsLinked(p, q, gone);
    IsScheduled(q);
    ScheduleKeeps(q);
    KeepsThen(p, q, Schedule(q), gone);
  }
}
