/** A scheduling pass leaves nothing to do: it is work-conserving, idempotent, and evicts only with cause. */
module PoolQuiet {
  import opened Base
  import opened PoolTypes
  import opened PoolSchedule
  import opened PoolLinks
  import opened PoolCapacity
  import opened PoolSteps
  import opened PoolKeeps

  // ---------------------------------------------------------------------------------------------------------------
  // Nothing to do
  // ---------------------------------------------------------------------------------------------------------------

  predicate CanLease(p: Pool, id: int) {
    MayLease(p, id) && Choice(p, p.requests[id].request).Some?
  }

  predicate CanEvict(p: Pool, id: int) {
    MayEvict(p, id) && Victim(p, p.requests[id].request, p.connectionSerial).Some?
  }

  /** No waiting request could lease an idle connection, open one, or evict one. */
  ghost predicate Quiet(p: Pool) {
    forall id: int :: !CanLease(p, id) && !MayOpen(p, id) && !CanEvict(p, id)
  }

  lemma {:induction false} QuietPass(p: Pool, ids: seq<int>)
    requires Quiet(p)
    ensures ReuseAll(p, ids) == p && OpenAll(p, ids) == p && EvictAll(p, ids) == p
    decreases |ids|
  {
    hide MayLease, MayOpen, MayEvict, Choice, Victim;
    if ids != [] {
      assert !CanLease(p, ids[0]) && !MayOpen(p, ids[0]) && !CanEvict(p, ids[0]);
      assert ReuseFor(p, ids[0]) == p && OpenFor(p, ids[0]) == p && EvictFor(p, ids[0]) == p;
      QuietPass(p, ids[1..]);
    }
  }

  lemma QuietSchedule(p: Pool)
    requires Quiet(p)
    ensures Schedule(p) == p
  {
    hide Quiet, ReuseAll, OpenAll, EvictAll;
    QuietPass(p, WaitingTo(p, p.requestSerial));
  }

  // ---------------------------------------------------------------------------------------------------------------
  // A pass only tightens
  // ---------------------------------------------------------------------------------------------------------------

  /** An entry later on: an idle one may be leased or closed, and one that is held stays held, a leased one as it is. */
  predicate Tightened(e: Entry, next: Entry) {
    && next.key == e.key && (next.state.Idle? ==> next == e)
    && (Busy(e) ==> Busy(next) && next.owner == e.owner)
    && (e.state.Leased? ==> next.state.Leased? && next.state.lease == e.state.lease
                            && next.identity == e.identity && next.reusable == e.reusable)
  }

  ghost predicate Tightens(p: Pool, q: Pool) {
    && q.config == p.config && q.now == p.now && q.limits == p.limits && q.noEvicts == p.noEvicts && q.holds == p.holds
    && q.stopped == p.stopped && p.connectionSerial <= q.connectionSerial
    && (forall c: int | c in p.entries :: c in q.entries && Tightened(p.entries[c], q.entries[c]))
    && (forall c: int | c in q.entries && c !in p.entries :: !q.entries[c].state.Idle?)
    && (forall id: int | IsWaiting(q, id) ::
          && IsWaiting(p, id) && q.requests[id].request == p.requests[id].request
          && q.requests[id].preferWait == p.requests[id].preferWait
          && (Evicting(p, id) ==> Evicting(q, id)))
  }

  lemma TightensOn(p: Pool, q: Pool, r: Pool)
    requires Tightens(p, q) && Tightens(q, r)
    ensures Tightens(p, r)
  {
    hide Evicting;
  }

  lemma TightensSelf(p: Pool)
    ensures Tightens(p, p)
  {
  }

  lemma ReuseTightens(p: Pool, id: int)
    ensures Tightens(p, ReuseFor(p, id))
  {
    hide OwnerFull, PreferWaits;
  }

  lemma OpenTightens(p: Pool, id: int)
    requires Linked(p)
    ensures Tightens(p, OpenFor(p, id))
  {
    hide OwnerFull, PreferWaits, Crowded;
    LinkedEntry(p, p.connectionSerial + 1);
  }

  lemma EvictTightens(p: Pool, id: int)
    ensures Tightens(p, EvictFor(p, id))
  {
    hide OwnerFull, PreferWaits, NoEvict, CeilingsFor, SiteFull;
  }

  // ---------------------------------------------------------------------------------------------------------------
  // What is blocked stays blocked
  // ---------------------------------------------------------------------------------------------------------------

  lemma OwnerStaysFull(p: Pool, q: Pool, r: Request)
    requires Tightens(p, q) && OwnerFull(p, r)
    ensures OwnerFull(q, r)
  {
    hide Evicting;
    var s := r.owner.session;
    forall c | c in Owned(p, s) ensures c in Owned(q, s) {
      assert c in p.entries;
    }
    forall c | c in OwnedOnHost(p, s, r.key.host) ensures c in OwnedOnHost(q, s, r.key.host) {
      assert c in p.entries;
    }
    forall c | c in OwnedAs(p, s, r.key) ensures c in OwnedAs(q, s, r.key) {
      assert c in p.entries;
    }
    SubsetSize(Owned(p, s), Owned(q, s));
    SubsetSize(OwnedOnHost(p, s, r.key.host), OwnedOnHost(q, s, r.key.host));
    SubsetSize(OwnedAs(p, s, r.key), OwnedAs(q, s, r.key));
  }

  /** The totals only grow. */
  lemma TotalsGrow(p: Pool, q: Pool, key: Key)
    requires Tightens(p, q)
    ensures UserHostTotal(p, key) <= UserHostTotal(q, key) && HostTotal(p, key.host) <= HostTotal(q, key.host)
    ensures SiteFull(p, key) ==> SiteFull(q, key)
    ensures |p.entries| <= |q.entries|
  {
    hide Evicting;
    forall c | c in EntriesAs(p, key) ensures c in EntriesAs(q, key) {
      assert c in p.entries;
    }
    forall c | c in EntriesOnHost(p, key.host) ensures c in EntriesOnHost(q, key.host) {
      assert c in p.entries;
    }
    forall c | c in EntriesOnSite(p, SiteOf(key)) ensures c in EntriesOnSite(q, SiteOf(key)) {
      assert c in p.entries;
    }
    forall c | c in p.entries.Keys ensures c in q.entries.Keys {
      assert c in p.entries;
    }
    SubsetSize(EntriesAs(p, key), EntriesAs(q, key));
    SubsetSize(EntriesOnHost(p, key.host), EntriesOnHost(q, key.host));
    SubsetSize(EntriesOnSite(p, SiteOf(key)), EntriesOnSite(q, SiteOf(key)));
    SubsetSize(p.entries.Keys, q.entries.Keys);
    HoldsSame(p, q, key);
  }

  lemma HoldsSame(p: Pool, q: Pool, key: Key)
    requires q.holds == p.holds
    ensures HoldsAs(q, key) == HoldsAs(p, key) && HoldsOnHost(q, key.host) == HoldsOnHost(p, key.host)
    ensures HoldsOnSite(q, SiteOf(key)) == HoldsOnSite(p, SiteOf(key))
  {
    assert forall c :: c in HoldsAs(q, key) <==> c in HoldsAs(p, key);
    assert forall c :: c in HoldsOnHost(q, key.host) <==> c in HoldsOnHost(p, key.host);
    assert forall c :: c in HoldsOnSite(q, SiteOf(key)) <==> c in HoldsOnSite(p, SiteOf(key));
  }

  lemma StaysCrowded(p: Pool, q: Pool, r: Request)
    requires Tightens(p, q) && Crowded(p, r)
    ensures Crowded(q, r)
  {
    hide UserHostTotal, HostTotal, SiteFull, Evicting, Tightened;
    TotalsGrow(p, q, r.key);
  }

  lemma StillPreferWaits(p: Pool, q: Pool, id: int)
    requires Tightens(p, q) && IsWaiting(q, id) && PreferWaits(p, id)
    ensures PreferWaits(q, id)
  {
    hide Evicting;
  }

  lemma StillNoLease(p: Pool, q: Pool, id: int)
    requires Linked(p) && Tightens(p, q) && !CanLease(p, id)
    ensures !CanLease(q, id)
  {
    hide OwnerFull, PreferWaits, Evicting;
    if CanLease(q, id) {
      var r := q.requests[id].request;
      assert IsWaiting(p, id);
      if OwnerFull(p, r) {
        OwnerStaysFull(p, q, r);
      }
      if PreferWaits(p, id) {
        StillPreferWaits(p, q, id);
      }
      var c := Choice(q, r).value;
      assert Leasable(q, r, c) && Leasable(p, r, c);
      LinkedEntry(p, c);
    }
  }

  lemma StillNoOpen(p: Pool, q: Pool, id: int)
    requires Tightens(p, q) && !MayOpen(p, id)
    ensures !MayOpen(q, id)
  {
    hide OwnerFull, PreferWaits, Crowded, Evicting;
    if MayOpen(q, id) {
      assert IsWaiting(p, id);
      var r := q.requests[id].request;
      if OwnerFull(p, r) {
        OwnerStaysFull(p, q, r);
      }
      if PreferWaits(p, id) {
        StillPreferWaits(p, q, id);
      }
      if Crowded(p, r) {
        StaysCrowded(p, q, r);
      }
    }
  }

  lemma StillEvictable(p: Pool, q: Pool, r: Request, c: int)
    requires Tightens(p, q) && Evictable(q, r, c)
    ensures Evictable(p, r, c)
  {
    hide UserHostTotal, HostTotal, SiteFull, Evicting;
    TotalsGrow(p, q, r.key);
  }

  lemma StillNoEvict(p: Pool, q: Pool, id: int)
    requires Linked(p) && Tightens(p, q) && !CanEvict(p, id)
    ensures !CanEvict(q, id)
  {
    hide OwnerFull, PreferWaits, Evictable, Evicting;
    if CanEvict(q, id) {
      assert IsWaiting(p, id);
      var r := q.requests[id].request;
      if OwnerFull(p, r) {
        OwnerStaysFull(p, q, r);
      }
      if PreferWaits(p, id) {
        StillPreferWaits(p, q, id);
      }
      var v := Victim(q, r, q.connectionSerial).value;
      StillEvictable(p, q, r, v);
      EvictableInRange(p, r, v);
    }
  }

  lemma EvictableInRange(p: Pool, r: Request, c: int)
    requires Linked(p) && Evictable(p, r, c)
    ensures 1 <= c <= p.connectionSerial
  {
    LinkedEntry(p, c);
  }

  // ---------------------------------------------------------------------------------------------------------------
  // After each one's turn
  // ---------------------------------------------------------------------------------------------------------------

  lemma ReuseSettles(p: Pool, id: int)
    ensures !CanLease(ReuseFor(p, id), id)
  {
    hide OwnerFull, PreferWaits;
  }

  lemma OpenSettles(p: Pool, id: int)
    ensures !MayOpen(OpenFor(p, id), id)
  {
    hide OwnerFull, PreferWaits, Crowded, NewEntry;
  }

  lemma EvictSettles(p: Pool, id: int)
    ensures !CanEvict(EvictFor(p, id), id)
  {
    hide OwnerFull, PreferWaits, NoEvict, CeilingsFor, SiteFull;
  }

  lemma {:induction false} ReuseAllSettles(p: Pool, ids: seq<int>)
    requires Linked(p)
    ensures var q := ReuseAll(p, ids);
            Linked(q) && Tightens(p, q) && forall id | id in ids :: !CanLease(q, id)
    decreases |ids|
  {
    hide Linked, Tightens, CanLease, ReuseFor, Keeps;
    if ids == [] {
      TightensSelf(p);
    } else {
      var p1, rest := ReuseFor(p, ids[0]), ids[1..];
      ReuseForKeeps(p, ids[0]);
      KeepsIsLinked(p, p1, {});
      ReuseTightens(p, ids[0]);
      ReuseSettles(p, ids[0]);
      ReuseAllSettles(p1, rest);
      var q := ReuseAll(p1, rest);
      TightensOn(p, p1, q);
      StillNoLease(p1, q, ids[0]);
      assert ids == [ids[0]] + rest;
    }
  }

  lemma {:induction false} OpenAllSettles(p: Pool, ids: seq<int>)
    requires Linked(p)
    ensures var q := OpenAll(p, ids);
            Linked(q) && Tightens(p, q) && forall id | id in ids :: !MayOpen(q, id)
    decreases |ids|
  {
    hide Linked, Tightens, MayOpen, OpenFor, Keeps;
    if ids == [] {
      TightensSelf(p);
    } else {
      var p1, rest := OpenFor(p, ids[0]), ids[1..];
      OpenForKeeps(p, ids[0]);
      KeepsIsLinked(p, p1, {});
      OpenTightens(p, ids[0]);
      OpenSettles(p, ids[0]);
      OpenAllSettles(p1, rest);
      var q := OpenAll(p1, rest);
      TightensOn(p, p1, q);
      StillNoOpen(p1, q, ids[0]);
      assert ids == [ids[0]] + rest;
    }
  }

  lemma {:induction false} EvictAllSettles(p: Pool, ids: seq<int>)
    requires Linked(p)
    ensures var q := EvictAll(p, ids);
            Linked(q) && Tightens(p, q) && forall id | id in ids :: !CanEvict(q, id)
    decreases |ids|
  {
    hide Linked, Tightens, CanEvict, EvictFor, Keeps;
    if ids == [] {
      TightensSelf(p);
    } else {
      var p1, rest := EvictFor(p, ids[0]), ids[1..];
      EvictForKeeps(p, ids[0]);
      KeepsIsLinked(p, p1, {});
      EvictTightens(p, ids[0]);
      EvictSettles(p, ids[0]);
      EvictAllSettles(p1, rest);
      var q := EvictAll(p1, rest);
      TightensOn(p, p1, q);
      StillNoEvict(p1, q, ids[0]);
      assert ids == [ids[0]] + rest;
    }
  }

  lemma {:induction false} WaitingToAre(p: Pool, n: int)
    ensures forall id | 1 <= id <= n && IsWaiting(p, id) :: id in WaitingTo(p, n)
    decreases if n < 0 then 0 else n
  {
    if n > 0 {
      WaitingToAre(p, n - 1);
    }
  }

  /** A request that nobody waits for can do nothing. */
  lemma OnlyWaitersAct(p: Pool, q: Pool, id: int)
    requires Tightens(p, q) && !IsWaiting(p, id)
    ensures !CanLease(q, id) && !MayOpen(q, id) && !CanEvict(q, id)
  {
    hide OwnerFull, PreferWaits, Crowded, Evicting, NoEvict;
    assert !IsWaiting(q, id);
  }

  /** Work-conserving: after a pass no waiting request could still lease, open or evict. */
  lemma ScheduleLeavesNothing(p: Pool)
    requires Linked(p) && !p.stopped
    ensures Quiet(Schedule(p)) && Linked(Schedule(p)) && Tightens(p, Schedule(p))
  {
    hide Linked, Tightens, CanLease, MayOpen, CanEvict, ReuseAll, OpenAll, EvictAll, IsWaiting;
    var ids := WaitingTo(p, p.requestSerial);
    var p1 := ReuseAll(p, ids);
    ReuseAllSettles(p, ids);
    var p2 := OpenAll(p1, ids);
    OpenAllSettles(p1, ids);
    var q := EvictAll(p2, ids);
    EvictAllSettles(p2, ids);
    TightensOn(p1, p2, q);
    TightensOn(p, p1, q);
    WaitingToAre(p, p.requestSerial);
    forall id: int ensures !CanLease(q, id) && !MayOpen(q, id) && !CanEvict(q, id) {
      if IsWaiting(p, id) {
        WaitsInRange(p, id);
        StillNoLease(p1, q, id);
        StillNoOpen(p2, q, id);
      } else {
        OnlyWaitersAct(p, q, id);
      }
    }
  }

  lemma WaitsInRange(p: Pool, id: int)
    requires Linked(p) && IsWaiting(p, id)
    ensures 1 <= id <= p.requestSerial
  {
    LinkedRequest(p, id);
  }

  /** Idempotent: a second pass changes nothing. */
  lemma ScheduleIsIdempotent(p: Pool)
    requires Linked(p)
    ensures Schedule(Schedule(p)) == Schedule(p)
  {
    hide Linked, Quiet, Tightens, ReuseAll, OpenAll, EvictAll;
    if !p.stopped {
      ScheduleLeavesNothing(p);
      QuietSchedule(Schedule(p));
    }
  }

  /** Nothing to do is exactly being quiet. */
  lemma QuietIffScheduled(p: Pool)
    requires Linked(p) && !p.stopped
    ensures Schedule(p) == p <==> Quiet(p)
  {
    hide Linked, Quiet, Schedule;
    ScheduleLeavesNothing(p);
    if Quiet(p) {
      QuietSchedule(p);
    }
  }

  // ---------------------------------------------------------------------------------------------------------------
  // Victims
  // ---------------------------------------------------------------------------------------------------------------

  /** The request is out of room, and the victim counts against every ceiling on which it is. */
  predicate Fair(p: Pool, r: Request, c: int) {
    && Crowded(p, r) && c in p.entries
    && var ceilings, key := CeilingsFor(p, r), p.entries[c].key;
       && (UserHostTotal(p, r.key) >= ceilings.perUserHost ==> SameUserHost(key, r.key))
       && (HostTotal(p, r.key.host) >= ceilings.perHost ==> key.host == r.key.host)
       && (SiteFull(p, r.key) ==> SameSite(key, r.key))
  }

  /** `c` is closing for a waiting request that had cause to evict it. */
  ghost predicate Justified(p: Pool, c: int) {
    exists id: int :: IsWaiting(p, id) && p.requests[id].eviction == Some(c) && Fair(p, p.requests[id].request, c)
  }

  /** Evicting moves no key, so no total. */
  ghost predicate SameRoom(p: Pool, q: Pool) {
    && q.config == p.config && q.limits == p.limits && q.holds == p.holds && q.entries.Keys == p.entries.Keys
    && forall c | c in p.entries :: q.entries[c].key == p.entries[c].key
  }

  lemma SameRoomTotals(p: Pool, q: Pool, key: Key)
    requires SameRoom(p, q)
    ensures UserHostTotal(q, key) == UserHostTotal(p, key) && HostTotal(q, key.host) == HostTotal(p, key.host)
    ensures SiteFull(q, key) == SiteFull(p, key) && |q.entries| == |p.entries|
  {
    HoldsSame(p, q, key);
    forall c ensures c in q.entries <==> c in p.entries {
      assert c in q.entries.Keys <==> c in p.entries.Keys;
    }
    assert forall c :: c in EntriesAs(q, key) <==> c in EntriesAs(p, key);
    assert forall c :: c in EntriesOnHost(q, key.host) <==> c in EntriesOnHost(p, key.host);
    assert forall c :: c in EntriesOnSite(q, SiteOf(key)) <==> c in EntriesOnSite(p, SiteOf(key));
    assert EntriesAs(q, key) == EntriesAs(p, key) && EntriesOnHost(q, key.host) == EntriesOnHost(p, key.host);
    assert EntriesOnSite(q, SiteOf(key)) == EntriesOnSite(p, SiteOf(key));
  }

  lemma StillFair(p: Pool, q: Pool, r: Request, c: int)
    requires SameRoom(p, q) && Fair(p, r, c)
    ensures Fair(q, r, c)
  {
    hide UserHostTotal, HostTotal, SiteFull;
    SameRoomTotals(p, q, r.key);
    assert c in q.entries.Keys;
  }

  lemma EvictSameRoom(p: Pool, id: int)
    ensures SameRoom(p, EvictFor(p, id))
  {
    hide MayEvict, CeilingsFor, SiteFull;
  }

  /** Requests that had evicted keep their victims. */
  lemma EvictKeepsVictims(p: Pool, id: int, other: int, c: int)
    requires IsWaiting(p, other) && p.requests[other].eviction == Some(c) && c in p.entries
    ensures var q := EvictFor(p, id);
            IsWaiting(q, other) && q.requests[other].eviction == Some(c) && q.requests[other].request == p.requests[other].request
  {
    hide OwnerFull, PreferWaits, NoEvict, CeilingsFor, SiteFull;
  }

  lemma StillJustified(p: Pool, id: int, c: int)
    requires Justified(p, c)
    ensures Justified(EvictFor(p, id), c)
  {
    hide EvictFor, SameRoom;
    var other: int :| IsWaiting(p, other) && p.requests[other].eviction == Some(c) && Fair(p, p.requests[other].request, c);
    EvictSameRoom(p, id);
    FairIsHeld(p, p.requests[other].request, c);
    EvictKeepsVictims(p, id, other, c);
    StillFair(p, EvictFor(p, id), p.requests[other].request, c);
  }

  lemma FairIsHeld(p: Pool, r: Request, c: int)
    requires Fair(p, r, c)
    ensures c in p.entries
  {
  }

  /** The one entry that a turn may close is justified. */
  lemma EvictIsJustified(p: Pool, id: int, c: int)
    requires !MayOpen(p, id) && IsIdle(p, c) && !IsIdle(EvictFor(p, id), c)
    ensures Justified(EvictFor(p, id), c)
  {
    hide OwnerFull, PreferWaits, NoEvict, Crowded, UserHostTotal, HostTotal, SiteFull, CeilingsFor;
    var q := EvictFor(p, id);
    assert CanEvict(p, id);
    var r := p.requests[id].request;
    assert Victim(p, r, p.connectionSerial) == Some(c);
    assert Crowded(p, r);
    EvictSameRoom(p, id);
    assert Fair(p, r, c);
    StillFair(p, q, r, c);
    assert IsWaiting(q, id) && q.requests[id].eviction == Some(c);
  }

  lemma {:induction false} EvictAllJustified(p: Pool, ids: seq<int>, c: int)
    requires Linked(p) && (forall id | id in ids :: !MayOpen(p, id))
    requires IsIdle(p, c) || Justified(p, c)
    ensures var q := EvictAll(p, ids); IsIdle(q, c) || Justified(q, c)
    decreases |ids|
  {
    hide Linked, Tightens, MayOpen, EvictFor, Justified, IsIdle, Keeps;
    if ids != [] {
      var p1, rest := EvictFor(p, ids[0]), ids[1..];
      assert ids[0] in ids;
      EvictForKeeps(p, ids[0]);
      KeepsIsLinked(p, p1, {});
      EvictTightens(p, ids[0]);
      forall id | id in rest ensures !MayOpen(p1, id) {
        assert id in ids;
        StillNoOpen(p, p1, id);
      }
      if Justified(p, c) {
        StillJustified(p, ids[0], c);
      } else if !IsIdle(p1, c) {
        EvictIsJustified(p, ids[0], c);
      }
      EvictAllJustified(p1, rest, c);
    }
  }

  /** Reuse and opening close nothing: an idle entry stays idle or is leased. */
  lemma {:induction false} ReuseAllLeases(p: Pool, ids: seq<int>, c: int)
    requires IsIdle(p, c)
    ensures var q := ReuseAll(p, ids); c in q.entries && (q.entries[c].state.Idle? || q.entries[c].state.Leased?)
    decreases |ids|
  {
    hide ReuseFor;
    if ids != [] {
      ReuseLeases(p, ids[0], c);
      if IsIdle(ReuseFor(p, ids[0]), c) {
        ReuseAllLeases(ReuseFor(p, ids[0]), ids[1..], c);
      } else {
        LeasedThroughReuse(ReuseFor(p, ids[0]), ids[1..], c);
      }
    }
  }

  lemma ReuseLeases(p: Pool, id: int, c: int)
    requires c in p.entries && (p.entries[c].state.Idle? || p.entries[c].state.Leased?)
    ensures var q := ReuseFor(p, id);
            c in q.entries && (q.entries[c].state.Idle? || q.entries[c].state.Leased?) && (p.entries[c].state.Leased? ==> q.entries[c].state.Leased?)
  {
    hide OwnerFull, PreferWaits;
  }

  lemma {:induction false} LeasedThroughReuse(p: Pool, ids: seq<int>, c: int)
    requires c in p.entries && p.entries[c].state.Leased?
    ensures var q := ReuseAll(p, ids); c in q.entries && q.entries[c].state.Leased?
    decreases |ids|
  {
    hide ReuseFor;
    if ids != [] {
      ReuseLeases(p, ids[0], c);
      LeasedThroughReuse(ReuseFor(p, ids[0]), ids[1..], c);
    }
  }

  lemma {:induction false} OpenAllKeepsEntry(p: Pool, ids: seq<int>, c: int)
    requires Linked(p) && c in p.entries
    ensures var q := OpenAll(p, ids); c in q.entries && q.entries[c] == p.entries[c]
    decreases |ids|
  {
    hide Linked, OpenFor, Keeps;
    if ids != [] {
      OpenForKeeps(p, ids[0]);
      KeepsIsLinked(p, OpenFor(p, ids[0]), {});
      OpenKeepsEntry(p, ids[0], c);
      OpenAllKeepsEntry(OpenFor(p, ids[0]), ids[1..], c);
    }
  }

  lemma OpenKeepsEntry(p: Pool, id: int, c: int)
    requires Linked(p) && c in p.entries
    ensures var q := OpenFor(p, id); c in q.entries && q.entries[c] == p.entries[c]
  {
    hide MayOpen, NewEntry;
    LinkedEntry(p, c);
  }

  /** Every idle connection that a pass closes is the victim of a waiting request with cause to evict it. */
  lemma EvictionsAreJustified(p: Pool, c: int)
    requires Linked(p) && !p.stopped && IsIdle(p, c)
    ensures var q := Schedule(p); c in q.entries && q.entries[c].state.Closing? ==> Justified(q, c)
  {
    hide Linked, Tightens, MayOpen, ReuseAll, OpenAll, EvictAll, Justified;
    var ids := WaitingTo(p, p.requestSerial);
    var p1 := ReuseAll(p, ids);
    ReuseAllSettles(p, ids);
    ReuseAllLeases(p, ids, c);
    var p2 := OpenAll(p1, ids);
    OpenAllSettles(p1, ids);
    OpenAllKeepsEntry(p1, ids, c);
    if IsIdle(p2, c) {
      EvictAllJustified(p2, ids, c);
    } else {
      EvictAllTightens(p2, ids, c);
    }
  }

  lemma EvictAllTightens(p: Pool, ids: seq<int>, c: int)
    requires Linked(p) && c in p.entries && p.entries[c].state.Leased?
    ensures c in EvictAll(p, ids).entries && EvictAll(p, ids).entries[c].state.Leased?
  {
    hide Linked, EvictAll;
    EvictAllSettles(p, ids);
  }

  // ---------------------------------------------------------------------------------------------------------------
  // Equal chances
  // ---------------------------------------------------------------------------------------------------------------

  /** The same connections, held by the same owners and idle alike. */
  ghost predicate SamePlaces(p: Pool, q: Pool) {
    && SameRoom(p, q) && q.noEvicts == p.noEvicts && q.connectionSerial == p.connectionSerial
    && forall c | c in p.entries ::
         && q.entries[c].owner == p.entries[c].owner && Busy(q.entries[c]) == Busy(p.entries[c])
         && (p.entries[c].state.Idle? || q.entries[c].state.Idle? ==> q.entries[c] == p.entries[c])
  }

  /** A request then has the same chances, but for its wait for a preferred connection. */
  lemma SameChances(p: Pool, q: Pool, r: Request)
    requires SamePlaces(p, q)
    ensures OwnerFull(q, r) == OwnerFull(p, r) && Crowded(q, r) == Crowded(p, r)
    ensures Choice(q, r) == Choice(p, r) && Victim(q, r, q.connectionSerial) == Victim(p, r, p.connectionSerial)
  {
    hide SamePlaces, OwnerFull, SiteFull, UserHostTotal, HostTotal, Leasable, FirstLeasable, Victim;
    SameTotals(p, q, r);
    SameOwnerFull(p, q, r);
    SameLeasable(p, q, r, 1);
    SameIdle(p, q, 0);
    SameVictim(p, q, r, p.connectionSerial);
    if r.prefer.Some? {
      SameFit(p, q, r, r.prefer.value);
    }
  }

  lemma SameFit(p: Pool, q: Pool, r: Request, c: int)
    requires SamePlaces(p, q)
    ensures Leasable(q, r, c) == Leasable(p, r, c)
  {
    hide SamePlaces;
    SameIdle(p, q, c);
  }

  lemma SameIdle(p: Pool, q: Pool, c: int)
    requires SamePlaces(p, q)
    ensures IsIdle(q, c) == IsIdle(p, c) && (IsIdle(p, c) ==> q.entries[c] == p.entries[c])
    ensures q.connectionSerial == p.connectionSerial && q.config == p.config
  {
    assert c in q.entries.Keys <==> c in p.entries.Keys;
  }

  lemma {:induction false} SameLeasable(p: Pool, q: Pool, r: Request, c: int)
    requires SamePlaces(p, q)
    ensures FirstLeasable(q, r, c) == FirstLeasable(p, r, c)
    decreases p.connectionSerial - c
  {
    hide SamePlaces, Compatible;
    SameIdle(p, q, c);
    if c <= p.connectionSerial {
      SameLeasable(p, q, r, c + 1);
    }
  }

  lemma SameOwnerFull(p: Pool, q: Pool, r: Request)
    requires SamePlaces(p, q)
    ensures OwnerFull(q, r) == OwnerFull(p, r)
  {
    var s := r.owner.session;
    forall c ensures c in q.entries <==> c in p.entries {
      assert c in q.entries.Keys <==> c in p.entries.Keys;
    }
    assert forall c :: c in Owned(q, s) <==> c in Owned(p, s);
    assert forall c :: c in OwnedOnHost(q, s, r.key.host) <==> c in OwnedOnHost(p, s, r.key.host);
    assert forall c :: c in OwnedAs(q, s, r.key) <==> c in OwnedAs(p, s, r.key);
    assert Owned(q, s) == Owned(p, s) && OwnedOnHost(q, s, r.key.host) == OwnedOnHost(p, s, r.key.host);
    assert OwnedAs(q, s, r.key) == OwnedAs(p, s, r.key);
  }

  lemma SameTotals(p: Pool, q: Pool, r: Request)
    requires SamePlaces(p, q)
    ensures UserHostTotal(q, r.key) == UserHostTotal(p, r.key) && HostTotal(q, r.key.host) == HostTotal(p, r.key.host)
    ensures SiteFull(q, r.key) == SiteFull(p, r.key) && CeilingsFor(q, r) == CeilingsFor(p, r) && |q.entries| == |p.entries|
  {
    SameRoomTotals(p, q, r.key);
  }

  lemma {:induction false} SameVictim(p: Pool, q: Pool, r: Request, n: int)
    requires SamePlaces(p, q)
    ensures Victim(q, r, n) == Victim(p, r, n)
    decreases if n < 0 then 0 else n
  {
    hide SamePlaces, UserHostTotal, HostTotal, SiteFull, CeilingsFor;
    if n > 0 {
      SameTotals(p, q, r);
      SameIdle(p, q, n);
      SameVictim(p, q, r, n - 1);
      var best := Victim(p, r, n - 1);
      if best.Some? {
        SameIdle(p, q, best.value);
      }
    }
  }
}
