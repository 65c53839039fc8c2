/** Every call of the pool keeps links, ceilings and limits. */
module PoolCalls {
  import opened Base
  import opened PoolTypes
  import opened PoolSchedule
  import opened PoolOps
  import opened PoolLinks
  import opened PoolSteps
  import opened PoolCapacity
  import opened PoolKeeps

  // ---------------------------------------------------------------------------------------------------------------
  // Loops
  // ---------------------------------------------------------------------------------------------------------------

  lemma FailOneKeeps(p: Pool, id: int, error: Error, reason: CloseReason)
    requires Linked(p)
    ensures Keeps(p, FailRequest(p, id, error, reason), {})
  {
    hide Linked, Keeps, Calm, FailRequest;
    FailRequestCalm(p, id, error, reason);
    CalmKeeps(p, FailRequest(p, id, error, reason), {});
  }

  lemma {:induction false} FailAllKeeps(p: Pool, ids: seq<int>, error: Error, reason: CloseReason)
    requires Linked(p)
    ensures Keeps(p, FailAll(p, ids, error, reason), {})
    decreases |ids|
  {
    hide Linked, Keeps, FailRequest;
    if ids == [] {
      KeepsSelf(p);
    } else {
      var q := FailRequest(p, ids[0], error, reason);
      FailOneKeeps(p, ids[0], error, reason);
      KeepsIsLinked(p, q, {});
      FailAllKeeps(q, ids[1..], error, reason);
      KeepsThen(p, q, FailAll(p, ids, error, reason), {});
    }
  }

  lemma {:induction false} FailEachKeeps(p: Pool, list: seq<Expiry>)
    requires Linked(p)
    ensures Keeps(p, FailEach(p, list), {})
    decreases |list|
  {
    hide Linked, Keeps, FailRequest;
    if list == [] {
      KeepsSelf(p);
    } else {
      var q := FailRequest(p, list[0].id, list[0].error, CancelledReason);
      FailOneKeeps(p, list[0].id, list[0].error, CancelledReason);
      KeepsIsLinked(p, q, {});
      FailEachKeeps(q, list[1..]);
      KeepsThen(p, q, FailEach(p, list), {});
    }
  }

  /** Entries that serve no request. */
  predicate Unserving(p: Pool, ids: seq<int>) {
    forall i | 0 <= i < |ids| :: EntryLink(p, ids[i]).None?
  }

  lemma CloseOneKeeps(p: Pool, c: int, reason: CloseReason)
    requires Linked(p) && EntryLink(p, c).None?
    ensures Keeps(p, StartClosing(p, c, reason), {})
  {
    hide Linked, Keeps, Calm, StartClosing;
    StartClosingCalm(p, c, reason);
    CalmKeeps(p, StartClosing(p, c, reason), {});
  }

  lemma StillUnserving(p: Pool, c: int, reason: CloseReason, k: int)
    requires EntryLink(p, k).None?
    ensures EntryLink(StartClosing(p, c, reason), k).None?
  {
  }

  lemma {:induction false} CloseAllKeeps(p: Pool, ids: seq<int>, reason: CloseReason)
    requires Linked(p) && Unserving(p, ids)
    ensures Keeps(p, CloseAll(p, ids, reason), {})
    decreases |ids|
  {
    hide Linked, Keeps, StartClosing, EntryLink;
    if ids == [] {
      KeepsSelf(p);
    } else {
      var q, rest := StartClosing(p, ids[0], reason), ids[1..];
      CloseOneKeeps(p, ids[0], reason);
      KeepsIsLinked(p, q, {});
      forall i | 0 <= i < |rest| ensures EntryLink(q, rest[i]).None? {
        assert rest[i] == ids[i + 1];
        StillUnserving(p, ids[0], reason, rest[i]);
      }
      CloseAllKeeps(q, rest, reason);
      KeepsThen(p, q, CloseAll(p, ids, reason), {});
    }
  }

  /** Closing an entry, even one that serves a request. */
  lemma CloseLoose(p: Pool, c: int, reason: CloseReason)
    requires Linked(p)
    ensures Loose(p, StartClosing(p, c, reason), {})
  {
    hide Linked, Loose, StartClosing;
    StartClosingIs(p, c, reason);
    CalmSelf(p);
    if c in p.entries && !p.entries[c].state.Closing? {
      if EntryLink(p, c).Some? {
        ShutLoose(p, c, Shut(p, p.entries[c], reason));
      } else {
        LinkedEntry(p, c);
        EntryCalm(p, c, Shut(p, p.entries[c], reason));
      }
    }
  }

  lemma ShutLoose(p: Pool, c: int, e: Entry)
    requires Linked(p) && EntryLink(p, c).Some? && EntryStep(p, p.entries[c], e) && e.state.Closing?
    ensures Loose(p, SetEntry(p, c, e), {})
  {
    var q, id := SetEntry(p, c, e), EntryLink(p, c).value;
    LinkedEntry(p, c);
    LinkedRequest(p, id);
    LinkedParts(p, 0);
    EntryStepEvolves(p, q, c);
    Relink(p, q, id, c);
  }

  lemma {:induction false} CloseAllKept(p: Pool, ids: seq<int>, reason: CloseReason)
    requires Linked(p)
    ensures Kept(p, CloseAll(p, ids, reason), {})
    decreases |ids|
  {
    hide Linked, Kept, Faithful, Loose, StartClosing;
    if ids == [] {
      KeepsSelf(p);
    } else {
      var q := StartClosing(p, ids[0], reason);
      CloseLoose(p, ids[0], reason);
      LooseKept(p, q, {});
      KeptIsLinked(p, q, {});
      CloseAllKept(q, ids[1..], reason);
      KeptThen(p, q, CloseAll(p, ids, reason), {});
    }
  }

  lemma {:induction false} CloseEachKeeps(p: Pool, list: seq<Ending>)
    requires Linked(p) && forall i | 0 <= i < |list| :: EntryLink(p, list[i].connection).None?
    ensures Keeps(p, CloseEach(p, list), {})
    decreases |list|
  {
    hide Linked, Keeps, StartClosing, EntryLink;
    if list == [] {
      KeepsSelf(p);
    } else {
      var q, rest := StartClosing(p, list[0].connection, list[0].reason), list[1..];
      CloseOneKeeps(p, list[0].connection, list[0].reason);
      KeepsIsLinked(p, q, {});
      forall i | 0 <= i < |rest| ensures EntryLink(q, rest[i].connection).None? {
        assert rest[i] == list[i + 1];
        StillUnserving(p, list[0].connection, list[0].reason, rest[i].connection);
      }
      CloseEachKeeps(q, rest);
      KeepsThen(p, q, CloseEach(p, list), {});
    }
  }

  lemma {:induction false} EntriesToAre(p: Pool, keep: Entry -> bool, n: int)
    ensures forall i | 0 <= i < |EntriesTo(p, keep, n)| ::
              var c := EntriesTo(p, keep, n)[i]; 1 <= c <= n && c in p.entries && keep(p.entries[c])
    ensures forall c | 1 <= c <= n && c in p.entries && keep(p.entries[c]) :: c in EntriesTo(p, keep, n)
    decreases if n < 0 then 0 else n
  {
    if n > 0 {
      EntriesToAre(p, keep, n - 1);
    }
  }

  lemma {:induction false} RequestsToAre(p: Pool, keep: Pending -> bool, n: int)
    ensures forall id | 1 <= id <= n && id in p.requests && keep(p.requests[id]) :: id in RequestsTo(p, keep, n)
    decreases if n < 0 then 0 else n
  {
    if n > 0 {
      RequestsToAre(p, keep, n - 1);
    }
  }

  /** Closing the entries that satisfy `keep`, where those serve no request. */
  lemma CloseWhereKeeps(p: Pool, keep: Entry -> bool, reason: CloseReason)
    requires Linked(p) && forall c | c in p.entries && keep(p.entries[c]) :: EntryLink(p, c).None?
    ensures Keeps(p, CloseAll(p, EntriesTo(p, keep, p.connectionSerial), reason), {})
  {
    hide Linked, Keeps, CloseAll, EntryLink;
    var ids := EntriesTo(p, keep, p.connectionSerial);
    EntriesToAre(p, keep, p.connectionSerial);
    forall i | 0 <= i < |ids| ensures EntryLink(p, ids[i]).None? {
      assert ids[i] in p.entries && keep(p.entries[ids[i]]);
    }
    CloseAllKeeps(p, ids, reason);
  }

  // ---------------------------------------------------------------------------------------------------------------
  // Failing many requests
  // ---------------------------------------------------------------------------------------------------------------

  lemma LetGoRequests(p: Pool, state: RequestState, reason: CloseReason)
    ensures LetGo(p, state, reason).requests == p.requests
  {
  }

  /** Failing changes no other request, and what failed stays failed. */
  lemma FailTouches(p: Pool, id: int, error: Error, reason: CloseReason)
    ensures FailRequest(p, id, error, reason).requests.Keys == p.requests.Keys
    ensures forall i | i in p.requests :: FailRequest(p, id, error, reason).requests[i] ==
              if i == id && !p.requests[i].state.Failed? then p.requests[i].(state := Failed(error)) else p.requests[i]
  {
    hide LetGo;
    if id in p.requests {
      LetGoRequests(p, p.requests[id].state, reason);
    }
  }

  lemma {:induction false} FailAllFails(p: Pool, ids: seq<int>, error: Error, reason: CloseReason, id: int)
    requires id in p.requests
    ensures var q := FailAll(p, ids, error, reason);
            && id in q.requests && q.requests[id].request == p.requests[id].request
            && (id in ids || p.requests[id].state.Failed? ==> q.requests[id].state.Failed?)
            && (!q.requests[id].state.Failed? ==> q.requests[id] == p.requests[id])
    decreases |ids|
  {
    hide FailRequest;
    if ids != [] {
      FailTouches(p, ids[0], error, reason);
      FailAllFails(FailRequest(p, ids[0], error, reason), ids[1..], error, reason, id);
      assert ids == [ids[0]] + ids[1..];
    }
  }

  lemma {:induction false} FailAllKeys(p: Pool, ids: seq<int>, error: Error, reason: CloseReason)
    ensures FailAll(p, ids, error, reason).requests.Keys == p.requests.Keys
    decreases |ids|
  {
    hide FailRequest;
    if ids != [] {
      FailTouches(p, ids[0], error, reason);
      FailAllKeys(FailRequest(p, ids[0], error, reason), ids[1..], error, reason);
    }
  }

  lemma CancelMatchingKeeps(p: Pool, m: OwnerMatch)
    requires Linked(p)
    ensures Keeps(p, CancelMatching(p, m), {}) && Scheduled(CancelMatching(p, m))
  {
    hide Linked, Keeps, Scheduled, FailAll, CloseAll, Schedule, Matches;
    var mine := (r: Pending) => Matches(m, r.request.owner);
    var ids := RequestsTo(p, mine, p.requestSerial);
    var q := FailAll(p, ids, Cancelled, CancelledReason);
    FailAllKeeps(p, ids, Cancelled, CancelledReason);
    KeepsIsLinked(p, q, {});
    RequestsToAre(p, mine, p.requestSerial);
    FailAllKeys(p, ids, Cancelled, CancelledReason);
    var leased := (e: Entry) => e.owner.Some? && Matches(m, e.owner.value) && e.state.Leased?;
    forall c | c in q.entries && leased(q.entries[c]) ensures EntryLink(q, c).None? {
      LinkedEntry(q, c);
      if EntryLink(q, c).Some? {
        var id := EntryLink(q, c).value;
        assert id in p.requests.Keys;
        FailAllFails(p, ids, Cancelled, CancelledReason, id);
        LinkedRequest(p, id);
        assert false;
      }
    }
    CloseWhereKeeps(q, leased, CancelledReason);
    var r := CloseAll(q, EntriesTo(q, leased, q.connectionSerial), CancelledReason);
    KeepsThen(p, q, r, {});
    ThenSchedule(p, r, {});
  }

  // ---------------------------------------------------------------------------------------------------------------
  // Requests
  // ---------------------------------------------------------------------------------------------------------------

  /** The pool with a new waiting request. */
  function Enrolled(p: Pool, r: Request, absolute: Option<nat>): Pool {
    p.(requestSerial := p.requestSerial + 1, requests := p.requests[p.requestSerial + 1 := NewPending(p, r, absolute)])
  }

  /** A request within the pool's ceilings, or like the others of its session, changes neither. */
  lemma EnrolledKeeps(p: Pool, r: Request, absolute: Option<nat>)
    requires Linked(p)
    ensures var q := Enrolled(p, r, absolute);
            && Linked(q) && Faithful(p, q) && Evolves(p, q, {})
            && (Limited(p) && NoMore(LimitsOf(p, r), p.config.capacity) ==> Limited(q))
            && (forall session: string, l: Capacity
                | SessionOk(p, session, l) && (r.owner.session == session ==> LimitsOf(p, r) == l) :: SessionOk(q, session, l))
  {
    hide Linked, NewPending, HostTotal, UserHostTotal;
    var q, id := Enrolled(p, r, absolute), p.requestSerial + 1;
    EnrolledLinked(p, r, absolute);
    if Limited(p) {
      SlotsSame(p, q);
    }
    forall session: string, l: Capacity
      | SessionOk(p, session, l) && (r.owner.session == session ==> LimitsOf(p, r) == l)
      ensures SessionOk(q, session, l)
    {
      NewPendingAsks(p, r, absolute);
      NoMoreSession(p, q, session, l);
    }
    NewPendingAsks(p, r, absolute);
  }

  lemma NewPendingAsks(p: Pool, r: Request, absolute: Option<nat>)
    ensures NewPending(p, r, absolute).request == r && NewPending(p, r, absolute).state.Waiting?
  {
  }

  lemma SlotsSame(p: Pool, q: Pool)
    requires WithinCeilings(p) && q.entries == p.entries && q.holds == p.holds && q.config == p.config
    ensures WithinCeilings(q)
  {
    forall host: string ensures HostTotal(q, host) <= q.config.capacity.perHost {
      assert HostTotal(p, host) <= p.config.capacity.perHost;
      assert EntriesOnHost(q, host) == EntriesOnHost(p, host) && HoldsOnHost(q, host) == HoldsOnHost(p, host);
    }
    forall key: Key ensures UserHostTotal(q, key) <= q.config.capacity.perUserHost {
      assert UserHostTotal(p, key) <= p.config.capacity.perUserHost;
      assert EntriesAs(q, key) == EntriesAs(p, key) && HoldsAs(q, key) == HoldsAs(p, key);
    }
  }

  lemma EnrolledLinked(p: Pool, r: Request, absolute: Option<nat>)
    requires Linked(p)
    ensures var q := Enrolled(p, r, absolute); Linked(q) && Faithful(p, q) && Evolves(p, q, {})
  {
    hide NewPending;
    var q, id := Enrolled(p, r, absolute), p.requestSerial + 1;
    NewPendingAsks(p, r, absolute);
    LinkedRequest(p, id);
    LinkedParts(p, 0);
    Relink(p, q, id, 0);
  }

  lemma TakeKeeps(p: Pool, id: int)
    requires Linked(p)
    ensures Keeps(p, Take(p, id).0, {})
  {
    hide Linked, Keeps, Calm;
    KeepsSelf(p);
    if id in p.requests {
      LinkedRequest(p, id);
      match p.requests[id].state
      case Ready(lease) =>
        LinkedEntry(p, lease.connection);
        TakeReadyCalm(p, id);
        CalmKeeps(p, Take(p, id).0, {});
      case Failed(_) =>
        ForgetCalm(p, id);
        CalmKeeps(p, Forget(p, id), {});
      case _ =>
    }
  }

  lemma ForgetCalm(p: Pool, id: int)
    requires Linked(p) && RequestLink(p, id).None?
    ensures Calm(p, Forget(p, id), {})
  {
    hide Linked, Calm;
    RequestCalm(p, Forget(p, id), id);
  }

  lemma TakeReadyCalm(p: Pool, id: int)
    requires Linked(p) && id in p.requests && p.requests[id].state.Ready?
    ensures Calm(p, Take(p, id).0, {})
  {
    LinkedRequest(p, id);
    var c := p.requests[id].state.lease.connection;
    var q := Take(p, id).0;
    if Orphaned(p, id) {
      RequestCalm(p, q, id);
    } else {
      LinkedEntry(p, c);
      LinkedParts(p, 0);
      EntryStepEvolves(p, q, c);
      Relink(p, q, id, c);
    }
  }

  lemma CancelKeeps(p: Pool, id: int)
    requires Linked(p)
    ensures Keeps(p, Cancel(p, id).0, {}) && Placed(p, Cancel(p, id).0)
  {
    hide Linked, Keeps, Scheduled, FailRequest, Schedule;
    KeepsSelf(p);
    if id in p.requests {
      FailOneKeeps(p, id, Cancelled, CancelledReason);
      ThenSchedule(p, FailRequest(p, id, Cancelled, CancelledReason), {});
    }
  }

  lemma AbandonKeeps(p: Pool, id: int)
    requires Linked(p)
    ensures Keeps(p, Abandon(p, id), {})
  {
    hide Linked, Keeps, Schedule, Calm, FailRequest;
    CancelKeeps(p, id);
    if id in p.requests {
      var q := Cancel(p, id).0;
      KeepsIsLinked(p, q, {});
      FailTouches(p, id, Cancelled, CancelledReason);
      ScheduleLeaves(FailRequest(p, id, Cancelled, CancelledReason), id);
      ForgetCalm(q, id);
      CalmKeeps(q, Forget(q, id), {});
      KeepsThen(p, q, Forget(q, id), {});
    }
  }

  // ---------------------------------------------------------------------------------------------------------------
  // Scheduling leaves requests that do not wait
  // ---------------------------------------------------------------------------------------------------------------

  ghost predicate Leaves(p: Pool, q: Pool, id: int) {
    id in p.requests && !p.requests[id].state.Waiting? ==> id in q.requests && q.requests[id] == p.requests[id]
  }

  lemma ReuseLeaves(p: Pool, i: int, id: int)
    ensures Leaves(p, ReuseFor(p, i), id)
  {
    hide OwnerFull, PreferWaits, Leasable;
  }

  lemma OpenLeaves(p: Pool, i: int, id: int)
    ensures Leaves(p, OpenFor(p, i), id)
  {
    hide OwnerFull, PreferWaits, Crowded, NewEntry;
  }

  lemma EvictLeaves(p: Pool, i: int, id: int)
    ensures Leaves(p, EvictFor(p, i), id)
  {
    hide OwnerFull, PreferWaits, NoEvict, Evicting, Evictable;
  }

  lemma {:induction false} ReuseAllLeaves(p: Pool, ids: seq<int>, id: int)
    ensures Leaves(p, ReuseAll(p, ids), id)
    decreases |ids|
  {
    hide ReuseFor;
    if ids != [] {
      ReuseLeaves(p, ids[0], id);
      ReuseAllLeaves(ReuseFor(p, ids[0]), ids[1..], id);
    }
  }

  lemma {:induction false} OpenAllLeaves(p: Pool, ids: seq<int>, id: int)
    ensures Leaves(p, OpenAll(p, ids), id)
    decreases |ids|
  {
    hide OpenFor;
    if ids != [] {
      OpenLeaves(p, ids[0], id);
      OpenAllLeaves(OpenFor(p, ids[0]), ids[1..], id);
    }
  }

  lemma {:induction false} EvictAllLeaves(p: Pool, ids: seq<int>, id: int)
    ensures Leaves(p, EvictAll(p, ids), id)
    decreases |ids|
  {
    hide EvictFor;
    if ids != [] {
      EvictLeaves(p, ids[0], id);
      EvictAllLeaves(EvictFor(p, ids[0]), ids[1..], id);
    }
  }

  lemma ScheduleLeaves(p: Pool, id: int)
    ensures Leaves(p, Schedule(p), id)
  {
    hide ReuseAll, OpenAll, EvictAll;
    var ids := WaitingTo(p, p.requestSerial);
    ReuseAllLeaves(p, ids, id);
    OpenAllLeaves(ReuseAll(p, ids), ids, id);
    EvictAllLeaves(OpenAll(ReuseAll(p, ids), ids), ids, id);
  }
}
