/**
 First come, first served: whatever a pass does for a later request, the earlier one could not have it at its own turn,
 while the later one was still waiting.
 */
module PoolFair {
  import opened PoolTypes
  import opened PoolSchedule
  import opened PoolLinks
  import opened PoolSteps
  import opened PoolKeeps
  import opened PoolCalls
  import opened PoolQuiet

  predicate Rising(ids: seq<int>) {
    forall i, j | 0 <= i < j < |ids| :: ids[i] < ids[j]
  }

  lemma {:induction false} WaitingRise(p: Pool, n: int)
    ensures Rising(WaitingTo(p, n)) && forall id | id in WaitingTo(p, n) :: id <= n
    decreases if n < 0 then 0 else n
  {
    hide IsWaiting;
    if n > 0 {
      WaitingRise(p, n - 1);
      RisingAppend(WaitingTo(p, n - 1), n);
    }
  }

  lemma RisingAppend(ids: seq<int>, n: int)
    requires Rising(ids) && forall id | id in ids :: id < n
    ensures Rising(ids + [n])
  {
    forall i, j | 0 <= i < j < |ids + [n]| ensures (ids + [n])[i] < (ids + [n])[j] {
      assert ids[i] in ids;
    }
  }

  /** The requests whose turn comes before that of `id`. */
  function Ahead(ids: seq<int>, id: int): (r: seq<int>)
    ensures forall i | i in r :: i in ids && i != id
    decreases |ids|
  {
    if ids == [] || ids[0] == id then [] else [ids[0]] + Ahead(ids[1..], id)
  }

  lemma {:induction false} AheadIsLess(ids: seq<int>, id: int)
    requires Rising(ids) && id in ids
    ensures forall i | i in Ahead(ids, id) :: i < id
    decreases |ids|
  {
    if ids[0] != id {
      AheadIsLess(ids[1..], id);
      var k :| 0 <= k < |ids| && ids[k] == id;
      assert ids[0] < ids[k];
    }
  }

  /** The request has been given the connection. */
  predicate Given(p: Pool, id: int, c: int) {
    id in p.requests && p.requests[id].state.Ready? && p.requests[id].state.lease.connection == c
  }

  /** Why a waiting request was not given an idle connection. */
  predicate NotFor(p: Pool, id: int, c: int, e: Entry)
    requires id in p.requests
  {
    var r := p.requests[id].request;
    r.freshOnly || OwnerFull(p, r) || PreferWaits(p, id) || !Compatible(r, c, e)
  }

  /** Only one request at a time is given a connection. */
  lemma GivenOnce(p: Pool, i: int, j: int, c: int)
    requires Linked(p) && Given(p, i, c) && Given(p, j, c) && c in p.entries && p.entries[c].state.Leased?
    ensures i == j
  {
    hide Linked;
    LinkedRequest(p, i);
    LinkedRequest(p, j);
  }

  /** A request that keeps waiting through its own turn was not eligible. */
  lemma TurnPassed(p: Pool, id: int, c: int)
    requires Linked(p) && IsWaiting(p, id) && IsIdle(p, c) && IsWaiting(ReuseFor(p, id), id)
    ensures NotFor(p, id, c, p.entries[c])
  {
    hide Linked, OwnerFull, PreferWaits, Compatible;
    LinkedEntry(p, c);
    if MayLease(p, id) {
      assert Choice(p, p.requests[id].request).None?;
      assert !Leasable(p, p.requests[id].request, c);
    }
  }

  /** What another request's turn leaves: this one, and an idle connection unless it was given away. */
  lemma TurnLeaves(p: Pool, h: int, id: int, c: int)
    requires id != h && IsIdle(p, c)
    ensures var q := ReuseFor(p, h);
            && (id in q.requests <==> id in p.requests) && (id in p.requests ==> q.requests[id] == p.requests[id])
            && c in q.entries && (q.entries[c] == p.entries[c] || (Given(q, h, c) && q.entries[c].state.Leased?))
  {
    hide OwnerFull, PreferWaits, Compatible;
  }

  /** At that turn both requests wait, the connection is idle, and it is not one for the first. */
  predicate PassedOver(turn: Pool, i: int, j: int, c: int) {
    IsWaiting(turn, i) && IsWaiting(turn, j) && IsIdle(turn, c) && NotFor(turn, i, c, turn.entries[c])
  }

  lemma {:induction false} ReuseIsFair(p: Pool, ids: seq<int>, i: int, j: int, c: int)
    requires Linked(p) && Rising(ids) && i in ids && i < j && IsWaiting(p, i) && IsWaiting(p, j) && IsIdle(p, c)
    requires var q := ReuseAll(p, ids); IsWaiting(q, i) && Given(q, j, c)
    ensures PassedOver(ReuseAll(p, Ahead(ids, i)), i, j, c)
    decreases |ids|
  {
    hide Linked, Tightens, NotFor, ReuseFor, Keeps, Given;
    var h, rest := ids[0], ids[1..];
    var p1, q := ReuseFor(p, h), ReuseAll(p, ids);
    assert ids == [h] + rest;
    ReuseForKeeps(p, h);
    KeepsIsLinked(p, p1, {});
    ReuseTightens(p, h);
    ReuseAllSettles(p1, rest);
    WaitedBefore(p1, q, i);
    if h == i {
      TurnPassed(p, i, c);
    } else {
      TurnLeaves(p, h, i, c);
      TurnLeaves(p, h, j, c);
      if p1.entries[c] == p.entries[c] {
        SameWaits(p, p1, j);
        SameIdleEntry(p, p1, c);
        ReuseIsFair(p1, rest, i, j, c);
        assert Ahead(ids, i)[1..] == Ahead(rest, i);
      } else {
        ReuseAllLeaves(p1, rest, h);
        GivenStays(p1, q, h, c);
        GivenOnce(q, h, j, c);
        assert false;
      }
    }
  }

  lemma WaitedBefore(p: Pool, q: Pool, id: int)
    requires Tightens(p, q) && IsWaiting(q, id)
    ensures IsWaiting(p, id)
  {
    hide Evicting;
  }

  lemma SameWaits(p: Pool, q: Pool, id: int)
    requires IsWaiting(p, id) && id in q.requests && q.requests[id] == p.requests[id]
    ensures IsWaiting(q, id)
  {
  }

  lemma SameIdleEntry(p: Pool, q: Pool, c: int)
    requires IsIdle(p, c) && c in q.entries && q.entries[c] == p.entries[c]
    ensures IsIdle(q, c)
  {
  }

  lemma GivenStays(p: Pool, q: Pool, h: int, c: int)
    requires Given(p, h, c) && c in p.entries && p.entries[c].state.Leased? && Tightens(p, q) && Leaves(p, q, h)
    ensures Given(q, h, c) && c in q.entries && q.entries[c].state.Leased?
  {
    hide Evicting;
  }

  // ---------------------------------------------------------------------------------------------------------------
  // The rest of the pass gives nothing
  // ---------------------------------------------------------------------------------------------------------------

  lemma OpenGivesNothing(p: Pool, h: int, id: int, c: int)
    ensures Given(OpenFor(p, h), id, c) ==> Given(p, id, c)
  {
    hide OwnerFull, PreferWaits, Crowded, NewEntry;
  }

  lemma EvictGivesNothing(p: Pool, h: int, id: int, c: int)
    ensures Given(EvictFor(p, h), id, c) ==> Given(p, id, c)
  {
    hide OwnerFull, PreferWaits, NoEvict, Evictable;
  }

  lemma {:induction false} OpenAllGivesNothing(p: Pool, ids: seq<int>, id: int, c: int)
    ensures Given(OpenAll(p, ids), id, c) ==> Given(p, id, c)
    decreases |ids|
  {
    hide OpenFor, Given;
    if ids != [] {
      OpenGivesNothing(p, ids[0], id, c);
      OpenAllGivesNothing(OpenFor(p, ids[0]), ids[1..], id, c);
    }
  }

  lemma {:induction false} EvictAllGivesNothing(p: Pool, ids: seq<int>, id: int, c: int)
    ensures Given(EvictAll(p, ids), id, c) ==> Given(p, id, c)
    decreases |ids|
  {
    hide EvictFor, Given;
    if ids != [] {
      EvictGivesNothing(p, ids[0], id, c);
      EvictAllGivesNothing(EvictFor(p, ids[0]), ids[1..], id, c);
    }
  }

  lemma ReuseOpensNothing(p: Pool, h: int, id: int)
    ensures IsOpening(ReuseFor(p, h), id) ==> IsOpening(p, id)
  {
    hide OwnerFull, PreferWaits, Compatible;
  }

  lemma {:induction false} ReuseAllOpensNothing(p: Pool, ids: seq<int>, id: int)
    ensures IsOpening(ReuseAll(p, ids), id) ==> IsOpening(p, id)
    decreases |ids|
  {
    hide ReuseFor, IsOpening;
    if ids != [] {
      ReuseOpensNothing(p, ids[0], id);
      ReuseAllOpensNothing(ReuseFor(p, ids[0]), ids[1..], id);
    }
  }

  predicate IsOpening(p: Pool, id: int) {
    id in p.requests && p.requests[id].state.Opening?
  }

  /** A request that a pass leaves waiting or opening still waits when the leases have been given out. */
  lemma StillWaits(p: Pool, ids: seq<int>, id: int)
    requires var q := EvictAll(OpenAll(ReuseAll(p, ids), ids), ids); IsWaiting(q, id) || IsOpening(q, id)
    requires IsWaiting(p, id)
    ensures IsWaiting(ReuseAll(p, ids), id)
  {
    hide ReuseAll, OpenAll, EvictAll;
    var p1 := ReuseAll(p, ids);
    RequestStays(p, ids, id);
    ReuseAllOpensNothing(p, ids, id);
    OpenAllLeaves(p1, ids, id);
    EvictAllLeaves(OpenAll(p1, ids), ids, id);
  }

  /**
   If a pass gives an idle connection to a request while an earlier one is left waiting or has to open a new one, then
   the earlier one could not have it when its turn came, and the later one had not been served: the earlier one wanted
   a fresh connection, or its owner was full, or it waited for a preferred one, or this one does not suit it.
   */
  lemma FirstComeFirstServed(p: Pool, i: int, j: int, c: int)
    requires Linked(p) && !p.stopped && i < j && IsWaiting(p, i) && IsWaiting(p, j) && IsIdle(p, c)
    requires (IsWaiting(Schedule(p), i) || IsOpening(Schedule(p), i)) && Given(Schedule(p), j, c)
    ensures PassedOver(ReuseAll(p, Ahead(WaitingTo(p, p.requestSerial), i)), i, j, c)
  {
    hide Linked, Given, IsWaiting, IsOpening, IsIdle, ReuseAll, OpenAll, EvictAll, PassedOver;
    var ids := WaitingTo(p, p.requestSerial);
    var p1 := ReuseAll(p, ids);
    var p2 := OpenAll(p1, ids);
    EvictAllGivesNothing(p2, ids, j, c);
    OpenAllGivesNothing(p1, ids, j, c);
    WaitingRise(p, p.requestSerial);
    WaitingToAre(p, p.requestSerial);
    WaitsInRange(p, i);
    StillWaits(p, ids, i);
    ReuseIsFair(p, ids, i, j, c);
  }

  lemma {:induction false} RequestStays(p: Pool, ids: seq<int>, id: int)
    requires id in p.requests
    ensures id in ReuseAll(p, ids).requests
    decreases |ids|
  {
    hide ReuseFor;
    if ids != [] {
      TurnKeeps(p, ids[0], id);
      RequestStays(ReuseFor(p, ids[0]), ids[1..], id);
    }
  }

  lemma TurnKeeps(p: Pool, h: int, id: int)
    requires id in p.requests
    ensures id in ReuseFor(p, h).requests
  {
    hide OwnerFull, PreferWaits, Compatible;
  }

  // ---------------------------------------------------------------------------------------------------------------
  // New connections, in the same order
  // ---------------------------------------------------------------------------------------------------------------

  /** A request that still waits after its own turn to open could not open. */
  lemma OpenTurnPassed(p: Pool, id: int)
    requires IsWaiting(OpenFor(p, id), id)
    ensures IsWaiting(p, id) && !MayOpen(p, id)
  {
    hide OwnerFull, PreferWaits, Crowded, NewEntry;
  }

  lemma OpenTurnLeaves(p: Pool, h: int, id: int)
    requires id != h
    ensures IsWaiting(OpenFor(p, h), id) <==> IsWaiting(p, id)
  {
    hide OwnerFull, PreferWaits, Crowded, NewEntry;
  }

  lemma {:induction false} OpenIsFair(p: Pool, ids: seq<int>, i: int)
    requires i in ids && IsWaiting(OpenAll(p, ids), i)
    ensures var turn := OpenAll(p, Ahead(ids, i)); IsWaiting(turn, i) && !MayOpen(turn, i)
    decreases |ids|
  {
    hide OpenFor, MayOpen, IsWaiting;
    if ids[0] == i {
      OpenAllWaited(OpenFor(p, i), ids[1..], i);
      OpenTurnPassed(p, i);
    } else {
      assert i in ids[1..];
      OpenIsFair(OpenFor(p, ids[0]), ids[1..], i);
      assert Ahead(ids, i)[1..] == Ahead(ids[1..], i);
    }
  }

  lemma {:induction false} OpenAllWaited(p: Pool, ids: seq<int>, id: int)
    requires IsWaiting(OpenAll(p, ids), id)
    ensures IsWaiting(p, id)
    decreases |ids|
  {
    hide OpenFor, IsWaiting;
    if ids != [] {
      OpenAllWaited(OpenFor(p, ids[0]), ids[1..], id);
      if ids[0] == id {
        OpenTurnPassed(p, id);
      } else {
        OpenTurnLeaves(p, ids[0], id);
      }
    }
  }

  lemma {:induction false} OthersStillWait(p: Pool, ids: seq<int>, id: int)
    requires IsWaiting(p, id) && id !in ids
    ensures IsWaiting(OpenAll(p, ids), id)
    decreases |ids|
  {
    hide OpenFor, IsWaiting;
    if ids != [] {
      OpenTurnLeaves(p, ids[0], id);
      OthersStillWait(OpenFor(p, ids[0]), ids[1..], id);
    }
  }

  /**
   If a pass opens a connection for a request while an earlier one is left waiting, then the earlier one could not have
   opened one when its turn came, and the later one had not been served.
   */
  lemma OpenedInOrder(p: Pool, i: int, j: int)
    requires Linked(p) && !p.stopped && i < j && IsWaiting(p, i) && IsWaiting(p, j)
    requires IsWaiting(Schedule(p), i) && IsOpening(Schedule(p), j)
    ensures var ids := WaitingTo(p, p.requestSerial);
            var turn := OpenAll(ReuseAll(p, ids), Ahead(ids, i));
            IsWaiting(turn, i) && IsWaiting(turn, j) && !MayOpen(turn, i)
  {
    hide Linked, Tightens, IsWaiting, IsOpening, ReuseAll, OpenAll, EvictAll, MayOpen, CanLease, CanEvict;
    var ids := WaitingTo(p, p.requestSerial);
    var p1 := ReuseAll(p, ids);
    ReuseAllSettles(p, ids);
    var p2 := OpenAll(p1, ids);
    OpenAllSettles(p1, ids);
    EvictAllSettles(p2, ids);
    WaitedBefore(p2, EvictAll(p2, ids), i);
    WaitingRise(p, p.requestSerial);
    WaitingToAre(p, p.requestSerial);
    WaitsInRange(p, i);
    OpenIsFair(p1, ids, i);
    AheadIsLess(ids, i);
    StillWaits(p, ids, j);
    OthersStillWait(p1, Ahead(ids, i), j);
  }
}
