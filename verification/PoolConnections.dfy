/** The calls about leases, connections, time and numbers keep links, ceilings and limits. */
module PoolConnections {
  import opened Base
  import opened PoolTypes
  import opened PoolSchedule
  import opened PoolOps
  import opened PoolLinks
  import opened PoolSteps
  import opened PoolKeeps
  import opened PoolCalls

  // ---------------------------------------------------------------------------------------------------------------
  // Leases
  // ---------------------------------------------------------------------------------------------------------------

  lemma ScopeKeeps(p: Pool, lease: Lease, scope: string, named: bool)
    requires Linked(p)
    ensures Keeps(p, ScopeHttps(p, lease, scope, named).0, {})
  {
    hide Linked, Keeps, Calm;
    KeepsSelf(p);
    if IsLive(p, lease) {
      var c, e := lease.connection, p.entries[lease.connection];
      if named && e.key.scheme == Https && e.identity.Anonymous? {
        var next := e.(identity := Scoped(scope));
        LinkedEntry(p, c);
        if e.state.request.Some? {
          LinkedRequest(p, e.state.request.value);
        }
        ServingCalm(p, c, next);
        CalmKeeps(p, SetEntry(p, c, next), {});
      }
    }
  }

  lemma ReleaseKeeps(p: Pool, lease: Lease, reusable: bool, since: Option<nat>)
    requires Linked(p)
    ensures Keeps(p, ReleaseAt(p, lease, reusable, since).0, {}) && Placed(p, ReleaseAt(p, lease, reusable, since).0)
  {
    hide Linked, Keeps, Scheduled, Calm, Schedule, StartClosing;
    KeepsSelf(p);
    if IsLive(p, lease) && p.entries[lease.connection].state.request.None? {
      var c, e := lease.connection, p.entries[lease.connection];
      if reusable && e.reusable && !Aged(p, e) && !p.stopped {
        var next := e.(owner := None, idleSince := None, state := Idle(if since.Some? then since.value else p.now));
        LinkedEntry(p, c);
        EntryCalm(p, c, next);
        CalmKeeps(p, SetEntry(p, c, next), {});
        ThenSchedule(p, SetEntry(p, c, next), {});
      } else {
        var reason := if !e.reusable then Unproven else if Aged(p, e) && reusable then AgeExpired else Discarded;
        CloseOneKeeps(p, c, reason);
        ThenSchedule(p, StartClosing(p, c, reason), {});
      }
    }
  }

  // ---------------------------------------------------------------------------------------------------------------
  // Disposal
  // ---------------------------------------------------------------------------------------------------------------

  /** An entry that serves no request leaves the table, perhaps for a hold on its slot. */
  lemma GoneCalm(p: Pool, q: Pool, c: int)
    requires Linked(p) && c in p.entries && EntryLink(p, c).None?
    requires q == p.(entries := p.entries - {c}, holds := q.holds)
    requires forall k: int | k in q.holds ::
               (k in p.holds && q.holds[k] == p.holds[k]) || (k == c && q.holds[k].key == p.entries[c].key)
    ensures Calm(p, q, {c})
  {
    EntryGoneEvolves(p, q, c, {c});
    RequestParts(p, 0);
    LinkedParts(p, 0);
    LinkedEntry(p, c);
    Relink(p, q, 0, c);
  }

  lemma DisposeIs(p: Pool, c: int, settle: bool)
    requires c in p.entries
    ensures var q := Dispose(p, c, settle);
            && q == p.(entries := p.entries - {c}, holds := q.holds)
            && forall k: int | k in q.holds ::
                 (k in p.holds && q.holds[k] == p.holds[k]) || (k == c && q.holds[k].key == p.entries[c].key)
  {
    hide NumberFor, EvictorOf;
  }

  lemma DisposeKeeps(p: Pool, c: int, settle: bool)
    requires Linked(p) && c in p.entries && EntryLink(p, c).None?
    ensures Keeps(p, Dispose(p, c, settle), {c})
  {
    hide Linked, Keeps, Calm, Dispose;
    DisposeIs(p, c, settle);
    GoneCalm(p, Dispose(p, c, settle), c);
    CalmKeeps(p, Dispose(p, c, settle), {c});
  }

  lemma ClosedKeeps(p: Pool, c: int)
    requires Linked(p)
    ensures Keeps(p, Closed(p, c).0, if Closed(p, c).1.Ok? then {c} else {}) && Placed(p, Closed(p, c).0)
  {
    hide Linked, Keeps, Scheduled, Dispose, Schedule;
    KeepsSelf(p);
    if Closed(p, c).1.Ok? {
      DisposeKeeps(p, c, true);
      ThenSchedule(p, Dispose(p, c, true), {c});
    }
  }

  lemma IdleClosedKeeps(p: Pool, c: int)
    requires Linked(p)
    ensures Keeps(p, IdleClosed(p, c).0, if IdleClosed(p, c).1.Ok? then {c} else {}) && Placed(p, IdleClosed(p, c).0)
  {
    hide Linked, Keeps, Scheduled, Schedule, Calm;
    KeepsSelf(p);
    if IdleClosed(p, c).1.Ok? {
      var q := p.(entries := p.entries - {c});
      GoneCalm(p, q, c);
      CalmKeeps(p, q, {c});
      ThenSchedule(p, q, {c});
    }
  }

  // ---------------------------------------------------------------------------------------------------------------
  // The end of a connect
  // ---------------------------------------------------------------------------------------------------------------

  /** A connect that failed: the slot is disposed of, and its request with it. */
  lemma RefusedKeeps(p: Pool, c: int, failure: int)
    requires Linked(p) && c in p.entries && p.entries[c].state.Connecting?
    ensures Keeps(p, Finish(p, c, Refused(failure)), {c})
  {
    hide Linked, Keeps, Calm, Dispose;
    var s := p.entries[c].state;
    LinkedEntry(p, c);
    DisposeIs(p, c, s.cancel.Some?);
    if s.request.None? {
      DisposeKeeps(p, c, s.cancel.Some?);
    } else {
      PairGone(p, Finish(p, c, Refused(failure)), s.request.value, c, {c});
      CalmKeeps(p, Finish(p, c, Refused(failure)), {c});
    }
  }

  /** A connect that came too late, or to the wrong identity. */
  lemma TurnedAwayKeeps(p: Pool, c: int, error: Error, reason: CloseReason)
    requires Linked(p) && c in p.entries && p.entries[c].state.Connecting?
    ensures Keeps(p, StartClosing(FailLinked(p, p.entries[c].state.request, error), c, reason), {})
  {
    hide Linked, Keeps, Calm, StartClosing;
    var request := p.entries[c].state.request;
    LinkedEntry(p, c);
    if request.None? {
      CloseOneKeeps(p, c, reason);
    } else {
      var id := request.value;
      LinkedRequest(p, id);
      StartClosingIs(FailLinked(p, request, error), c, reason);
      var r := p.requests[id].(state := Failed(error));
      PairCalm(p, id, r, c, Shut(p, p.entries[c], reason));
      CalmKeeps(p, SetRequest(SetEntry(p, c, Shut(p, p.entries[c], reason)), id, r), {});
      assert StartClosing(FailLinked(p, request, error), c, reason) == SetRequest(SetEntry(p, c, Shut(p, p.entries[c], reason)), id, r);
    }
  }

  /** The connecting entry becomes its request's first lease. */
  lemma GrantCalm(p: Pool, c: int, id: int, reusable: bool)
    requires Linked(p) && c in p.entries && p.entries[c].state.Connecting? && p.entries[c].state.request == Some(id)
    requires p.leaseSerial + 1 <= U64_MAX
    ensures Calm(p, Grant(p, c, id, reusable), {})
  {
    LinkedEntry(p, c);
    LinkedRequest(p, id);
    LinkedParts(p, 0);
    var q := Grant(p, c, id, reusable);
    EntryStepEvolves(p, q, c);
    Relink(p, q, id, c);
  }

  lemma FinishKeeps(p: Pool, c: int, result: Connection)
    requires Linked(p) && c in p.entries && p.entries[c].state.Connecting?
    ensures Keeps(p, Finish(p, c, result), if result.Refused? then {c} else {})
  {
    hide Linked, Keeps, Calm, StartClosing, FailLinked, Dispose, Grant;
    match result
    case Refused(failure) => RefusedKeeps(p, c, failure);
    case Connected(proof) =>
      var s := p.entries[c].state;
      LinkedEntry(p, c);
      var mismatch := proof.Some? && proof.value != p.entries[c].identity;
      if s.cancel.Some? || mismatch {
        TurnedAwayKeeps(p, c, IdentityMismatch, if mismatch then IdentityMismatchReason else CancelledReason);
      } else if p.leaseSerial + 1 <= U64_MAX {
        GrantCalm(p, c, s.request.value, proof.Some?);
        CalmKeeps(p, Grant(p, c, s.request.value, proof.Some?), {});
      } else {
        TurnedAwayKeeps(p, c, CapacityError, Discarded);
        GrantFails(p, c, s.request.value, proof.Some?);
      }
  }

  lemma GrantFails(p: Pool, c: int, id: int, reusable: bool)
    requires c in p.entries && p.leaseSerial + 1 > U64_MAX
    ensures Grant(p, c, id, reusable) == StartClosing(FailLinked(p, Some(id), CapacityError), c, Discarded)
  {
    hide StartClosing, FailLinked;
  }

  /** The connections that a connect's end acknowledges as disposed. */
  function Refusals(p: Pool, c: int, result: Connection): set<int> {
    if ConnectEnds(p, c, result).1.Ok? && result.Refused? then {c} else {}
  }

  lemma ConnectEndsKeeps(p: Pool, c: int, result: Connection)
    requires Linked(p)
    ensures Keeps(p, ConnectEnds(p, c, result).0, Refusals(p, c, result)) && Placed(p, ConnectEnds(p, c, result).0)
  {
    hide Linked, Keeps, Scheduled, FailRequest, Finish, Schedule;
    KeepsSelf(p);
    if c in p.entries && p.entries[c].state.Connecting? && p.entries[c].state.clock.Some? {
      var s := p.entries[c].state;
      var absolute := AbsoluteDeadline(p, s.request);
      if absolute.Some? && p.now >= absolute.value {
        var q := FailRequest(p, s.request.value, ClockError(s.clock.value), CancelledReason);
        FailOneKeeps(p, s.request.value, ClockError(s.clock.value), CancelledReason);
        ThenSchedule(p, q, {});
        MoreGone(p, Schedule(q), Refusals(p, c, result));
      } else {
        FinishKeeps(p, c, result);
        ThenSchedule(p, Finish(p, c, result), if result.Refused? then {c} else {});
      }
    }
  }

  lemma MoreGone(p: Pool, q: Pool, gone: set<int>)
    requires Keeps(p, q, {})
    ensures Keeps(p, q, gone)
  {
    hide Linked, Limited, SessionOk, IsLive, Sent;
  }

  // ---------------------------------------------------------------------------------------------------------------
  // Actions
  // ---------------------------------------------------------------------------------------------------------------

  lemma CleanupKeeps(p: Pool, c: int, cleanup: Cleanup)
    requires Linked(p) && c in p.entries && CleanupOf(p.entries[c].state).Some?
    ensures Keeps(p, SetEntry(p, c, p.entries[c].(state := WithCleanup(p.entries[c].state, cleanup))), {})
  {
    hide Linked, Keeps, Calm;
    LinkedEntry(p, c);
    var next := p.entries[c].(state := WithCleanup(p.entries[c].state, cleanup));
    EntryCalm(p, c, next);
    CalmKeeps(p, SetEntry(p, c, next), {});
  }

  /** A connecting entry's clock changes. */
  lemma ReclockedKeeps(p: Pool, c: int, clock: ConnectClock, interactionMs: nat)
    requires Linked(p) && c in p.entries && p.entries[c].state.Connecting? && p.entries[c].state.cancel.None?
    ensures var e := p.entries[c];
            Keeps(p, SetEntry(p, c, e.(state := e.state.(clock := Some(clock), interactionMs := interactionMs))), {})
  {
    hide Linked, Keeps, Calm;
    LinkedEntry(p, c);
    var e := p.entries[c];
    LinkedRequest(p, e.state.request.value);
    var next := e.(state := e.state.(clock := Some(clock), interactionMs := interactionMs));
    ServingCalm(p, c, next);
    CalmKeeps(p, SetEntry(p, c, next), {});
  }

  lemma NextActionKeeps(p: Pool)
    requires Linked(p)
    ensures Keeps(p, NextAction(p).0, {})
  {
    hide Linked, Keeps, WithCleanup, CleanupOf, AbsoluteDeadline, Sooner;
    KeepsSelf(p);
    match FirstCleanup(p, 1)
    case Some(c) =>
      if c in p.entries && CleanupAction(p, c).Some? {
        CleanupKeeps(p, c, CleanupAction(p, c).value.1);
      }
    case None =>
      match FirstUndispatched(p, 1)
      case Some(c) =>
        if Undispatched(p, c) {
          ReclockedKeeps(p, c, Dispatch(p, c).0.entries[c].state.clock.value, p.entries[c].state.interactionMs);
        }
      case None =>
  }
}
