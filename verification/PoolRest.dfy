/** Between calls the pool is at rest: whatever could be allocated has been, and only a deadline can change that. */
module PoolRest {
  import opened Base
  import opened PoolTypes
  import opened PoolSchedule
  import opened PoolOps
  import opened PoolLinks
  import opened PoolSteps
  import opened PoolKeeps
  import opened PoolCalls
  import opened PoolRuns
  import opened PoolTheorems
  import opened PoolQuiet
  import opened PoolTime

  ghost predicate AtRest(p: Pool) {
    p.stopped || Quiet(p)
  }

  lemma ScheduledRests(q: Pool)
    requires Scheduled(q)
    ensures AtRest(q)
  {
    hide Linked, Quiet, Tightens, Schedule;
    var p: Pool :| Linked(p) && q == Schedule(p);
    if p.stopped {
      StoppedSchedule(p);
    } else {
      ScheduleLeavesNothing(p);
    }
  }

  lemma TightensRests(p: Pool, q: Pool)
    requires Linked(p) && Tightens(p, q) && AtRest(p)
    ensures AtRest(q)
  {
    hide Linked, CanLease, MayOpen, CanEvict;
    if !q.stopped {
      forall id: int ensures !CanLease(q, id) && !MayOpen(q, id) && !CanEvict(q, id) {
        assert !CanLease(p, id) && !MayOpen(p, id) && !CanEvict(p, id);
        StillNoLease(p, q, id);
        StillNoOpen(p, q, id);
        StillNoEvict(p, q, id);
      }
    }
  }

  // ---------------------------------------------------------------------------------------------------------------
  // The calls that do not schedule
  // ---------------------------------------------------------------------------------------------------------------

  lemma TakeTightens(p: Pool, id: int)
    ensures Tightens(p, Take(p, id).0)
  {
    hide Tightens;
    TightensSelf(p);
    if id in p.requests {
      ForgetTightens(p, id);
      if p.requests[id].state.Ready? {
        var c := p.requests[id].state.lease.connection;
        if c in p.entries && p.entries[c].state.Leased? {
          var e := p.entries[c].(state := Leased(p.entries[c].state.lease, None));
          EntryTightens(p, c, e);
          ForgetTightens(SetEntry(p, c, e), id);
          TightensOn(p, SetEntry(p, c, e), Forget(SetEntry(p, c, e), id));
        }
      }
    }
  }

  lemma ForgetTightens(p: Pool, id: int)
    ensures Tightens(p, Forget(p, id))
  {
  }

  /** An entry that is not idle changes, and nothing else. */
  lemma EntryTightens(p: Pool, c: int, e: Entry)
    requires c in p.entries && Tightened(p.entries[c], e)
    ensures Tightens(p, SetEntry(p, c, e))
  {
  }

  lemma NextActionTightens(p: Pool)
    ensures Tightens(p, NextAction(p).0)
  {
    hide Tightens, AbsoluteDeadline, Sooner;
    TightensSelf(p);
    match FirstCleanup(p, 1)
    case Some(c) =>
      if c in p.entries && CleanupAction(p, c).Some? {
        EntryTightens(p, c, p.entries[c].(state := WithCleanup(p.entries[c].state, CleanupAction(p, c).value.1)));
      }
    case None =>
      match FirstUndispatched(p, 1)
      case Some(c) =>
        if Undispatched(p, c) {
          EntryTightens(p, c, Dispatch(p, c).0.entries[c]);
        }
      case None =>
  }

  lemma {:induction false} CloseAllTightens(p: Pool, ids: seq<int>, reason: CloseReason)
    requires forall i | 0 <= i < |ids| :: ids[i] in p.entries ==> !Busy(p.entries[ids[i]])
    ensures Tightens(p, CloseAll(p, ids, reason))
    decreases |ids|
  {
    hide Tightens, StartClosing;
    if ids == [] {
      TightensSelf(p);
    } else {
      var q, rest := StartClosing(p, ids[0], reason), ids[1..];
      StartClosingIs(p, ids[0], reason);
      TightensSelf(p);
      if ids[0] in p.entries && !p.entries[ids[0]].state.Closing? {
        EntryTightens(p, ids[0], Shut(p, p.entries[ids[0]], reason));
      }
      forall i | 0 <= i < |rest| ensures rest[i] in q.entries ==> !Busy(q.entries[rest[i]]) {
        assert rest[i] == ids[i + 1];
      }
      CloseAllTightens(q, rest, reason);
      TightensOn(p, q, CloseAll(p, ids, reason));
    }
  }

  lemma DiscardIdleTightens(p: Pool, site: Site)
    ensures Tightens(p, DiscardIdle(p, site))
  {
    hide Tightens, CloseAll;
    var idle := (e: Entry) => e.state.Idle? && OnSite(e.key, site);
    EntriesToAre(p, idle, p.connectionSerial);
    CloseAllTightens(p, EntriesTo(p, idle, p.connectionSerial), Discarded);
  }

  /** A running connect's clock changes. */
  lemma ReclockTightens(p: Pool, c: int, q: Pool)
    requires Running(p, c)
    requires q == p || (c in q.entries && q == SetEntry(p, c, q.entries[c]) && q.entries[c].state.Connecting?
                        && q.entries[c] == p.entries[c].(state := q.entries[c].state))
    ensures Tightens(p, q)
  {
    hide Tightens;
    TightensSelf(p);
    if q != p {
      EntryTightens(p, c, q.entries[c]);
    }
  }

  lemma InteractionTightens(p: Pool, c: int)
    ensures Tightens(p, BeginInteraction(p, c).0) && Tightens(p, EndInteraction(p, c).0)
  {
    hide Tightens, AbsoluteDeadline, ResumedLimit, Left;
    TightensSelf(p);
    if Running(p, c) {
      ReclockTightens(p, c, BeginInteraction(p, c).0);
      ReclockTightens(p, c, EndInteraction(p, c).0);
    }
  }

  lemma LocalWaitTightens(p: Pool, c: int)
    ensures Tightens(p, BeginLocalWait(p, c).0) && Tightens(p, EndLocalWait(p, c).0)
  {
    hide Tightens, ResumedLimit, Left;
    TightensSelf(p);
    if Running(p, c) {
      ReclockTightens(p, c, BeginLocalWait(p, c).0);
      ReclockTightens(p, c, EndLocalWait(p, c).0);
    }
  }

  lemma SettleTightens(p: Pool, site: Site, ms: nat, named: bool)
    ensures Tightens(p, SetSettle(p, site, ms, named).0)
  {
    TightensSelf(p);
  }

  // ---------------------------------------------------------------------------------------------------------------
  // Scoping a connection that a request waits for
  // ---------------------------------------------------------------------------------------------------------------

  /** Scoping takes effect. */
  predicate TakesScope(p: Pool, lease: Lease, named: bool) {
    && IsLive(p, lease) && named
    && p.entries[lease.connection].key.scheme == Https && p.entries[lease.connection].identity.Anonymous?
  }

  /** The request waits for this connection to come back as it is. */
  predicate WaitsFor(p: Pool, lease: Lease, id: int) {
    IsWaiting(p, id) && PreferWaits(p, id) && p.requests[id].request.prefer == Some(lease.connection)
  }

  /** The request could do nothing even if it stopped waiting. */
  predicate Stuck(p: Pool, id: int)
    requires id in p.requests
  {
    var r := p.requests[id].request;
    || OwnerFull(p, r)
    || (Choice(p, r).None? && Crowded(p, r)
        && (Evicting(p, id) || NoEvict(p, r.key) || Victim(p, r, p.connectionSerial).None?))
  }

  predicate Considerate(p: Pool, lease: Lease, named: bool) {
    TakesScope(p, lease, named) ==> forall id | id in p.requests && WaitsFor(p, lease, id) :: Stuck(p, id)
  }

  predicate CanAct(p: Pool, id: int) {
    CanLease(p, id) || MayOpen(p, id) || CanEvict(p, id)
  }

  lemma StuckIffCannotAct(p: Pool, id: int)
    requires IsWaiting(p, id) && !PreferWaits(p, id) && !p.requests[id].request.freshOnly
    ensures Stuck(p, id) <==> !CanAct(p, id)
  {
    hide OwnerFull, Crowded, Choice, Victim, NoEvict, Evicting, PreferWaits;
  }

  lemma ScopeIs(p: Pool, lease: Lease, scope: string, named: bool)
    ensures var q := ScopeHttps(p, lease, scope, named).0;
            if TakesScope(p, lease, named) then
              q == SetEntry(p, lease.connection, p.entries[lease.connection].(identity := Scoped(scope)))
            else q == p
  {
  }

  lemma ScopeSamePlaces(p: Pool, lease: Lease, scope: string)
    requires IsLive(p, lease)
    ensures SamePlaces(p, SetEntry(p, lease.connection, p.entries[lease.connection].(identity := Scoped(scope))))
  {
  }

  /** After scoping, a request waits for its preferred connection as before, unless that was the anonymous one. */
  lemma ScopedWaits(p: Pool, lease: Lease, scope: string, id: int)
    requires IsLive(p, lease) && p.entries[lease.connection].identity.Anonymous? && IsWaiting(p, id)
    ensures var q := SetEntry(p, lease.connection, p.entries[lease.connection].(identity := Scoped(scope)));
            && (WaitsFor(p, lease, id) ==> !PreferWaits(q, id) && !p.requests[id].request.freshOnly)
            && (!WaitsFor(p, lease, id) && PreferWaits(p, id) ==> PreferWaits(q, id))
  {
  }

  lemma ScopedActs(p: Pool, lease: Lease, scope: string, id: int)
    requires IsLive(p, lease) && p.entries[lease.connection].identity.Anonymous? && IsWaiting(p, id)
    ensures var q := SetEntry(p, lease.connection, p.entries[lease.connection].(identity := Scoped(scope)));
            && (WaitsFor(p, lease, id) ==> (CanAct(q, id) <==> !Stuck(p, id)))
            && (!WaitsFor(p, lease, id) && !CanAct(p, id) ==> !CanAct(q, id))
  {
    hide OwnerFull, Crowded, Choice, Victim, PreferWaits, SamePlaces, WaitsFor;
    var q := SetEntry(p, lease.connection, p.entries[lease.connection].(identity := Scoped(scope)));
    ScopeSamePlaces(p, lease, scope);
    ScopedWaits(p, lease, scope, id);
    SameChances(p, q, p.requests[id].request);
    if WaitsFor(p, lease, id) {
      StuckIffCannotAct(q, id);
    }
  }

  lemma QuietIsNoAct(p: Pool)
    ensures Quiet(p) <==> forall id: int :: !CanAct(p, id)
  {
    hide CanLease, MayOpen, CanEvict;
    if forall id: int :: !CanAct(p, id) {
      forall id: int ensures !CanLease(p, id) && !MayOpen(p, id) && !CanEvict(p, id) {
        assert !CanAct(p, id);
      }
    }
    if Quiet(p) {
      forall id: int ensures !CanAct(p, id) {
        assert !CanLease(p, id) && !MayOpen(p, id) && !CanEvict(p, id);
      }
    }
  }

  /**
   Scoping a connection does not schedule. It leaves the pool quiet if and only if every request that waits for that
   connection to come back, and no longer can, had nothing else to do either.
   */
  lemma ScopingRestsIffConsiderate(p: Pool, lease: Lease, scope: string, named: bool)
    requires Quiet(p)
    ensures Quiet(ScopeHttps(p, lease, scope, named).0) <==> Considerate(p, lease, named)
  {
    hide Quiet, CanAct, Stuck, WaitsFor, ScopeHttps;
    ScopeIs(p, lease, scope, named);
    if TakesScope(p, lease, named) {
      var q := ScopeHttps(p, lease, scope, named).0;
      QuietIsNoAct(p);
      QuietIsNoAct(q);
      forall id: int
        ensures CanAct(q, id) <==> id in p.requests && WaitsFor(p, lease, id) && !Stuck(p, id)
      {
        if IsWaiting(p, id) {
          ScopedActs(p, lease, scope, id);
        } else {
          OnlyWaiters(p, q, lease, id);
        }
      }
    }
  }

  lemma OnlyWaiters(p: Pool, q: Pool, lease: Lease, id: int)
    requires !IsWaiting(p, id) && q.requests == p.requests
    ensures !CanAct(q, id) && !WaitsFor(p, lease, id)
  {
    hide OwnerFull, Crowded, Choice, Victim, NoEvict, Evicting, PreferWaits;
  }

  // ---------------------------------------------------------------------------------------------------------------
  // Every run
  // ---------------------------------------------------------------------------------------------------------------

  predicate ConsiderateCall(p: Pool, call: Call) {
    call.CallScope? ==> Considerate(p, call.lease, call.named)
  }

  predicate ConsiderateRun(config: Config, calls: seq<Call>) {
    calls != [] ==>
      && ConsiderateRun(config, calls[..|calls| - 1])
      && ConsiderateCall(Told(config, calls[..|calls| - 1]).p, calls[|calls| - 1])
  }

  lemma RequestPlaces(p: Pool, r: Request, absolute: Option<nat>)
    requires Linked(p)
    ensures Placed(p, RequestUntil(p, r, absolute).0)
  {
    hide Linked, Scheduled, Evolves, Faithful, Limited, SessionOk, Schedule, NewPending, ValidRequest, Sharing, CeilingsFor;
    if RequestUntil(p, r, absolute).1.Ok? {
      EnrolledLinked(p, r, absolute);
      IsScheduled(Enrolled(p, r, absolute));
    }
  }

  lemma StopStops(p: Pool, error: Error, reason: CloseReason)
    ensures Stop(p, error, reason).stopped
  {
    hide CloseAll, FailAll, EntriesTo, RequestsTo;
    var q := p.(stopped := true, holds := map[]);
    var ids := RequestsTo(q, (_: Pending) => true, q.requestSerial);
    FailAllStays(q, ids, error, reason);
    var r := FailAll(q, ids, error, reason);
    CloseAllStays(r, EntriesTo(r, (e: Entry) => e.state.Idle? || e.state.Leased?, r.connectionSerial), reason);
  }

  lemma FailStays(p: Pool, id: int, error: Error, reason: CloseReason)
    ensures FailRequest(p, id, error, reason).stopped == p.stopped
  {
    hide LetGo;
    if id in p.requests {
      LetGoStays(p, p.requests[id].state, reason);
    }
  }

  lemma LetGoStays(p: Pool, state: RequestState, reason: CloseReason)
    ensures LetGo(p, state, reason).stopped == p.stopped
  {
  }

  lemma {:induction false} FailAllStays(p: Pool, ids: seq<int>, error: Error, reason: CloseReason)
    ensures FailAll(p, ids, error, reason).stopped == p.stopped
    decreases |ids|
  {
    hide FailRequest;
    if ids != [] {
      FailStays(p, ids[0], error, reason);
      FailAllStays(FailRequest(p, ids[0], error, reason), ids[1..], error, reason);
    }
  }

  lemma {:induction false} CloseAllStays(p: Pool, ids: seq<int>, reason: CloseReason)
    ensures CloseAll(p, ids, reason).stopped == p.stopped
    decreases |ids|
  {
    if ids != [] {
      CloseAllStays(StartClosing(p, ids[0], reason), ids[1..], reason);
    }
  }

  lemma PlacedRests(p: Pool, q: Pool)
    requires Placed(p, q) && AtRest(p)
    ensures AtRest(q)
  {
    hide Scheduled, AtRest;
    if q != p {
      ScheduledRests(q);
    }
  }

  lemma AbandonRests(p: Pool, id: int)
    requires Linked(p) && AtRest(p)
    ensures AtRest(Abandon(p, id))
  {
    hide Linked, AtRest, Cancel, Keeps, Placed, Tightens;
    var q := Cancel(p, id).0;
    CancelKeeps(p, id);
    PlacedRests(p, q);
    KeepsIsLinked(p, q, {});
    ForgetTightens(q, id);
    TightensRests(q, Forget(q, id));
  }

  lemma ScopeRests(p: Pool, lease: Lease, scope: string, named: bool)
    requires AtRest(p) && Considerate(p, lease, named)
    ensures AtRest(ScopeHttps(p, lease, scope, named).0)
  {
    hide Quiet, Considerate;
    if Quiet(p) {
      ScopingRestsIffConsiderate(p, lease, scope, named);
    }
  }

  /** The calls that neither schedule nor stop. */
  lemma PlainCallRests(p: Pool, call: Call)
    requires Linked(p) && AtRest(p)
    requires call.CallTake? || call.CallDiscardIdle? || call.CallNextAction? || call.CallSetSettle? || call.CallBeginInteraction?
             || call.CallEndInteraction? || call.CallBeginLocalWait? || call.CallEndLocalWait?
    ensures AtRest(Apply(p, call))
  {
    hide Linked, AtRest, Tightens, Take, DiscardIdle, NextAction, SetSettle;
    hide BeginInteraction, EndInteraction, BeginLocalWait, EndLocalWait;
    hide RequestUntil, Cancel, CancelMatching, RetireScope, ReleaseAt, ReleaseUnused, Closed, IdleClosed;
    hide ConnectEnds, ExpireIdle, Advance, SetLimit, ClearLimit, SetNoEvict, Abandon, ScopeHttps, ShutDown, LoseDriver;
    match call {
      case CallTake(id) => TakeTightens(p, id);
      case CallDiscardIdle(site) => DiscardIdleTightens(p, site);
      case CallNextAction => NextActionTightens(p);
      case CallSetSettle(site, ms, named) => SettleTightens(p, site, ms, named);
      case CallBeginInteraction(c) => InteractionTightens(p, c);
      case CallEndInteraction(c) => InteractionTightens(p, c);
      case CallBeginLocalWait(c) => LocalWaitTightens(p, c);
      case CallEndLocalWait(c) => LocalWaitTightens(p, c);
    }
    TightensRests(p, Apply(p, call));
  }

  lemma StoppingRests(p: Pool, call: Call)
    requires call.CallShutdown? || call.CallLoseDriver?
    ensures AtRest(Apply(p, call))
  {
    hide Stop;
    StopStops(p, Shutdown, ShutdownReason);
    StopStops(p.(driverLost := true), DriverLost, DriverLostReason);
  }

  lemma CallRests(p: Pool, call: Call)
    requires Linked(p) && AtRest(p) && ConsiderateCall(p, call)
    ensures AtRest(Apply(p, call))
  {
    hide Linked, AtRest, Placed, Considerate, Kept, Safe, Faithful, Abandon, ScopeHttps, RequestUntil;
    if call.CallRequest? {
      RequestPlaces(p, call.request, call.absolute);
      RequestApplies(p, call);
      PlacedRests(p, Apply(p, call));
    } else if Schedules(call) {
      CallKeeps(p, call);
      PlacedRests(p, Apply(p, call));
    } else if call.CallShutdown? || call.CallLoseDriver? {
      StoppingRests(p, call);
    } else if call.CallAbandon? {
      AbandonRests(p, call.id);
    } else if call.CallScope? {
      ScopeRests(p, call.lease, call.scope, call.named);
    } else {
      PlainCallRests(p, call);
    }
  }

  lemma NewPoolRests(config: Config)
    ensures AtRest(NewPool(config))
  {
  }

  /** After every call of a run, no waiting request could lease an idle connection, open one or evict one. */
  lemma {:induction false} AlwaysAtRest(config: Config, calls: seq<Call>)
    requires ConsiderateRun(config, calls)
    ensures AtRest(Told(config, calls).p)
  {
    hide Linked, AtRest, Apply, ConsiderateCall, Acknowledged, Dispatched;
    if calls == [] {
      NewPoolRests(config);
    } else {
      var before := calls[..|calls| - 1];
      AlwaysAtRest(config, before);
      AlwaysLinked(config, before);
      CallRests(Told(config, before).p, calls[|calls| - 1]);
    }
  }

  /** And until the deadline that it reports, time changes nothing in it but the time. */
  lemma DeadlinesMissNothing(config: Config, calls: seq<Call>, t: nat)
    requires ConsiderateRun(config, calls)
    requires var p := Told(config, calls).p; p.now <= t && Ahead(t, NextDeadline(p))
    ensures var p := Told(config, calls).p; Advance(p, t) == p.(now := t)
  {
    hide Linked, Quiet, Told, ConsiderateRun, Ahead, NextDeadline, Advance;
    AlwaysLinked(config, calls);
    AlwaysAtRest(config, calls);
    NothingHappensBeforeTheDeadline(Told(config, calls).p, t);
  }
}
