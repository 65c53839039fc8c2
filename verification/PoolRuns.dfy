/** The pool over every run: links, ceilings, limits, leases and disposals. */
module PoolRuns {
  import opened Base
  import opened PoolTypes
  import opened PoolSchedule
  import opened PoolOps
  import opened PoolLinks
  import opened PoolSteps
  import opened PoolKeeps
  import opened PoolCalls
  import opened PoolConnections

  // ---------------------------------------------------------------------------------------------------------------
  // Time, stopping and numbers
  // ---------------------------------------------------------------------------------------------------------------

  lemma ExpireIdleKeeps(p: Pool)
    requires Linked(p)
    ensures Keeps(p, ExpireIdle(p), {}) && Scheduled(ExpireIdle(p))
  {
    hide Linked, Keeps, Scheduled, CloseAll, Schedule;
    var idle := (e: Entry) => e.state.Idle?;
    CloseWhereKeeps(p, idle, IdleExpired);
    ThenSchedule(p, CloseAll(p, EntriesTo(p, idle, p.connectionSerial), IdleExpired), {});
  }

  lemma DiscardIdleKeeps(p: Pool, site: Site)
    requires Linked(p)
    ensures Keeps(p, DiscardIdle(p, site), {})
  {
    hide Linked, Keeps, CloseAll, OnSite;
    CloseWhereKeeps(p, (e: Entry) => e.state.Idle? && OnSite(e.key, site), Discarded);
  }

  lemma StopKeeps(p: Pool, error: Error, reason: CloseReason)
    requires Linked(p)
    ensures Keeps(p, Stop(p, error, reason), {})
  {
    hide Linked, Keeps, FailAll, CloseAll, Calm;
    var q := p.(stopped := true, holds := map[]);
    SameCalm(p, q);
    CalmKeeps(p, q, {});
    KeepsIsLinked(p, q, {});
    var everybody := (_: Pending) => true;
    var ids := RequestsTo(q, everybody, q.requestSerial);
    var r := FailAll(q, ids, error, reason);
    FailAllKeeps(q, ids, error, reason);
    KeepsIsLinked(q, r, {});
    RequestsToAre(q, everybody, q.requestSerial);
    FailAllKeys(q, ids, error, reason);
    var held := (e: Entry) => e.state.Idle? || e.state.Leased?;
    forall c | c in r.entries && held(r.entries[c]) ensures EntryLink(r, c).None? {
      LinkedEntry(r, c);
      if EntryLink(r, c).Some? {
        var id := EntryLink(r, c).value;
        assert id in q.requests.Keys;
        LinkedRequest(q, id);
        FailAllFails(q, ids, error, reason, id);
        assert false;
      }
    }
    CloseWhereKeeps(r, held, reason);
    KeepsThen(p, q, r, {});
    KeepsThen(p, r, CloseAll(r, EntriesTo(r, held, r.connectionSerial), reason), {});
  }

  lemma LoseDriverKeeps(p: Pool)
    requires Linked(p)
    ensures Keeps(p, LoseDriver(p), {})
  {
    hide Linked, Keeps, Stop, Calm;
    var q := p.(driverLost := true);
    SameCalm(p, q);
    CalmKeeps(p, q, {});
    KeepsIsLinked(p, q, {});
    StopKeeps(q, DriverLost, DriverLostReason);
    KeepsThen(p, q, Stop(q, DriverLost, DriverLostReason), {});
  }

  lemma {:induction false} OutlivedToAre(p: Pool, n: int)
    ensures forall i | 0 <= i < |OutlivedTo(p, n)| :: IsIdle(p, OutlivedTo(p, n)[i].connection)
    decreases if n < 0 then 0 else n
  {
    if n > 0 {
      OutlivedToAre(p, n - 1);
    }
  }

  lemma LapseKeeps(p: Pool)
    requires Linked(p)
    ensures Keeps(p, LapseHolds(p), {})
  {
    hide Linked, Keeps, OpenAll, Calm;
    var lapsed := LapsedTo(p, p.connectionSerial);
    var q := p.(holds := p.holds - (set c | c in lapsed));
    SameCalm(p, q);
    CalmKeeps(p, q, {});
    KeepsIsLinked(p, q, {});
    OpenAllKeeps(q, Evictors(p, lapsed));
    KeepsThen(p, q, OpenAll(q, Evictors(p, lapsed)), {});
  }

  lemma AdvanceKeeps(p: Pool, now: nat)
    requires Linked(p)
    ensures Keeps(p, Advance(p, now), {}) && Placed(p, Advance(p, now))
  {
    hide Linked, Keeps, Scheduled, FailEach, CloseEach, LapseHolds, Schedule, Calm;
    KeepsSelf(p);
    if now >= p.now {
      var q := p.(now := now);
      SameCalm(p, q);
      CalmKeeps(p, q, {});
      KeepsIsLinked(p, q, {});
      var r := FailEach(q, OverdueTo(q, q.requestSerial));
      FailEachKeeps(q, OverdueTo(q, q.requestSerial));
      KeepsIsLinked(q, r, {});
      var list := OutlivedTo(r, r.connectionSerial);
      OutlivedToAre(r, r.connectionSerial);
      forall i | 0 <= i < |list| ensures EntryLink(r, list[i].connection).None? {
        assert IsIdle(r, list[i].connection);
      }
      CloseEachKeeps(r, list);
      var t := CloseEach(r, list);
      KeepsIsLinked(r, t, {});
      LapseKeeps(t);
      KeepsThen(p, q, r, {});
      KeepsThen(p, r, t, {});
      KeepsThen(p, t, LapseHolds(t), {});
      ThenSchedule(p, LapseHolds(t), {});
    }
  }

  /** The same entry with another clock: the shape of every pause and resumption. */
  lemma ClockChangeKeeps(p: Pool, q: Pool, c: int)
    requires Linked(p) && Running(p, c)
    requires q == p || (c in q.entries && q.entries[c].state.Connecting? && q.entries[c].state.clock.Some?
                        && var e, s := p.entries[c], q.entries[c].state;
                           q == SetEntry(p, c, e.(state := e.state.(clock := Some(s.clock.value), interactionMs := s.interactionMs))))
    ensures Keeps(p, q, {})
  {
    hide Linked, Keeps;
    if q == p {
      KeepsSelf(p);
    } else {
      ReclockedKeeps(p, c, q.entries[c].state.clock.value, q.entries[c].state.interactionMs);
    }
  }

  lemma InteractionKeeps(p: Pool, c: int)
    requires Linked(p)
    ensures Keeps(p, BeginInteraction(p, c).0, {}) && Keeps(p, EndInteraction(p, c).0, {})
  {
    hide Linked, Keeps, AbsoluteDeadline, Left, ResumedLimit;
    KeepsSelf(p);
    if Running(p, c) {
      ClockChangeKeeps(p, BeginInteraction(p, c).0, c);
      ClockChangeKeeps(p, EndInteraction(p, c).0, c);
    }
  }

  lemma LocalWaitKeeps(p: Pool, c: int)
    requires Linked(p)
    ensures Keeps(p, BeginLocalWait(p, c).0, {}) && Keeps(p, EndLocalWait(p, c).0, {})
  {
    hide Linked, Keeps, Left, ResumedLimit;
    KeepsSelf(p);
    if Running(p, c) {
      ClockChangeKeeps(p, BeginLocalWait(p, c).0, c);
      ClockChangeKeeps(p, EndLocalWait(p, c).0, c);
    }
  }

  /** New numbers and then a scheduling pass. */
  lemma NumbersKeep(p: Pool, q: Pool)
    requires Linked(p) && q == p.(limits := q.limits, settles := q.settles, noEvicts := q.noEvicts)
    ensures Keeps(p, q, {}) && Keeps(p, Schedule(q), {}) && Scheduled(Schedule(q))
  {
    hide Linked, Keeps, Scheduled, Calm, Schedule;
    SameCalm(p, q);
    CalmKeeps(p, q, {});
    ThenSchedule(p, q, {});
  }

  // ---------------------------------------------------------------------------------------------------------------
  // Runs
  // ---------------------------------------------------------------------------------------------------------------

  datatype Call =
    | CallRequest(request: Request, absolute: Option<nat>)
    | CallTake(id: int)
    | CallCancel(id: int)
    | CallAbandon(id: int)
    | CallCancelMatching(owner: OwnerMatch)
    | CallScope(lease: Lease, scope: string, named: bool)
    | CallRetireScope(scope: string)
    | CallRelease(lease: Lease, reusable: bool)
    | CallReleaseUnused(lease: Lease)
    | CallClosed(connection: int)
    | CallIdleClosed(connection: int)
    | CallConnected(connection: int, result: Connection)
    | CallExpireIdle
    | CallDiscardIdle(site: Site)
    | CallShutdown
    | CallLoseDriver
    | CallNextAction
    | CallAdvance(now: nat)
    | CallBeginInteraction(connection: int)
    | CallEndInteraction(connection: int)
    | CallBeginLocalWait(connection: int)
    | CallEndLocalWait(connection: int)
    | CallSetLimit(site: Site, limit: nat, named: bool)
    | CallClearLimit(site: Site)
    | CallSetSettle(site: Site, ms: nat, named: bool)
    | CallSetNoEvict(site: Site, on: bool, named: bool)

  function Apply(p: Pool, call: Call): Pool {
    match call
    case CallRequest(request, absolute) => RequestUntil(p, request, absolute).0
    case CallTake(id) => Take(p, id).0
    case CallCancel(id) => Cancel(p, id).0
    case CallAbandon(id) => Abandon(p, id)
    case CallCancelMatching(owner) => CancelMatching(p, owner)
    case CallScope(lease, scope, named) => ScopeHttps(p, lease, scope, named).0
    case CallRetireScope(scope) => RetireScope(p, scope)
    case CallRelease(lease, reusable) => ReleaseAt(p, lease, reusable, None).0
    case CallReleaseUnused(lease) => ReleaseUnused(p, lease).0
    case CallClosed(c) => Closed(p, c).0
    case CallIdleClosed(c) => IdleClosed(p, c).0
    case CallConnected(c, result) => ConnectEnds(p, c, result).0
    case CallExpireIdle => ExpireIdle(p)
    case CallDiscardIdle(site) => DiscardIdle(p, site)
    case CallShutdown => ShutDown(p)
    case CallLoseDriver => LoseDriver(p)
    case CallNextAction => NextAction(p).0
    case CallAdvance(now) => Advance(p, now)
    case CallBeginInteraction(c) => BeginInteraction(p, c).0
    case CallEndInteraction(c) => EndInteraction(p, c).0
    case CallBeginLocalWait(c) => BeginLocalWait(p, c).0
    case CallEndLocalWait(c) => EndLocalWait(p, c).0
    case CallSetLimit(site, limit, named) => SetLimit(p, site, limit, named).0
    case CallClearLimit(site) => ClearLimit(p, site)
    case CallSetSettle(site, ms, named) => SetSettle(p, site, ms, named).0
    case CallSetNoEvict(site, on, named) => SetNoEvict(p, site, on, named).0
  }

  /** The connection that the call acknowledges as disposed. */
  function Acknowledged(p: Pool, call: Call): set<int> {
    match call
    case CallClosed(c) => if Closed(p, c).1.Ok? then {c} else {}
    case CallIdleClosed(c) => if IdleClosed(p, c).1.Ok? then {c} else {}
    case CallConnected(c, result) => Refusals(p, c, result)
    case _ => {}
  }

  /** Retiring a credential breaks no link: nothing in its scope serves a request. */
  predicate SafeToRetire(p: Pool, scope: string) {
    forall c | c in p.entries && p.entries[c].identity == Scoped(scope) :: EntryLink(p, c).None?
  }

  predicate Safe(p: Pool, call: Call) {
    call.CallRetireScope? ==> SafeToRetire(p, call.scope)
  }

  lemma RetireKept(p: Pool, scope: string)
    requires Linked(p)
    ensures Kept(p, RetireScope(p, scope), {}) && Scheduled(RetireScope(p, scope))
    ensures SafeToRetire(p, scope) ==> Faithful(p, RetireScope(p, scope))
  {
    hide Linked, Kept, Faithful, Scheduled, CloseAll, Schedule;
    var scoped := (e: Entry) => e.identity == Scoped(scope);
    var ids := EntriesTo(p, scoped, p.connectionSerial);
    var q := CloseAll(p, ids, CancelledReason);
    CloseAllKept(p, ids, CancelledReason);
    KeptIsLinked(p, q, {});
    IsScheduled(q);
    ScheduleKeeps(q);
    KeptThen(p, q, Schedule(q), {});
    if SafeToRetire(p, scope) {
      CloseWhereKeeps(p, scoped, CancelledReason);
      ThenSchedule(p, q, {});
    }
  }

  /** The calls that end in a scheduling pass unless they are refused. */
  predicate Schedules(call: Call) {
    || call.CallRequest? || call.CallCancel? || call.CallCancelMatching? || call.CallRetireScope? || call.CallRelease?
    || call.CallReleaseUnused? || call.CallClosed? || call.CallIdleClosed? || call.CallConnected? || call.CallExpireIdle?
    || call.CallAdvance? || call.CallSetLimit? || call.CallClearLimit? || call.CallSetNoEvict?
  }

  lemma SetLimitKeeps(p: Pool, site: Site, limit: nat, named: bool)
    requires Linked(p)
    ensures Keeps(p, SetLimit(p, site, limit, named).0, {}) && Placed(p, SetLimit(p, site, limit, named).0)
  {
    hide Linked, Keeps, Scheduled, Schedule, SetNumber;
    KeepsSelf(p);
    NumbersKeep(p, p.(limits := SetNumber(p.limits, site, limit)));
  }

  lemma ClearLimitKeeps(p: Pool, site: Site)
    requires Linked(p)
    ensures Keeps(p, ClearLimit(p, site), {}) && Scheduled(ClearLimit(p, site))
  {
    hide Linked, Keeps, Scheduled, Schedule, WithoutNumber;
    NumbersKeep(p, p.(limits := WithoutNumber(p.limits, site)));
  }

  lemma SetSettleKeeps(p: Pool, site: Site, ms: nat, named: bool)
    requires Linked(p)
    ensures Keeps(p, SetSettle(p, site, ms, named).0, {})
  {
    hide Linked, Keeps, Scheduled, Schedule, SetNumber;
    KeepsSelf(p);
    NumbersKeep(p, p.(settles := SetNumber(p.settles, site, ms)));
  }

  lemma SetNoEvictKeeps(p: Pool, site: Site, on: bool, named: bool)
    requires Linked(p)
    ensures Keeps(p, SetNoEvict(p, site, on, named).0, {}) && Placed(p, SetNoEvict(p, site, on, named).0)
  {
    hide Linked, Keeps, Scheduled, Schedule;
    KeepsSelf(p);
    NumbersKeep(p, p.(noEvicts := p.noEvicts + [site]));
    var i := IndexOf(p.noEvicts, site);
    if i < |p.noEvicts| {
      NumbersKeep(p, p.(noEvicts := SwapRemove(p.noEvicts, i)));
    }
  }

  lemma SchedulingCallKeeps(p: Pool, call: Call)
    requires Linked(p) && Schedules(call) && !call.CallRequest?
    ensures Kept(p, Apply(p, call), Acknowledged(p, call)) && Placed(p, Apply(p, call))
    ensures Safe(p, call) ==> Faithful(p, Apply(p, call))
  {
    hide Linked, Kept, Faithful, Scheduled, Cancel, CancelMatching, RetireScope, ReleaseAt, Closed, IdleClosed;
    hide ConnectEnds, ExpireIdle, Advance, Refusals, SafeToRetire, SetLimit, ClearLimit, SetNoEvict;
    hide RequestUntil, Take, Abandon, ScopeHttps, DiscardIdle, ShutDown, LoseDriver, NextAction, SetSettle;
    hide BeginInteraction, EndInteraction, BeginLocalWait, EndLocalWait;
    match call
    case CallCancel(id) => CancelKeeps(p, id);
    case CallCancelMatching(owner) => CancelMatchingKeeps(p, owner);
    case CallRetireScope(scope) => RetireKept(p, scope);
    case CallRelease(lease, reusable) => ReleaseKeeps(p, lease, reusable, None);
    case CallReleaseUnused(lease) =>
      ReleaseKeeps(p, lease, true, if lease.connection in p.entries then p.entries[lease.connection].idleSince else None);
    case CallClosed(c) => ClosedKeeps(p, c);
    case CallIdleClosed(c) => IdleClosedKeeps(p, c);
    case CallConnected(c, result) => ConnectEndsKeeps(p, c, result);
    case CallExpireIdle => ExpireIdleKeeps(p);
    case CallAdvance(now) => AdvanceKeeps(p, now);
    case CallSetLimit(site, limit, named) => SetLimitKeeps(p, site, limit, named);
    case CallClearLimit(site) => ClearLimitKeeps(p, site);
    case CallSetNoEvict(site, on, named) => SetNoEvictKeeps(p, site, on, named);
  }

  lemma PlainCallKeeps(p: Pool, call: Call)
    requires Linked(p) && !Schedules(call)
    ensures Keeps(p, Apply(p, call), Acknowledged(p, call))
  {
    hide Linked, Keeps, Take, Abandon, ScopeHttps, DiscardIdle, Stop, LoseDriver, NextAction, SetSettle;
    hide BeginInteraction, EndInteraction, BeginLocalWait, EndLocalWait;
    hide RequestUntil, Cancel, CancelMatching, RetireScope, ReleaseAt, ReleaseUnused, Closed, IdleClosed;
    hide ConnectEnds, ExpireIdle, Advance, SetLimit, ClearLimit, SetNoEvict;
    match call
    case CallTake(id) => TakeKeeps(p, id);
    case CallAbandon(id) => AbandonKeeps(p, id);
    case CallScope(lease, scope, named) => ScopeKeeps(p, lease, scope, named);
    case CallDiscardIdle(site) => DiscardIdleKeeps(p, site);
    case CallShutdown => StopKeeps(p, Shutdown, ShutdownReason);
    case CallLoseDriver => LoseDriverKeeps(p);
    case CallNextAction => NextActionKeeps(p);
    case CallBeginInteraction(c) => InteractionKeeps(p, c);
    case CallEndInteraction(c) => InteractionKeeps(p, c);
    case CallBeginLocalWait(c) => LocalWaitKeeps(p, c);
    case CallEndLocalWait(c) => LocalWaitKeeps(p, c);
    case CallSetSettle(site, ms, named) => SetSettleKeeps(p, site, ms, named);
  }

  /** Every call but a new request keeps everything, and a safe one takes no request's connection from it. */
  lemma CallKeeps(p: Pool, call: Call)
    requires Linked(p) && !call.CallRequest?
    ensures Kept(p, Apply(p, call), Acknowledged(p, call)) && (Safe(p, call) ==> Faithful(p, Apply(p, call)))
    ensures Schedules(call) ==> Placed(p, Apply(p, call))
  {
    hide Linked, Kept, Faithful, Placed, Apply, Acknowledged, Safe;
    if Schedules(call) {
      SchedulingCallKeeps(p, call);
    } else {
      PlainCallKeeps(p, call);
    }
  }
}
