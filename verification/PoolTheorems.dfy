/** What the connection pool promises, over every run of its calls. */
module PoolTheorems {
  import opened Base
  import opened PoolTypes
  import opened PoolSchedule
  import opened PoolOps
  import opened PoolLinks
  import opened PoolSteps
  import opened PoolCapacity
  import opened PoolKeeps
  import opened PoolCalls
  import opened PoolConnections
  import opened PoolRuns

  /** The pool, the connections whose Connect the host was given, and those acknowledged as disposed. */
  datatype Story = Story(p: Pool, dispatched: set<int>, disposed: set<int>)

  function Dispatched(p: Pool, call: Call): set<int> {
    if call.CallNextAction? && NextAction(p).1.Some? && NextAction(p).1.value.Connect? then {NextAction(p).1.value.connection}
    else {}
  }

  function Tell(s: Story, call: Call): Story {
    Story(Apply(s.p, call), s.dispatched + Dispatched(s.p, call), s.disposed + Acknowledged(s.p, call))
  }

  function Told(config: Config, calls: seq<Call>): Story {
    if calls == [] then Story(NewPool(config), {}, {})
    else Tell(Told(config, calls[..|calls| - 1]), calls[|calls| - 1])
  }

  /** No credential is retired while a connection in its scope serves a request. */
  predicate SafeRun(config: Config, calls: seq<Call>) {
    calls != [] ==>
      && SafeRun(config, calls[..|calls| - 1])
      && Safe(Told(config, calls[..|calls| - 1]).p, calls[|calls| - 1])
  }

  // ---------------------------------------------------------------------------------------------------------------
  // Links
  // ---------------------------------------------------------------------------------------------------------------

  lemma RequestCallKeeps(p: Pool, r: Request, absolute: Option<nat>)
    requires Linked(p)
    ensures var q := RequestUntil(p, r, absolute).0;
            && Linked(q) && Faithful(p, q) && Evolves(p, q, {})
            && (Limited(p) && NoMore(LimitsOf(p, r), p.config.capacity) ==> Limited(q))
            && (forall session: string, l: Capacity
                | SessionOk(p, session, l) && (r.owner.session == session ==> LimitsOf(p, r) == l) :: SessionOk(q, session, l))
  {
    hide Linked, Faithful, Evolves, Limited, SessionOk, Schedule, NewPending, ValidRequest, Sharing, CeilingsFor, SameAsked;
    KeepsSelf(p);
    if RequestUntil(p, r, absolute).1.Ok? {
      var q := Enrolled(p, r, absolute);
      EnrolledKeeps(p, r, absolute);
      ScheduleKeeps(q);
      FaithfulOn(p, q, Schedule(q));
      EvolvesOn(p, q, Schedule(q), {}, {});
      var none: set<int> := {};
      assert none + none == none;
    }
  }

  /** What one call keeps. */
  lemma CallLinks(p: Pool, call: Call)
    requires Linked(p)
    ensures Linked(Apply(p, call)) && Evolves(p, Apply(p, call), Acknowledged(p, call))
    ensures Safe(p, call) ==> Faithful(p, Apply(p, call))
  {
    hide Linked, Evolves, Safe, Faithful, RequestUntil;
    if call.CallRequest? {
      RequestCallKeeps(p, call.request, call.absolute);
      RequestApplies(p, call);
    } else {
      CallKeeps(p, call);
      KeptLinks(p, Apply(p, call), Acknowledged(p, call));
    }
  }

  lemma RequestApplies(p: Pool, call: Call)
    requires call.CallRequest?
    ensures Apply(p, call) == RequestUntil(p, call.request, call.absolute).0 && Acknowledged(p, call) == {}
  {
    hide RequestUntil;
  }

  lemma KeptLinks(p: Pool, q: Pool, gone: set<int>)
    requires Kept(p, q, gone)
    ensures Linked(q) && Evolves(p, q, gone)
  {
  }

  lemma NewPoolLinked(config: Config)
    ensures Linked(NewPool(config)) && Whole(NewPool(config))
  {
  }

  /** Whatever is called, an entry that serves a request serves one that counts on it, and numbers are in range. */
  lemma {:induction false} AlwaysLinked(config: Config, calls: seq<Call>)
    ensures Linked(Told(config, calls).p)
  {
    hide Linked, Apply, Safe, Evolves, Faithful, Whole, Acknowledged, Dispatched;
    if calls == [] {
      NewPoolLinked(config);
    } else {
      AlwaysLinked(config, calls[..|calls| - 1]);
      CallLinks(Told(config, calls[..|calls| - 1]).p, calls[|calls| - 1]);
    }
  }

  /** Requests and entries refer to each other exactly: an opening one to its connect, a ready one to its lease. */
  ghost predicate Matched(p: Pool) {
    && (forall id: int, c: int :: (id in p.requests && p.requests[id].state == Opening(c)) <==>
                                  (c in p.entries && p.entries[c].state.Connecting? && p.entries[c].state.request == Some(id)))
    && (forall id: int, lease: Lease :: (id in p.requests && p.requests[id].state == Ready(lease)) <==>
                                        (lease.connection in p.entries && p.entries[lease.connection].state == Leased(lease, Some(id))))
  }

  lemma MatchedIffWhole(p: Pool)
    requires Linked(p)
    ensures Matched(p) <==> Whole(p)
  {
    hide Linked;
    if Whole(p) {
      WholeMatches(p);
    }
    if Matched(p) {
      forall id: int ensures !Orphaned(p, id) {
      }
    }
  }

  lemma WholeMatches(p: Pool)
    requires Linked(p) && Whole(p)
    ensures Matched(p)
  {
    hide Linked, Whole;
    forall id: int, c: int
      ensures (id in p.requests && p.requests[id].state == Opening(c)) <==>
              (c in p.entries && p.entries[c].state.Connecting? && p.entries[c].state.request == Some(id))
    {
      NotOrphaned(p, id);
      LinkedEntry(p, c);
    }
    forall id: int, lease: Lease
      ensures (id in p.requests && p.requests[id].state == Ready(lease)) <==>
              (lease.connection in p.entries && p.entries[lease.connection].state == Leased(lease, Some(id)))
    {
      NotOrphaned(p, id);
      LinkedEntry(p, lease.connection);
    }
  }

  /** While no credential is retired under a request that its scope serves, requests and entries match exactly. */
  lemma {:induction false} SafeRunsMatch(config: Config, calls: seq<Call>)
    requires SafeRun(config, calls)
    ensures Matched(Told(config, calls).p) && Whole(Told(config, calls).p)
  {
    hide Linked, Apply, Safe, Evolves, Faithful, Whole, Matched, Acknowledged, Dispatched;
    if calls == [] {
      NewPoolLinked(config);
    } else {
      var before := calls[..|calls| - 1];
      AlwaysLinked(config, before);
      SafeRunsMatch(config, before);
      CallLinks(Told(config, before).p, calls[|calls| - 1]);
      StaysWhole(Told(config, before).p, Told(config, calls).p);
    }
    AlwaysLinked(config, calls);
    MatchedIffWhole(Told(config, calls).p);
  }

  // ---------------------------------------------------------------------------------------------------------------
  // Retiring a credential: exactly when a request loses its connection
  // ---------------------------------------------------------------------------------------------------------------

  lemma {:induction false} CloseAllCloses(p: Pool, ids: seq<int>, reason: CloseReason, c: int)
    requires c in p.entries
    ensures var q := CloseAll(p, ids, reason);
            && c in q.entries && q.requests == p.requests
            && (c in ids || p.entries[c].state.Closing? ==> q.entries[c].state.Closing?)
    decreases |ids|
  {
    if ids != [] {
      CloseAllCloses(StartClosing(p, ids[0], reason), ids[1..], reason, c);
      assert ids == [ids[0]] + ids[1..];
    }
  }

  /** Scheduling opens nothing that is closing. */
  ghost predicate StaysShut(p: Pool, q: Pool, c: int) {
    c in p.entries && p.entries[c].state.Closing? && c <= p.connectionSerial ==>
      c in q.entries && q.entries[c].state.Closing? && c <= q.connectionSerial
  }

  lemma ReuseStaysShut(p: Pool, id: int, c: int)
    ensures StaysShut(p, ReuseFor(p, id), c)
  {
    hide OwnerFull, PreferWaits;
  }

  lemma OpenStaysShut(p: Pool, id: int, c: int)
    ensures StaysShut(p, OpenFor(p, id), c)
  {
    hide OwnerFull, PreferWaits, Crowded, NewEntry;
  }

  lemma EvictStaysShut(p: Pool, id: int, c: int)
    ensures StaysShut(p, EvictFor(p, id), c)
  {
    hide MayEvict, CeilingsFor, SiteFull;
  }

  lemma {:induction false} PassStaysShut(p: Pool, ids: seq<int>, c: int)
    ensures StaysShut(p, ReuseAll(p, ids), c) && StaysShut(p, OpenAll(p, ids), c) && StaysShut(p, EvictAll(p, ids), c)
    decreases |ids|
  {
    hide ReuseFor, OpenFor, EvictFor;
    if ids != [] {
      ReuseStaysShut(p, ids[0], c);
      OpenStaysShut(p, ids[0], c);
      EvictStaysShut(p, ids[0], c);
      PassStaysShut(ReuseFor(p, ids[0]), ids[1..], c);
      PassStaysShut(OpenFor(p, ids[0]), ids[1..], c);
      PassStaysShut(EvictFor(p, ids[0]), ids[1..], c);
    }
  }

  lemma ScheduleStaysShut(p: Pool, c: int)
    ensures StaysShut(p, Schedule(p), c)
  {
    hide ReuseAll, OpenAll, EvictAll;
    var ids := WaitingTo(p, p.requestSerial);
    PassStaysShut(p, ids, c);
    PassStaysShut(ReuseAll(p, ids), ids, c);
    PassStaysShut(OpenAll(ReuseAll(p, ids), ids), ids, c);
  }

  /** Retiring a scope orphans a request if and only if something in the scope serves one. */
  lemma RetireOrphansIffServing(p: Pool, scope: string)
    requires Linked(p)
    ensures Faithful(p, RetireScope(p, scope)) <==> SafeToRetire(p, scope)
  {
    hide Linked, Kept, Faithful, RetireScope, EntryLink;
    RetireKept(p, scope);
    if !SafeToRetire(p, scope) {
      var c :| c in p.entries && p.entries[c].identity == Scoped(scope) && EntryLink(p, c).Some?;
      RetireOrphans(p, scope, c);
      OrphanedAnew(p, RetireScope(p, scope), EntryLink(p, c).value);
    }
  }

  lemma OrphanedAnew(p: Pool, q: Pool, id: int)
    requires Orphaned(q, id) && !Orphaned(p, id)
    ensures !Faithful(p, q)
  {
    hide Orphaned;
  }

  lemma RetireOrphans(p: Pool, scope: string, c: int)
    requires Linked(p) && c in p.entries && p.entries[c].identity == Scoped(scope) && EntryLink(p, c).Some?
    ensures var q, id := RetireScope(p, scope), EntryLink(p, c).value;
            && Orphaned(q, id) && !Orphaned(p, id) && RequestLink(q, id) == Some(c)
            && c in q.entries && q.entries[c].state.Closing?
  {
    hide Linked, CloseAll, Schedule;
    var scoped := (e: Entry) => e.identity == Scoped(scope);
    var ids := EntriesTo(p, scoped, p.connectionSerial);
    var q := CloseAll(p, ids, CancelledReason);
    var id := EntryLink(p, c).value;
    LinkedEntry(p, c);
    EntriesToAre(p, scoped, p.connectionSerial);
    CloseAllCloses(p, ids, CancelledReason, c);
    CloseAllSerial(p, ids, CancelledReason);
    ScheduleStaysShut(q, c);
    ScheduleLeaves(q, id);
  }

  lemma {:induction false} CloseAllSerial(p: Pool, ids: seq<int>, reason: CloseReason)
    ensures CloseAll(p, ids, reason).connectionSerial == p.connectionSerial
    decreases |ids|
  {
    if ids != [] {
      CloseAllSerial(StartClosing(p, ids[0], reason), ids[1..], reason);
    }
  }

  /** A first request, in an empty pool that has room for it, gets a connection of its own. */
  lemma FirstRequestOpens(config: Config, r: Request)
    requires ValidCapacity(config.capacity) && ValidRequest(r, config) && r.limits.None? && r.prefer.None?
    ensures var p := RequestUntil(NewPool(config), r, None).0;
            && p == Opened(Enrolled(NewPool(config), r, None), 1)
            && 1 in p.entries && p.entries[1].identity == r.identity && EntryLink(p, 1) == Some(1)
  {
    hide ValidRequest, NewEntry;
    var p0 := NewPool(config);
    assert Sharing(p0, r.owner.session) == {};
    var p1 := Enrolled(p0, r, None);
    FirstIsFree(p1, r);
    assert WaitingTo(p1, 1) == [1] by {
      assert WaitingTo(p1, 0) == [];
    }
    var p2 := ReuseAll(p1, [1]);
    assert p2 == p1 by {
      NothingToReuse(p1, 1);
      assert [1][1..] == [];
    }
    var p3 := OpenAll(p1, [1]);
    assert p3 == OpenFor(p1, 1) by {
      assert [1][1..] == [];
    }
    NewEntryIs(p1, 1, r);
    assert p3 == Opened(p1, 1);
    assert EvictAll(p3, [1]) == p3 by {
      assert [1][1..] == [];
      assert !IsWaiting(p3, 1);
      assert !MayEvict(p3, 1);
    }
  }

  lemma NewEntryIs(p: Pool, id: int, r: Request)
    ensures NewEntry(p, id, r).identity == r.identity && NewEntry(p, id, r).state.Connecting?
    ensures NewEntry(p, id, r).state.request == Some(id)
  {
  }

  lemma NothingToReuse(p: Pool, id: int)
    requires p.entries == map[]
    ensures ReuseFor(p, id) == p
  {
    hide OwnerFull, PreferWaits;
  }

  lemma FirstIsFree(p: Pool, r: Request)
    requires p.entries == map[] && p.holds == map[] && p.limits == [] && 1 in p.requests && p.requests[1].request == r
    requires p.requests[1].state.Waiting? && ValidCapacity(p.config.capacity) && r.limits.None? && r.prefer.None?
    ensures MayOpen(p, 1)
  {
    assert Owned(p, r.owner.session) == {} && OwnedOnHost(p, r.owner.session, r.key.host) == {};
    assert OwnedAs(p, r.owner.session, r.key) == {};
    assert EntriesAs(p, r.key) == {} && HoldsAs(p, r.key) == {};
    assert EntriesOnHost(p, r.key.host) == {} && HoldsOnHost(p, r.key.host) == {};
  }

  /** And so a run of two calls orphans a request: retire the scope that it is connecting in. */
  lemma RetiringCanOrphan(config: Config, r: Request, scope: string)
    requires ValidCapacity(config.capacity) && ValidRequest(r, config) && r.limits.None? && r.prefer.None?
    requires r.identity == Scoped(scope)
    ensures Orphaned(Told(config, [CallRequest(r, None), CallRetireScope(scope)]).p, 1)
  {
    hide Linked, Faithful, Kept, RetireScope, RequestUntil, Told, Orphaned, Evolves, Limited, SessionOk;
    var p0 := NewPool(config);
    NewPoolLinked(config);
    FirstRequestOpens(config, r);
    RequestCallKeeps(p0, r, None);
    var p1 := RequestUntil(p0, r, None).0;
    RetireOrphans(p1, scope, 1);
    ToldTwo(config, CallRequest(r, None), CallRetireScope(scope));
    RequestApplies(p0, CallRequest(r, None));
    RetireApplies(p1, scope);
  }

  /**
   An orphan still counts on its connection once that is closed and gone, where giving the request up looks it up:
   a lookup that cannot fail for a served request.
   */
  lemma OrphansOutliveConnections(p: Pool, id: int, c: int)
    requires Linked(p) && RequestLink(p, id) == Some(c)
    ensures Served(p, id) ==> c in p.entries && !Closed(p, c).1.Ok?
    ensures Orphaned(p, id) && Closed(p, c).1.Ok? ==>
              RequestLink(Closed(p, c).0, id) == Some(c) && c !in Closed(p, c).0.entries
  {
    hide Linked, Kept, Schedule, Dispose;
    if Closed(p, c).1.Ok? && Orphaned(p, id) {
      var q := Dispose(p, c, true);
      DisposeIs(p, c, true);
      LinkedEntry(p, c);
      ScheduleLeaves(q, id);
      DisposeKeeps(p, c, true);
      KeptIsLinked(p, q, {c});
      ScheduleKeeps(q);
      GoneStaysGone(q, Schedule(q), c);
    }
  }

  lemma GoneStaysGone(p: Pool, q: Pool, c: int)
    requires Kept(p, q, {}) && c !in p.entries && c <= p.connectionSerial
    ensures c !in q.entries
  {
  }

  lemma ToldTwo(config: Config, first: Call, second: Call)
    ensures Told(config, [first, second]).p == Apply(Apply(NewPool(config), first), second)
  {
    hide Apply, Acknowledged, Dispatched;
    assert [first, second][..1] == [first];
    assert [first][..0] == [];
    assert Told(config, [first]).p == Apply(NewPool(config), first);
  }

  lemma RetireApplies(p: Pool, scope: string)
    ensures Apply(p, CallRetireScope(scope)) == RetireScope(p, scope)
  {
    hide RetireScope;
  }

  // ---------------------------------------------------------------------------------------------------------------
  // Ceilings and limits
  // ---------------------------------------------------------------------------------------------------------------

  predicate ModestCall(config: Config, call: Call) {
    call.CallRequest? && call.request.limits.Some? ==> NoMore(call.request.limits.value, config.capacity)
  }

  predicate AlikeCall(config: Config, call: Call, session: string, l: Capacity) {
    call.CallRequest? && call.request.owner.session == session ==>
      (if call.request.limits.Some? then call.request.limits.value else config.capacity) == l
  }

  lemma CallStaysLimited(p: Pool, call: Call)
    requires Linked(p) && Limited(p) && ModestCall(p.config, call)
    ensures Limited(Apply(p, call)) && Apply(p, call).config == p.config
  {
    hide Linked, Limited, Safe, RequestUntil, SessionOk;
    CallLinks(p, call);
    if call.CallRequest? {
      RequestCallKeeps(p, call.request, call.absolute);
      RequestApplies(p, call);
    } else {
      CallKeeps(p, call);
    }
  }

  /** Entries stay within the total, and connections with held slots within each host's and each user's ceiling. */
  lemma {:induction false} CeilingsHold(config: Config, calls: seq<Call>)
    requires forall i | 0 <= i < |calls| :: ModestCall(config, calls[i])
    ensures Limited(Told(config, calls).p) && Told(config, calls).p.config == config
  {
    hide Linked, Limited, Apply, Safe, ModestCall, Acknowledged, Dispatched;
    if calls == [] {
      NewPoolLimited(config);
    } else {
      var before := calls[..|calls| - 1];
      CeilingsHold(config, before);
      AlwaysLinked(config, before);
      CallStaysLimited(Told(config, before).p, calls[|calls| - 1]);
    }
  }

  lemma NewPoolLimited(config: Config)
    ensures Limited(NewPool(config)) && NewPool(config).config == config
    ensures forall session: string, l: Capacity :: SessionOk(NewPool(config), session, l)
  {
    var p := NewPool(config);
    forall host: string ensures HostTotal(p, host) == 0 {
      assert EntriesOnHost(p, host) == {} && HoldsOnHost(p, host) == {};
    }
    forall key: Key ensures UserHostTotal(p, key) == 0 {
      assert EntriesAs(p, key) == {} && HoldsAs(p, key) == {};
    }
    forall session: string, l: Capacity ensures SessionOk(p, session, l) {
      assert Owned(p, session) == {};
      forall host: string ensures OwnedOnHost(p, session, host) == {} {
      }
      forall key: Key ensures OwnedAs(p, session, key) == {} {
      }
    }
  }

  lemma CallKeepsSession(p: Pool, call: Call, session: string, l: Capacity)
    requires Linked(p) && SessionOk(p, session, l) && AlikeCall(p.config, call, session, l)
    ensures SessionOk(Apply(p, call), session, l) && Apply(p, call).config == p.config
  {
    hide Linked, Limited, Safe, RequestUntil, SessionOk;
    CallLinks(p, call);
    if call.CallRequest? {
      RequestCallKeeps(p, call.request, call.absolute);
      RequestApplies(p, call);
    } else {
      CallKeeps(p, call);
    }
  }

  /** A session whose requests all carry the same limits never holds more than those, in all, on a host or as a user. */
  lemma {:induction false} SessionsStayWithinLimits(config: Config, calls: seq<Call>, session: string, l: Capacity)
    requires forall i | 0 <= i < |calls| :: AlikeCall(config, calls[i], session, l)
    ensures SessionOk(Told(config, calls).p, session, l) && Told(config, calls).p.config == config
  {
    hide Linked, SessionOk, Apply, Safe, AlikeCall, Acknowledged, Dispatched;
    if calls == [] {
      NewPoolLimited(config);
    } else {
      var before := calls[..|calls| - 1];
      SessionsStayWithinLimits(config, before, session, l);
      AlwaysLinked(config, before);
      CallKeepsSession(Told(config, before).p, calls[|calls| - 1], session, l);
    }
  }

  // ---------------------------------------------------------------------------------------------------------------
  // Leases and disposals
  // ---------------------------------------------------------------------------------------------------------------

  /** A lease that was issued and is not live stays so. */
  lemma {:induction false} LeaseNeverLivesTwice(config: Config, calls: seq<Call>, more: seq<Call>, lease: Lease)
    requires var p := Told(config, calls).p; lease.generation <= p.leaseSerial && !IsLive(p, lease)
    ensures var q := Told(config, calls + more).p; lease.generation <= q.leaseSerial && !IsLive(q, lease)
    decreases |more|
  {
    hide Linked, Apply, Safe, Acknowledged, Dispatched, IsLive;
    if more == [] {
      assert calls + more == calls;
    } else {
      var all := calls + more;
      var before := calls + more[..|more| - 1];
      assert all[..|all| - 1] == before;
      LeaseNeverLivesTwice(config, calls, more[..|more| - 1], lease);
      AlwaysLinked(config, before);
      CallLinks(Told(config, before).p, all[|all| - 1]);
    }
  }

  /** A connection that has left the table never comes back. */
  lemma {:induction false} ConnectionNeverReturns(config: Config, calls: seq<Call>, more: seq<Call>, c: int)
    requires var p := Told(config, calls).p; c <= p.connectionSerial && c !in p.entries
    ensures var q := Told(config, calls + more).p; c <= q.connectionSerial && c !in q.entries
    decreases |more|
  {
    hide Linked, Apply, Safe, Acknowledged, Dispatched, IsLive;
    if more == [] {
      assert calls + more == calls;
    } else {
      var all := calls + more;
      var before := calls + more[..|more| - 1];
      assert all[..|all| - 1] == before;
      ConnectionNeverReturns(config, calls, more[..|more| - 1], c);
      AlwaysLinked(config, before);
      CallLinks(Told(config, before).p, all[|all| - 1]);
    }
  }

  /** Every dispatched connect is still in the table, or was acknowledged as disposed. */
  predicate Accounted(s: Story) {
    forall c | c in s.dispatched :: c in s.disposed || (c in s.p.entries && Sent(s.p.entries[c]))
  }

  lemma DispatchedIsSent(p: Pool, call: Call)
    ensures forall c | c in Dispatched(p, call) :: c in Apply(p, call).entries && Sent(Apply(p, call).entries[c])
  {
    hide CleanupAction, WithCleanup, AbsoluteDeadline, Sooner;
    if call.CallNextAction? {
      assert Apply(p, call) == NextAction(p).0;
      CleanupIsNoConnect(p);
    }
  }

  lemma CleanupIsNoConnect(p: Pool)
    ensures forall c | c in p.entries && CleanupAction(p, c).Some? :: !CleanupAction(p, c).value.0.Connect?
  {
  }

  lemma {:induction false} EveryConnectIsAccountedFor(config: Config, calls: seq<Call>)
    ensures Accounted(Told(config, calls))
  {
    hide Linked, Apply, Safe, Acknowledged, Dispatched, Sent, IsLive;
    if calls != [] {
      var before, last := calls[..|calls| - 1], calls[|calls| - 1];
      EveryConnectIsAccountedFor(config, before);
      AlwaysLinked(config, before);
      CallLinks(Told(config, before).p, last);
      DispatchedIsSent(Told(config, before).p, last);
    }
  }

  /** A completed shutdown means that every connect ever dispatched has been acknowledged as disposed. */
  lemma ShutdownDisposesAll(config: Config, calls: seq<Call>)
    requires ShutdownComplete(Told(config, calls).p)
    ensures Told(config, calls).dispatched <= Told(config, calls).disposed
  {
    hide Told;
    EveryConnectIsAccountedFor(config, calls);
    var s := Told(config, calls);
    forall c | c in s.dispatched ensures c in s.disposed {
      assert c !in s.p.entries;
    }
  }
}
