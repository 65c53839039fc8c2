/** The pool as the source has it: one object whose maps, lists and serials every call updates in place. */
module PoolMachine {
  import opened Base
  import opened PoolTypes
  import opened PoolSchedule
  import opened PoolOps
  import opened PoolLinks
  import opened PoolSteps
  import opened PoolKeeps
  import opened PoolCalls
  import opened PoolConnections
  import opened PoolRuns
  import opened PoolTheorems

  ghost predicate Sound(p: Pool) {
    Linked(p) && Whole(p)
  }

  // ---------------------------------------------------------------------------------------------------------------
  // Lists of numbers
  // ---------------------------------------------------------------------------------------------------------------

  /** Replaces the site's number, or adds one at the end. */
  method PutNumber(numbers: seq<SiteLimit>, site: Site, value: nat) returns (r: seq<SiteLimit>)
    ensures r == SetNumber(numbers, site, value)
  {
    var i := 0;
    while i < |numbers| && numbers[i].site != site
      invariant 0 <= i <= |numbers|
      invariant SetNumber(numbers, site, value) == numbers[..i] + SetNumber(numbers[i..], site, value)
    {
      assert numbers[i..][1..] == numbers[i + 1..] && numbers[..i + 1] == numbers[..i] + [numbers[i]];
      i := i + 1;
    }
    if i < |numbers| {
      assert numbers[i..][1..] == numbers[i + 1..];
      r := numbers[i := SiteLimit(site, value)];
    } else {
      assert numbers[..i] == numbers;
      r := numbers + [SiteLimit(site, value)];
    }
  }

  /** Keeps every number but the site's. */
  method DropNumber(numbers: seq<SiteLimit>, site: Site) returns (r: seq<SiteLimit>)
    ensures r == WithoutNumber(numbers, site)
  {
    r := [];
    var i := 0;
    while i < |numbers|
      invariant 0 <= i <= |numbers| && WithoutNumber(numbers, site) == r + WithoutNumber(numbers[i..], site)
    {
      assert numbers[i..][1..] == numbers[i + 1..];
      if numbers[i].site != site {
        r := r + [numbers[i]];
      }
      i := i + 1;
    }
    assert numbers[i..] == [];
  }

  /** The site's first place in the list, or its length. */
  method Position(sites: seq<Site>, site: Site) returns (i: nat)
    ensures i == IndexOf(sites, site)
  {
    i := 0;
    while i < |sites| && sites[i] != site
      invariant i <= |sites| && IndexOf(sites, site) == i + IndexOf(sites[i..], site)
    {
      assert sites[i..][1..] == sites[i + 1..];
      i := i + 1;
    }
  }

  /** A pool is opened, empty, on exactly the configurations that are valid. */
  method OpenPool(c: Config) returns (r: Result<Machine, Error>)
    ensures if ValidConfig(c) then r.Ok? && fresh(r.value) && r.value.State() == NewPool(c) && r.value.Valid()
            else r == Err(InvalidConfig)
  {
    hide Linked, Whole;
    if !ValidConfig(c) {
      return Err(InvalidConfig);
    }
    var m := new Machine(c);
    return Ok(m);
  }

  class Machine {
    const config: Config
    var now: nat
    var requestSerial: nat
    var connectionSerial: nat
    var leaseSerial: nat
    var requests: map<int, Pending>
    var entries: map<int, Entry>
    var limits: seq<SiteLimit>
    var settles: seq<SiteLimit>
    var noEvicts: seq<Site>
    var holds: map<int, Hold>
    var stopped: bool
    var driverLost: bool

    function State(): Pool
      reads this
    {
      Pool(
        config, now, requestSerial, connectionSerial, leaseSerial, requests, entries, limits, settles, noEvicts, holds,
        stopped, driverLost)
    }

    /** Requests and entries are linked and no request is orphaned; no lookup that relies on a link can fail. */
    ghost predicate Valid()
      reads this
    {
      Sound(State())
    }

    constructor (c: Config)
      ensures State() == NewPool(c) && Valid()
    {
      config := c;
      now, requestSerial, connectionSerial, leaseSerial := 0, 0, 0, 0;
      requests, entries, holds := map[], map[], map[];
      limits, settles, noEvicts := [], [], [];
      stopped, driverLost := false, false;
    }

    // -------------------------------------------------------------------------------------------------------------
    // Reuse
    // -------------------------------------------------------------------------------------------------------------

    /** The preferred connection when it is idle and fits, else the first that is and does. */
    method FindIdle(r: Request) returns (choice: Option<int>)
      ensures choice == Choice(State(), r)
    {
      hide Leasable;
      if r.prefer.Some? && Leasable(State(), r, r.prefer.value) {
        return r.prefer;
      }
      var c := 1;
      while c <= connectionSerial
        invariant FirstLeasable(State(), r, 1) == FirstLeasable(State(), r, c)
        decreases connectionSerial + 1 - c
      {
        if Leasable(State(), r, c) {
          return Some(c);
        }
        c := c + 1;
      }
      return None;
    }

    method Reuse(id: int)
      modifies this
      ensures State() == ReuseFor(old(State()), id)
    {
      hide MayLease, Choice, PreferWaits, OwnerFull;
      if !MayLease(State(), id) {
        return;
      }
      MayLeaseWaits(State(), id);
      var choice := FindIdle(requests[id].request);
      if choice.None? {
        return;
      }
      ChoiceIsIdle(State(), requests[id].request);
      GiveIdle(id, choice.value);
    }

    static lemma ChoiceIsIdle(p: Pool, r: Request)
      ensures Choice(p, r).Some? ==> IsIdle(p, Choice(p, r).value)
    {
    }

    method GiveIdle(id: int, c: int)
      requires id in requests && IsIdle(State(), c)
      modifies this
      ensures State() == LeaseIdle(old(State()), id, c)
    {
      var pending, e := requests[id], entries[c];
      if leaseSerial + 1 > U64_MAX {
        requests := requests[id := pending.(state := Failed(CapacityError))];
        return;
      }
      leaseSerial := leaseSerial + 1;
      var lease := Lease(c, leaseSerial);
      entries := entries[c := e.(
        owner := Some(pending.request.owner), idleSince := Some(e.state.since), state := Leased(lease, Some(id)))];
      requests := requests[id := pending.(state := Ready(lease), eviction := None)];
    }

    // -------------------------------------------------------------------------------------------------------------
    // Opening
    // -------------------------------------------------------------------------------------------------------------

    method Open(id: int)
      modifies this
      ensures State() == OpenFor(old(State()), id)
    {
      hide MayOpen, NewEntry;
      if !MayOpen(State(), id) {
        return;
      }
      MayOpenWaits(State(), id);
      var pending := requests[id];
      if connectionSerial + 1 > U64_MAX {
        requests := requests[id := pending.(state := Failed(CapacityError))];
        return;
      }
      var e := NewEntry(State(), id, pending.request);
      connectionSerial := connectionSerial + 1;
      entries := entries[connectionSerial := e];
      requests := requests[id := pending.(state := Opening(connectionSerial), eviction := None)];
    }

    // -------------------------------------------------------------------------------------------------------------
    // Evicting
    // -------------------------------------------------------------------------------------------------------------

    method BeginClosing(c: int, reason: CloseReason)
      requires c in entries
      modifies this`entries
      ensures State() == StartClosing(old(State()), c, reason) && entries.Keys == old(entries.Keys)
    {
      var e := entries[c];
      if e.state.Closing? {
        return;
      }
      var deadline :=
        if e.state.Connecting? && e.state.cancel.Some? then e.state.cancel.value.deadline
        else AddSatU64(now, config.cleanupTimeoutMs);
      entries := entries[c := e.(owner := None, state := Closing(reason, Cleanup(deadline, false, false)))];
    }

    /** The one that has been idle longest among those whose end would make room. */
    method FindVictim(r: Request) returns (victim: Option<int>)
      ensures victim == Victim(State(), r, connectionSerial)
    {
      hide Evictable;
      victim := None;
      var n := 0;
      while n < connectionSerial
        invariant n <= connectionSerial && victim == Victim(State(), r, n)
      {
        n := n + 1;
        if Evictable(State(), r, n) {
          EvictableIsIdle(State(), r, n);
          if victim.Some? {
            EvictableIsIdle(State(), r, victim.value);
          }
          if victim.None? || !Earlier(victim.value, n) {
            victim := Some(n);
          }
        }
      }
    }

    static lemma EvictableIsIdle(p: Pool, r: Request, c: int)
      requires Evictable(p, r, c)
      ensures IsIdle(p, c)
    {
    }

    predicate Earlier(a: int, b: int)
      reads this
      ensures IsIdle(State(), a) && IsIdle(State(), b) ==> (Earlier(a, b) <==> Before(State(), a, b))
    {
      a in entries && b in entries && entries[a].state.Idle? && entries[b].state.Idle?
      && (entries[a].state.since < entries[b].state.since || (entries[a].state.since == entries[b].state.since && a <= b))
    }

    method EvictOne(id: int)
      modifies this
      ensures State() == EvictFor(old(State()), id)
    {
      hide MayEvict, StartClosing, CeilingsFor, SiteFull;
      if !MayEvict(State(), id) {
        return;
      }
      MayEvictWaits(State(), id);
      var pending := requests[id];
      var victim := FindVictim(pending.request);
      if victim.None? {
        return;
      }
      BeginClosing(victim.value, Evicted);
      requests := requests[id := pending.(eviction := victim)];
    }

    // -------------------------------------------------------------------------------------------------------------
    // The pass
    // -------------------------------------------------------------------------------------------------------------

    method CollectWaiting() returns (ids: seq<int>)
      ensures ids == WaitingTo(State(), requestSerial)
    {
      ids := [];
      var n := 0;
      while n < requestSerial
        invariant n <= requestSerial && ids == WaitingTo(State(), n)
      {
        n := n + 1;
        if n in requests && requests[n].state.Waiting? {
          ids := ids + [n];
        }
      }
    }

    method ScheduleAll()
      modifies this
      ensures State() == Schedule(old(State()))
    {
      hide ReuseFor, OpenFor, EvictFor;
      if stopped {
        return;
      }
      var ids := CollectWaiting();
      ghost var p := State();
      for i := 0 to |ids|
        invariant ReuseAll(State(), ids[i..]) == ReuseAll(p, ids)
      {
        Reuse(ids[i]);
        assert ids[i..][1..] == ids[i + 1..];
      }
      ghost var p1 := State();
      for i := 0 to |ids|
        invariant OpenAll(State(), ids[i..]) == OpenAll(p1, ids)
      {
        Open(ids[i]);
        assert ids[i..][1..] == ids[i + 1..];
      }
      ghost var p2 := State();
      for i := 0 to |ids|
        invariant EvictAll(State(), ids[i..]) == EvictAll(p2, ids)
      {
        EvictOne(ids[i]);
        assert ids[i..][1..] == ids[i + 1..];
      }
    }
  
    // -------------------------------------------------------------------------------------------------------------
    // Loops over requests and entries
    // -------------------------------------------------------------------------------------------------------------

    method CollectRequests(keep: Pending -> bool) returns (ids: seq<int>)
      ensures ids == RequestsTo(State(), keep, requestSerial)
    {
      ids := [];
      var n := 0;
      while n < requestSerial
        invariant n <= requestSerial && ids == RequestsTo(State(), keep, n)
      {
        n := n + 1;
        if n in requests && keep(requests[n]) {
          ids := ids + [n];
        }
      }
    }

    method CollectEntries(keep: Entry -> bool) returns (ids: seq<int>)
      ensures ids == EntriesTo(State(), keep, connectionSerial)
    {
      ids := [];
      var n := 0;
      while n < connectionSerial
        invariant n <= connectionSerial && ids == EntriesTo(State(), keep, n)
      {
        n := n + 1;
        if n in entries && keep(entries[n]) {
          ids := ids + [n];
        }
      }
    }

    /** The connection of an opening request is in the table: the lookup below cannot fail. */
    method GiveUpOpening(c: int)
      requires c in entries && entries[c].state.Connecting?
      modifies this`entries
      ensures State() == GiveUp(old(State()), c)
    {
      var e := entries[c];
      if e.state.clock.None? {
        entries := entries - {c};
      } else {
        var cleanup := Cleanup(AddSatU64(now, config.cleanupTimeoutMs), false, false);
        entries := entries[c := e.(state := e.state.(request := None, cancel := Some(cleanup)))];
      }
    }

    method Fail(id: int, error: Error, reason: CloseReason)
      requires Valid()
      modifies this
      ensures Valid() && State() == FailRequest(old(State()), id, error, reason)
    {
      hide Linked, Whole, StartClosing, GiveUp, Calm;
      FailRequestCalm(State(), id, error, reason);
      CalmSound(State(), FailRequest(State(), id, error, reason), {});
      if id !in requests || requests[id].state.Failed? {
        return;
      }
      var pending := requests[id];
      NotOrphaned(State(), id);
      match pending.state {
        case Waiting =>
        case Ready(lease) => BeginClosing(lease.connection, reason);
        case Opening(c) => GiveUpOpening(c);
      }
      requests := requests[id := pending.(state := Failed(error))];
    }

    static lemma CalmSound(p: Pool, q: Pool, gone: set<int>)
      requires Sound(p) && Calm(p, q, gone)
      ensures Sound(q)
    {
      hide Linked, Whole, Faithful;
      StaysWhole(p, q);
    }

    method FailMany(ids: seq<int>, error: Error, reason: CloseReason)
      requires Valid()
      modifies this
      ensures Valid() && State() == FailAll(old(State()), ids, error, reason)
    {
      hide Linked, Whole, FailRequest;
      for i := 0 to |ids|
        invariant Valid() && FailAll(State(), ids[i..], error, reason) == FailAll(old(State()), ids, error, reason)
      {
        Fail(ids[i], error, reason);
        assert ids[i..][1..] == ids[i + 1..];
      }
    }

    method CloseMany(ids: seq<int>, reason: CloseReason)
      requires forall i | 0 <= i < |ids| :: ids[i] in entries
      modifies this`entries
      ensures State() == CloseAll(old(State()), ids, reason)
    {
      hide StartClosing;
      for i := 0 to |ids|
        invariant entries.Keys == old(entries.Keys)
        invariant CloseAll(State(), ids[i..], reason) == CloseAll(old(State()), ids, reason)
        modifies this`entries
      {
        assert ids[i] in old(entries.Keys);
        BeginClosing(ids[i], reason);
        assert ids[i..][1..] == ids[i + 1..];
      }
    }

    // -------------------------------------------------------------------------------------------------------------
    // Requests
    // -------------------------------------------------------------------------------------------------------------

    method RequestLease(r: Request, absolute: Option<nat>) returns (answer: Result<int, Error>)
      requires Valid()
      modifies this
      ensures Valid() && (State(), answer) == RequestUntil(old(State()), r, absolute)
    {
      hide Linked, Whole, ValidRequest, CeilingsFor, Sharing, NewPending, Schedule;
      if driverLost {
        return Err(DriverLost);
      }
      if stopped {
        return Err(Shutdown);
      }
      if !ValidRequest(r, config) {
        return Err(InvalidRequest);
      }
      if absolute.Some? && absolute.value <= now {
        return Err(AllocationTimeout);
      }
      if |requests| >= CeilingsFor(State(), r).maxRequests || |Sharing(State(), r.owner.session)| >= LimitsOf(State(), r).maxRequests {
        return Err(CapacityError);
      }
      if requestSerial + 1 > U64_MAX {
        return Err(CapacityError);
      }
      EnrolledLinked(State(), r, absolute);
      StaysWhole(State(), Enrolled(State(), r, absolute));
      var pending := NewPending(State(), r, absolute);
      requestSerial := requestSerial + 1;
      var id := requestSerial;
      requests := requests[id := pending];
      assert State() == Enrolled(old(State()), r, absolute);
      ScheduleSound(State());
      ScheduleAll();
      return Ok(id);
    }

    static lemma ScheduleSound(p: Pool)
      requires Sound(p)
      ensures Sound(Schedule(p))
    {
      hide Linked, Whole, Keeps, Schedule;
      ScheduleKeeps(p);
      KeepsSound(p, Schedule(p), {});
    }

    static lemma KeepsSound(p: Pool, q: Pool, gone: set<int>)
      requires Sound(p) && Keeps(p, q, gone)
      ensures Sound(q)
    {
      hide Linked, Whole, Faithful;
      StaysWhole(p, q);
    }

    /** The entry of a ready lease is in the table, leased under it. */
    method TakeReady(id: int) returns (answer: Result<Lease, Error>)
      requires Valid()
      modifies this
      ensures Valid() && (State(), answer) == Take(old(State()), id)
    {
      hide Linked, Whole, Keeps;
      TakeKeeps(State(), id);
      KeepsSound(State(), Take(State(), id).0, {});
      if id !in requests {
        return Err(Stale);
      }
      NotOrphaned(State(), id);
      match requests[id].state {
        case Ready(lease) =>
          var e := entries[lease.connection];
          entries := entries[lease.connection := e.(state := Leased(lease, None))];
          requests := requests - {id};
          return Ok(lease);
        case Failed(error) =>
          requests := requests - {id};
          return Err(error);
        case Waiting => return Err(WouldBlock);
        case Opening(_) => return Err(WouldBlock);
      }
    }

    method CancelRequest(id: int) returns (answer: Result<(), Error>)
      requires Valid()
      modifies this
      ensures Valid() && (State(), answer) == Cancel(old(State()), id)
    {
      hide Linked, Whole, FailRequest, Schedule;
      if id !in requests {
        return Err(Stale);
      }
      Fail(id, Cancelled, CancelledReason);
      ScheduleSound(State());
      ScheduleAll();
      return Ok(());
    }

    method AbandonRequest(id: int)
      requires Valid()
      modifies this
      ensures Valid() && State() == Abandon(old(State()), id)
    {
      hide Linked, Whole, Cancel, Keeps;
      AbandonKeeps(State(), id);
      KeepsSound(State(), Abandon(State(), id), {});
      var answer := CancelRequest(id);
      if answer.Ok? {
        requests := requests - {id};
      }
    }

    /** Cancel the requests of one operation, or of a lost session, and close what they had claimed. */
    method CancelOwners(m: OwnerMatch)
      requires Valid()
      modifies this
      ensures Valid() && State() == CancelMatching(old(State()), m)
    {
      hide Linked, Whole, Keeps, FailAll, CloseAll, Schedule, Matches;
      CancelMatchingKeeps(State(), m);
      KeepsSound(State(), CancelMatching(State(), m), {});
      var mine := (r: Pending) => Matches(m, r.request.owner);
      var ids := CollectRequests(mine);
      FailMany(ids, Cancelled, CancelledReason);
      var leased := (e: Entry) => e.owner.Some? && Matches(m, e.owner.value) && e.state.Leased?;
      var claimed := CollectEntries(leased);
      EntriesToAre(State(), leased, connectionSerial);
      CloseMany(claimed, CancelledReason);
      ScheduleAll();
    }

    // -------------------------------------------------------------------------------------------------------------
    // Leases and connections
    // -------------------------------------------------------------------------------------------------------------

    method Release(lease: Lease, reusable: bool, since: Option<nat>) returns (answer: Result<(), Error>)
      requires Valid()
      modifies this
      ensures Valid() && (State(), answer) == ReleaseAt(old(State()), lease, reusable, since)
    {
      hide Linked, Whole, Keeps, StartClosing, Schedule;
      ReleaseKeeps(State(), lease, reusable, since);
      KeepsSound(State(), ReleaseAt(State(), lease, reusable, since).0, {});
      if !IsLive(State(), lease) {
        return Err(Stale);
      }
      var e := entries[lease.connection];
      if e.state.request.Some? {
        return Err(WrongState);
      }
      var outlived := Aged(State(), e);
      if reusable && e.reusable && !outlived && !stopped {
        var from := if since.Some? then since.value else now;
        entries := entries[lease.connection := e.(owner := None, idleSince := None, state := Idle(from))];
      } else {
        var reason := if !e.reusable then Unproven else if outlived && reusable then AgeExpired else Discarded;
        BeginClosing(lease.connection, reason);
      }
      ScheduleAll();
      return Ok(());
    }

    /** Free the slot, or hold it while the server may still count it. */
    method Discard(c: int, settle: bool)
      requires c in entries
      modifies this
      ensures State() == Dispose(old(State()), c, settle)
    {
      hide NumberFor;
      var e := entries[c];
      var ms := if settle && !stopped then NumberFor(settles, e.key) else None;
      var evictor := FindEvictor(c);
      entries := entries - {c};
      if ms.Some? && ms.value > 0 {
        holds := holds[c := Hold(e.key, AddSatU64(now, ms.value), evictor)];
      }
    }

    method FindEvictor(c: int) returns (evictor: Option<int>)
      ensures evictor == EvictorOf(State(), c, requestSerial)
    {
      evictor := None;
      var n := 0;
      while n < requestSerial
        invariant n <= requestSerial && evictor == EvictorOf(State(), c, n)
      {
        n := n + 1;
        if evictor.None? && n in requests && requests[n].state.Waiting? && requests[n].eviction == Some(c) {
          evictor := Some(n);
        }
      }
    }

    method ConfirmClosed(c: int) returns (answer: Result<(), Error>)
      requires Valid()
      modifies this
      ensures Valid() && (State(), answer) == Closed(old(State()), c)
    {
      hide Linked, Whole, Keeps, Dispose, Schedule;
      ClosedKeeps(State(), c);
      KeepsSound(State(), Closed(State(), c).0, if Closed(State(), c).1.Ok? then {c} else {});
      if c !in entries {
        return Err(Stale);
      }
      var s := entries[c].state;
      if !s.Closing? || !(s.cleanup.sent || s.cleanup.aborted) {
        return Err(WrongState);
      }
      Discard(c, true);
      ScheduleAll();
      return Ok(());
    }

    method LoseIdle(c: int) returns (answer: Result<(), Error>)
      requires Valid()
      modifies this
      ensures Valid() && (State(), answer) == IdleClosed(old(State()), c)
    {
      hide Linked, Whole, Keeps, Schedule;
      IdleClosedKeeps(State(), c);
      KeepsSound(State(), IdleClosed(State(), c).0, if IdleClosed(State(), c).1.Ok? then {c} else {});
      if c !in entries {
        return Err(Stale);
      }
      if !entries[c].state.Idle? && !entries[c].state.Closing? {
        return Err(WrongState);
      }
      entries := entries - {c};
      ScheduleAll();
      return Ok(());
    }

    method CloseIdle() returns (count: nat)
      requires Valid()
      modifies this
      ensures Valid() && State() == ExpireIdle(old(State())) && count == |AllIdle(old(State()))|
    {
      hide Linked, Whole, Keeps, CloseAll, Schedule;
      ExpireIdleKeeps(State());
      KeepsSound(State(), ExpireIdle(State()), {});
      var idle := (e: Entry) => e.state.Idle?;
      var ids := CollectEntries(idle);
      EntriesToAre(State(), idle, connectionSerial);
      count := |ids|;
      CloseMany(ids, IdleExpired);
      ScheduleAll();
    }

    /** Retiring a scope keeps the object valid exactly when nothing in the scope serves a request. */
    method Retire(scope: string)
      requires Valid()
      modifies this
      ensures State() == RetireScope(old(State()), scope)
      ensures Valid() <==> SafeToRetire(old(State()), scope)
    {
      hide Linked, Whole, Keeps, CloseAll, Schedule, SafeToRetire;
      RetireSound(State(), scope);
      var scoped := (e: Entry) => e.identity == Scoped(scope);
      var ids := CollectEntries(scoped);
      EntriesToAre(State(), scoped, connectionSerial);
      CloseMany(ids, CancelledReason);
      ScheduleAll();
    }

    static lemma RetireSound(p: Pool, scope: string)
      requires Sound(p)
      ensures Sound(RetireScope(p, scope)) <==> SafeToRetire(p, scope)
    {
      hide Linked, Kept, Orphaned, RetireScope, SafeToRetire;
      var q := RetireScope(p, scope);
      RetireKept(p, scope);
      KeptIsLinked(p, q, {});
      RetireOrphansIffServing(p, scope);
    }

    method MarkStopped()
      requires Valid()
      modifies this`stopped, this`holds
      ensures Valid() && State() == old(State()).(stopped := true, holds := map[])
    {
      hide Linked, Whole, Calm;
      stopped := true;
      holds := map[];
      assert State() == old(State()).(stopped := true, holds := map[]);
      SameCalm(old(State()), State());
      CalmSound(old(State()), State(), {});
    }

    method StopWith(error: Error, reason: CloseReason)
      requires Valid()
      modifies this
      ensures Valid() && State() == Stop(old(State()), error, reason)
    {
      hide Linked, Whole, Keeps, FailAll, CloseAll;
      StopKeeps(State(), error, reason);
      KeepsSound(State(), Stop(State(), error, reason), {});
      MarkStopped();
      var everybody := (_: Pending) => true;
      var ids := CollectRequests(everybody);
      FailMany(ids, error, reason);
      var held := (e: Entry) => e.state.Idle? || e.state.Leased?;
      var rest := CollectEntries(held);
      EntriesToAre(State(), held, connectionSerial);
      CloseMany(rest, reason);
    }

    method ShutDownNow()
      requires Valid()
      modifies this
      ensures Valid() && State() == ShutDown(old(State()))
    {
      hide Linked, Whole, Stop;
      StopWith(Shutdown, ShutdownReason);
    }

    method MarkDriverLost()
      requires Valid()
      modifies this`driverLost
      ensures Valid() && State() == old(State()).(driverLost := true)
    {
      hide Linked, Whole, Calm;
      driverLost := true;
      assert State() == old(State()).(driverLost := true);
      SameCalm(old(State()), State());
      CalmSound(old(State()), State(), {});
    }

    method DriverGone()
      requires Valid()
      modifies this
      ensures Valid() && State() == LoseDriver(old(State()))
    {
      hide Linked, Whole, Stop;
      MarkDriverLost();
      StopWith(DriverLost, DriverLostReason);
    }

    // -------------------------------------------------------------------------------------------------------------
    // Scopes and numbers
    // -------------------------------------------------------------------------------------------------------------

    method ReleaseUntouched(lease: Lease) returns (answer: Result<(), Error>)
      requires Valid()
      modifies this
      ensures Valid() && (State(), answer) == ReleaseUnused(old(State()), lease)
    {
      hide Linked, Whole, ReleaseAt;
      var since := if lease.connection in entries then entries[lease.connection].idleSince else None;
      answer := Release(lease, true, since);
    }

    method ScopeLease(lease: Lease, scope: string, named: bool) returns (answer: Result<(), Error>)
      requires Valid()
      modifies this
      ensures Valid() && (State(), answer) == ScopeHttps(old(State()), lease, scope, named)
    {
      hide Linked, Whole, Keeps;
      ScopeKeeps(State(), lease, scope, named);
      KeepsSound(State(), ScopeHttps(State(), lease, scope, named).0, {});
      if !IsLive(State(), lease) {
        return Err(Stale);
      }
      var e := entries[lease.connection];
      if !named || e.key.scheme != Https {
        return Err(InvalidRequest);
      }
      if e.identity.Anonymous? {
        entries := entries[lease.connection := e.(identity := Scoped(scope))];
        return Ok(());
      }
      return if e.identity == Scoped(scope) then Ok(()) else Err(WrongState);
    }

    method LimitSite(site: Site, limit: nat, named: bool) returns (answer: Result<(), Error>)
      requires Valid()
      modifies this
      ensures Valid() && (State(), answer) == SetLimit(old(State()), site, limit, named)
    {
      hide Linked, Whole, Keeps, Schedule, SetNumber, Placed;
      SetLimitKeeps(State(), site, limit, named);
      KeepsSound(State(), SetLimit(State(), site, limit, named).0, {});
      if driverLost {
        return Err(DriverLost);
      }
      if stopped {
        return Err(Shutdown);
      }
      if !named || limit == 0 {
        return Err(InvalidRequest);
      }
      limits := PutNumber(limits, site, limit);
      assert State() == old(State()).(limits := SetNumber(old(limits), site, limit));
      ScheduleAll();
      return Ok(());
    }

    method ClearSite(site: Site)
      requires Valid()
      modifies this
      ensures Valid() && State() == ClearLimit(old(State()), site)
    {
      hide Linked, Whole, Keeps, Schedule, Scheduled, WithoutNumber;
      ClearLimitKeeps(State(), site);
      KeepsSound(State(), ClearLimit(State(), site), {});
      limits := DropNumber(limits, site);
      assert State() == old(State()).(limits := WithoutNumber(old(limits), site));
      ScheduleAll();
    }

    method SettleSite(site: Site, ms: nat, named: bool) returns (answer: Result<(), Error>)
      requires Valid()
      modifies this
      ensures Valid() && (State(), answer) == SetSettle(old(State()), site, ms, named)
    {
      hide Linked, Whole, Keeps, SetNumber;
      SetSettleKeeps(State(), site, ms, named);
      KeepsSound(State(), SetSettle(State(), site, ms, named).0, {});
      if driverLost {
        return Err(DriverLost);
      }
      if stopped {
        return Err(Shutdown);
      }
      if !named {
        return Err(InvalidRequest);
      }
      settles := PutNumber(settles, site, ms);
      assert State() == old(State()).(settles := SetNumber(old(settles), site, ms));
      return Ok(());
    }

    method SpareSite(site: Site, on: bool, named: bool) returns (answer: Result<(), Error>)
      requires Valid()
      modifies this
      ensures Valid() && (State(), answer) == SetNoEvict(old(State()), site, on, named)
    {
      hide Linked, Whole, Keeps, Schedule, Placed;
      SetNoEvictKeeps(State(), site, on, named);
      KeepsSound(State(), SetNoEvict(State(), site, on, named).0, {});
      if driverLost {
        return Err(DriverLost);
      }
      if stopped {
        return Err(Shutdown);
      }
      if !named {
        return Err(InvalidRequest);
      }
      var i := Position(noEvicts, site);
      if on && i == |noEvicts| {
        noEvicts := noEvicts + [site];
        assert State() == old(State()).(noEvicts := old(noEvicts) + [site]);
      } else if !on && i < |noEvicts| {
        noEvicts := SwapRemove(noEvicts, i);
        assert State() == old(State()).(noEvicts := SwapRemove(old(noEvicts), i));
      } else {
        return Ok(());
      }
      ScheduleAll();
      return Ok(());
    }

    method DiscardIdleOn(site: Site) returns (count: nat)
      requires Valid()
      modifies this
      ensures Valid() && State() == DiscardIdle(old(State()), site) && count == |IdleOn(old(State()), site)|
    {
      hide Linked, Whole, Keeps, CloseAll;
      DiscardIdleKeeps(State(), site);
      KeepsSound(State(), DiscardIdle(State(), site), {});
      var idle := (e: Entry) => e.state.Idle? && OnSite(e.key, site);
      var ids := CollectEntries(idle);
      EntriesToAre(State(), idle, connectionSerial);
      CloseMany(ids, Discarded);
      count := |ids|;
    }

    // -------------------------------------------------------------------------------------------------------------
    // The end of a connect
    // -------------------------------------------------------------------------------------------------------------

    method FailServed(request: Option<int>, error: Error)
      requires request.Some? ==> request.value in requests
      modifies this`requests
      ensures State() == FailLinked(old(State()), request, error)
    {
      if request.Some? {
        requests := requests[request.value := requests[request.value].(state := Failed(error))];
      }
    }

    method GrantLease(c: int, id: int, reusable: bool)
      requires c in entries && id in requests && entries[c].state.Connecting?
      modifies this
      ensures State() == Grant(old(State()), c, id, reusable)
    {
      hide StartClosing;
      if leaseSerial + 1 > U64_MAX {
        FailServed(Some(id), CapacityError);
        BeginClosing(c, Discarded);
        return;
      }
      leaseSerial := leaseSerial + 1;
      var lease := Lease(c, leaseSerial);
      entries := entries[c := entries[c].(reusable := reusable, born := now, state := Leased(lease, Some(id)))];
      requests := requests[id := requests[id].(state := Ready(lease))];
    }

    method FinishConnect(c: int, result: Connection)
      requires Valid() && c in entries && entries[c].state.Connecting?
      modifies this
      ensures State() == Finish(old(State()), c, result)
    {
      hide Linked, Whole, Dispose, StartClosing, Grant, FailLinked;
      var e := entries[c];
      var request, cancelled := e.state.request, e.state.cancel.Some?;
      LinkedEntry(State(), c);
      match result {
        case Refused(failure) =>
          Discard(c, cancelled);
          DisposeIs(old(State()), c, cancelled);
          FailServed(request, ConnectFailed(failure));
        case Connected(proof) =>
          var mismatch := proof.Some? && proof.value != e.identity;
          if cancelled || mismatch {
            FailServed(request, IdentityMismatch);
            FailLinkedEntries(old(State()), request, IdentityMismatch);
            BeginClosing(c, if mismatch then IdentityMismatchReason else CancelledReason);
          } else {
            GrantLease(c, request.value, proof.Some?);
          }
      }
    }

    static lemma FailLinkedEntries(p: Pool, request: Option<int>, error: Error)
      ensures FailLinked(p, request, error).entries == p.entries
    {
    }

    method ConnectDone(c: int, result: Connection) returns (answer: Result<(), Error>)
      requires Valid()
      modifies this
      ensures Valid() && (State(), answer) == ConnectEnds(old(State()), c, result)
    {
      hide Linked, Whole, Keeps, Finish, FailRequest, Schedule, Refusals;
      ConnectEndsKeeps(State(), c, result);
      KeepsSound(State(), ConnectEnds(State(), c, result).0, Refusals(State(), c, result));
      if c !in entries {
        return Err(Stale);
      }
      if !entries[c].state.Connecting? || entries[c].state.clock.None? {
        return Err(WrongState);
      }
      var s := entries[c].state;
      var absolute := AbsoluteDeadline(State(), s.request);
      if absolute.Some? && now >= absolute.value {
        Fail(s.request.value, ClockError(s.clock.value), CancelledReason);
      } else {
        FinishConnect(c, result);
      }
      ScheduleAll();
      return Ok(());
    }

    // -------------------------------------------------------------------------------------------------------------
    // Actions
    // -------------------------------------------------------------------------------------------------------------

    method TakeAction() returns (action: Option<Action>)
      requires Valid()
      modifies this
      ensures Valid() && (State(), action) == NextAction(old(State()))
    {
      hide Linked, Whole, Keeps, CleanupAction, WithCleanup, Undispatched, Dispatch;
      NextActionKeeps(State());
      KeepsSound(State(), NextAction(State()).0, {});
      var c := 1;
      while c <= connectionSerial
        invariant State() == old(State()) && FirstCleanup(State(), 1) == FirstCleanup(State(), c)
        decreases connectionSerial + 1 - c
      {
        if c in entries {
          var due := CleanupAction(State(), c);
          if due.Some? {
            var e := entries[c];
            entries := entries[c := e.(state := WithCleanup(e.state, due.value.1))];
            return Some(due.value.0);
          }
        }
        c := c + 1;
      }
      c := 1;
      while c <= connectionSerial
        invariant State() == old(State()) && FirstCleanup(State(), 1).None?
        invariant FirstUndispatched(State(), 1) == FirstUndispatched(State(), c)
        decreases connectionSerial + 1 - c
      {
        if Undispatched(State(), c) {
          action := SendConnect(c);
          return;
        }
        c := c + 1;
      }
      return None;
    }

    /** The connect timer starts when the command is handed over. */
    method SendConnect(c: int) returns (action: Option<Action>)
      requires Undispatched(State(), c)
      modifies this`entries
      ensures State() == Dispatch(old(State()), c).0 && action == Some(Dispatch(old(State()), c).1)
    {
      hide AbsoluteDeadline;
      var e := entries[c];
      var network := if e.state.networkMs > 0 then Some(AddSatU64(now, e.state.networkMs)) else None;
      var deadline := Sooner(network, AbsoluteDeadline(State(), e.state.request));
      entries := entries[c := e.(state := e.state.(clock := Some(NetworkClock(deadline))))];
      return Some(Connect(c, deadline));
    }

    // -------------------------------------------------------------------------------------------------------------
    // Time
    // -------------------------------------------------------------------------------------------------------------

    method FailOverdue()
      requires Valid()
      modifies this
      ensures Valid() && State() == FailEach(old(State()), OverdueTo(old(State()), old(requestSerial)))
    {
      hide Linked, Whole, FailRequest, Overdue;
      var list: seq<Expiry> := [];
      var n := 0;
      while n < requestSerial
        invariant State() == old(State()) && n <= requestSerial && list == OverdueTo(State(), n)
      {
        n := n + 1;
        if n in requests && Overdue(State(), requests[n]).Some? {
          list := list + [Expiry(n, Overdue(State(), requests[n]).value)];
        }
      }
      for i := 0 to |list|
        invariant Valid() && FailEach(State(), list[i..]) == FailEach(old(State()), list)
      {
        Fail(list[i].id, list[i].error, CancelledReason);
        assert list[i..][1..] == list[i + 1..];
      }
    }

    method CloseOutlived()
      modifies this`entries
      ensures State() == CloseEach(old(State()), OutlivedTo(old(State()), old(connectionSerial)))
    {
      hide StartClosing, Outlived;
      var list: seq<Ending> := [];
      var n := 0;
      while n < connectionSerial
        invariant State() == old(State()) && n <= connectionSerial && list == OutlivedTo(State(), n)
        invariant forall i | 0 <= i < |list| :: list[i].connection in entries
      {
        n := n + 1;
        if n in entries && Outlived(State(), entries[n]).Some? {
          list := list + [Ending(n, Outlived(State(), entries[n]).value)];
        }
      }
      for i := 0 to |list|
        invariant entries.Keys == old(entries.Keys)
        invariant CloseEach(State(), list[i..]) == CloseEach(old(State()), list)
        modifies this`entries
      {
        assert list[i].connection in old(entries.Keys);
        BeginClosing(list[i].connection, list[i].reason);
        assert list[i..][1..] == list[i + 1..];
      }
    }

    /** Holds that have lapsed end, and those they were kept for are served first. */
    method EndHolds()
      modifies this
      ensures State() == LapseHolds(old(State()))
    {
      hide OpenFor;
      var lapsed := LapsedTo(State(), connectionSerial);
      var served := Evictors(State(), lapsed);
      holds := holds - (set c | c in lapsed);
      ghost var p := State();
      assert p == old(State()).(holds := old(holds) - (set c | c in lapsed));
      for i := 0 to |served|
        invariant OpenAll(State(), served[i..]) == OpenAll(p, served)
      {
        Open(served[i]);
        assert served[i..][1..] == served[i + 1..];
      }
    }

    method AdvanceTo(t: nat)
      requires Valid()
      modifies this
      ensures Valid() && State() == Advance(old(State()), t)
    {
      hide Linked, Whole, Keeps, Calm, FailEach, CloseEach, LapseHolds, Schedule, OverdueTo, OutlivedTo;
      AdvanceKeeps(State(), t);
      KeepsSound(State(), Advance(State(), t), {});
      if t < now {
        return;
      }
      now := t;
      assert State() == old(State()).(now := t);
      SameCalm(old(State()), State());
      CalmSound(old(State()), State(), {});
      FailOverdue();
      CloseOutlived();
      EndHolds();
      ScheduleAll();
    }

    /** The earliest instant at which time alone does something. */
    method Deadline() returns (due: Option<nat>)
      ensures due == NextDeadline(State())
    {
      hide RequestDeadline, EntryDeadline;
      var first, second, third: Option<nat> := None, None, None;
      var n := 0;
      while n < requestSerial
        invariant n <= requestSerial && first == RequestsDue(State(), n)
      {
        n := n + 1;
        first := Sooner(first, if n in requests then RequestDeadline(State(), n) else None);
      }
      n := 0;
      while n < connectionSerial
        invariant n <= connectionSerial && second == EntriesDue(State(), n) && third == HoldsDue(State(), n)
      {
        n := n + 1;
        second := Sooner(second, if n in entries then EntryDeadline(State(), entries[n]) else None);
        third := Sooner(third, if n in holds then Some(holds[n].expires) else None);
      }
      return Sooner(Sooner(first, second), third);
    }
  
    // -------------------------------------------------------------------------------------------------------------
    // Pausing a connect
    // -------------------------------------------------------------------------------------------------------------

    method StartInteraction(c: int) returns (answer: Result<(), Error>)
      requires Valid()
      modifies this
      ensures Valid() && (State(), answer) == BeginInteraction(old(State()), c)
    {
      hide Linked, Whole, Keeps, AbsoluteDeadline, Left;
      InteractionKeeps(State(), c);
      KeepsSound(State(), BeginInteraction(State(), c).0, {});
      if c !in entries {
        return Err(Stale);
      }
      if !Running(State(), c) || !entries[c].state.clock.value.NetworkClock? {
        return Err(WrongState);
      }
      var e := entries[c];
      var remaining := Left(e.state.clock.value.limit, now);
      if remaining == Some(0) {
        return Err(ConnectTimeout);
      }
      if e.state.interactionMs == 0 {
        return Err(InteractionTimeout);
      }
      var until := AddSatU64(now, e.state.interactionMs);
      var absolute := AbsoluteDeadline(State(), e.state.request);
      if absolute.Some? {
        until := Min(until, absolute.value);
      }
      entries := entries[c := e.(state := e.state.(clock := Some(InteractionClock(until, remaining))))];
      return Ok(());
    }

    method FinishInteraction(c: int) returns (answer: Result<(), Error>)
      requires Valid()
      modifies this
      ensures Valid() && (State(), answer) == EndInteraction(old(State()), c)
    {
      hide Linked, Whole, Keeps, ResumedLimit;
      InteractionKeeps(State(), c);
      KeepsSound(State(), EndInteraction(State(), c).0, {});
      if c !in entries {
        return Err(Stale);
      }
      if !Running(State(), c) || !entries[c].state.clock.value.InteractionClock? {
        return Err(WrongState);
      }
      var e := entries[c];
      var clock := e.state.clock.value;
      if now >= clock.until {
        return Err(InteractionTimeout);
      }
      var limit := ResumedLimit(State(), e.state.request, clock.remaining);
      entries := entries[c := e.(state := e.state.(interactionMs := clock.until - now, clock := Some(NetworkClock(limit))))];
      return Ok(());
    }

    method StartLocalWait(c: int) returns (answer: Result<(), Error>)
      requires Valid()
      modifies this
      ensures Valid() && (State(), answer) == BeginLocalWait(old(State()), c)
    {
      hide Linked, Whole, Keeps, Left;
      LocalWaitKeeps(State(), c);
      KeepsSound(State(), BeginLocalWait(State(), c).0, {});
      if c !in entries {
        return Err(Stale);
      }
      if !Running(State(), c) {
        return Err(WrongState);
      }
      var e := entries[c];
      match e.state.clock.value {
        case LocalWait(_, _) => return Ok(());
        case InteractionClock(_, _) => return Err(WrongState);
        case NetworkClock(limit) =>
          if e.state.request.None? || e.state.request.value !in requests {
            return Err(WrongState);
          }
          var allocation := requests[e.state.request.value].deadline;
          var remaining := Left(limit, now);
          if remaining == Some(0) {
            return Err(ConnectTimeout);
          }
          if allocation <= now {
            return Err(LocalWaitExpired);
          }
          entries := entries[c := e.(state := e.state.(clock := Some(LocalWait(allocation, remaining))))];
          return Ok(());
      }
    }

    method FinishLocalWait(c: int) returns (answer: Result<(), Error>)
      requires Valid()
      modifies this
      ensures Valid() && (State(), answer) == EndLocalWait(old(State()), c)
    {
      hide Linked, Whole, Keeps, ResumedLimit;
      LocalWaitKeeps(State(), c);
      KeepsSound(State(), EndLocalWait(State(), c).0, {});
      if c !in entries {
        return Err(Stale);
      }
      if !Running(State(), c) || !entries[c].state.clock.value.LocalWait? {
        return Err(WrongState);
      }
      var e := entries[c];
      var limit := ResumedLimit(State(), e.state.request, e.state.clock.value.remaining);
      entries := entries[c := e.(state := e.state.(clock := Some(NetworkClock(limit))))];
      return Ok(());
    }
  }
}
