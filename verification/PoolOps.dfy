/** The pool's calls: requests, leases, connections, deadlines and numbers, each ending in a scheduling pass where the source does. */
module PoolOps {
  import opened Base
  import opened PoolTypes
  import opened PoolSchedule

  // ---------------------------------------------------------------------------------------------------------------
  // Requests
  // ---------------------------------------------------------------------------------------------------------------

  function Sharing(p: Pool, session: string): set<int> {
    set id | id in p.requests && p.requests[id].request.owner.session == session
  }

  /** The lease that the preferred connection holds now. */
  function Finishing(p: Pool, prefer: Option<int>): Option<Lease> {
    if prefer.Some? && prefer.value in p.entries && p.entries[prefer.value].state.Leased? then
      Some(p.entries[prefer.value].state.lease)
    else None
  }

  function NewPending(p: Pool, r: Request, absolute: Option<nat>): Pending {
    var allocation :=
      AddSatU64(p.now, if r.allocationTimeoutMs.Some? then r.allocationTimeoutMs.value else p.config.allocationTimeoutMs);
    var deadline := if absolute.Some? then Min(allocation, absolute.value) else allocation;
    var finishing := Finishing(p, r.prefer);
    Pending(
      r, deadline, absolute, Waiting, None,
      if finishing.Some? && r.preferWaitMs.Some? then
        Some(PreferWait(finishing.value, Min(AddSatU64(p.now, r.preferWaitMs.value), deadline)))
      else None)
  }

  function RequestUntil(p: Pool, r: Request, absolute: Option<nat>): (Pool, Result<int, Error>) {
    if p.driverLost then (p, Err(DriverLost))
    else if p.stopped then (p, Err(Shutdown))
    else if !ValidRequest(r, p.config) then (p, Err(InvalidRequest))
    else if absolute.Some? && absolute.value <= p.now then (p, Err(AllocationTimeout))
    else if |p.requests| >= CeilingsFor(p, r).maxRequests || |Sharing(p, r.owner.session)| >= LimitsOf(p, r).maxRequests then
      (p, Err(CapacityError))
    else if p.requestSerial + 1 > U64_MAX then (p, Err(CapacityError))
    else
      var id := p.requestSerial + 1;
      (Schedule(p.(requestSerial := id, requests := p.requests[id := NewPending(p, r, absolute)])), Ok(id))
  }

  function Forget(p: Pool, id: int): Pool {
    p.(requests := p.requests - {id})
  }

  /** Hand over a ready lease, or a failure, once. */
  function Take(p: Pool, id: int): (Pool, Result<Lease, Error>) {
    if id !in p.requests then (p, Err(Stale))
    else
      match p.requests[id].state
      case Ready(lease) =>
        var q :=
          if lease.connection in p.entries && p.entries[lease.connection].state.Leased? then
            var e := p.entries[lease.connection];
            SetEntry(p, lease.connection, e.(state := e.state.(request := None)))
          else p;
        (Forget(q, id), Ok(lease))
      case Failed(error) => (Forget(p, id), Err(error))
      case _ => (p, Err(WouldBlock))
  }

  /** An opening that is given up: never dispatched it disappears, else it waits for its cancellation. */
  function GiveUp(p: Pool, c: int): Pool {
    if c !in p.entries || !p.entries[c].state.Connecting? then p
    else if p.entries[c].state.clock.None? then p.(entries := p.entries - {c})
    else
      var e := p.entries[c];
      var cleanup := Cleanup(AddSatU64(p.now, p.config.cleanupTimeoutMs), false, false);
      SetEntry(p, c, e.(state := e.state.(request := None, cancel := Some(cleanup))))
  }

  /** What a request that fails lets go of. */
  function LetGo(p: Pool, state: RequestState, reason: CloseReason): Pool {
    match state
    case Ready(lease) => StartClosing(p, lease.connection, reason)
    case Opening(c) => GiveUp(p, c)
    case _ => p
  }

  function FailRequest(p: Pool, id: int, error: Error, reason: CloseReason): Pool {
    if id !in p.requests || p.requests[id].state.Failed? then p
    else
      var pending := p.requests[id];
      SetRequest(LetGo(p, pending.state, reason), id, pending.(state := Failed(error)))
  }

  function Cancel(p: Pool, id: int): (Pool, Result<(), Error>) {
    if id !in p.requests then (p, Err(Stale)) else (Schedule(FailRequest(p, id, Cancelled, CancelledReason)), Ok(()))
  }

  function Abandon(p: Pool, id: int): Pool {
    var (q, r) := Cancel(p, id);
    if r.Ok? then Forget(q, id) else q
  }

  datatype OwnerMatch = ByOperation(owner: Owner) | BySession(session: string)

  predicate Matches(m: OwnerMatch, o: Owner) {
    match m
    case ByOperation(owner) => o == owner
    case BySession(session) => o.session == session
  }

  /** Requests up to `n` that satisfy `keep`, oldest first. */
  function RequestsTo(p: Pool, keep: Pending -> bool, n: int): seq<int>
    decreases if n < 0 then 0 else n
  {
    if n <= 0 then [] else RequestsTo(p, keep, n - 1) + if n in p.requests && keep(p.requests[n]) then [n] else []
  }

  function EntriesTo(p: Pool, keep: Entry -> bool, n: int): seq<int>
    decreases if n < 0 then 0 else n
  {
    if n <= 0 then [] else EntriesTo(p, keep, n - 1) + if n in p.entries && keep(p.entries[n]) then [n] else []
  }

  function FailAll(p: Pool, ids: seq<int>, error: Error, reason: CloseReason): Pool
    decreases |ids|
  {
    if ids == [] then p else FailAll(FailRequest(p, ids[0], error, reason), ids[1..], error, reason)
  }

  function CloseAll(p: Pool, ids: seq<int>, reason: CloseReason): Pool
    decreases |ids|
  {
    if ids == [] then p else CloseAll(StartClosing(p, ids[0], reason), ids[1..], reason)
  }

  function CancelMatching(p: Pool, m: OwnerMatch): Pool {
    var q := FailAll(p, RequestsTo(p, (r: Pending) => Matches(m, r.request.owner), p.requestSerial), Cancelled, CancelledReason);
    var leased := EntriesTo(q, (e: Entry) => e.owner.Some? && Matches(m, e.owner.value) && e.state.Leased?, q.connectionSerial);
    Schedule(CloseAll(q, leased, CancelledReason))
  }

  // ---------------------------------------------------------------------------------------------------------------
  // Leases and connections
  // ---------------------------------------------------------------------------------------------------------------

  function ScopeHttps(p: Pool, lease: Lease, scope: string, named: bool): (Pool, Result<(), Error>) {
    if !IsLive(p, lease) then (p, Err(Stale))
    else
      var e := p.entries[lease.connection];
      if !named || e.key.scheme != Https then (p, Err(InvalidRequest))
      else
        match e.identity
        case Anonymous => (SetEntry(p, lease.connection, e.(identity := Scoped(scope))), Ok(()))
        case Scoped(existing) => (p, if existing == scope then Ok(()) else Err(WrongState))
        case _ => (p, Err(WrongState))
  }

  /** Retiring a credential closes every connection in its scope, whatever its state. */
  function RetireScope(p: Pool, scope: string): Pool {
    Schedule(CloseAll(p, EntriesTo(p, (e: Entry) => e.identity == Scoped(scope), p.connectionSerial), CancelledReason))
  }

  predicate Aged(p: Pool, e: Entry) {
    p.now >= AddSatU64(e.born, p.config.maxAgeMs)
  }

  function ReleaseAt(p: Pool, lease: Lease, reusable: bool, since: Option<nat>): (Pool, Result<(), Error>) {
    if !IsLive(p, lease) then (p, Err(Stale))
    else
      var e := p.entries[lease.connection];
      if e.state.request.Some? then (p, Err(WrongState))
      else if reusable && e.reusable && !Aged(p, e) && !p.stopped then
        (Schedule(SetEntry(p, lease.connection, e.(
                             owner := None, idleSince := None, state := Idle(if since.Some? then since.value else p.now)))), Ok(()))
      else
        var reason := if !e.reusable then Unproven else if Aged(p, e) && reusable then AgeExpired else Discarded;
        (Schedule(StartClosing(p, lease.connection, reason)), Ok(()))
  }

  function ReleaseUnused(p: Pool, lease: Lease): (Pool, Result<(), Error>) {
    var since := if lease.connection in p.entries then p.entries[lease.connection].idleSince else None;
    ReleaseAt(p, lease, true, since)
  }

  /** The first waiting request, up to `n`, whose eviction this was. */
  function EvictorOf(p: Pool, c: int, n: int): Option<int>
    decreases if n < 0 then 0 else n
  {
    if n <= 0 then None
    else
      var earlier := EvictorOf(p, c, n - 1);
      if earlier.Some? then earlier
      else if IsWaiting(p, n) && p.requests[n].eviction == Some(c) then Some(n)
      else None
  }

  /** The slot is free, unless the server may still count it for a while. */
  function Dispose(p: Pool, c: int, settle: bool): Pool {
    if c !in p.entries then p
    else
      var e := p.entries[c];
      var ms := if settle && !p.stopped then NumberFor(p.settles, e.key) else None;
      var q := p.(entries := p.entries - {c});
      if ms.None? || ms.value == 0 then q
      else q.(holds := q.holds[c := Hold(e.key, AddSatU64(p.now, ms.value), EvictorOf(p, c, p.requestSerial))])
  }

  function Closed(p: Pool, c: int): (Pool, Result<(), Error>) {
    if c !in p.entries then (p, Err(Stale))
    else
      var s := p.entries[c].state;
      if !s.Closing? || !(s.cleanup.sent || s.cleanup.aborted) then (p, Err(WrongState))
      else (Schedule(Dispose(p, c, true)), Ok(()))
  }

  function IdleClosed(p: Pool, c: int): (Pool, Result<(), Error>) {
    if c !in p.entries then (p, Err(Stale))
    else if !p.entries[c].state.Idle? && !p.entries[c].state.Closing? then (p, Err(WrongState))
    else (Schedule(p.(entries := p.entries - {c})), Ok(()))
  }

  function AllIdle(p: Pool): seq<int> {
    EntriesTo(p, (e: Entry) => e.state.Idle?, p.connectionSerial)
  }

  function ExpireIdle(p: Pool): Pool {
    Schedule(CloseAll(p, AllIdle(p), IdleExpired))
  }

  function Stop(p: Pool, error: Error, reason: CloseReason): Pool {
    var q := p.(stopped := true, holds := map[]);
    var r := FailAll(q, RequestsTo(q, (_: Pending) => true, q.requestSerial), error, reason);
    CloseAll(r, EntriesTo(r, (e: Entry) => e.state.Idle? || e.state.Leased?, r.connectionSerial), reason)
  }

  function ShutDown(p: Pool): Pool {
    Stop(p, Shutdown, ShutdownReason)
  }

  function LoseDriver(p: Pool): Pool {
    Stop(p.(driverLost := true), DriverLost, DriverLostReason)
  }

  /** What a connect comes to: a proof of identity or none, or a failure. */
  datatype Connection = Connected(proof: Option<Identity>) | Refused(failure: int)

  function ClockError(c: ConnectClock): Error {
    match c
    case NetworkClock(_) => ConnectTimeout
    case InteractionClock(_, _) => InteractionTimeout
    case LocalWait(_, _) => LocalWaitExpired
  }

  function AbsoluteDeadline(p: Pool, request: Option<int>): Option<nat> {
    if request.Some? && request.value in p.requests then p.requests[request.value].absoluteDeadline else None
  }

  function FailLinked(p: Pool, request: Option<int>, error: Error): Pool {
    if request.Some? && request.value in p.requests then SetState(p, request.value, Failed(error)) else p
  }

  /** A connect that succeeded for a request that still waits for it. */
  function Grant(p: Pool, c: int, id: int, reusable: bool): Pool
    requires c in p.entries
  {
    if p.leaseSerial + 1 > U64_MAX then
      StartClosing(FailLinked(p, Some(id), CapacityError), c, Discarded)
    else
      var lease := Lease(c, p.leaseSerial + 1);
      var q := p.(
          leaseSerial := p.leaseSerial + 1,
          entries := p.entries[c := p.entries[c].(reusable := reusable, born := p.now, state := Leased(lease, Some(id)))]);
      if id in q.requests then SetState(q, id, Ready(lease)) else q
  }

  function Finish(p: Pool, c: int, result: Connection): Pool
    requires c in p.entries && p.entries[c].state.Connecting?
  {
    var e := p.entries[c];
    var request, cancelled := e.state.request, e.state.cancel.Some?;
    match result
    case Refused(failure) => FailLinked(Dispose(p, c, cancelled), request, ConnectFailed(failure))
    case Connected(proof) =>
      var mismatch := proof.Some? && proof.value != e.identity;
      if cancelled || mismatch then
        StartClosing(
          FailLinked(p, request, IdentityMismatch), c, if mismatch then IdentityMismatchReason else CancelledReason)
      else if request.Some? then Grant(p, c, request.value, proof.Some?)
      else p
  }

  function ConnectEnds(p: Pool, c: int, result: Connection): (Pool, Result<(), Error>) {
    if c !in p.entries then (p, Err(Stale))
    else if !p.entries[c].state.Connecting? || p.entries[c].state.clock.None? then (p, Err(WrongState))
    else
      var s := p.entries[c].state;
      var absolute := AbsoluteDeadline(p, s.request);
      if absolute.Some? && p.now >= absolute.value then
        (Schedule(FailRequest(p, s.request.value, ClockError(s.clock.value), CancelledReason)), Ok(()))
      else (Schedule(Finish(p, c, result)), Ok(()))
  }

  // ---------------------------------------------------------------------------------------------------------------
  // Actions
  // ---------------------------------------------------------------------------------------------------------------

  datatype Action =
    | Connect(connection: int, networkDeadline: Option<nat>)
    | CancelConnect(connection: int, deadline: nat)
    | AbortConnect(connection: int)
    | Close(connection: int, reason: CloseReason, deadline: nat)
    | Abort(connection: int)

  function CleanupOf(s: EntryState): Option<Cleanup> {
    match s
    case Connecting(_, _, _, _, cancel) => cancel
    case Closing(_, cleanup) => Some(cleanup)
    case _ => None
  }

  function WithCleanup(s: EntryState, cleanup: Cleanup): EntryState {
    match s
    case Connecting(request, clock, networkMs, interactionMs, _) =>
      Connecting(request, clock, networkMs, interactionMs, Some(cleanup))
    case Closing(reason, _) => Closing(reason, cleanup)
    case _ => s
  }

  /** The command that an entry's cleanup calls for now. */
  function CleanupAction(p: Pool, c: int): Option<(Action, Cleanup)>
    requires c in p.entries
  {
    var s := p.entries[c].state;
    var cleanup := CleanupOf(s);
    if cleanup.None? then None
    else if !cleanup.value.aborted && p.now >= cleanup.value.deadline then
      Some((if s.Connecting? then AbortConnect(c) else Abort(c), cleanup.value.(aborted := true)))
    else if !cleanup.value.sent && !cleanup.value.aborted then
      Some((if s.Connecting? then CancelConnect(c, cleanup.value.deadline)
            else if s.Closing? then Close(c, s.reason, cleanup.value.deadline)
            else Abort(c), cleanup.value.(sent := true)))
    else None
  }

  function FirstCleanup(p: Pool, c: int): Option<int>
    decreases p.connectionSerial - c
  {
    if c > p.connectionSerial then None
    else if c in p.entries && CleanupAction(p, c).Some? then Some(c)
    else FirstCleanup(p, c + 1)
  }

  predicate Undispatched(p: Pool, c: int) {
    c in p.entries && p.entries[c].state.Connecting? && p.entries[c].state.cancel.None? && p.entries[c].state.clock.None?
  }

  function FirstUndispatched(p: Pool, c: int): Option<int>
    decreases p.connectionSerial - c
  {
    if c > p.connectionSerial then None
    else if Undispatched(p, c) then Some(c)
    else FirstUndispatched(p, c + 1)
  }

  function Sooner(a: Option<nat>, b: Option<nat>): Option<nat> {
    if a.None? then b else if b.None? then a else Some(Min(a.value, b.value))
  }

  function Dispatch(p: Pool, c: int): (Pool, Action)
    requires Undispatched(p, c)
  {
    var e := p.entries[c];
    var network := if e.state.networkMs > 0 then Some(AddSatU64(p.now, e.state.networkMs)) else None;
    var deadline := Sooner(network, AbsoluteDeadline(p, e.state.request));
    (SetEntry(p, c, e.(state := e.state.(clock := Some(NetworkClock(deadline))))), Connect(c, deadline))
  }

  /** Commands for the host: cleanup before new connects. */
  function NextAction(p: Pool): (Pool, Option<Action>) {
    match FirstCleanup(p, 1)
    case Some(c) =>
      if c in p.entries && CleanupAction(p, c).Some? then
        var (action, cleanup) := CleanupAction(p, c).value;
        var e := p.entries[c];
        (SetEntry(p, c, e.(state := WithCleanup(e.state, cleanup))), Some(action))
      else (p, None)
    case None =>
      match FirstUndispatched(p, 1)
      case Some(c) => if Undispatched(p, c) then (Dispatch(p, c).0, Some(Dispatch(p, c).1)) else (p, None)
      case None => (p, None)
  }

  // ---------------------------------------------------------------------------------------------------------------
  // Time
  // ---------------------------------------------------------------------------------------------------------------

  /** Why a request has run out of time, if it has. */
  function Overdue(p: Pool, r: Pending): Option<Error> {
    match r.state
    case Waiting => if p.now >= r.deadline then Some(AllocationTimeout) else None
    case Opening(c) =>
      if c !in p.entries || !p.entries[c].state.Connecting? then None
      else
        var s := p.entries[c].state;
        if s.clock.None? then if p.now >= r.deadline then Some(AllocationTimeout) else None
        else if s.cancel.None? && ClockDeadline(s.clock.value).Some? && p.now >= ClockDeadline(s.clock.value).value then
          Some(ClockError(s.clock.value))
        else None
    case Ready(_) => if r.absoluteDeadline.Some? && p.now >= r.absoluteDeadline.value then Some(AllocationTimeout) else None
    case Failed(_) => None
  }

  datatype Expiry = Expiry(id: int, error: Error)

  function OverdueTo(p: Pool, n: int): seq<Expiry>
    decreases if n < 0 then 0 else n
  {
    if n <= 0 then []
    else
      OverdueTo(p, n - 1) +
      if n in p.requests && Overdue(p, p.requests[n]).Some? then [Expiry(n, Overdue(p, p.requests[n]).value)] else []
  }

  function FailEach(p: Pool, list: seq<Expiry>): Pool
    decreases |list|
  {
    if list == [] then p else FailEach(FailRequest(p, list[0].id, list[0].error, CancelledReason), list[1..])
  }

  function Outlived(p: Pool, e: Entry): Option<CloseReason> {
    if !e.state.Idle? then None
    else if p.now >= AddSatU64(e.state.since, p.config.idleTimeoutMs) then Some(IdleExpired)
    else if Aged(p, e) then Some(AgeExpired)
    else None
  }

  datatype Ending = Ending(connection: int, reason: CloseReason)

  function OutlivedTo(p: Pool, n: int): seq<Ending>
    decreases if n < 0 then 0 else n
  {
    if n <= 0 then []
    else
      OutlivedTo(p, n - 1) +
      if n in p.entries && Outlived(p, p.entries[n]).Some? then [Ending(n, Outlived(p, p.entries[n]).value)] else []
  }

  function CloseEach(p: Pool, list: seq<Ending>): Pool
    decreases |list|
  {
    if list == [] then p else CloseEach(StartClosing(p, list[0].connection, list[0].reason), list[1..])
  }

  /** Lapses first, or at the same time with the smaller id. */
  predicate LapsesBefore(p: Pool, a: int, b: int)
    requires a in p.holds && b in p.holds
  {
    p.holds[a].expires < p.holds[b].expires || (p.holds[a].expires == p.holds[b].expires && a < b)
  }

  predicate InLapseOrder(p: Pool, s: seq<int>) {
    && (forall i | 0 <= i < |s| :: s[i] in p.holds)
    && (forall i, j | 0 <= i < j < |s| :: LapsesBefore(p, s[i], s[j]))
  }

  /** A held slot in its place by expiry, then by id. */
  function Place(p: Pool, c: int, s: seq<int>): seq<int>
    requires c in p.holds && forall i | 0 <= i < |s| :: s[i] in p.holds
  {
    if s == [] || p.holds[c].expires < p.holds[s[0]].expires || (p.holds[c].expires == p.holds[s[0]].expires && c <= s[0]) then
      [c] + s
    else [s[0]] + Place(p, c, s[1..])
  }

  lemma {:induction false} PlaceIs(p: Pool, c: int, s: seq<int>)
    requires c in p.holds && forall i | 0 <= i < |s| :: s[i] in p.holds
    ensures forall x :: x in Place(p, c, s) <==> x == c || x in s
  {
    if s != [] {
      PlaceIs(p, c, s[1..]);
      assert s == [s[0]] + s[1..];
    }
  }

  lemma {:induction false} PlaceKeepsOrder(p: Pool, c: int, s: seq<int>)
    requires c in p.holds && InLapseOrder(p, s) && c !in s
    ensures InLapseOrder(p, Place(p, c, s))
  {
    if s != [] {
      if LapsesBefore(p, c, s[0]) {
        ConsInOrder(p, c, s);
      } else {
        var rest := s[1..];
        PlaceKeepsOrder(p, c, rest);
        PlaceIs(p, c, rest);
        ConsInOrder(p, s[0], Place(p, c, rest));
      }
    }
  }

  lemma ConsInOrder(p: Pool, a: int, s: seq<int>)
    requires a in p.holds && InLapseOrder(p, s) && forall x | x in s :: LapsesBefore(p, a, x)
    ensures InLapseOrder(p, [a] + s)
  {
    hide LapsesBefore;
  }

  function LapsedTo(p: Pool, n: int): (s: seq<int>)
    ensures forall c | c in s :: c in p.holds && p.holds[c].expires <= p.now && 1 <= c <= n
    ensures forall c | 1 <= c <= n && c in p.holds && p.holds[c].expires <= p.now :: c in s
    ensures InLapseOrder(p, s)
    decreases if n < 0 then 0 else n
  {
    if n <= 0 then []
    else
      var s := LapsedTo(p, n - 1);
      if n in p.holds && p.holds[n].expires <= p.now then PlaceIs(p, n, s); PlaceKeepsOrder(p, n, s); Place(p, n, s) else s
  }

  /** The requests that the lapsed holds were kept for, in the order of the lapses. */
  function Evictors(p: Pool, lapsed: seq<int>): seq<int> {
    if lapsed == [] then []
    else
      (if lapsed[0] in p.holds && p.holds[lapsed[0]].evictor.Some? then [p.holds[lapsed[0]].evictor.value] else []) +
      Evictors(p, lapsed[1..])
  }

  function LapseHolds(p: Pool): Pool {
    var lapsed := LapsedTo(p, p.connectionSerial);
    OpenAll(p.(holds := p.holds - (set c | c in lapsed)), Evictors(p, lapsed))
  }

  function Advance(p: Pool, now: nat): Pool {
    if now < p.now then p
    else
      var q := p.(now := now);
      var r := FailEach(q, OverdueTo(q, q.requestSerial));
      Schedule(LapseHolds(CloseEach(r, OutlivedTo(r, r.connectionSerial))))
  }

  function RequestDeadline(p: Pool, id: int): Option<nat>
    requires id in p.requests
  {
    var r := p.requests[id];
    match r.state
    case Waiting => Some(if PreferWaits(p, id) then Min(r.deadline, r.preferWait.value.until) else r.deadline)
    case Opening(c) => if c in p.entries && p.entries[c].state.Connecting? && p.entries[c].state.clock.None? then Some(r.deadline) else None
    case Ready(_) => r.absoluteDeadline
    case Failed(_) => None
  }

  function EntryDeadline(p: Pool, e: Entry): Option<nat> {
    match e.state
    case Idle(since) => Some(Min(AddSatU64(since, p.config.idleTimeoutMs), AddSatU64(e.born, p.config.maxAgeMs)))
    case Closing(_, cleanup) => if cleanup.aborted then None else Some(cleanup.deadline)
    case Connecting(_, clock, _, _, cancel) =>
      if cancel.Some? then if cancel.value.aborted then None else Some(cancel.value.deadline)
      else if clock.Some? then ClockDeadline(clock.value)
      else None
    case Leased(_, _) => None
  }

  function RequestsDue(p: Pool, n: int): Option<nat>
    decreases if n < 0 then 0 else n
  {
    if n <= 0 then None else Sooner(RequestsDue(p, n - 1), if n in p.requests then RequestDeadline(p, n) else None)
  }

  function EntriesDue(p: Pool, n: int): Option<nat>
    decreases if n < 0 then 0 else n
  {
    if n <= 0 then None else Sooner(EntriesDue(p, n - 1), if n in p.entries then EntryDeadline(p, p.entries[n]) else None)
  }

  function HoldsDue(p: Pool, n: int): Option<nat>
    decreases if n < 0 then 0 else n
  {
    if n <= 0 then None else Sooner(HoldsDue(p, n - 1), if n in p.holds then Some(p.holds[n].expires) else None)
  }

  function NextDeadline(p: Pool): Option<nat> {
    Sooner(Sooner(RequestsDue(p, p.requestSerial), EntriesDue(p, p.connectionSerial)), HoldsDue(p, p.connectionSerial))
  }

  // ---------------------------------------------------------------------------------------------------------------
  // Pausing a connect
  // ---------------------------------------------------------------------------------------------------------------

  predicate Running(p: Pool, c: int) {
    c in p.entries && p.entries[c].state.Connecting? && p.entries[c].state.cancel.None? && p.entries[c].state.clock.Some?
  }

  function WithClock(p: Pool, c: int, clock: ConnectClock): Pool
    requires Running(p, c)
  {
    var e := p.entries[c];
    SetEntry(p, c, e.(state := e.state.(clock := Some(clock))))
  }

  function Left(limit: Option<nat>, now: nat): Option<nat> {
    if limit.Some? then Some(SubSat(limit.value, now)) else None
  }

  function BeginInteraction(p: Pool, c: int): (Pool, Result<(), Error>) {
    if c !in p.entries then (p, Err(Stale))
    else if !Running(p, c) || !p.entries[c].state.clock.value.NetworkClock? then (p, Err(WrongState))
    else
      var s := p.entries[c].state;
      var remaining := Left(s.clock.value.limit, p.now);
      if remaining == Some(0) then (p, Err(ConnectTimeout))
      else if s.interactionMs == 0 then (p, Err(InteractionTimeout))
      else
        var until := AddSatU64(p.now, s.interactionMs);
        var absolute := AbsoluteDeadline(p, s.request);
        (WithClock(p, c, InteractionClock(if absolute.Some? then Min(until, absolute.value) else until, remaining)), Ok(()))
  }

  function ResumedLimit(p: Pool, request: Option<int>, remaining: Option<nat>): Option<nat> {
    Sooner(if remaining.Some? then Some(AddSatU64(p.now, remaining.value)) else None, AbsoluteDeadline(p, request))
  }

  function EndInteraction(p: Pool, c: int): (Pool, Result<(), Error>) {
    if c !in p.entries then (p, Err(Stale))
    else if !Running(p, c) || !p.entries[c].state.clock.value.InteractionClock? then (p, Err(WrongState))
    else
      var e := p.entries[c];
      var clock := e.state.clock.value;
      if p.now >= clock.until then (p, Err(InteractionTimeout))
      else
        (SetEntry(p, c, e.(state := e.state.(
                             interactionMs := clock.until - p.now,
                             clock := Some(NetworkClock(ResumedLimit(p, e.state.request, clock.remaining)))))), Ok(()))
  }

  function BeginLocalWait(p: Pool, c: int): (Pool, Result<(), Error>) {
    if c !in p.entries then (p, Err(Stale))
    else if !Running(p, c) then (p, Err(WrongState))
    else
      var s := p.entries[c].state;
      match s.clock.value
      case LocalWait(_, _) => (p, Ok(()))
      case InteractionClock(_, _) => (p, Err(WrongState))
      case NetworkClock(limit) =>
        if s.request.None? || s.request.value !in p.requests then (p, Err(WrongState))
        else
          var allocation := p.requests[s.request.value].deadline;
          var remaining := Left(limit, p.now);
          if remaining == Some(0) then (p, Err(ConnectTimeout))
          else if allocation <= p.now then (p, Err(LocalWaitExpired))
          else (WithClock(p, c, LocalWait(allocation, remaining)), Ok(()))
  }

  function EndLocalWait(p: Pool, c: int): (Pool, Result<(), Error>) {
    if c !in p.entries then (p, Err(Stale))
    else if !Running(p, c) || !p.entries[c].state.clock.value.LocalWait? then (p, Err(WrongState))
    else
      var s := p.entries[c].state;
      (WithClock(p, c, NetworkClock(ResumedLimit(p, s.request, s.clock.value.remaining))), Ok(()))
  }

  // ---------------------------------------------------------------------------------------------------------------
  // Numbers
  // ---------------------------------------------------------------------------------------------------------------

  function Refusal(p: Pool): Option<Error> {
    if p.driverLost then Some(DriverLost) else if p.stopped then Some(Shutdown) else None
  }

  function SetNumber(numbers: seq<SiteLimit>, site: Site, value: nat): seq<SiteLimit> {
    if numbers == [] then [SiteLimit(site, value)]
    else if numbers[0].site == site then [SiteLimit(site, value)] + numbers[1..]
    else [numbers[0]] + SetNumber(numbers[1..], site, value)
  }

  function WithoutNumber(numbers: seq<SiteLimit>, site: Site): seq<SiteLimit> {
    if numbers == [] then []
    else (if numbers[0].site == site then [] else [numbers[0]]) + WithoutNumber(numbers[1..], site)
  }

  /** A number that was set is found on its site, and every other as before. */
  lemma {:induction false} SetThenFind(numbers: seq<SiteLimit>, site: Site, value: nat, key: Key)
    ensures NumberFor(SetNumber(numbers, site, value), key) ==
            if OnSite(key, site) then Some(value) else NumberFor(numbers, key)
  {
    if numbers != [] && numbers[0].site != site {
      SetThenFind(numbers[1..], site, value, key);
      assert ([numbers[0]] + SetNumber(numbers[1..], site, value))[1..] == SetNumber(numbers[1..], site, value);
    } else if numbers != [] {
      assert ([SiteLimit(site, value)] + numbers[1..])[1..] == numbers[1..];
    }
  }

  /** A number that was cleared is gone from its site, and every other is as before. */
  lemma {:induction false} ClearThenFind(numbers: seq<SiteLimit>, site: Site, key: Key)
    ensures NumberFor(WithoutNumber(numbers, site), key) == if OnSite(key, site) then None else NumberFor(numbers, key)
  {
    if numbers != [] {
      var rest := WithoutNumber(numbers[1..], site);
      ClearThenFind(numbers[1..], site, key);
      assert ([numbers[0]] + rest)[1..] == rest && [] + rest == rest;
    }
  }

  /** `named` stands for the check on the site's texts. */
  function SetLimit(p: Pool, site: Site, limit: nat, named: bool): (Pool, Result<(), Error>) {
    if Refusal(p).Some? then (p, Err(Refusal(p).value))
    else if !named || limit == 0 then (p, Err(InvalidRequest))
    else (Schedule(p.(limits := SetNumber(p.limits, site, limit))), Ok(()))
  }

  function ClearLimit(p: Pool, site: Site): Pool {
    Schedule(p.(limits := WithoutNumber(p.limits, site)))
  }

  function SetSettle(p: Pool, site: Site, ms: nat, named: bool): (Pool, Result<(), Error>) {
    if Refusal(p).Some? then (p, Err(Refusal(p).value))
    else if !named then (p, Err(InvalidRequest))
    else (p.(settles := SetNumber(p.settles, site, ms)), Ok(()))
  }

  function IndexOf(sites: seq<Site>, site: Site): (i: nat)
    ensures i <= |sites| && (i < |sites| ==> sites[i] == site) && (i == |sites| ==> site !in sites)
  {
    if sites == [] then 0 else if sites[0] == site then 0 else 1 + IndexOf(sites[1..], site)
  }

  /** The last one takes the place of the one removed. */
  function SwapRemove(sites: seq<Site>, i: nat): seq<Site>
    requires i < |sites|
  {
    sites[i := sites[|sites| - 1]][..|sites| - 1]
  }

  function SetNoEvict(p: Pool, site: Site, on: bool, named: bool): (Pool, Result<(), Error>) {
    if Refusal(p).Some? then (p, Err(Refusal(p).value))
    else if !named then (p, Err(InvalidRequest))
    else
      var i := IndexOf(p.noEvicts, site);
      if on && i == |p.noEvicts| then (Schedule(p.(noEvicts := p.noEvicts + [site])), Ok(()))
      else if !on && i < |p.noEvicts| then (Schedule(p.(noEvicts := SwapRemove(p.noEvicts, i))), Ok(()))
      else (p, Ok(()))
  }

  function IdleOn(p: Pool, site: Site): seq<int> {
    EntriesTo(p, (e: Entry) => e.state.Idle? && OnSite(e.key, site), p.connectionSerial)
  }

  function DiscardIdle(p: Pool, site: Site): Pool {
    CloseAll(p, IdleOn(p, site), Discarded)
  }

  predicate ShutdownComplete(p: Pool) {
    p.stopped && p.entries == map[]
  }
}
