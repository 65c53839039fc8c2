/** The values of the connection pool: `src/pool/mod.rs` and the records of `src/pool/machine.rs`. */
module PoolTypes {
  import opened Base

  datatype Scheme = Ssh | Https

  datatype Key = Key(scheme: Scheme, username: Option<string>, host: string, port: nat)

  datatype Site = Site(scheme: Scheme, host: string, port: nat)

  /** The same user on the same host, whatever the port. */
  predicate SameUserHost(a: Key, b: Key) {
    a.host == b.host && a.username == b.username
  }

  predicate OnSite(key: Key, site: Site) {
    key.scheme == site.scheme && key.host == site.host && key.port == site.port
  }

  predicate SameSite(a: Key, b: Key) {
    a.scheme == b.scheme && a.host == b.host && a.port == b.port
  }

  datatype Identity = Ambient | Explicit(proof: string) | Anonymous | Scoped(scope: string)

  datatype Owner = Owner(session: string, operation: string)

  datatype Capacity = Capacity(perUserHost: nat, perHost: nat, total: nat, maxRequests: nat)

  predicate ValidCapacity(c: Capacity) {
    c.perUserHost > 0 && c.perHost > 0 && c.total > 0 && c.maxRequests > 0
  }

  datatype Config = Config(
    capacity: Capacity, idleTimeoutMs: nat, maxAgeMs: nat, allocationTimeoutMs: nat, connectTimeoutMs: nat,
    interactionTimeoutMs: nat, cleanupTimeoutMs: nat)

  predicate ValidTimeout(ms: nat) {
    1 <= ms <= 86_400_000
  }

  predicate ValidConfig(c: Config) {
    && ValidCapacity(c.capacity)
    && ValidTimeout(c.idleTimeoutMs) && ValidTimeout(c.maxAgeMs) && ValidTimeout(c.allocationTimeoutMs)
    && ValidTimeout(c.interactionTimeoutMs) && ValidTimeout(c.cleanupTimeoutMs)
    && c.connectTimeoutMs <= I32_MAX
  }

  /** `named` stands for the checks on the texts of the key, the identity and the owner. */
  datatype Request = Request(
    key: Key, identity: Identity, owner: Owner, allocationTimeoutMs: Option<nat>, connectTimeoutMs: Option<nat>,
    interactionTimeoutMs: Option<nat>, freshOnly: bool, exclude: seq<int>, limits: Option<Capacity>, prefer: Option<int>,
    preferWaitMs: Option<nat>, named: bool)

  const MAX_EXCLUDED: nat := 64

  predicate WithinTimeout(value: Option<nat>, bound: nat) {
    value.Some? ==> 0 < value.value <= bound
  }

  predicate NetworkTimeoutValid(value: Option<nat>, configured: nat) {
    value.Some? ==>
      value.value <= I32_MAX && (if value.value == 0 then configured == 0 else configured == 0 || value.value <= configured)
  }

  predicate ValidRequest(r: Request, c: Config) {
    && r.named
    && WithinTimeout(r.allocationTimeoutMs, c.allocationTimeoutMs)
    && NetworkTimeoutValid(r.connectTimeoutMs, c.connectTimeoutMs)
    && WithinTimeout(r.interactionTimeoutMs, c.interactionTimeoutMs)
    && |r.exclude| <= MAX_EXCLUDED
    && (r.limits.Some? ==> ValidCapacity(r.limits.value))
    && (r.preferWaitMs.Some? ==> r.prefer.Some? && 0 < r.preferWaitMs.value <= c.cleanupTimeoutMs)
  }

  datatype Lease = Lease(connection: int, generation: int)

  datatype Error =
    | InvalidConfig | InvalidRequest | CapacityError | WouldBlock | Cancelled | Shutdown | DriverLost | Stale | WrongState
    | AllocationTimeout | ConnectTimeout | InteractionTimeout | LocalWaitExpired | IdentityMismatch
    | ConnectFailed(failure: int)

  datatype CloseReason =
    | IdleExpired | AgeExpired | Evicted | Discarded | Unproven | CancelledReason | ShutdownReason
    | IdentityMismatchReason | DriverLostReason

  datatype RequestState = Waiting | Opening(connection: int) | Ready(lease: Lease) | Failed(error: Error)

  datatype PreferWait = PreferWait(finishing: Lease, until: nat)

  datatype Pending = Pending(
    request: Request, deadline: nat, absoluteDeadline: Option<nat>, state: RequestState, eviction: Option<int>,
    preferWait: Option<PreferWait>)

  datatype Cleanup = Cleanup(deadline: nat, sent: bool, aborted: bool)

  datatype ConnectClock =
    | NetworkClock(limit: Option<nat>)
    | InteractionClock(until: nat, remaining: Option<nat>)
    | LocalWait(until: nat, remaining: Option<nat>)

  function ClockDeadline(c: ConnectClock): Option<nat> {
    match c
    case NetworkClock(limit) => limit
    case InteractionClock(until, _) => Some(until)
    case LocalWait(until, _) => Some(until)
  }

  datatype EntryState =
    | Connecting(request: Option<int>, clock: Option<ConnectClock>, networkMs: nat, interactionMs: nat, cancel: Option<Cleanup>)
    | Idle(since: nat)
    | Leased(lease: Lease, request: Option<int>)
    | Closing(reason: CloseReason, cleanup: Cleanup)

  datatype Entry = Entry(
    key: Key, identity: Identity, reusable: bool, owner: Option<Owner>, state: EntryState, idleSince: Option<nat>, born: nat)

  datatype Hold = Hold(key: Key, expires: nat, evictor: Option<int>)

  datatype SiteLimit = SiteLimit(site: Site, limit: nat)

  datatype Pool = Pool(
    config: Config, now: nat, requestSerial: nat, connectionSerial: nat, leaseSerial: nat,
    requests: map<int, Pending>, entries: map<int, Entry>, limits: seq<SiteLimit>, settles: seq<SiteLimit>,
    noEvicts: seq<Site>, holds: map<int, Hold>, stopped: bool, driverLost: bool)

  function NewPool(config: Config): Pool {
    Pool(config, 0, 0, 0, 0, map[], map[], [], [], [], map[], false, false)
  }

  function SetEntry(p: Pool, c: int, e: Entry): Pool {
    p.(entries := p.entries[c := e])
  }

  function SetRequest(p: Pool, id: int, r: Pending): Pool {
    p.(requests := p.requests[id := r])
  }

  function SetState(p: Pool, id: int, state: RequestState): Pool
    requires id in p.requests
  {
    SetRequest(p, id, p.requests[id].(state := state))
  }

  predicate IsWaiting(p: Pool, id: int) {
    id in p.requests && p.requests[id].state.Waiting?
  }

  predicate IsIdle(p: Pool, c: int) {
    c in p.entries && p.entries[c].state.Idle?
  }

  predicate IsLive(p: Pool, lease: Lease) {
    lease.connection in p.entries && p.entries[lease.connection].state.Leased?
    && p.entries[lease.connection].state.lease == lease
  }
}
