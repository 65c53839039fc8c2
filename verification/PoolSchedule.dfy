/** Allocation: who may lease, open or evict, and the scheduling pass over the waiting requests. */
module PoolSchedule {
  import opened Base
  import opened PoolTypes

  // ---------------------------------------------------------------------------------------------------------------
  // Limits
  // ---------------------------------------------------------------------------------------------------------------

  function LimitsOf(p: Pool, r: Request): Capacity {
    if r.limits.Some? then r.limits.value else p.config.capacity
  }

  /** Each ceiling is the larger of the pool's and the request's own. */
  function CeilingsFor(p: Pool, r: Request): Capacity {
    var l, c := LimitsOf(p, r), p.config.capacity;
    Capacity(
      Max(c.perUserHost, l.perUserHost), Max(c.perHost, l.perHost), Max(c.total, l.total), Max(c.maxRequests, l.maxRequests))
  }

  /** What a session holds: its connecting and leased entries. */
  predicate Holds(e: Entry, session: string) {
    (e.state.Connecting? || e.state.Leased?) && e.owner.Some? && e.owner.value.session == session
  }

  function Owned(p: Pool, session: string): set<int> {
    set c | c in p.entries && Holds(p.entries[c], session)
  }

  function OwnedOnHost(p: Pool, session: string, host: string): set<int> {
    set c | c in p.entries && Holds(p.entries[c], session) && p.entries[c].key.host == host
  }

  function OwnedAs(p: Pool, session: string, key: Key): set<int> {
    set c | c in p.entries && Holds(p.entries[c], session) && SameUserHost(p.entries[c].key, key)
  }

  predicate OwnerFull(p: Pool, r: Request) {
    var l := LimitsOf(p, r);
    || |Owned(p, r.owner.session)| >= l.total
    || |OwnedOnHost(p, r.owner.session, r.key.host)| >= l.perHost
    || |OwnedAs(p, r.owner.session, r.key)| >= l.perUserHost
  }

  function EntriesOnHost(p: Pool, host: string): set<int> {
    set c | c in p.entries && p.entries[c].key.host == host
  }

  function HoldsOnHost(p: Pool, host: string): set<int> {
    set c | c in p.holds && p.holds[c].key.host == host
  }

  function EntriesAs(p: Pool, key: Key): set<int> {
    set c | c in p.entries && SameUserHost(p.entries[c].key, key)
  }

  function HoldsAs(p: Pool, key: Key): set<int> {
    set c | c in p.holds && SameUserHost(p.holds[c].key, key)
  }

  function EntriesOnSite(p: Pool, site: Site): set<int> {
    set c | c in p.entries && OnSite(p.entries[c].key, site)
  }

  function HoldsOnSite(p: Pool, site: Site): set<int> {
    set c | c in p.holds && OnSite(p.holds[c].key, site)
  }

  /** Connections and held slots of a host, across ports and schemes. */
  function HostTotal(p: Pool, host: string): nat {
    |EntriesOnHost(p, host)| + |HoldsOnHost(p, host)|
  }

  function UserHostTotal(p: Pool, key: Key): nat {
    |EntriesAs(p, key)| + |HoldsAs(p, key)|
  }

  function SiteTotal(p: Pool, site: Site): nat {
    |EntriesOnSite(p, site)| + |HoldsOnSite(p, site)|
  }

  /** The first number set for the key's site. */
  function NumberFor(numbers: seq<SiteLimit>, key: Key): Option<nat> {
    if numbers == [] then None
    else if OnSite(key, numbers[0].site) then Some(numbers[0].limit)
    else NumberFor(numbers[1..], key)
  }

  function SiteOf(key: Key): Site {
    Site(key.scheme, key.host, key.port)
  }

  predicate SiteFull(p: Pool, key: Key) {
    var limit := NumberFor(p.limits, key);
    limit.Some? && SiteTotal(p, SiteOf(key)) >= limit.value
  }

  predicate NoEvict(p: Pool, key: Key) {
    exists i | 0 <= i < |p.noEvicts| :: OnSite(key, p.noEvicts[i])
  }

  // ---------------------------------------------------------------------------------------------------------------
  // Leasing an idle connection
  // ---------------------------------------------------------------------------------------------------------------

  predicate Compatible(r: Request, c: int, e: Entry) {
    e.key == r.key && e.reusable && e.identity == r.identity && c !in r.exclude
  }

  predicate Leasable(p: Pool, r: Request, c: int) {
    IsIdle(p, c) && Compatible(r, c, p.entries[c])
  }

  /** The request still waits for the exchange that its preferred connection was finishing. */
  predicate PreferWaits(p: Pool, id: int) {
    && id in p.requests
    && var r, wait := p.requests[id].request, p.requests[id].preferWait;
       && r.prefer.Some? && wait.Some? && !r.freshOnly && p.now < wait.value.until
       && r.prefer.value in p.entries
       && var e := p.entries[r.prefer.value];
          e.state.Leased? && e.state.lease == wait.value.finishing && Compatible(r, r.prefer.value, e)
  }

  /** The leasable connection with the least id, from `c` on. */
  function FirstLeasable(p: Pool, r: Request, c: int): (f: Option<int>)
    ensures f.Some? ==> c <= f.value <= p.connectionSerial && Leasable(p, r, f.value)
    ensures forall i | c <= i <= p.connectionSerial && Leasable(p, r, i) :: f.Some? && f.value <= i
    decreases p.connectionSerial - c
  {
    if c > p.connectionSerial then None
    else if Leasable(p, r, c) then Some(c)
    else FirstLeasable(p, r, c + 1)
  }

  /** The preferred connection if it is idle and fits, and otherwise the oldest that does. */
  function Choice(p: Pool, r: Request): Option<int> {
    if r.prefer.Some? && Leasable(p, r, r.prefer.value) then r.prefer else FirstLeasable(p, r, 1)
  }

  function LeaseIdle(p: Pool, id: int, c: int): Pool
    requires id in p.requests && IsIdle(p, c)
  {
    if p.leaseSerial + 1 > U64_MAX then SetState(p, id, Failed(CapacityError))
    else
      var lease := Lease(c, p.leaseSerial + 1);
      var pending, e := p.requests[id], p.entries[c];
      p.(
      leaseSerial := p.leaseSerial + 1,
      requests := p.requests[id := pending.(state := Ready(lease), eviction := None)],
      entries := p.entries[c := e.(
        owner := Some(pending.request.owner), idleSince := Some(e.state.since), state := Leased(lease, Some(id)))])
  }

  predicate MayLease(p: Pool, id: int) {
    && IsWaiting(p, id) && !p.requests[id].request.freshOnly
    && !OwnerFull(p, p.requests[id].request) && !PreferWaits(p, id)
  }

  function ReuseFor(p: Pool, id: int): Pool {
    if !MayLease(p, id) then p
    else
      match Choice(p, p.requests[id].request)
      case None => p
      case Some(c) => LeaseIdle(p, id, c)
  }

  // ---------------------------------------------------------------------------------------------------------------
  // Opening a connection
  // ---------------------------------------------------------------------------------------------------------------

  /** A ceiling other than the owner's own limits leaves no room. */
  predicate Crowded(p: Pool, r: Request) {
    var ceilings := CeilingsFor(p, r);
    || |p.entries| >= ceilings.total
    || UserHostTotal(p, r.key) >= ceilings.perUserHost
    || HostTotal(p, r.key.host) >= ceilings.perHost
    || SiteFull(p, r.key)
  }

  predicate MayOpen(p: Pool, id: int) {
    && IsWaiting(p, id) && !PreferWaits(p, id)
    && !OwnerFull(p, p.requests[id].request) && !Crowded(p, p.requests[id].request)
  }

  function NewEntry(p: Pool, id: int, r: Request): Entry {
    Entry(
      r.key, r.identity, false, Some(r.owner),
      Connecting(
        Some(id), None, if r.connectTimeoutMs.Some? then r.connectTimeoutMs.value else p.config.connectTimeoutMs,
        if r.interactionTimeoutMs.Some? then r.interactionTimeoutMs.value else p.config.interactionTimeoutMs, None),
      None, p.now)
  }

  function OpenFor(p: Pool, id: int): Pool {
    if !MayOpen(p, id) then p
    else if p.connectionSerial + 1 > U64_MAX then SetState(p, id, Failed(CapacityError))
    else
      var c := p.connectionSerial + 1;
      var pending := p.requests[id];
      p.(
      connectionSerial := c,
      requests := p.requests[id := pending.(state := Opening(c), eviction := None)],
      entries := p.entries[c := NewEntry(p, id, pending.request)])
  }

  // ---------------------------------------------------------------------------------------------------------------
  // Evicting an idle connection
  // ---------------------------------------------------------------------------------------------------------------

  function StartClosing(p: Pool, c: int, reason: CloseReason): Pool {
    if c !in p.entries || p.entries[c].state.Closing? then p
    else
      var e := p.entries[c];
      var deadline :=
        if e.state.Connecting? && e.state.cancel.Some? then e.state.cancel.value.deadline
        else AddSatU64(p.now, p.config.cleanupTimeoutMs);
      SetEntry(p, c, e.(owner := None, state := Closing(reason, Cleanup(deadline, false, false))))
  }

  /** An idle entry that counts against every ceiling on which the request finds no room. */
  predicate Evictable(p: Pool, r: Request, c: int) {
    && IsIdle(p, c)
    && var ceilings, key := CeilingsFor(p, r), p.entries[c].key;
       && (UserHostTotal(p, r.key) >= ceilings.perUserHost ==> SameUserHost(key, r.key))
       && (HostTotal(p, r.key.host) >= ceilings.perHost ==> key.host == r.key.host)
       && (SiteFull(p, r.key) ==> SameSite(key, r.key))
  }

  /** Idle for longer, or as long and older. */
  predicate Before(p: Pool, a: int, b: int)
    requires IsIdle(p, a) && IsIdle(p, b)
  {
    p.entries[a].state.since < p.entries[b].state.since || (p.entries[a].state.since == p.entries[b].state.since && a <= b)
  }

  /** The evictable entry that has been idle longest, among ids up to `n`. */
  function Victim(p: Pool, r: Request, n: int): (v: Option<int>)
    ensures v.Some? ==> 1 <= v.value <= n && Evictable(p, r, v.value)
    ensures forall i | 1 <= i <= n && Evictable(p, r, i) :: v.Some? && Before(p, v.value, i)
    decreases if n < 0 then 0 else n
  {
    if n <= 0 then None
    else
      var best := Victim(p, r, n - 1);
      if Evictable(p, r, n) && (best.None? || !Before(p, best.value, n)) then Some(n) else best
  }

  /** The request's earlier victim is not yet gone. */
  predicate Evicting(p: Pool, id: int)
    requires id in p.requests
  {
    var v := p.requests[id].eviction;
    v.Some? && (v.value in p.entries || v.value in p.holds)
  }

  predicate MayEvict(p: Pool, id: int) {
    && IsWaiting(p, id) && !Evicting(p, id) && !PreferWaits(p, id)
    && !NoEvict(p, p.requests[id].request.key) && !OwnerFull(p, p.requests[id].request)
  }

  function Evict(p: Pool, id: int, v: int): Pool
    requires id in p.requests
  {
    var q := StartClosing(p, v, Evicted);
    SetRequest(q, id, p.requests[id].(eviction := Some(v)))
  }

  function EvictFor(p: Pool, id: int): Pool {
    if !MayEvict(p, id) then p
    else
      match Victim(p, p.requests[id].request, p.connectionSerial)
      case None => p
      case Some(v) => Evict(p, id, v)
  }

  // ---------------------------------------------------------------------------------------------------------------
  // The pass
  // ---------------------------------------------------------------------------------------------------------------

  /** The waiting requests up to `n`, oldest first. */
  function WaitingTo(p: Pool, n: int): seq<int>
    decreases if n < 0 then 0 else n
  {
    if n <= 0 then [] else WaitingTo(p, n - 1) + if IsWaiting(p, n) then [n] else []
  }

  function ReuseAll(p: Pool, ids: seq<int>): Pool
    decreases |ids|
  {
    if ids == [] then p else ReuseAll(ReuseFor(p, ids[0]), ids[1..])
  }

  function OpenAll(p: Pool, ids: seq<int>): Pool
    decreases |ids|
  {
    if ids == [] then p else OpenAll(OpenFor(p, ids[0]), ids[1..])
  }

  function EvictAll(p: Pool, ids: seq<int>): Pool
    decreases |ids|
  {
    if ids == [] then p else EvictAll(EvictFor(p, ids[0]), ids[1..])
  }

  /** Reuse for everybody first, then new connections, then evictions. */
  function Schedule(p: Pool): Pool {
    if p.stopped then p
    else
      var waiting := WaitingTo(p, p.requestSerial);
      EvictAll(OpenAll(ReuseAll(p, waiting), waiting), waiting)
  }
}
