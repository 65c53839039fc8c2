/** How the pool's requests and entries refer to each other, and how both evolve. */
module PoolLinks {
  import opened Base
  import opened PoolTypes

  // ---------------------------------------------------------------------------------------------------------------
  // Links
  // ---------------------------------------------------------------------------------------------------------------

  /** The request that an entry serves. */
  function EntryLink(p: Pool, c: int): Option<int> {
    if c !in p.entries then None
    else
      match p.entries[c].state
      case Connecting(request, _, _, _, _) => request
      case Leased(_, request) => request
      case _ => None
  }

  /** The connection that a request has. */
  function RequestLink(p: Pool, id: int): Option<int> {
    if id !in p.requests then None
    else
      match p.requests[id].state
      case Opening(c) => Some(c)
      case Ready(lease) => Some(lease.connection)
      case _ => None
  }

  /** The request's connection is in the table, connecting for it, or leased to it and unclaimed. */
  predicate Served(p: Pool, id: int) {
    id in p.requests &&
    match p.requests[id].state
    case Opening(c) => c in p.entries && p.entries[c].state.Connecting? && p.entries[c].state.request == Some(id)
    case Ready(lease) => lease.connection in p.entries && p.entries[lease.connection].state == Leased(lease, Some(id))
    case _ => false
  }

  /** The request counts on a connection that does not serve it. */
  predicate Orphaned(p: Pool, id: int) {
    RequestLink(p, id).Some? && !Served(p, id)
  }

  predicate ShutOrGone(p: Pool, c: int) {
    c <= p.connectionSerial && (c in p.entries ==> p.entries[c].state.Closing?)
  }

  predicate RequestLinked(p: Pool, id: int) {
    id in p.requests ==>
      && 1 <= id <= p.requestSerial
      && (Orphaned(p, id) ==> ShutOrGone(p, RequestLink(p, id).value))
  }

  predicate EntryLinked(p: Pool, c: int) {
    c in p.entries ==>
      && 1 <= c <= p.connectionSerial && c !in p.holds
      && match p.entries[c].state
         case Connecting(request, clock, _, _, cancel) =>
           if request.Some? then
             && request.value in p.requests && p.requests[request.value].state == Opening(c) && cancel.None?
             && p.entries[c].owner == Some(p.requests[request.value].request.owner)
           else cancel.Some? && clock.Some?
         case Leased(lease, request) =>
           && lease.connection == c && lease.generation <= p.leaseSerial
           && (request.Some? ==>
                 && request.value in p.requests && p.requests[request.value].state == Ready(lease)
                 && p.entries[c].owner == Some(p.requests[request.value].request.owner))
         case _ => true
  }

  predicate HoldsInRange(p: Pool) {
    forall c | c in p.holds :: 1 <= c <= p.connectionSerial
  }

  /** Each entry serves a request that counts on it, and a request without service counts on one that is shut or gone. */
  ghost predicate Linked(p: Pool) {
    (forall id: int :: RequestLinked(p, id)) && (forall c: int :: EntryLinked(p, c)) && HoldsInRange(p)
  }

  /** `q` differs from `p` in one request, one entry and the serials at most. */
  ghost predicate SameBut(p: Pool, q: Pool, id: int, c: int) {
    && (forall i: int | i != id :: i in q.requests <==> i in p.requests)
    && (forall i: int | i != id && i in p.requests :: q.requests[i] == p.requests[i])
    && (forall k: int | k != c :: k in q.entries <==> k in p.entries)
    && (forall k: int | k != c && k in p.entries :: q.entries[k] == p.entries[k])
    && p.requestSerial <= q.requestSerial && p.connectionSerial <= q.connectionSerial && p.leaseSerial <= q.leaseSerial
    && (ShutOrGone(p, c) ==> ShutOrGone(q, c))
  }

  /** No request loses its connection. */
  ghost predicate Faithful(p: Pool, q: Pool) {
    forall id: int | Orphaned(q, id) :: Orphaned(p, id)
  }

  /** Every request that counts on a connection is served by it. */
  ghost predicate Whole(p: Pool) {
    forall id: int :: !Orphaned(p, id)
  }

  lemma NotOrphaned(p: Pool, id: int)
    requires Whole(p)
    ensures !Orphaned(p, id)
  {
    hide Orphaned;
  }

  lemma StaysWhole(p: Pool, q: Pool)
    requires Whole(p) && Faithful(p, q)
    ensures Whole(q)
  {
    hide Orphaned;
  }

  lemma FaithfulOn(p: Pool, q: Pool, r: Pool)
    requires Faithful(p, q) && Faithful(q, r)
    ensures Faithful(p, r)
  {
    hide Orphaned;
  }

  lemma RequestsStayLinked(p: Pool, q: Pool, id: int, c: int, i: int)
    requires Linked(p) && SameBut(p, q, id, c) && i != id
    requires EntryLink(p, c).Some? ==> EntryLink(p, c) == Some(id)
    ensures RequestLinked(q, i) && (Orphaned(q, i) ==> Orphaned(p, i))
  {
    assert RequestLinked(p, i);
    if i in q.requests {
      assert q.requests[i] == p.requests[i];
      var link := RequestLink(p, i);
      if link.Some? && link.value != c && link.value in p.entries {
        assert q.entries[link.value] == p.entries[link.value];
      }
    }
  }

  lemma EntriesStayLinked(p: Pool, q: Pool, id: int, c: int, k: int)
    requires Linked(p) && SameBut(p, q, id, c) && k != c
    requires RequestLink(p, id).Some? ==> RequestLink(p, id) == Some(c)
    requires forall k | k in q.entries && k != c :: k !in q.holds
    ensures EntryLinked(q, k)
  {
    assert EntryLinked(p, k);
    if k in q.entries {
      assert q.entries[k] == p.entries[k];
      var link := EntryLink(p, k);
      if link.Some? {
        assert RequestLink(p, link.value) == Some(k);
        assert q.requests[link.value] == p.requests[link.value];
      }
    }
  }

  /** Changing one request and one entry that serve at most each other. */
  lemma Relink(p: Pool, q: Pool, id: int, c: int)
    requires Linked(p) && SameBut(p, q, id, c)
    requires EntryLink(p, c).Some? ==> EntryLink(p, c) == Some(id)
    requires RequestLink(p, id).Some? ==> RequestLink(p, id) == Some(c)
    requires RequestLinked(q, id) && EntryLinked(q, c)
    requires HoldsInRange(q) && (forall k | k in q.entries && k != c :: k !in q.holds)
    ensures Linked(q) && ((Orphaned(q, id) ==> Orphaned(p, id)) ==> Faithful(p, q))
  {
    hide RequestLinked, EntryLinked, SameBut, EntryLink, RequestLink, Orphaned;
    forall i: int ensures RequestLinked(q, i) && (i != id && Orphaned(q, i) ==> Orphaned(p, i)) {
      if i != id {
        RequestsStayLinked(p, q, id, c, i);
      }
    }
    forall k: int ensures EntryLinked(q, k) {
      if k != c {
        EntriesStayLinked(p, q, id, c, k);
      }
    }
  }

  // ---------------------------------------------------------------------------------------------------------------
  // Evolution
  // ---------------------------------------------------------------------------------------------------------------

  /** The host has been told to connect it. */
  predicate Sent(e: Entry) {
    !(e.state.Connecting? && e.state.clock.None?)
  }

  predicate Busy(e: Entry) {
    e.state.Connecting? || e.state.Leased?
  }

  /** What an entry may become: its key stays, it gains no owner and no old lease, stays known once sent and shut once closing. */
  predicate EntryStep(p: Pool, e: Entry, next: Entry) {
    && next.key == e.key
    && (Busy(next) ==> Busy(e) && next.owner == e.owner)
    && (next.state.Leased? ==>
          (e.state.Leased? && next.state.lease == e.state.lease) || next.state.lease.generation > p.leaseSerial)
    && (Sent(e) ==> Sent(next)) && (e.state.Closing? ==> next.state.Closing?)
  }

  /** `q` comes after `p`; the connections in `gone` were acknowledged as disposed on the way. */
  ghost predicate Evolves(p: Pool, q: Pool, gone: set<int>) {
    && q.config == p.config && p.now <= q.now
    && p.requestSerial <= q.requestSerial && p.connectionSerial <= q.connectionSerial && p.leaseSerial <= q.leaseSerial
    && (forall lease: Lease | IsLive(q, lease) :: IsLive(p, lease) || p.leaseSerial < lease.generation)
    && (forall c: int | c in q.entries :: c in p.entries || p.connectionSerial < c)
    && (forall c: int | c in p.entries && Sent(p.entries[c]) && c !in gone :: c in q.entries && Sent(q.entries[c]))
  }

  lemma EvolvesOn(p: Pool, q: Pool, r: Pool, gone: set<int>, more: set<int>)
    requires Evolves(p, q, gone) && Evolves(q, r, more)
    ensures Evolves(p, r, gone + more)
  {
    hide IsLive, Sent;
  }

  /** Every request was made before, and asks for what it asked. */
  predicate SameAsked(p: Pool, q: Pool) {
    forall id | id in q.requests :: id in p.requests && q.requests[id].request == p.requests[id].request
  }

  /** Taking up no new room: every slot, every session's holding and every request was there before. */
  ghost predicate Recedes(p: Pool, q: Pool) {
    && q.config == p.config && SameAsked(p, q)
    && (forall c: int | c in q.entries ::
          && c in p.entries && q.entries[c].key == p.entries[c].key
          && (Busy(q.entries[c]) ==> Busy(p.entries[c]) && q.entries[c].owner == p.entries[c].owner))
    && (forall c: int | c in q.holds ::
          || (c in p.holds && q.holds[c].key == p.holds[c].key)
          || (c in p.entries && q.holds[c].key == p.entries[c].key))
  }

  lemma RecedesOn(p: Pool, q: Pool, r: Pool)
    requires Recedes(p, q) && Recedes(q, r)
    ensures Recedes(p, r)
  {
  }

  /** One entry steps on. */
  lemma EntryStepEvolves(p: Pool, q: Pool, c: int)
    requires SameAsked(p, q)
    requires q.config == p.config && p.now <= q.now && q.holds == p.holds
    requires p.requestSerial <= q.requestSerial && p.connectionSerial <= q.connectionSerial && p.leaseSerial <= q.leaseSerial
    requires c in p.entries && c in q.entries && EntryStep(p, p.entries[c], q.entries[c])
    requires q.entries == p.entries[c := q.entries[c]]
    ensures Evolves(p, q, {}) && Recedes(p, q)
  {
  }

  /** An entry leaves the table. */
  lemma EntryGoneEvolves(p: Pool, q: Pool, c: int, gone: set<int>)
    requires SameAsked(p, q)
    requires q.config == p.config && p.now <= q.now
    requires p.requestSerial <= q.requestSerial && p.connectionSerial <= q.connectionSerial && p.leaseSerial <= q.leaseSerial
    requires c in p.entries && q.entries == p.entries - {c} && (Sent(p.entries[c]) ==> c in gone)
    requires forall k: int | k in q.holds ::
               (k in p.holds && q.holds[k].key == p.holds[k].key) || (k == c && q.holds[k].key == p.entries[c].key)
    ensures Evolves(p, q, gone) && Recedes(p, q)
  {
  }

  /** Nothing happens to the entries. */
  lemma EntriesSameEvolve(p: Pool, q: Pool)
    requires SameAsked(p, q)
    requires q.config == p.config && p.now <= q.now && q.entries == p.entries && q.holds == p.holds
    requires p.requestSerial <= q.requestSerial && p.connectionSerial <= q.connectionSerial && p.leaseSerial <= q.leaseSerial
    ensures Evolves(p, q, {}) && Recedes(p, q)
  {
  }
}
