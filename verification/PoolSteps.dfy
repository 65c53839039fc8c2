/** Each elementary change of the pool keeps requests and entries linked. */
module PoolSteps {
  import opened Base
  import opened PoolTypes
  import opened PoolSchedule
  import opened PoolOps
  import opened PoolLinks

  /** A step that loses no connection but those in `gone` and takes up no new room. */
  ghost predicate Loose(p: Pool, q: Pool, gone: set<int>) {
    Linked(q) && Evolves(p, q, gone) && Recedes(p, q)
  }

  /** And takes no request's connection from it. */
  ghost predicate Calm(p: Pool, q: Pool, gone: set<int>) {
    Loose(p, q, gone) && Faithful(p, q)
  }

  lemma CalmOn(p: Pool, q: Pool, r: Pool, gone: set<int>, more: set<int>)
    requires Calm(p, q, gone) && Calm(q, r, more)
    ensures Calm(p, r, gone + more)
  {
    hide Linked, Evolves, Recedes, Faithful;
    EvolvesOn(p, q, r, gone, more);
    RecedesOn(p, q, r);
    FaithfulOn(p, q, r);
  }

  lemma CalmThen(p: Pool, q: Pool, r: Pool)
    requires Calm(p, q, {}) && Calm(q, r, {})
    ensures Calm(p, r, {})
  {
    hide Calm;
    var none: set<int> := {};
    assert none + none == none;
    CalmOn(p, q, r, none, none);
  }

  lemma CalmSelf(p: Pool)
    requires Linked(p)
    ensures Calm(p, p, {})
  {
    hide Linked;
    EntriesSameEvolve(p, p);
  }

  /** Nothing changes that links or entries depend on, but for holds that end and requests that only change their data. */
  lemma SameCalm(p: Pool, q: Pool)
    requires Linked(p) && q.config == p.config && p.now <= q.now && q.entries == p.entries && q.requests == p.requests
    requires q.requestSerial == p.requestSerial && q.connectionSerial == p.connectionSerial && q.leaseSerial == p.leaseSerial
    requires forall c | c in q.holds :: c in p.holds && q.holds[c] == p.holds[c]
    ensures Calm(p, q, {})
  {
    forall id: int ensures RequestLinked(q, id) {
      assert RequestLinked(p, id);
    }
    forall c: int ensures EntryLinked(q, c) {
      assert EntryLinked(p, c);
    }
  }

  // ---------------------------------------------------------------------------------------------------------------
  // Requests alone
  // ---------------------------------------------------------------------------------------------------------------

  /** A request that no connection serves changes or disappears. */
  lemma RequestCalm(p: Pool, q: Pool, id: int)
    requires SameAsked(p, q)
    requires Linked(p) && !Served(p, id) && RequestLink(q, id).None?
    requires q.config == p.config && q.now == p.now && q.entries == p.entries && q.holds == p.holds
    requires p.requestSerial <= q.requestSerial && q.connectionSerial == p.connectionSerial && q.leaseSerial == p.leaseSerial
    requires forall i: int | i != id :: i in q.requests <==> i in p.requests
    requires forall i: int | i != id && i in p.requests :: q.requests[i] == p.requests[i]
    requires id in q.requests ==> 1 <= id <= q.requestSerial
    ensures Calm(p, q, {})
  {
    var link := RequestLink(p, id);
    var c := if link.Some? then link.value else 0;
    EntriesSameEvolve(p, q);
    LinkedParts(p, 0);
    LinkedRequest(p, id);
    LinkedEntry(p, c);
    Relink(p, q, id, c);
  }

  /** No entry has an id that was never issued. */
  lemma LinkedParts(p: Pool, c: int)
    requires Linked(p) && c <= 0
    ensures c !in p.entries && EntryLink(p, c).None? && forall q: Pool | q.entries == p.entries :: EntryLinked(q, c)
    ensures HoldsInRange(p) && forall k | k in p.entries :: k !in p.holds
  {
    assert EntryLinked(p, c);
    forall k | k in p.entries ensures k !in p.holds {
      assert EntryLinked(p, k);
    }
  }

  // ---------------------------------------------------------------------------------------------------------------
  // One entry
  // ---------------------------------------------------------------------------------------------------------------

  /** An entry that serves no request steps on. */
  lemma EntryCalm(p: Pool, c: int, e: Entry)
    requires Linked(p) && c in p.entries && EntryLink(p, c).None?
    requires EntryStep(p, p.entries[c], e) && EntryLinked(SetEntry(p, c, e), c)
    ensures Calm(p, SetEntry(p, c, e), {})
  {
    hide RequestLinked;
    var q := SetEntry(p, c, e);
    EntryStepEvolves(p, q, c);
    RequestParts(p, 0);
    LinkedParts(p, 0);
    Relink(p, q, 0, c);
  }

  lemma RequestParts(p: Pool, id: int)
    requires Linked(p) && id <= 0
    ensures id !in p.requests && RequestLink(p, id).None? && forall q: Pool | q.requests == p.requests :: RequestLinked(q, id)
  {
    assert RequestLinked(p, id);
  }

  /** The entry once its closing has started. */
  function Shut(p: Pool, e: Entry, reason: CloseReason): Entry {
    var deadline :=
      if e.state.Connecting? && e.state.cancel.Some? then e.state.cancel.value.deadline
      else AddSatU64(p.now, p.config.cleanupTimeoutMs);
    e.(owner := None, state := Closing(reason, Cleanup(deadline, false, false)))
  }

  lemma StartClosingIs(p: Pool, c: int, reason: CloseReason)
    ensures StartClosing(p, c, reason) ==
            if c !in p.entries || p.entries[c].state.Closing? then p else SetEntry(p, c, Shut(p, p.entries[c], reason))
  {
  }

  lemma StartClosingCalm(p: Pool, c: int, reason: CloseReason)
    requires Linked(p) && EntryLink(p, c).None?
    ensures Calm(p, StartClosing(p, c, reason), {})
  {
    hide Linked, Calm, StartClosing;
    StartClosingIs(p, c, reason);
    if c !in p.entries || p.entries[c].state.Closing? {
      CalmSelf(p);
    } else {
      LinkedEntry(p, c);
      EntryCalm(p, c, Shut(p, p.entries[c], reason));
    }
  }

  lemma LinkedEntry(p: Pool, c: int)
    requires Linked(p)
    ensures EntryLinked(p, c)
  {
  }

  lemma LinkedRequest(p: Pool, id: int)
    requires Linked(p)
    ensures RequestLinked(p, id)
  {
  }

  /** An entry steps on and goes on serving the same request. */
  lemma ServingCalm(p: Pool, c: int, e: Entry)
    requires Linked(p) && c in p.entries
    requires EntryStep(p, p.entries[c], e) && EntryLinked(SetEntry(p, c, e), c)
    requires EntryLink(SetEntry(p, c, e), c) == EntryLink(p, c)
    requires EntryLink(p, c).Some? ==> RequestLinked(SetEntry(p, c, e), EntryLink(p, c).value)
    ensures Calm(p, SetEntry(p, c, e), {})
  {
    if EntryLink(p, c).None? {
      EntryCalm(p, c, e);
    } else {
      var q, id := SetEntry(p, c, e), EntryLink(p, c).value;
      EntryStepEvolves(p, q, c);
      LinkedParts(p, 0);
      assert EntryLinked(p, c);
      Relink(p, q, id, c);
    }
  }

  // ---------------------------------------------------------------------------------------------------------------
  // A request and its entry
  // ---------------------------------------------------------------------------------------------------------------

  /** A request and the entry that serves it change together. */
  lemma PairCalm(p: Pool, id: int, r: Pending, c: int, e: Entry)
    requires Linked(p) && c in p.entries && id in p.requests && r.request == p.requests[id].request
    requires EntryLink(p, c) == Some(id) && RequestLink(p, id) == Some(c)
    requires EntryStep(p, p.entries[c], e)
    requires var q := SetRequest(SetEntry(p, c, e), id, r); RequestLinked(q, id) && EntryLinked(q, c) && !Orphaned(q, id)
    ensures Calm(p, SetRequest(SetEntry(p, c, e), id, r), {})
  {
    var q := SetRequest(SetEntry(p, c, e), id, r);
    EntryStepEvolves(p, q, c);
    LinkedParts(p, 0);
    Relink(p, q, id, c);
  }

  /** A request fails and the entry that served it disappears. */
  lemma PairGone(p: Pool, q: Pool, id: int, c: int, gone: set<int>)
    requires Linked(p) && c in p.entries && id in p.requests && id in q.requests
    requires q.requests[id].request == p.requests[id].request
    requires EntryLink(p, c) == Some(id) && RequestLink(p, id) == Some(c) && RequestLink(q, id).None?
    requires q == SetRequest(p.(entries := p.entries - {c}, holds := q.holds), id, q.requests[id])
    requires Sent(p.entries[c]) ==> c in gone
    requires forall k: int | k in q.holds ::
               (k in p.holds && q.holds[k] == p.holds[k]) || (k == c && q.holds[k].key == p.entries[c].key)
    ensures Calm(p, q, gone)
  {
    EntryGoneEvolves(p, q, c, gone);
    LinkedParts(p, 0);
    LinkedEntry(p, c);
    LinkedRequest(p, id);
    Relink(p, q, id, c);
  }

  /** A request that nothing serves only fails. */
  lemma FailOrphanCalm(p: Pool, id: int, error: Error, reason: CloseReason)
    requires Linked(p) && Orphaned(p, id)
    ensures Calm(p, FailRequest(p, id, error, reason), {})
  {
    hide Linked, Calm;
    LinkedRequest(p, id);
    var q := SetRequest(p, id, p.requests[id].(state := Failed(error)));
    assert FailRequest(p, id, error, reason) == q;
    FailedCalm(p, id, error);
  }

  lemma FailedCalm(p: Pool, id: int, error: Error)
    requires Linked(p) && id in p.requests && !Served(p, id)
    ensures Calm(p, SetRequest(p, id, p.requests[id].(state := Failed(error))), {})
  {
    hide Linked, Calm, Served;
    LinkedRequest(p, id);
    RequestCalm(p, SetRequest(p, id, p.requests[id].(state := Failed(error))), id);
  }

  lemma FailReadyCalm(p: Pool, id: int, error: Error, reason: CloseReason)
    requires Linked(p) && Served(p, id) && p.requests[id].state.Ready?
    ensures Calm(p, FailRequest(p, id, error, reason), {})
  {
    hide Linked, Calm, StartClosing;
    LinkedRequest(p, id);
    var c := p.requests[id].state.lease.connection;
    LinkedEntry(p, c);
    StartClosingIs(p, c, reason);
    PairCalm(p, id, p.requests[id].(state := Failed(error)), c, Shut(p, p.entries[c], reason));
  }

  lemma FailOpeningCalm(p: Pool, id: int, error: Error, reason: CloseReason)
    requires Linked(p) && Served(p, id) && p.requests[id].state.Opening?
    ensures Calm(p, FailRequest(p, id, error, reason), {})
  {
    hide Linked, Calm;
    LinkedRequest(p, id);
    var c := p.requests[id].state.connection;
    LinkedEntry(p, c);
    var q := FailRequest(p, id, error, reason);
    var e := p.entries[c];
    if e.state.clock.None? {
      PairGone(p, q, id, c, {});
    } else {
      var cleanup := Cleanup(AddSatU64(p.now, p.config.cleanupTimeoutMs), false, false);
      var next := e.(state := e.state.(request := None, cancel := Some(cleanup)));
      PairCalm(p, id, p.requests[id].(state := Failed(error)), c, next);
    }
  }

  lemma FailWaitingCalm(p: Pool, id: int, error: Error, reason: CloseReason)
    requires Linked(p) && IsWaiting(p, id)
    ensures Calm(p, FailRequest(p, id, error, reason), {})
  {
    hide Linked, Calm;
    FailedCalm(p, id, error);
  }

  lemma FailRequestCalm(p: Pool, id: int, error: Error, reason: CloseReason)
    requires Linked(p)
    ensures Calm(p, FailRequest(p, id, error, reason), {})
  {
    hide Linked, Calm, LetGo, SetRequest, Served;
    if id !in p.requests || p.requests[id].state.Failed? {
      CalmSelf(p);
    } else if Orphaned(p, id) {
      FailOrphanCalm(p, id, error, reason);
    } else if p.requests[id].state.Ready? {
      FailReadyCalm(p, id, error, reason);
    } else if p.requests[id].state.Opening? {
      FailOpeningCalm(p, id, error, reason);
    } else {
      FailWaitingCalm(p, id, error, reason);
    }
  }

  // ---------------------------------------------------------------------------------------------------------------
  // Scheduling
  // ---------------------------------------------------------------------------------------------------------------

  lemma EvictCalm(p: Pool, id: int, v: int)
    requires Linked(p) && IsWaiting(p, id) && IsIdle(p, v)
    ensures Calm(p, Evict(p, id, v), {})
  {
    hide Linked, Calm, StartClosing;
    LinkedRequest(p, id);
    StartClosingCalm(p, v, Evicted);
    var q := StartClosing(p, v, Evicted);
    StartClosingIs(p, v, Evicted);
    CalmIsLinked(p, q);
    RequestCalm(q, Evict(p, id, v), id);
    CalmThen(p, q, Evict(p, id, v));
  }

  lemma CalmIsLinked(p: Pool, q: Pool)
    requires Calm(p, q, {})
    ensures Linked(q)
  {
  }

  /** Growth: a session takes on one connection, idle or new. */
  ghost predicate Grown(p: Pool, q: Pool) {
    Linked(q) && Faithful(p, q) && Evolves(p, q, {}) && SameAsked(p, q)
  }

  lemma LeaseIdleGrown(p: Pool, id: int, c: int)
    requires Linked(p) && IsWaiting(p, id) && IsIdle(p, c)
    ensures Grown(p, LeaseIdle(p, id, c))
  {
    var q := LeaseIdle(p, id, c);
    LinkedRequest(p, id);
    LinkedEntry(p, c);
    LinkedParts(p, 0);
    if p.leaseSerial + 1 > U64_MAX {
      RequestCalm(p, q, id);
    } else {
      Relink(p, q, id, c);
    }
  }

  /** The pool with a connection opened for a waiting request. */
  function Opened(p: Pool, id: int): Pool
    requires id in p.requests
  {
    var c, pending := p.connectionSerial + 1, p.requests[id];
    p.(
    connectionSerial := c,
    requests := p.requests[id := pending.(state := Opening(c), eviction := None)],
    entries := p.entries[c := NewEntry(p, id, pending.request)])
  }

  lemma OpenedGrown(p: Pool, id: int)
    requires Linked(p) && IsWaiting(p, id)
    ensures Grown(p, Opened(p, id))
  {
    var q, c := Opened(p, id), p.connectionSerial + 1;
    LinkedRequest(p, id);
    LinkedParts(p, 0);
    LinkedEntry(p, c);
    assert c !in p.entries && c !in p.holds;
    assert EntryLinked(q, c);
    Relink(p, q, id, c);
  }

  lemma MayOpenWaits(p: Pool, id: int)
    requires MayOpen(p, id)
    ensures IsWaiting(p, id)
  {
  }
}
