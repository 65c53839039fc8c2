/** The pool's ceilings and each session's own limits, kept by every step. */
module PoolCapacity {
  import opened Base
  import opened PoolTypes
  import opened PoolSchedule
  import opened PoolLinks
  import opened PoolSteps

  // ---------------------------------------------------------------------------------------------------------------
  // Ceilings
  // ---------------------------------------------------------------------------------------------------------------

  predicate NoMore(a: Capacity, b: Capacity) {
    a.perUserHost <= b.perUserHost && a.perHost <= b.perHost && a.total <= b.total
  }

  /** No request carries limits above the pool's own. */
  predicate Modest(p: Pool) {
    forall id | id in p.requests :: NoMore(LimitsOf(p, p.requests[id].request), p.config.capacity)
  }

  ghost predicate WithinCeilings(p: Pool) {
    && |p.entries| <= p.config.capacity.total
    && (forall host: string :: HostTotal(p, host) <= p.config.capacity.perHost)
    && (forall key: Key :: UserHostTotal(p, key) <= p.config.capacity.perUserHost)
  }

  lemma SubsetSize<T>(a: set<T>, b: set<T>)
    requires a <= b
    ensures |a| <= |b|
  {
    assert b == a + (b - a);
  }

  /** Two disjoint sets within two others. */
  lemma UnionSize(a: set<int>, b: set<int>, x: set<int>, y: set<int>)
    requires (forall c | c in a :: c !in b) && (forall c | c in a :: c in x) && (forall c | c in b :: c in x || c in y)
    ensures |a| + |b| <= |x| + |y|
  {
    assert forall c :: c !in a * b;
    assert |a * b| == 0;
    assert |a + b| == |a| + |b|;
    assert forall c :: c in a + b ==> c in x + y;
    SubsetSize(a + b, x + y);
    assert |x + y| <= |x| + |y|;
  }

  lemma HoldsApart(q: Pool)
    requires Linked(q)
    ensures forall c | c in q.entries :: c !in q.holds
  {
    forall c | c in q.entries ensures c !in q.holds {
      assert EntryLinked(q, c);
    }
  }

  lemma HostRecedes(p: Pool, q: Pool, host: string)
    requires Recedes(p, q) && forall c | c in q.entries :: c !in q.holds
    ensures HostTotal(q, host) <= HostTotal(p, host)
  {
    hide SameAsked, Busy;
    var x, y := EntriesOnHost(p, host), HoldsOnHost(p, host);
    forall c | c in EntriesOnHost(q, host) ensures c in x && c !in HoldsOnHost(q, host) {
      assert c in q.entries;
    }
    forall c | c in HoldsOnHost(q, host) ensures c in x || c in y {
      assert c in q.holds;
    }
    UnionSize(EntriesOnHost(q, host), HoldsOnHost(q, host), x, y);
  }

  lemma UserRecedes(p: Pool, q: Pool, key: Key)
    requires Recedes(p, q) && forall c | c in q.entries :: c !in q.holds
    ensures UserHostTotal(q, key) <= UserHostTotal(p, key)
  {
    hide SameAsked, Busy;
    var x, y := EntriesAs(p, key), HoldsAs(p, key);
    forall c | c in EntriesAs(q, key) ensures c in x && c !in HoldsAs(q, key) {
      assert c in q.entries;
    }
    forall c | c in HoldsAs(q, key) ensures c in x || c in y {
      assert c in q.holds;
    }
    UnionSize(EntriesAs(q, key), HoldsAs(q, key), x, y);
  }

  lemma EntriesRecede(p: Pool, q: Pool)
    requires Recedes(p, q)
    ensures |q.entries| <= |p.entries|
  {
    forall c | c in q.entries.Keys ensures c in p.entries.Keys {
      assert c in q.entries;
    }
    SubsetSize(q.entries.Keys, p.entries.Keys);
  }

  lemma RecedesCeilings(p: Pool, q: Pool)
    requires WithinCeilings(p) && Recedes(p, q) && Linked(q)
    ensures WithinCeilings(q)
  {
    hide Linked, Recedes, HostTotal, UserHostTotal;
    HoldsApart(q);
    EntriesRecede(p, q);
    RecedesConfig(p, q);
    forall host: string ensures HostTotal(q, host) <= q.config.capacity.perHost {
      HostRecedes(p, q, host);
      assert HostTotal(p, host) <= p.config.capacity.perHost;
    }
    forall key: Key ensures UserHostTotal(q, key) <= q.config.capacity.perUserHost {
      UserRecedes(p, q, key);
      assert UserHostTotal(p, key) <= p.config.capacity.perUserHost;
    }
  }

  lemma RecedesConfig(p: Pool, q: Pool)
    requires Recedes(p, q)
    ensures q.config == p.config
  {
  }

  lemma RecedesModest(p: Pool, q: Pool)
    requires Modest(p) && SameAsked(p, q) && q.config == p.config
    ensures Modest(q)
  {
  }

  ghost predicate SameKeys(p: Pool, q: Pool) {
    && q.holds == p.holds && (forall c | c in q.entries :: c in p.entries)
    && (forall c | c in p.entries :: c in q.entries && q.entries[c].key == p.entries[c].key)
  }

  lemma SameKeysHost(p: Pool, q: Pool, host: string)
    requires SameKeys(p, q)
    ensures HostTotal(q, host) == HostTotal(p, host)
  {
    assert forall c :: c in EntriesOnHost(q, host) <==> c in EntriesOnHost(p, host);
    assert forall c :: c in HoldsOnHost(q, host) <==> c in HoldsOnHost(p, host);
    assert EntriesOnHost(q, host) == EntriesOnHost(p, host) && HoldsOnHost(q, host) == HoldsOnHost(p, host);
  }

  lemma SameKeysUser(p: Pool, q: Pool, key: Key)
    requires SameKeys(p, q)
    ensures UserHostTotal(q, key) == UserHostTotal(p, key)
  {
    assert forall c :: c in EntriesAs(q, key) <==> c in EntriesAs(p, key);
    assert forall c :: c in HoldsAs(q, key) <==> c in HoldsAs(p, key);
    assert EntriesAs(q, key) == EntriesAs(p, key) && HoldsAs(q, key) == HoldsAs(p, key);
  }

  /** Leasing an idle entry moves no key. */
  lemma LeaseIdleKeys(p: Pool, id: int, c: int)
    requires id in p.requests && IsIdle(p, c)
    ensures SameKeys(p, LeaseIdle(p, id, c)) && LeaseIdle(p, id, c).config == p.config
    ensures |LeaseIdle(p, id, c).entries| == |p.entries|
  {
    var q := LeaseIdle(p, id, c);
    assert q.entries.Keys == p.entries.Keys;
    assert forall i | i in q.entries :: i in q.entries.Keys;
  }

  lemma LeaseIdleCeilings(p: Pool, id: int, c: int)
    requires WithinCeilings(p) && IsWaiting(p, id) && IsIdle(p, c)
    ensures WithinCeilings(LeaseIdle(p, id, c))
  {
    hide LeaseIdle, SameKeys, HostTotal, UserHostTotal;
    var q := LeaseIdle(p, id, c);
    LeaseIdleKeys(p, id, c);
    forall host: string ensures HostTotal(q, host) <= q.config.capacity.perHost {
      SameKeysHost(p, q, host);
      assert HostTotal(p, host) <= p.config.capacity.perHost;
    }
    forall key: Key ensures UserHostTotal(q, key) <= q.config.capacity.perUserHost {
      SameKeysUser(p, q, key);
      assert UserHostTotal(p, key) <= p.config.capacity.perUserHost;
    }
  }

  /** One entry more, `c`, under `key`; nothing else that counts has changed. */
  ghost predicate Adds(p: Pool, q: Pool, c: int, key: Key) {
    && q.holds == p.holds && c !in p.entries && c in q.entries && q.entries[c].key == key
    && (forall i | i in p.entries :: i in q.entries && q.entries[i].key == p.entries[i].key)
    && (forall i | i in q.entries :: i == c || i in p.entries)
  }

  lemma OpenedAdds(p: Pool, id: int)
    requires id in p.requests && p.connectionSerial + 1 !in p.entries
    ensures Adds(p, Opened(p, id), p.connectionSerial + 1, p.requests[id].request.key)
  {
  }

  lemma OpenedSize(p: Pool, id: int)
    requires id in p.requests && p.connectionSerial + 1 !in p.entries
    ensures |Opened(p, id).entries| == |p.entries| + 1 && Opened(p, id).config == p.config
  {
    assert Opened(p, id).entries.Keys == p.entries.Keys + {p.connectionSerial + 1};
  }

  /** A set with `c` added where `more` says so. */
  lemma OneMore(a: set<int>, b: set<int>, c: int, more: bool)
    requires (forall i | i in a :: i in b) && (forall i | i in b :: i in a || (more && i == c))
    requires more ==> c !in a && c in b
    ensures |b| == |a| + (if more then 1 else 0)
  {
    if more {
      assert forall i :: i in b <==> i in a + {c};
      assert b == a + {c};
    } else {
      assert forall i :: i in b <==> i in a;
      assert b == a;
    }
  }

  lemma OpenedHost(p: Pool, id: int, host: string)
    requires id in p.requests && p.connectionSerial + 1 !in p.entries
    ensures HostTotal(Opened(p, id), host) ==
            HostTotal(p, host) + (if p.requests[id].request.key.host == host then 1 else 0)
  {
    hide Opened;
    OpenedAdds(p, id);
    var q, c := Opened(p, id), p.connectionSerial + 1;
    OneMore(HoldsOnHost(p, host), HoldsOnHost(q, host), c, false);
    OneMore(EntriesOnHost(p, host), EntriesOnHost(q, host), c, p.requests[id].request.key.host == host);
  }

  lemma OpenedUser(p: Pool, id: int, key: Key)
    requires id in p.requests && p.connectionSerial + 1 !in p.entries
    ensures UserHostTotal(Opened(p, id), key) ==
            UserHostTotal(p, key) + (if SameUserHost(p.requests[id].request.key, key) then 1 else 0)
  {
    hide Opened, SameUserHost;
    OpenedAdds(p, id);
    var q, c := Opened(p, id), p.connectionSerial + 1;
    OneMore(HoldsAs(p, key), HoldsAs(q, key), c, false);
    OneMore(EntriesAs(p, key), EntriesAs(q, key), c, SameUserHost(p.requests[id].request.key, key));
  }

  lemma SameUserSame(p: Pool, a: Key, b: Key)
    requires SameUserHost(a, b)
    ensures UserHostTotal(p, a) == UserHostTotal(p, b)
  {
    assert forall c :: c in EntriesAs(p, a) <==> c in EntriesAs(p, b);
    assert forall c :: c in HoldsAs(p, a) <==> c in HoldsAs(p, b);
    assert EntriesAs(p, a) == EntriesAs(p, b) && HoldsAs(p, a) == HoldsAs(p, b);
  }

  /** A modest request that may open finds room for one more under every ceiling. */
  lemma RoomForOne(p: Pool, id: int)
    requires Modest(p) && MayOpen(p, id)
    ensures id in p.requests
    ensures var (key, c) := (p.requests[id].request.key, p.config.capacity);
            |p.entries| < c.total && HostTotal(p, key.host) < c.perHost && UserHostTotal(p, key) < c.perUserHost
  {
    hide OwnerFull, PreferWaits, SiteFull, HostTotal, UserHostTotal;
    assert NoMore(LimitsOf(p, p.requests[id].request), p.config.capacity);
  }

  lemma OpenedUserCeiling(p: Pool, id: int, key: Key)
    requires WithinCeilings(p) && Modest(p) && MayOpen(p, id) && p.connectionSerial + 1 !in p.entries
    ensures UserHostTotal(Opened(p, id), key) <= p.config.capacity.perUserHost
  {
    hide Modest, MayOpen, UserHostTotal, HostTotal, Opened, SameUserHost;
    RoomForOne(p, id);
    OpenedUser(p, id, key);
    assert UserHostTotal(p, key) <= p.config.capacity.perUserHost;
    if SameUserHost(p.requests[id].request.key, key) {
      SameUserSame(p, p.requests[id].request.key, key);
    }
  }

  lemma OpenedCeilings(p: Pool, id: int)
    requires WithinCeilings(p) && Modest(p) && MayOpen(p, id) && p.connectionSerial + 1 !in p.entries
    ensures WithinCeilings(Opened(p, id))
  {
    hide Modest, MayOpen, HostTotal, UserHostTotal, Opened;
    RoomForOne(p, id);
    OpenedSize(p, id);
    var q := Opened(p, id);
    forall host: string ensures HostTotal(q, host) <= q.config.capacity.perHost {
      OpenedHost(p, id, host);
      assert HostTotal(p, host) <= p.config.capacity.perHost;
    }
    forall key: Key ensures UserHostTotal(q, key) <= q.config.capacity.perUserHost {
      OpenedUserCeiling(p, id, key);
    }
  }

  // ---------------------------------------------------------------------------------------------------------------
  // A session's own limits
  // ---------------------------------------------------------------------------------------------------------------

  /** Every request of the session carries the same limits. */
  predicate AllCarry(p: Pool, session: string, l: Capacity) {
    forall id | id in p.requests && p.requests[id].request.owner.session == session ::
      LimitsOf(p, p.requests[id].request) == l
  }

  ghost predicate SessionWithin(p: Pool, session: string, l: Capacity) {
    && |Owned(p, session)| <= l.total
    && (forall host: string :: |OwnedOnHost(p, session, host)| <= l.perHost)
    && (forall key: Key :: |OwnedAs(p, session, key)| <= l.perUserHost)
  }

  /** Each of the session's holdings in `q` was one in `p`. */
  ghost predicate OwnsNoMore(p: Pool, q: Pool, session: string) {
    forall c: int | c in q.entries && Holds(q.entries[c], session) ::
      c in p.entries && Holds(p.entries[c], session) && q.entries[c].key == p.entries[c].key
  }

  lemma OwnedWithin(p: Pool, q: Pool, session: string)
    requires OwnsNoMore(p, q, session)
    ensures Owned(q, session) <= Owned(p, session)
  {
    hide Holds;
    forall c | c in Owned(q, session) ensures c in Owned(p, session) {
      assert c in q.entries;
    }
  }

  lemma OwnedHostWithin(p: Pool, q: Pool, session: string, host: string)
    requires OwnsNoMore(p, q, session)
    ensures OwnedOnHost(q, session, host) <= OwnedOnHost(p, session, host)
  {
    hide Holds;
    forall c | c in OwnedOnHost(q, session, host) ensures c in OwnedOnHost(p, session, host) {
      assert c in q.entries;
    }
  }

  lemma OwnedAsWithin(p: Pool, q: Pool, session: string, key: Key)
    requires OwnsNoMore(p, q, session)
    ensures OwnedAs(q, session, key) <= OwnedAs(p, session, key)
  {
    hide Holds;
    forall c | c in OwnedAs(q, session, key) ensures c in OwnedAs(p, session, key) {
      assert c in q.entries;
    }
  }

  lemma NoMoreSession(p: Pool, q: Pool, session: string, l: Capacity)
    requires SessionWithin(p, session, l) && OwnsNoMore(p, q, session)
    ensures SessionWithin(q, session, l)
  {
    hide Owned, OwnedOnHost, OwnedAs, OwnsNoMore;
    OwnedWithin(p, q, session);
    SubsetSize(Owned(q, session), Owned(p, session));
    forall host: string ensures |OwnedOnHost(q, session, host)| <= l.perHost {
      OwnedHostWithin(p, q, session, host);
      SubsetSize(OwnedOnHost(q, session, host), OwnedOnHost(p, session, host));
      assert |OwnedOnHost(p, session, host)| <= l.perHost;
    }
    forall key: Key ensures |OwnedAs(q, session, key)| <= l.perUserHost {
      OwnedAsWithin(p, q, session, key);
      SubsetSize(OwnedAs(q, session, key), OwnedAs(p, session, key));
      assert |OwnedAs(p, session, key)| <= l.perUserHost;
    }
  }

  lemma RecedesSession(p: Pool, q: Pool, session: string, l: Capacity)
    requires SessionWithin(p, session, l) && Recedes(p, q)
    ensures SessionWithin(q, session, l)
  {
    hide SessionWithin, SameAsked;
    NoMoreSession(p, q, session, l);
  }

  /** `q` is `p` with one more entry that the request's owner holds. */
  ghost predicate Takes(p: Pool, q: Pool, r: Request, c: int) {
    && (forall k: int | k != c :: k in q.entries <==> k in p.entries)
    && (forall k: int | k != c && k in p.entries :: q.entries[k] == p.entries[k])
    && c in q.entries && q.entries[c].key == r.key && q.entries[c].owner == Some(r.owner)
  }

  lemma SizeOneMore(a: set<int>, b: set<int>, c: int)
    requires a <= b + {c}
    ensures |a| <= |b| + 1
  {
    SubsetSize(a, b + {c});
  }

  lemma TakesSession(p: Pool, q: Pool, r: Request, c: int, session: string, l: Capacity)
    requires SessionWithin(p, session, l) && Takes(p, q, r, c)
    requires r.owner.session == session ==> LimitsOf(p, r) == l && !OwnerFull(p, r)
    ensures SessionWithin(q, session, l)
  {
    hide SessionWithin, OwnerFull;
    if r.owner.session == session {
      TakesOwn(p, q, r, c);
    } else {
      NoMoreSession(p, q, session, l);
    }
  }

  lemma TakesOne(p: Pool, q: Pool, r: Request, c: int)
    requires Takes(p, q, r, c)
    ensures |Owned(q, r.owner.session)| <= |Owned(p, r.owner.session)| + 1
  {
    hide Holds;
    forall k | k in Owned(q, r.owner.session) ensures k in Owned(p, r.owner.session) + {c} {
      assert k in q.entries;
    }
    SizeOneMore(Owned(q, r.owner.session), Owned(p, r.owner.session), c);
  }

  lemma TakesOnHost(p: Pool, q: Pool, r: Request, c: int, host: string)
    requires Takes(p, q, r, c)
    ensures |OwnedOnHost(q, r.owner.session, host)| <=
            |OwnedOnHost(p, r.owner.session, host)| + (if host == r.key.host then 1 else 0)
  {
    hide Holds;
    var a, b := OwnedOnHost(q, r.owner.session, host), OwnedOnHost(p, r.owner.session, host);
    forall k | k in a ensures k in b + {c} && (k == c ==> host == r.key.host) {
      assert k in q.entries;
    }
    if host == r.key.host {
      SizeOneMore(a, b, c);
    } else {
      assert forall k :: k in a ==> k in b;
      SubsetSize(a, b);
    }
  }

  lemma TakesAs(p: Pool, q: Pool, r: Request, c: int, key: Key)
    requires Takes(p, q, r, c)
    ensures |OwnedAs(q, r.owner.session, key)| <=
            |OwnedAs(p, r.owner.session, key)| + (if SameUserHost(r.key, key) then 1 else 0)
  {
    hide Holds;
    var a, b := OwnedAs(q, r.owner.session, key), OwnedAs(p, r.owner.session, key);
    forall k | k in a ensures k in b + {c} && (k == c ==> SameUserHost(r.key, key)) {
      assert k in q.entries;
    }
    if SameUserHost(r.key, key) {
      SizeOneMore(a, b, c);
    } else {
      assert forall k :: k in a ==> k in b;
      SubsetSize(a, b);
    }
  }

  lemma TakesOwn(p: Pool, q: Pool, r: Request, c: int)
    requires SessionWithin(p, r.owner.session, LimitsOf(p, r)) && Takes(p, q, r, c) && !OwnerFull(p, r)
    ensures SessionWithin(q, r.owner.session, LimitsOf(p, r))
  {
    hide Owned, OwnedOnHost, OwnedAs, Takes, LimitsOf;
    var s, l := r.owner.session, LimitsOf(p, r);
    TakesOne(p, q, r, c);
    forall host: string ensures |OwnedOnHost(q, s, host)| <= l.perHost {
      assert |OwnedOnHost(p, s, host)| <= l.perHost;
      TakesOnHost(p, q, r, c, host);
    }
    forall key: Key ensures |OwnedAs(q, s, key)| <= l.perUserHost {
      assert |OwnedAs(p, s, key)| <= l.perUserHost;
      TakesAs(p, q, r, c, key);
      if SameUserHost(r.key, key) {
        SameUserOwns(p, s, r.key, key);
      }
    }
  }

  lemma SameUserOwns(p: Pool, session: string, a: Key, b: Key)
    requires SameUserHost(a, b)
    ensures OwnedAs(p, session, a) == OwnedAs(p, session, b)
  {
    assert forall c :: c in OwnedAs(p, session, a) <==> c in OwnedAs(p, session, b);
  }
}
