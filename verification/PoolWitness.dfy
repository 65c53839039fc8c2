/** Two runs: one leaves a waiting request unscheduled, the other leaves a request waiting for a connection that is gone. */
module PoolWitness {
  import opened Base
  import opened PoolTypes
  import opened PoolSchedule
  import opened PoolOps
  import opened PoolLinks
  import opened PoolCalls
  import opened PoolRuns
  import opened PoolTheorems
  import opened PoolQuiet
  import opened PoolRest

  const CONFIG: Config := Config(Capacity(2, 2, 2, 2), 10, 10, 10, 10, 10, 10)
  const HOST: Key := Key(Https, None, "host", 443)
  const CLIENT: Owner := Owner("session", "operation")
  const LEASE: Lease := Lease(1, 1)

  function Ask(prefer: Option<int>, wait: Option<nat>): Request {
    Request(HOST, Anonymous, CLIENT, None, None, None, false, [], None, prefer, wait, true)
  }

  const FIRST: Request := Ask(None, None)
  const SECOND: Request := Ask(Some(1), Some(5))

  const FIRST_PENDING: Pending := Pending(FIRST, 10, None, Opening(1), None, None)
  const SECOND_PENDING: Pending := Pending(SECOND, 10, None, Waiting, None, Some(PreferWait(LEASE, 5)))

  function Slot(reusable: bool, state: EntryState): Entry {
    Entry(HOST, Anonymous, reusable, Some(CLIENT), state, None, 0)
  }

  function Stage(requestSerial: nat, leaseSerial: nat, requests: map<int, Pending>, slot: Entry): Pool {
    Pool(CONFIG, 0, requestSerial, 1, leaseSerial, requests, map[1 := slot], [], [], [], map[], false, false)
  }

  const OPENING: Pool := Stage(1, 0, map[1 := FIRST_PENDING], Slot(false, Connecting(Some(1), None, 10, 10, None)))

  const CONNECTING: Pool :=
    Stage(1, 0, map[1 := FIRST_PENDING], Slot(false, Connecting(Some(1), Some(NetworkClock(Some(10))), 10, 10, None)))

  const READY: Pool := Stage(1, 1, map[1 := FIRST_PENDING.(state := Ready(LEASE))], Slot(true, Leased(LEASE, Some(1))))

  const LEASED: Pool := Stage(1, 1, map[], Slot(true, Leased(LEASE, None)))

  const WAITING: Pool := Stage(2, 1, map[2 := SECOND_PENDING], Slot(true, Leased(LEASE, None)))

  lemma Opens()
    ensures Apply(NewPool(CONFIG), CallRequest(FIRST, None)) == OPENING
  {
    FirstRequestOpens(CONFIG, FIRST);
    RequestApplies(NewPool(CONFIG), CallRequest(FIRST, None));
  }

  lemma Dispatches()
    ensures Apply(OPENING, CallNextAction) == CONNECTING
  {
    assert FirstCleanup(OPENING, 2).None? && FirstUndispatched(OPENING, 1) == Some(1);
  }

  /** With nobody waiting, scheduling does nothing. */
  lemma NobodyWaits(p: Pool)
    requires forall id | id in p.requests :: !p.requests[id].state.Waiting?
    ensures Schedule(p) == p
  {
    hide OwnerFull, PreferWaits, Crowded, Choice, Victim;
    QuietSchedule(p);
  }

  lemma Connects()
    ensures Apply(CONNECTING, CallConnected(1, Connected(Some(Anonymous)))) == READY
  {
    hide Schedule;
    NobodyWaits(READY);
    assert Finish(CONNECTING, 1, Connected(Some(Anonymous))) == READY;
  }

  lemma IsTaken()
    ensures Apply(READY, CallTake(1)) == LEASED
  {
  }

  /** The second request waits for the first one's connection. */
  lemma Waits()
    ensures Quiet(WAITING) && Linked(WAITING) && WaitsFor(WAITING, LEASE, 2)
  {
    assert PreferWaits(WAITING, 2);
  }

  lemma IsAsked()
    ensures Apply(LEASED, CallRequest(SECOND, None)) == WAITING
  {
    hide Schedule, ValidRequest, Quiet, Linked;
    assert Sharing(LEASED, CLIENT.session) == {};
    Waits();
    QuietSchedule(WAITING);
    assert Enrolled(LEASED, SECOND, None) == WAITING;
    assert ValidRequest(SECOND, CONFIG) by {
      IsValid();
    }
  }

  lemma IsValid()
    ensures ValidRequest(SECOND, CONFIG)
  {
  }

  lemma IsFree()
    ensures !Stuck(WAITING, 2)
  {
    assert Owned(WAITING, CLIENT.session) == {1} && OwnedOnHost(WAITING, CLIENT.session, HOST.host) == {1};
    assert OwnedAs(WAITING, CLIENT.session, HOST) == {1};
    assert EntriesAs(WAITING, HOST) == {1} && HoldsAs(WAITING, HOST) == {};
    assert EntriesOnHost(WAITING, HOST.host) == {1} && HoldsOnHost(WAITING, HOST.host) == {};
  }

  const RUN: seq<Call> := [
    CallRequest(FIRST, None), CallNextAction, CallConnected(1, Connected(Some(Anonymous))), CallTake(1),
    CallRequest(SECOND, None), CallScope(LEASE, "scope", true)
  ]

  lemma StepsOn(run: seq<Call>, n: nat, p: Pool)
    requires n < |run| && Told(CONFIG, run[..n]).p == p
    ensures Told(CONFIG, run[..n + 1]).p == Apply(p, run[n])
  {
    hide Apply, Acknowledged, Dispatched;
    assert run[..n + 1][..n] == run[..n];
  }

  /** One request holds an anonymous connection, another waits for it, and then the connection is scoped. */
  lemma ScopingCanLeaveWork()
    ensures !AtRest(Told(CONFIG, RUN).p)
  {
    hide Apply, Told, Quiet, Linked, Stuck, WaitsFor;
    Opens();
    Dispatches();
    Connects();
    IsTaken();
    IsAsked();
    Waits();
    IsFree();
    ToldNothing();
    assert RUN[..0] == [] && RUN[..6] == RUN;
    StepsOn(RUN, 0, NewPool(CONFIG));
    StepsOn(RUN, 1, OPENING);
    StepsOn(RUN, 2, CONNECTING);
    StepsOn(RUN, 3, READY);
    StepsOn(RUN, 4, LEASED);
    StepsOn(RUN, 5, WAITING);
    ScopingRestsIffConsiderate(WAITING, LEASE, "scope", true);
    ScopeIs(WAITING, LEASE, "scope", true);
    ScopeApplies(WAITING);
  }

  lemma ToldNothing()
    ensures Told(CONFIG, []).p == NewPool(CONFIG)
  {
  }

  lemma ScopeApplies(p: Pool)
    ensures Apply(p, RUN[5]) == ScopeHttps(p, LEASE, "scope", true).0
  {
  }

  // ---------------------------------------------------------------------------------------------------------------
  // A connection that is gone
  // ---------------------------------------------------------------------------------------------------------------

  const SCOPED: Request := FIRST.(identity := Scoped("scope"))
  const SCOPED_PENDING: Pending := FIRST_PENDING.(request := SCOPED)

  function ScopedSlot(owner: Option<Owner>, state: EntryState): Entry {
    Entry(HOST, Scoped("scope"), false, owner, state, None, 0)
  }

  const SCOPED_OPENING: Pool :=
    Stage(1, 0, map[1 := SCOPED_PENDING], ScopedSlot(Some(CLIENT), Connecting(Some(1), None, 10, 10, None)))

  const RETIRED: Pool :=
    Stage(1, 0, map[1 := SCOPED_PENDING], ScopedSlot(None, Closing(CancelledReason, Cleanup(10, false, false))))

  const TOLD_TO_CLOSE: Pool :=
    Stage(1, 0, map[1 := SCOPED_PENDING], ScopedSlot(None, Closing(CancelledReason, Cleanup(10, true, false))))

  const STRANDED: Pool := TOLD_TO_CLOSE.(entries := map[])

  const STRANDING: seq<Call> := [CallRequest(SCOPED, None), CallRetireScope("scope"), CallNextAction, CallClosed(1)]

  lemma ScopedOpens()
    ensures Apply(NewPool(CONFIG), STRANDING[0]) == SCOPED_OPENING
  {
    FirstRequestOpens(CONFIG, SCOPED);
    RequestApplies(NewPool(CONFIG), CallRequest(SCOPED, None));
  }

  lemma IsRetired()
    ensures Apply(SCOPED_OPENING, STRANDING[1]) == RETIRED
  {
    hide Schedule;
    var scoped := (e: Entry) => e.identity == Scoped("scope");
    assert EntriesTo(SCOPED_OPENING, scoped, 1) == [1] by {
      assert EntriesTo(SCOPED_OPENING, scoped, 0) == [];
    }
    assert CloseAll(SCOPED_OPENING, [1], CancelledReason) == RETIRED by {
      assert [1][1..] == [];
      assert StartClosing(SCOPED_OPENING, 1, CancelledReason) == RETIRED;
    }
    NobodyWaits(RETIRED);
    RetireApplies(SCOPED_OPENING, "scope");
  }

  lemma IsToldToClose()
    ensures Apply(RETIRED, STRANDING[2]) == TOLD_TO_CLOSE
  {
    assert FirstCleanup(RETIRED, 1) == Some(1);
  }

  lemma IsGone()
    ensures Apply(TOLD_TO_CLOSE, STRANDING[3]) == STRANDED
  {
    hide Schedule;
    assert Dispose(TOLD_TO_CLOSE, 1, true) == STRANDED;
    NobodyWaits(STRANDED);
  }

  /** A request is opening in a scope that is retired, and its connection is closed: the request still counts on it. */
  lemma RetiringCanStrand()
    ensures var p := Told(CONFIG, STRANDING).p;
            1 in p.requests && p.requests[1].state == Opening(1) && 1 !in p.entries
  {
    hide Apply, Told;
    ScopedOpens();
    IsRetired();
    IsToldToClose();
    IsGone();
    ToldNothing();
    assert STRANDING[..0] == [] && STRANDING[..4] == STRANDING;
    StepsOn(STRANDING, 0, NewPool(CONFIG));
    StepsOn(STRANDING, 1, SCOPED_OPENING);
    StepsOn(STRANDING, 2, RETIRED);
    StepsOn(STRANDING, 3, TOLD_TO_CLOSE);
  }
}
