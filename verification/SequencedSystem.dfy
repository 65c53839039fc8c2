/** A numbering sender, a lossy repeating reordering channel and a receiver, over every run. */
module SequencedSystem {
  import opened Base
  import opened Cost
  import opened SequencedSpec
  import opened SequencedOrder

  /**
   The two ends with their history: what was numbered on each stream, what has left the sender's queue, what the
   application has been handed, and which numbers the receiver has accepted.
   */
  datatype System = System(
    o: Outbound, r: Receiver, log: map<int, seq<Frame>>, sent: seq<Frame>,
    applied: map<int, seq<Frame>>, accepted: map<int, set<int>>)

  datatype Event =
    | Number(message: Message, cost: Option<nat>)
    | Leave
    | Expect(id: Int64)
    | Pass(now: nat)
    | Arrive(index: nat, cost: Option<nat>, now: nat, answers: nat -> Answer)
    | Again(id: Int64, now: nat, answers: nat -> Answer)

  function Log(s: System, id: int): seq<Frame> {
    if id in s.log then s.log[id] else []
  }

  function Handed(s: System, id: int): seq<Frame> {
    if id in s.applied then s.applied[id] else []
  }

  function Accepted(s: System, id: int): set<int> {
    if id in s.accepted then s.accepted[id] else {}
  }

  function AsMessage(session: seq<byte>, f: Frame): Message {
    Message(session, 3, f.stream, Some(f.number), f.kind, f.rest)
  }

  function Numbering(s: System, m: Message, cost: Option<nat>): System {
    var (o, answer) := Enqueue(s.o, m, cost);
    if answer.Ok? && o.queue != [] then
      s.(o := o, log := s.log[m.stream := Log(s, m.stream) + [o.queue[|o.queue| - 1].frame]])
    else s.(o := o)
  }

  function Leaving(s: System): System {
    var (o, f) := Pop(s.o);
    s.(o := o, sent := if f.Some? then s.sent + [f.value] else s.sent)
  }

  /** Any frame that ever left may arrive now: late, early, again, or never. */
  ghost function Arriving(s: System, f: Frame, cost: Option<nat>, now: nat, answers: nat -> Answer): System {
    var outcome := Submit(s.r, AsMessage(s.r.session, f), cost, now, answers);
    s.(
    r := outcome.r,
    applied := s.applied[f.stream := Handed(s, f.stream) + outcome.applied],
    accepted := if outcome.answer.Ok? then s.accepted[f.stream := Accepted(s, f.stream) + {f.number}] else s.accepted)
  }

  function Retrying(s: System, id: Int64, now: nat, answers: nat -> Answer): System {
    var outcome := Retry(s.r, id, now, answers);
    s.(r := outcome.r, applied := s.applied[id := Handed(s, id) + outcome.applied])
  }

  ghost function Happen(s: System, e: Event): System {
    match e
    case Number(message, cost) => Numbering(s, message, cost)
    case Leave => Leaving(s)
    case Expect(id) => s.(r := Register(s.r, id).0)
    case Pass(now) => s.(r := Tick(s.r, now).0)
    case Arrive(index, cost, now, answers) => if index < |s.sent| then Arriving(s, s.sent[index], cost, now, answers) else s
    case Again(id, now, answers) => Retrying(s, id, now, answers)
  }

  ghost function History(s: System, events: seq<Event>): System {
    if events == [] then s else Happen(History(s, events[..|events| - 1]), events[|events| - 1])
  }

  // ---------------------------------------------------------------------------------------------------------------
  // The sender keeps honest logs
  // ---------------------------------------------------------------------------------------------------------------

  predicate StreamNumbered(o: Outbound, log: map<int, seq<Frame>>, id: int)
    requires id in log
  {
    var l := log[id];
    && id > 0 && id in o.next && l != [] && |l| + 1 == o.next[id] && Honest(id, o.direction, l)
    && (id in o.ended <==> Final(l[|l| - 1].kind))
  }

  predicate Logged(log: map<int, seq<Frame>>, f: Frame) {
    f.stream in log && 1 <= f.number <= |log[f.stream]| && log[f.stream][f.number - 1] == f
  }

  predicate SenderOk(o: Outbound, log: map<int, seq<Frame>>, sent: seq<Frame>) {
    && (forall id | id in o.next :: id in log)
    && (forall id | id in log :: StreamNumbered(o, log, id))
    && (forall i | 0 <= i < |o.queue| :: Logged(log, o.queue[i].frame))
    && (forall i | 0 <= i < |sent| :: Logged(log, sent[i]))
  }

  /** The stream's log after one more frame. */
  lemma NumberedOn(o: Outbound, log: map<int, seq<Frame>>, m: Message, cost: Option<nat>)
    requires forall id | id in o.next :: id in log
    requires forall id | id in log :: StreamNumbered(o, log, id)
    requires Enqueue(o, m, cost).1.Ok?
    ensures var o1 := Enqueue(o, m, cost).0;
            var f := Frame(m.stream, NextSequence(o, m.stream), m.kind, m.rest);
            var before := if m.stream in log then log[m.stream] else [];
            && o1.queue != [] && o1.queue[|o1.queue| - 1].frame == f && o1.queue[..|o1.queue| - 1] == o.queue
            && o1.direction == o.direction && o1.session == o.session
            && Honest(m.stream, o.direction, before + [f])
            && |before| + 1 == f.number && o1.next == o.next[m.stream := f.number + 1]
            && (m.stream in o1.ended <==> Final(f.kind))
            && (forall id | id != m.stream :: id in o1.ended <==> id in o.ended)
            && m.stream !in o.ended && m.stream > 0
  {
    hide QueueFull;
    if m.stream in log {
      assert StreamNumbered(o, log, m.stream);
    }
  }

  lemma NumberingOk(s: System, m: Message, cost: Option<nat>)
    requires SenderOk(s.o, s.log, s.sent)
    ensures var t := Numbering(s, m, cost); SenderOk(t.o, t.log, t.sent)
  {
    hide Enqueue, Honest, Final;
    if Enqueue(s.o, m, cost).1.Ok? {
      NumberedOn(s.o, s.log, m, cost);
      var t := Numbering(s, m, cost);
      forall id | id in t.log ensures StreamNumbered(t.o, t.log, id) {
        if id != m.stream {
          assert StreamNumbered(s.o, s.log, id);
        }
      }
      forall f: Frame | Logged(s.log, f) ensures Logged(t.log, f) {
      }
      forall i | 0 <= i < |t.o.queue| ensures Logged(t.log, t.o.queue[i].frame) {
        if i < |s.o.queue| {
          assert t.o.queue[i] == s.o.queue[i];
        }
      }
    } else {
      Unqueued(s.o, m, cost);
    }
  }

  lemma Unqueued(o: Outbound, m: Message, cost: Option<nat>)
    requires Enqueue(o, m, cost).1.Err?
    ensures Enqueue(o, m, cost).0 == o
  {
  }

  lemma LeavingOk(s: System)
    requires SenderOk(s.o, s.log, s.sent)
    ensures var t := Leaving(s); SenderOk(t.o, t.log, t.sent)
  {
    hide Honest;
    var t := Leaving(s);
    forall id | id in t.log ensures StreamNumbered(t.o, t.log, id) {
      assert StreamNumbered(s.o, s.log, id);
    }
  }

  // ---------------------------------------------------------------------------------------------------------------
  // The receiver stays in step with them
  // ---------------------------------------------------------------------------------------------------------------

  predicate StreamOk(s: System, id: int) {
    if id in s.r.streams then
      && Consistent(s.r.streams[id], Log(s, id), Handed(s, id))
      && (!s.r.failed ==> Holds(s.r.streams[id], Accepted(s, id)))
    else Handed(s, id) == [] && Accepted(s, id) == {}
  }

  ghost predicate Sound(s: System) {
    && s.r.session == s.o.session && s.r.direction == s.o.direction
    && SenderOk(s.o, s.log, s.sent)
    && (forall id: int :: StreamOk(s, id))
  }

  /** Numbering more frames disturbs nothing: a stream that has ended gets none. */
  lemma LogGrows(st: StreamState, log: seq<Frame>, applied: seq<Frame>, f: Frame)
    requires Consistent(st, log, applied) && (log != [] ==> !Final(log[|log| - 1].kind))
    ensures Consistent(st, log + [f], applied)
  {
    hide Numbered, Running, EndedWith;
    NumberedGrows(st, log, f);
    if st.terminal.None? {
      RunningGrows(st, log, applied, f);
    } else {
      EndedIsFinal(st, log, applied);
    }
  }

  lemma NumberedGrows(st: StreamState, log: seq<Frame>, f: Frame)
    requires Numbered(st, log)
    ensures Numbered(st, log + [f])
  {
    forall k | k in st.pending ensures st.pending[k].frame == (log + [f])[k - 1] {
      assert (log + [f])[k - 1] == log[k - 1];
    }
  }

  lemma RunningGrows(st: StreamState, log: seq<Frame>, applied: seq<Frame>, f: Frame)
    requires Running(st, log, applied)
    ensures Running(st, log + [f], applied)
  {
    hide Final;
    var more, n := log + [f], st.expected - 1;
    assert more[..n] == log[..n];
    forall i | 0 <= i < n ensures !Final(more[i].kind) {
      assert more[i] == log[i];
    }
  }

  lemma EndedIsFinal(st: StreamState, log: seq<Frame>, applied: seq<Frame>)
    requires st.terminal.Some? && Consistent(st, log, applied)
    ensures log != [] && Final(log[|log| - 1].kind)
  {
    hide Final, Numbered;
  }

  lemma NumberingSound(s: System, m: Message, cost: Option<nat>)
    requires Sound(s)
    ensures Sound(Numbering(s, m, cost))
  {
    hide Enqueue, Consistent, Holds, Honest, SenderOk;
    var t := Numbering(s, m, cost);
    NumberingOk(s, m, cost);
    if Enqueue(s.o, m, cost).1.Ok? {
      SenderParts(s);
      NumberedOn(s.o, s.log, m, cost);
      forall id: int ensures StreamOk(t, id) {
        assert StreamOk(s, id);
        if id == m.stream && id in s.r.streams {
          if id in s.log {
            assert StreamNumbered(s.o, s.log, id);
          }
          LogGrows(s.r.streams[id], Log(s, id), Handed(s, id), t.o.queue[|t.o.queue| - 1].frame);
        }
      }
    } else {
      Unqueued(s.o, m, cost);
      forall id: int ensures StreamOk(t, id) {
        assert StreamOk(s, id);
      }
    }
  }

  lemma SenderParts(s: System)
    requires SenderOk(s.o, s.log, s.sent)
    ensures forall id | id in s.o.next :: id in s.log
    ensures forall id | id in s.log :: StreamNumbered(s.o, s.log, id)
  {
  }

  lemma LeavingSound(s: System)
    requires Sound(s)
    ensures Sound(Leaving(s))
  {
    hide SenderOk, Consistent, Holds;
    LeavingOk(s);
    forall id: int ensures StreamOk(Leaving(s), id) {
      assert StreamOk(s, id);
    }
  }

  /** A call worked on stream `id` only. */
  lemma WorkedSound(s: System, id: int, d: Desk, error: Option<Error>, accepted: set<int>)
    requires Sound(s) && !s.r.failed && id in s.r.streams && Accepted(s, id) <= accepted
    requires Follows(d, Log(s, id), Handed(s, id), accepted, error)
    requires error.Some? && !Fatal(error) ==> Holds(d.st, Accepted(s, id))
    ensures var t := s.(
                r := Settle(s.r, id, d, error),
                applied := s.applied[id := Handed(s, id) + d.applied],
                accepted := if error.None? then s.accepted[id := accepted] else s.accepted);
            Sound(t)
  {
    hide SenderOk, Consistent;
    var t := s.(
      r := Settle(s.r, id, d, error),
      applied := s.applied[id := Handed(s, id) + d.applied],
      accepted := if error.None? then s.accepted[id := accepted] else s.accepted);
    forall i: int ensures StreamOk(t, i) {
      assert StreamOk(s, i);
      if i == id {
        assert Log(t, id) == Log(s, id);
      }
    }
  }

  lemma UntouchedSound(s: System, id: int)
    requires Sound(s)
    ensures Sound(s.(applied := s.applied[id := Handed(s, id) + []]))
    ensures Sound(s.(r := s.r.(failed := true), applied := s.applied[id := Handed(s, id) + []]))
  {
    hide SenderOk, Consistent, Holds;
    var t := s.(applied := s.applied[id := Handed(s, id) + []]);
    var u := s.(r := s.r.(failed := true), applied := s.applied[id := Handed(s, id) + []]);
    assert Handed(s, id) + [] == Handed(s, id);
    forall i: int ensures StreamOk(t, i) && StreamOk(u, i) {
      assert StreamOk(s, i);
      assert Handed(t, i) == Handed(s, i) == Handed(u, i);
    }
  }

  /** A call that answers an error other than a fatal one has changed nothing that waits. */
  lemma BlockedHolds(
    d: Desk, l: Limits, id: int, direction: Direction, streams: nat, log: seq<Frame>, applied: seq<Frame>,
    accepted: set<int>, f: Frame, charge: nat, now: nat, answers: nat -> Answer)
    requires Honest(id, direction, log) && Consistent(d.st, log, applied + d.applied) && Holds(d.st, accepted)
    requires 1 <= f.number <= |log| && log[f.number - 1] == f
    ensures var (d1, answer) := SubmitFrame(d, l, direction, streams, f, charge, now, answers);
            answer.Err? && !Fatal(ErrorOf(answer)) ==> Holds(d1.st, accepted)
  {
    hide Consistent, Holds, Honest, Aborted, Buffer, BufferFits, RetainFits, BarsJump, PendingCharge, Applying, Jumps, AfterEnd;
    SubmitFollows(d, l, id, direction, streams, log, applied, accepted, f, charge, now, answers);
    if d.st.terminal.None? && f.number == d.st.expected && f.number !in d.st.pending {
      ApplyingFollows(d, id, direction, log, applied, accepted, f, charge, answers);
      DrainsOrRejects(d, f, charge, answers);
    }
  }

  lemma DrainsOrRejects(d: Desk, f: Frame, charge: nat, answers: nat -> Answer)
    ensures var error := Applying(d, f, charge, answers).1;
            error.Some? ==> error.value.Protocol? || error.value.CapacityError? || error.value.ApplyRejected?
  {
    hide MarkApplied, Drain;
    MarkErrors(Deliver(d, f), f, charge);
    DrainErrors(Note(MarkApplied(Deliver(d, f), f, charge).0, f, Applied), answers, 1);
  }

  lemma MarkErrors(d: Desk, f: Frame, charge: nat)
    ensures var error := MarkApplied(d, f, charge).1; error.Some? ==> error.value.Protocol? || error.value.CapacityError?
  {
  }

  lemma {:induction false} DrainErrors(d: Desk, answers: nat -> Answer, k: nat)
    ensures var error := Drain(d, answers, k).1;
            error.Some? ==> error.value.Protocol? || error.value.CapacityError? || error.value.ApplyRejected?
    decreases |d.st.pending|
  {
    if d.st.expected in d.st.pending {
      var p := d.st.pending[d.st.expected];
      MarkErrors(Uncharged(Deliver(Unbuffered(d), p.frame), p.charge), p.frame, p.charge);
      DrainErrors(TakePending(d).0, answers, k + 1);
    }
  }

  /** A logged frame reaches its stream. */
  lemma ArrivesSound(s: System, f: Frame, cost: Option<nat>, now: nat, answers: nat -> Answer)
    requires Sound(s) && Logged(s.log, f)
    ensures Sound(Arriving(s, f, cost, now, answers))
    ensures f.stream in s.r.streams && !s.r.failed ==>
              var answer := Submit(s.r, AsMessage(s.r.session, f), cost, now, answers).answer;
              answer.Ok? || (!answer.error.Protocol? && !answer.error.CapacityError?)
  {
    hide SubmitFrame, Consistent, Holds, Honest, SenderOk, GapExpired, Settle;
    UntouchedSound(s, f.stream);
    assert StreamOk(s, f.stream);
    if Tick(s.r, now).1.None? && cost.Some? && f.stream in s.r.streams {
      LoggedIsHonest(s, f);
      var d, charge := Lift(s.r, f.stream), cost.value + FRAME_OVERHEAD;
      var log, applied, accepted := Log(s, f.stream), Handed(s, f.stream), Accepted(s, f.stream);
      assert applied + [] == applied;
      SubmitFollows(d, s.r.limits, f.stream, s.r.direction, |s.r.streams|, log, applied, accepted, f, charge, now, answers);
      BlockedHolds(d, s.r.limits, f.stream, s.r.direction, |s.r.streams|, log, applied, accepted, f, charge, now, answers);
      var (d1, answer) := SubmitFrame(d, s.r.limits, s.r.direction, |s.r.streams|, f, charge, now, answers);
      WorkedSound(s, f.stream, d1, ErrorOf(answer), accepted + {f.number});
    }
  }

  lemma LoggedIsHonest(s: System, f: Frame)
    requires Sound(s) && Logged(s.log, f)
    ensures Honest(f.stream, s.r.direction, Log(s, f.stream)) && f.stream > 0
  {
    assert StreamNumbered(s.o, s.log, f.stream);
  }

  lemma StreamIsHonest(s: System, id: int)
    requires Sound(s)
    ensures Honest(id, s.r.direction, Log(s, id))
  {
    if id in s.log {
      assert StreamNumbered(s.o, s.log, id);
    }
  }

  lemma RetryingSound(s: System, id: Int64, now: nat, answers: nat -> Answer)
    requires Sound(s)
    ensures Sound(Retrying(s, id, now, answers))
    ensures !s.r.failed && id in s.r.streams && !GapExpired(s.r, now) && (forall k: nat :: answers(k) == Done) ==>
              && Retry(s.r, id, now, answers).answer.Ok?
              && var st := Retrying(s, id, now, answers).r.streams[id]; st.expected !in st.pending
  {
    hide Drain, Consistent, Honest, SenderOk, GapExpired;
    UntouchedSound(s, id);
    assert StreamOk(s, id);
    if Tick(s.r, now).1.None? && id in s.r.streams {
      StreamIsHonest(s, id);
      var d := Lift(s.r, id);
      assert Handed(s, id) + [] == Handed(s, id);
      DrainConsistent(d, id, s.r.direction, Log(s, id), Handed(s, id), Accepted(s, id), answers, 0);
      DrainErrors(d, answers, 0);
      DrainNeedsNo(d, answers, 0);
      var (d1, error) := Drain(d, answers, 0);
      RetriedSound(s, id, d1, error);
    }
  }

  lemma {:induction false} DrainNeedsNo(d: Desk, answers: nat -> Answer, k: nat)
    ensures (forall i: nat :: answers(i) == Done) ==> Drain(d, answers, k).1 != Some(ApplyRejected)
    decreases |d.st.pending|
  {
    hide MarkApplied, Uncharged, Deliver, Note;
    if d.st.expected in d.st.pending {
      var p := d.st.pending[d.st.expected];
      MarkErrors(Uncharged(Deliver(Unbuffered(d), p.frame), p.charge), p.frame, p.charge);
      DrainNeedsNo(TakePending(d).0, answers, k + 1);
    }
  }

  lemma RetriedSound(s: System, id: int, d: Desk, error: Option<Error>)
    requires Sound(s) && !s.r.failed && id in s.r.streams
    requires Follows(d, Log(s, id), Handed(s, id), Accepted(s, id), error) && (error.None? || Fatal(error))
    ensures Sound(s.(r := Settle(s.r, id, d, error), applied := s.applied[id := Handed(s, id) + d.applied]))
  {
    hide SenderOk, Consistent;
    var t := s.(r := Settle(s.r, id, d, error), applied := s.applied[id := Handed(s, id) + d.applied]);
    forall i: int ensures StreamOk(t, i) {
      assert StreamOk(s, i);
      if i == id {
        assert Log(t, id) == Log(s, id) && Accepted(t, id) == Accepted(s, id);
      }
    }
  }

  lemma ExpectSound(s: System, id: Int64)
    requires Sound(s)
    ensures Sound(s.(r := Register(s.r, id).0))
  {
    hide SenderOk, Active, Records;
    var t := s.(r := Register(s.r, id).0);
    forall i: int ensures StreamOk(t, i) {
      assert StreamOk(s, i);
      assert Log(t, i) == Log(s, i) && Handed(t, i) == Handed(s, i);
    }
  }

  lemma PassSound(s: System, now: nat)
    requires Sound(s)
    ensures Sound(s.(r := Tick(s.r, now).0))
  {
    hide SenderOk, Consistent, Holds, GapExpired;
    var t := s.(r := Tick(s.r, now).0);
    forall i: int ensures StreamOk(t, i) {
      assert StreamOk(s, i);
    }
  }

  lemma SentIsLogged(s: System, index: nat)
    requires Sound(s) && index < |s.sent|
    ensures Logged(s.log, s.sent[index])
  {
  }

  lemma HappenSound(s: System, e: Event)
    requires Sound(s)
    ensures Sound(Happen(s, e))
  {
    hide Sound, Numbering, Leaving, Register, Tick, Arriving, Retrying;
    match e
    case Number(message, cost) => NumberingSound(s, message, cost);
    case Leave => LeavingSound(s);
    case Expect(id) => ExpectSound(s, id);
    case Pass(now) => PassSound(s, now);
    case Arrive(index, cost, now, answers) =>
      if index < |s.sent| {
        SentIsLogged(s, index);
        ArrivesSound(s, s.sent[index], cost, now, answers);
      }
    case Again(id, now, answers) => RetryingSound(s, id, now, answers);
  }

  // ---------------------------------------------------------------------------------------------------------------
  // The theorems
  // ---------------------------------------------------------------------------------------------------------------

  function Beginning(session: seq<byte>, direction: Direction, out: Limits, maxQueued: nat, into: Limits): System {
    System(NewOutbound(session, direction, out, maxQueued), NewReceiver(session, direction, into), map[], [], map[], map[])
  }

  lemma {:induction false} AlwaysSound(
    session: seq<byte>, direction: Direction, out: Limits, maxQueued: nat, into: Limits, events: seq<Event>)
    ensures Sound(History(Beginning(session, direction, out, maxQueued, into), events))
  {
    hide Sound, Happen;
    if events == [] {
      BeginsSound(session, direction, out, maxQueued, into);
    } else {
      AlwaysSound(session, direction, out, maxQueued, into, events[..|events| - 1]);
      HappenSound(
        History(Beginning(session, direction, out, maxQueued, into), events[..|events| - 1]), events[|events| - 1]);
    }
  }

  lemma BeginsSound(session: seq<byte>, direction: Direction, out: Limits, maxQueued: nat, into: Limits)
    ensures Sound(Beginning(session, direction, out, maxQueued, into))
  {
  }

  /** The frames as numbered, each once and in order, and then at most one abort that jumped ahead to the end. */
  predicate InSequence(applied: seq<Frame>, log: seq<Frame>) {
    || applied <= log
    || (&& 1 <= |applied| < |log|
        && applied[..|applied| - 1] == log[..|applied| - 1]
        && applied[|applied| - 1] == log[|log| - 1] && Abortive(log[|log| - 1].kind))
  }

  lemma ConsistentInSequence(st: StreamState, log: seq<Frame>, applied: seq<Frame>)
    requires Consistent(st, log, applied)
    ensures InSequence(applied, log)
  {
    if st.terminal.None? {
      assert log[..st.expected - 1] <= log;
    } else if st.expected < |log| {
      var n := st.expected - 1;
      assert |applied| == n + 1 && applied[..n] == log[..n];
    }
  }

  lemma AppliedInOrder(
    session: seq<byte>, direction: Direction, out: Limits, maxQueued: nat, into: Limits, events: seq<Event>, id: int)
    ensures var s := History(Beginning(session, direction, out, maxQueued, into), events);
            InSequence(Handed(s, id), Log(s, id))
  {
    hide History, Consistent, SenderOk;
    AlwaysSound(session, direction, out, maxQueued, into, events);
    var s := History(Beginning(session, direction, out, maxQueued, into), events);
    assert StreamOk(s, id);
    if id in s.r.streams {
      ConsistentInSequence(s.r.streams[id], Log(s, id), Handed(s, id));
    }
  }

  /** No frame that an honest sender let go is ever taken for a breach of the protocol. */
  lemma NoHonestFrameRefused(
    session: seq<byte>, direction: Direction, out: Limits, maxQueued: nat, into: Limits, events: seq<Event>,
    index: nat, cost: Option<nat>, now: nat, answers: nat -> Answer)
    ensures var s := History(Beginning(session, direction, out, maxQueued, into), events);
            index < |s.sent| && !s.r.failed && s.sent[index].stream in s.r.streams ==>
              var answer := Submit(s.r, AsMessage(session, s.sent[index]), cost, now, answers).answer;
              answer.Ok? || (!answer.error.Protocol? && !answer.error.CapacityError?)
  {
    hide History, Sound, Submit, Arriving;
    AlwaysSound(session, direction, out, maxQueued, into, events);
    var s := History(Beginning(session, direction, out, maxQueued, into), events);
    SessionStays(session, direction, out, maxQueued, into, events);
    if index < |s.sent| {
      SentIsLogged(s, index);
      ArrivesSound(s, s.sent[index], cost, now, answers);
    }
  }

  lemma {:induction false} SessionStays(
    session: seq<byte>, direction: Direction, out: Limits, maxQueued: nat, into: Limits, events: seq<Event>)
    ensures History(Beginning(session, direction, out, maxQueued, into), events).r.session == session
  {
    if events != [] {
      var before := events[..|events| - 1];
      SessionStays(session, direction, out, maxQueued, into, before);
      HappenKeepsSession(History(Beginning(session, direction, out, maxQueued, into), before), events[|events| - 1]);
    }
  }

  lemma HappenKeepsSession(s: System, e: Event)
    ensures Happen(s, e).r.session == s.r.session
  {
    hide SubmitFrame, Drain, Enqueue, GapExpired, Active, Records;
  }

  /** Everything that was numbered, or an abort that ended it. */
  predicate Completed(applied: seq<Frame>, log: seq<Frame>) {
    || applied == log
    || (applied != [] && log != [] && applied[|applied| - 1] == log[|log| - 1] && Abortive(log[|log| - 1].kind))
  }

  /** Once every frame has been accepted, one retry that the application does not hold up completes the stream. */
  lemma AcceptedIsApplied(
    session: seq<byte>, direction: Direction, out: Limits, maxQueued: nat, into: Limits, events: seq<Event>,
    id: Int64, now: nat)
    ensures var s := History(Beginning(session, direction, out, maxQueued, into), events);
            && !s.r.failed && id in s.r.streams && !GapExpired(s.r, now)
            && (forall k: int | 1 <= k <= |Log(s, id)| :: k in Accepted(s, id)) ==>
              var t := Retrying(s, id, now, _ => Done);
              && Retry(s.r, id, now, _ => Done).answer.Ok?
              && InSequence(Handed(t, id), Log(s, id)) && Completed(Handed(t, id), Log(s, id))
  {
    hide History, SenderOk, GapExpired, Retry, Consistent;
    AlwaysSound(session, direction, out, maxQueued, into, events);
    var s := History(Beginning(session, direction, out, maxQueued, into), events);
    var t := Retrying(s, id, now, _ => Done);
    RetryingSound(s, id, now, _ => Done);
    assert StreamOk(t, id);
    if !s.r.failed && id in s.r.streams && !GapExpired(s.r, now) {
      RetryKeepsStreams(s.r, id, now, _ => Done);
      ConsistentInSequence(t.r.streams[id], Log(s, id), Handed(t, id));
      CompleteWhenHeld(t.r.streams[id], Log(s, id), Handed(t, id), Accepted(s, id));
    }
  }

  lemma RetryKeepsStreams(r: Receiver, id: Int64, now: nat, answers: nat -> Answer)
    requires id in r.streams
    ensures var o := Retry(r, id, now, answers); id in o.r.streams && (o.answer.Ok? ==> o.r.failed == r.failed)
  {
    hide Drain, GapExpired;
  }

  lemma CompleteWhenHeld(st: StreamState, log: seq<Frame>, applied: seq<Frame>, accepted: set<int>)
    requires Consistent(st, log, applied) && st.expected !in st.pending && Holds(st, accepted)
    ensures (forall k: int | 1 <= k <= |log| :: k in accepted) ==> Completed(applied, log)
  {
    if st.terminal.None? {
      if st.expected == |log| + 1 {
        assert log[..|log|] == log;
      }
    } else if applied != log {
      var n := st.expected - 1;
      assert applied == log[..n] + [st.terminal.value];
    }
  }
}
