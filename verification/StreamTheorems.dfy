/** What a pair of streams promises its two applications, over every run. */
module StreamTheorems {
  import opened Base
  import opened StreamProtocol
  import opened StreamSpec
  import opened StreamPair
  import opened StreamDeliver
  import opened StreamRuns

  // ---------------------------------------------------------------------------------------------------------------
  // No honest message is refused
  // ---------------------------------------------------------------------------------------------------------------

  lemma DeliveryAnswer(x: End, y: End)
    requires Joined(x, y) && y.out != []
    ensures var r := Receive(x.s, y.out[0]).1; r == if Live(x.s) && Expired(x.s) then Err(Timeout) else Ok(())
  {
    hide Joined, Expired, Fail, Accept;
    if Live(x.s) {
      NeverRefused(x, y);
    }
  }

  /** Whatever the two applications do, the next message in flight is accepted unless the receiver's own time is up. */
  lemma NoMessageRefused(c: Config, d: Config, events: seq<Event>)
    requires Mirrored(c, d) && c.side == Initiator
    ensures var p := Run(Fresh(c, d), events);
            && (p.b.out != [] ==>
                  Receive(p.a.s, p.b.out[0]).1 == if Live(p.a.s) && Expired(p.a.s) then Err(Timeout) else Ok(()))
            && (p.a.out != [] ==>
                  Receive(p.b.s, p.a.out[0]).1 == if Live(p.b.s) && Expired(p.b.s) then Err(Timeout) else Ok(()))
  {
    hide Inv, Joined, Run, Expired, Receive, Mirrored;
    Reachable(c, d, events);
    var p := Run(Fresh(c, d), events);
    BothJoined(p);
    if p.b.out != [] {
      DeliveryAnswer(p.a, p.b);
    }
    if p.a.out != [] {
      DeliveryAnswer(p.b, p.a);
    }
  }

  // ---------------------------------------------------------------------------------------------------------------
  // The end of the stream
  // ---------------------------------------------------------------------------------------------------------------

  /** An end of stream is reported only once every byte written has been read. */
  lemma EndIsComplete(x: End, y: End, room: nat)
    requires Joined(x, y) && room > 0
    ensures Read(y.s, room).1 == Ok([]) ==> x.s.endSent && y.read == x.wrote
  {
    hide FlushOwn, DeadOwn, CloseOwn, ReadOwn, SentMarks, Mirrored, InFlight, Truthful, OneToken;
    if Read(y.s, room).1 == Ok([]) {
      assert y.s.recv == [] && !y.s.discarding && y.s.endReceived;
      assert y.read + [] == y.read;
      assert x.wrote[..|x.wrote|] == x.wrote;
    }
  }

  lemma EndOfStreamIsComplete(c: Config, d: Config, events: seq<Event>, room: nat)
    requires Mirrored(c, d) && c.side == Initiator && room > 0
    ensures var p := Run(Fresh(c, d), events);
            && (Read(p.b.s, room).1 == Ok([]) ==> p.a.s.endSent && p.b.read == p.a.wrote)
            && (Read(p.a.s, room).1 == Ok([]) ==> p.b.s.endSent && p.a.read == p.b.wrote)
  {
    hide Inv, Joined, Run, Mirrored, Read;
    Reachable(c, d, events);
    var p := Run(Fresh(c, d), events);
    BothJoined(p);
    EndIsComplete(p.a, p.b, room);
    EndIsComplete(p.b, p.a, room);
  }

  // ---------------------------------------------------------------------------------------------------------------
  // Flush and close report the truth
  // ---------------------------------------------------------------------------------------------------------------

  /** A completed flush: all that was written before it has arrived, and the endpoint's application has read it. */
  lemma FlushTruth(x: End, y: End, ticket: int)
    requires Joined(x, y) && ticket in x.tickets && FlushComplete(x.s, ticket) == Ok(true)
    ensures x.tickets[ticket] <= y.s.received <= |x.wrote|
    ensures x.s.config.side == Initiator ==> x.wrote[..x.tickets[ticket]] <= y.read
    ensures x.s.config.side == Endpoint && !y.s.discarding ==> x.wrote[..x.tickets[ticket]] <= y.read + y.s.recv
  {
    hide Written, EndOwn, DeadOwn, SentMarks, ValidConfig, InFlight, Acknowledged, OneToken, Outgoing;
    var n := x.tickets[ticket];
    assert n <= SinkOffset(y.s);
    if !y.s.discarding {
      var m := y.s.received;
      assert x.wrote[..n] <= x.wrote[..m];
      if x.s.config.side == Initiator {
        assert y.read == (y.read + y.s.recv)[..|y.read|] == x.wrote[..y.s.consumed];
      }
    }
  }

  lemma FlushIsTruthful(c: Config, d: Config, events: seq<Event>, ticket: int)
    requires Mirrored(c, d) && c.side == Initiator
    ensures var p := Run(Fresh(c, d), events);
            && (ticket in p.a.tickets && FlushComplete(p.a.s, ticket) == Ok(true) ==>
                  p.a.tickets[ticket] <= |p.a.wrote| && p.a.wrote[..p.a.tickets[ticket]] <= p.b.read)
            && (ticket in p.b.tickets && FlushComplete(p.b.s, ticket) == Ok(true) ==>
                  && p.b.tickets[ticket] <= p.a.s.received <= |p.b.wrote|
                  && (!p.a.s.discarding ==> p.b.wrote[..p.b.tickets[ticket]] <= p.a.read + p.a.s.recv))
  {
    hide Joined, Run, Own, Flow, ValidConfig, FlushComplete;
    Reachable(c, d, events);
    var p := Run(Fresh(c, d), events);
    BothJoined(p);
    if ticket in p.a.tickets && FlushComplete(p.a.s, ticket) == Ok(true) {
      FlushTruth(p.a, p.b, ticket);
    }
    if ticket in p.b.tickets && FlushComplete(p.b.s, ticket) == Ok(true) {
      FlushTruth(p.b, p.a, ticket);
    }
  }

  /** What a completed close tells the initiator. */
  predicate ClosedWhole(a: End, b: End) {
    a.s.completed.Some? ==>
      && b.s.completed.Some?
      && b.read == a.wrote
      && a.s.received == |b.wrote| && a.read <= b.wrote
      && (a.s.completed.value.unreadResponseDiscarded <==> a.read != b.wrote)
  }

  lemma CloseTruth(a: End, b: End)
    requires Joined(a, b) && a.s.config.side == Initiator
    ensures ClosedWhole(a, b)
  {
    hide FlushOwn, SentMarks, ValidConfig, InFlight, Truthful, OneToken, Outgoing;
    if a.s.completed.Some? {
      assert b.s.recv == [] && b.read + [] == b.read;
      assert a.wrote[..|a.wrote|] == a.wrote;
    }
  }

  lemma CloseIsTruthful(c: Config, d: Config, events: seq<Event>)
    requires Mirrored(c, d) && c.side == Initiator
    ensures var p := Run(Fresh(c, d), events); ClosedWhole(p.a, p.b)
  {
    hide Joined, Run, Own, Flow, ValidConfig, ClosedWhole;
    Reachable(c, d, events);
    var p := Run(Fresh(c, d), events);
    BothJoined(p);
    CloseTruth(p.a, p.b);
  }
}
