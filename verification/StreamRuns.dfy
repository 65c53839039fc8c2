/** The theorems about a pair of streams, over every run: any interleaving of calls, takes, deliveries and ticks. */
module StreamRuns {
  import opened StreamProtocol
  import opened StreamSpec
  import opened StreamPair
  import opened StreamOwn
  import opened StreamFlow
  import opened StreamTake
  import opened StreamDeliver
  import Io = IoClock

  // ---------------------------------------------------------------------------------------------------------------
  // The invariant over every run
  // ---------------------------------------------------------------------------------------------------------------

  lemma StartFlow(c: Config, d: Config)
    requires Mirrored(c, d)
    ensures Flow(Start(c), Start(d))
  {
    hide ValidConfig, Io.New;
  }

  lemma LocalFlow(x: End, y: End, op: Op)
    requires Joined(x, y)
    ensures Flow(Local(x, op), y) && Flow(y, Local(x, op)) && Local(x, op).s.config == x.s.config
  {
    hide Own, Mirrored, Flow, WriteEnd, ReadEnd, FlushEnd, TakeEnd, Call;
    match op
    case DoWrite(input) =>
      WriteSender(x, y, input);
      WriteReceiver(x, input);
      ReceiverFrame(y, x, WriteEnd(x, input));
    case DoRead(room) =>
      DiscardingIsEmpty(x);
      ReadKeeps(x, room);
      SenderFrame(x, ReadEnd(x, room), y);
      ReceiverFrame(y, x, ReadEnd(x, room));
    case DoStartFlush =>
      StartFlushSender(x, y);
      StartFlushReceiver(x);
      ReceiverFrame(y, x, FlushEnd(x));
    case Take => TakeFlow(x, y);
    case _ =>
      CallFlow(x, y, op);
  }

  lemma DiscardingIsEmpty(x: End)
    requires Own(x)
    ensures x.s.discarding ==> x.s.recv == []
  {
    hide Outgoing;
  }

  lemma CallFlow(x: End, y: End, op: Op)
    requires Joined(x, y)
    ensures var x2 := x.(s := Call(x.s, op)); Flow(x2, y) && Flow(y, x2) && x2.s.config == x.s.config
  {
    hide Own, Mirrored, Flow, Call, ReceiverKept;
    var x2 := x.(s := Call(x.s, op));
    CallKeeps(x, op);
    SenderFrame(x, x2, y);
    if op.DoStartClose? {
      StartCloseReceiver(y, x);
      CloseCall(x.s);
    } else {
      ReceiverFrame(y, x, x2);
    }
  }

  lemma CloseCall(s: Stream)
    ensures Call(s, DoStartClose) == StartClose(s).0
  {
    hide StartClose;
  }

  lemma BothJoined(p: Pair)
    requires Inv(p)
    ensures Joined(p.a, p.b) && Joined(p.b, p.a)
  {
  }

  lemma StepKeeps(p: Pair, side: Side, op: Op)
    requires Inv(p)
    ensures Inv(Step(p, side, op))
  {
    hide Own, Flow, ValidConfig, Local, DeliverTo;
    match side
    case Initiator =>
      if op.Deliver? {
        if p.b.out != [] {
          DeliverFlow(p.a, p.b);
          OwnReceive(p.a, p.b.out[0]);
          OwnPopped(p.b);
        }
      } else {
        LocalFlow(p.a, p.b, op);
        OwnLocal(p.a, op);
      }
    case Endpoint =>
      if op.Deliver? {
        if p.a.out != [] {
          DeliverFlow(p.b, p.a);
          OwnReceive(p.b, p.a.out[0]);
          OwnPopped(p.a);
        }
      } else {
        LocalFlow(p.b, p.a, op);
        OwnLocal(p.b, op);
      }
  }

  lemma OwnPopped(y: End)
    requires Own(y) && y.out != []
    ensures Own(y.(out := y.out[1..]))
  {
    hide Counters, Written, FlushOwn, EndOwn, DeadOwn, CloseOwn, ReadOwn;
    OutIrrelevant(y, y.out[1..]);
  }

  /** Both sides just connected. */
  function Fresh(c: Config, d: Config): Pair {
    Pair(Start(c), Start(d))
  }

  lemma {:induction false} Reachable(c: Config, d: Config, events: seq<Event>)
    requires Mirrored(c, d) && c.side == Initiator
    ensures Inv(Run(Fresh(c, d), events))
  {
    hide Own, Flow, ValidConfig, Step, Inv;
    if events == [] {
      StartInv(c, d);
    } else {
      Reachable(c, d, events[..|events| - 1]);
      var last := events[|events| - 1];
      StepKeeps(Run(Fresh(c, d), events[..|events| - 1]), last.side, last.op);
    }
  }

  lemma StartInv(c: Config, d: Config)
    requires Mirrored(c, d) && c.side == Initiator
    ensures Inv(Fresh(c, d))
  {
    hide Own, Flow, ValidConfig;
    OwnStart(c);
    OwnStart(d);
    StartFlow(c, d);
    StartFlow(d, c);
  }
}
