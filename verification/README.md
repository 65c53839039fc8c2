# gwz-transport, verified

`gwz-transport` carries byte streams and connection leases between two processes. Its core is a set of state machines
without I/O: a host feeds them calls, messages and clock readings, and takes messages and commands from them. This
project models those machines and proves what they promise, over every run.

The parts, each a specification on values, an object that refines it where the source updates state in place, and the
theorems about its runs:

* **Streams** (`Stream*`, `Io*`). Two stream machines joined by two queues. The invariant `StreamPair.Inv` ties each
  side's counters, buffers, barriers and close flags to the other side and to what is in flight, and holds over every
  interleaving. From it follow byte conservation in every state, truthful end of stream, flush and close, freedom from
  false protocol errors, that every schedule of hand-overs and deliveries ends, that a pair at rest has lost no credit
  and waits only on unread bytes, and delivery from end to end once the applications read. Calls and messages are
  unrestricted: the one-sided results (`StreamOwn`, `IoRuns`) hold against arbitrary messages.
* **Codec** (`Cbor*`, `Budget`, `Preflight`, `Admission`, `StreamAdmission`, `Envelope*`, `Codec`). Encoder,
  decoder, the typed cost walk over an envelope and the scan of raw bytes: round trips of values and of whole
  messages, bytes that identify their message, and a walk and a scan that agree exactly on what fits although they look
  at different things.
* **Sequenced delivery** (`Sequenced*`). A numbering sender, a channel that loses, repeats and reorders, and the
  reassembling receiver: in-order delivery, exact accounts, no honest frame refused.
* **Setup clock** (`SetupClock*`). The shared deadline authority of a connection's setup: observation changes nothing,
  local time is given back exactly, phases increase.
* **Connection pool** (`Pool*`). Requests, entries, leases, limits, held slots, eviction and deadlines: links, ceilings,
  unique leases, accounted disposal, first come first served, work conservation after every call, and deadlines that
  miss nothing.

Time, message contents and the application's answers are parameters; every theorem quantifies over them. Integers are
unbounded, with the source's 64-bit saturation, checked additions and offset limits written out.

Where the code does not do what its comments or its design suggest, the model follows the code and the theorem states
exactly when the expected property holds:

* The decoder does not check the order of map keys, although its comment calls it strictly canonical: an accepted input
  re-encodes to itself if and only if its keys ascend (`CborCodec.ReencodesIffAscending`, `KeyOrderIsNotChecked`).
* Retiring an HTTPS scope closes connections without telling the requests they serve. Those requests are left referring
  to a connection that goes away, and failing them later looks it up as if it were there
  (`PoolTheorems.RetireOrphansIffServing`, `RetiringCanOrphan`, `OrphansOutliveConnections`,
  `PoolWitness.RetiringCanStrand`).
* Giving a leased connection a scope does not reschedule, so a request that was waiting for that connection can be left
  waiting with room to spare (`PoolRest.ScopingRestsIffConsiderate`, `PoolWitness.ScopingCanLeaveWork`).
* A waiting frame that the application refuses leaves the receiver's counters too high. The accounts are exact after a
  run if and only if that has not happened in it (`SequencedRuns.AccountsBalance`, `RefusalUnbalances`), and whether a
  call will do it can be told from what waits and from the answers (`SequencedAnswers.SubmitUnbalancesIff`,
  `RetryUnbalancesIff`).
* An observation of the setup clock shows in the next call if and only if its reading is ahead of that call's and of
  the clock (`SetupClockRuns.ObservationShowsIffAhead`, `BackwardReadingsShow`), because the clock keeps the latest
  reading; in terms of what the clock has read, none ever does (`SetupClockRuns.ObservationsAreInvisible`).
* A stream that ends with its first frame keeps that frame without a charge. What is retained is charged in full if and
  only if no stream has (`SequencedRetained.AllKeptIsChargedIff`, `FinalFirstGoesFree`).

`dafny verify dfyconfig.toml` checks the whole project.

## Model

| member | source | states |
|---|---|---|
| `StreamRuns.Reachable` | src/stream/incoming.rs:18-168 | The invariant of two streams joined by two queues holds after every run of any calls, hand-overs and deliveries, in any interleaving, from any two mirrored configurations. |
| `StreamRuns.StepKeeps` | src/stream/incoming.rs:6-16 | Each single call, hand-over or delivery on either side keeps that invariant. |
| `StreamTheorems.NoMessageRefused` | src/stream/incoming.rs:6-16 | After every run the next message in flight to either side is accepted, unless the receiver's own backend allowance has just run out, and then the answer is exactly the timeout. |
| `StreamBlame.NeitherSideBreaksProtocol` | src/stream/machine.rs:417-459 | In no run does either side end with a protocol error, short of a side writing past the last 63-bit offset. |
| `StreamBytes.BytesConserved` | src/stream/machine.rs:51-112 | After every run and in every state of either side, live, closing, completed or failed: what was written is what the receiver has taken in, then what its failure threw away, then what is in flight, then what is unsent. Nothing is thrown away while the receiver has not failed, the unsent part is the send buffer while the sender has not failed, and a receiver that discards has read a prefix and counted the rest. Consumed, received, sent, peer limit and advertised limit form a chain that never exceeds the window. |
| `StreamBytes.WalkCarries` | src/stream/outgoing.rs:69-89 | A queue of messages that the invariant allows carries exactly the bytes between the receiver's offset and the sender's. |
| `StreamBytes.AlwaysTrails` | src/stream/outgoing.rs:69-89 | After every run, whatever either side has become, the bytes in flight are exactly the last that were sent, and none of them has been received. |
| `StreamTheorems.EndOfStreamIsComplete` | src/stream/machine.rs:84-112 | A read that reports the end of the stream does so only when the peer has ended writing and every byte it wrote has been read. |
| `StreamTheorems.FlushIsTruthful` | src/stream/machine.rs:114-142 | A completed flush of the initiator means the endpoint's application has read all written before it; one of the endpoint means the initiator has received all of it, whether or not it discards, and holds or has read it where it does not. |
| `StreamTheorems.CloseIsTruthful` | src/stream/incoming.rs:115-138 | A completed close tells the initiator the truth: the endpoint read every byte, all the endpoint wrote arrived, and "response discarded" is set if and only if some of it was never read. |
| `StreamProgress.RestsOnlyOnUnread` | src/stream/outgoing.rs:7-113 | In every run that comes to rest: a side without credit faces a completely full window of unread bytes; eligible bytes stay behind only for want of credit; and when a side has read all it holds, its peer's flush, end of writing and close have come through. |
| `StreamProgress.BlockedOnlyByUnread` | src/stream/outgoing.rs:34-43 | At rest, sendable bytes stay behind only for want of credit, in front of a receive window that is completely full. |
| `StreamProgress.ZeroCreditIsFull` | src/stream/outgoing.rs:34-43 | At rest, zero credit alone, with nothing to send or plenty, means that the receiver's window is completely full of unread bytes: no credit is lost on the way. |
| `StreamProgress.NoCreditIsLost` | src/stream/outgoing.rs:34-43 | The same over every run, in both directions, and any read there earns new credit that leaves at once. |
| `StreamProgress.RestIsSettled` | src/stream/outgoing.rs:55-112 | At rest with nothing unread, no flush is outstanding, a requested end has arrived, and a requested close has been heard. |
| `StreamProgress.ReadingEarnsCredit` | src/stream/machine.rs:84-112 | At rest without credit, any read by the receiver raises the grant beyond what the sender knows, and the new window leaves first, or right behind one flush acknowledgement. |
| `StreamProgress.CloseReady` | src/stream/machine.rs:154-173 | When a close has come to rest before an endpoint that has read all and ended, every precondition of its report holds. |
| `StreamProgress.ReportAccepted` | src/stream/machine.rs:232-267 | There the endpoint's report is accepted if and only if its peer's limits admit the message. |
| `StreamProgress.CloseGoesThrough` | src/stream/incoming.rs:115-138 | And the report, taken and delivered in time, is what the initiator's close ends with. |
| `StreamProgress.CloseCompletes` | src/stream/machine.rs:154-173 | Over every run: from there, report, hand-over and delivery complete the close on both sides with the reported facts. |
| `StreamSettles.ScheduleIsBounded` | src/stream/outgoing.rs:7-113 | Every hand-over and every delivery makes a pair lighter, so a schedule of them has no more steps than the pair weighs. |
| `StreamSettles.ComesToRest` | src/stream/outgoing.rs:7-113 | Every such schedule can be continued until no hand-over and no delivery is left. |
| `StreamSettles.ExhaustedIffUnproductive` | src/stream/outgoing.rs:7-15 | A pair has nothing left to hand over or deliver if and only if no step of either kind would do anything. |
| `StreamSettles.EveryScheduleSettles` | src/stream/outgoing.rs:7-113 | After every run, each schedule of hand-overs and deliveries is bounded, and where it runs out with both sides live, the pair is at rest. |
| `StreamArrives.EagerIsBounded` | src/stream/machine.rs:84-112 | With reads among the steps, too, every schedule of hand-overs, deliveries and reads that find bytes is bounded. |
| `StreamArrives.ComesThrough` | src/stream/outgoing.rs:7-113 | Every such schedule can be continued until nothing is left to hand over, to deliver or to read. |
| `StreamArrives.EverythingArrives` | src/stream/outgoing.rs:7-113 | Delivery from end to end: from any live pair that a run has reached, with neither side's time up and no failure to report, no such schedule fails either side; and when one has nothing left to do, the reader has read all that was sent, and all that was written unless it is held back for coalescing or discarded by a close; a requested end has been heard behind the last byte; and either both sides live with no flush outstanding and a requested close heard, or the close has completed on both. |
| `StreamDeliver.NeverRefused` | src/stream/incoming.rs:18-168 | In every state the invariant allows, a live receiver accepts the first message in flight, of whatever kind. |
| `StreamOwn.OwnReceive` | src/stream/incoming.rs:6-16 | One side's own bookkeeping survives any message at all, honest or not. |
| `StreamOwn.OwnLocal` | src/stream/machine.rs:51-173 | And any call of its own application. |
| `IoRuns.AllowancesAddUp` | src/stream/io_clock.rs:56-104 | Over every run of one side against arbitrary messages: time left and time spent add up to the interaction budget and to the network timeout since the last progress, and the armed deadline is exactly now plus what is left. |
| `IoRuns.NetworkIsAlwaysWatched` | src/stream/machine.rs:338-352 | In every run a live stream has never gone the configured I/O timeout in Network without progress nor past the configured interaction budget, and in Network its deadline is armed, ahead and within the timeout. |
| `IoRuns.AllowancesStay` | src/stream/io_clock.rs:4-21 | No run changes the timeout or the budget that the stream was configured with. |
| `StreamMachine.Machine.constructor` | src/stream/machine.rs:9-49 | The object starts in exactly the initial state of the specification. |
| `StreamMachine.Open` | src/stream/machine.rs:9-49 | A stream is opened if and only if its configuration is valid, in the initial state, and every other configuration is answered with the configuration error. |
| `StreamMachine.Machine.WriteBytes` | src/stream/machine.rs:51-82 | The object refines `Write`: the accepted count, the buffer and the eligibility clock, and every refusal. |
| `StreamMachine.Machine.ReadBytes` | src/stream/machine.rs:84-112 | Refines `Read` into a caller's array: exactly the oldest bytes are copied to its front, the rest of the array is as before, and the counters move with them. |
| `StreamMachine.Machine.BeginFlush` | src/stream/machine.rs:114-135 | Refines `StartFlush`: one ticket at a time, fixed at what has been written. |
| `StreamMachine.Machine.EndWriting` | src/stream/machine.rs:144-152 | Refines `RequestEnd`. |
| `StreamMachine.Machine.BeginClose` | src/stream/machine.rs:154-173 | Refines `StartClose`: unread input is discarded, its credit returned, and the deadline armed once. |
| `StreamMachine.Machine.FinishClose` | src/stream/machine.rs:232-267 | Refines `CompleteClose`, with every condition under which a report is refused. |
| `StreamMachine.Machine.EndWithFailure` | src/stream/machine.rs:210-230 | Refines `FailTerminal`: the notice replaces everything still queued, and the first terminal outcome wins. |
| `StreamMachine.Machine.FailWith` | src/stream/machine.rs:417-459 | Refines `Fail`: only the first error counts, buffers are dropped, and at most one notice is left to send. |
| `StreamMachine.Machine.CancelNow` | src/stream/machine.rs:285-287 | Refines `CancelStream`. |
| `StreamMachine.Machine.LoseCarrier` | src/stream/machine.rs:288-292 | Refines `Disconnect`: no notice survives a lost carrier. |
| `StreamMachine.Machine.ReportIo` | src/stream/machine.rs:296-315 | Refines `SetIoState`, with time accounted before the change. |
| `StreamMachine.Machine.ReportProgress` | src/stream/machine.rs:319-331 | Refines `RecordProgress`. |
| `StreamMachine.Machine.Tick` | src/stream/machine.rs:338-352 | Refines `Advance`: time never goes back, and a reached deadline ends the stream. |
| `StreamMachine.Machine.Deadline` | src/stream/machine.rs:354-365 | Computes the earliest of the batching, close and backend deadlines. |
| `StreamMachine.Machine.ExpireIfDue` | src/stream/machine.rs:367-373 | Fails with a timeout if and only if the backend deadline is reached. |
| `StreamMachine.Machine.ReceiveMessage` | src/stream/incoming.rs:6-16 | Refines `Receive`: expiry first, then the message, and a refused one ends the stream. |
| `StreamMachine.Machine.AcceptMessage` | src/stream/incoming.rs:18-28 | Accepts if and only if `Accept` does, with its state, and else changes nothing. |
| `StreamMachine.Machine.OnData` | src/stream/incoming.rs:29-54 | In-order, in-window, in-size data only, appended or discarded with credit; else refused unchanged. |
| `StreamMachine.Machine.OnWindow` | src/stream/incoming.rs:55-68 | A higher limit is taken if the peer's window could grant it and else refused; a lower one changes nothing. |
| `StreamMachine.Machine.OnFlush` | src/stream/incoming.rs:69-80 | A barrier only for exactly what has been received, one at a time, with a higher number than the last. |
| `StreamMachine.Machine.OnFlushed` | src/stream/incoming.rs:81-92 | Only the acknowledgement of the outstanding barrier. |
| `StreamMachine.Machine.OnEndWrite` | src/stream/incoming.rs:93-98 | The end only at exactly the received offset. |
| `StreamMachine.Machine.OnClose` | src/stream/incoming.rs:99-114 | A close only to an endpoint whose peer has ended at that offset; its clock starts once. |
| `StreamMachine.Machine.OnClosed` | src/stream/incoming.rs:115-138 | A report only to a closing initiator, ending it with that result or failure. |
| `StreamMachine.Machine.OnCancel` | src/stream/incoming.rs:139-149 | A cancellation ends the stream, as a timeout or as cancelled according to its reason, with nothing to send. |
| `StreamMachine.Machine.OnFailed` | src/stream/incoming.rs:150-166 | A failure always ends the stream and is kept whole. |
| `StreamMachine.Machine.TakeMessage` | src/stream/outgoing.rs:7-15 | Refines `NextMessage`: a last word first, then nothing from a dead stream. |
| `StreamMachine.Machine.TakeBody` | src/stream/outgoing.rs:16-113 | Picks the next body in the fixed order of precedence, and none exactly when nothing is due. |
| `StreamMachine.Machine.EmitFlushed` | src/stream/outgoing.rs:16-31 | Acknowledges the peer's barrier and forgets it. |
| `StreamMachine.Machine.EmitWindow` | src/stream/outgoing.rs:34-43 | Advertises the whole grant. |
| `StreamMachine.Machine.EmitClosed` | src/stream/outgoing.rs:44-54 | Hands over the report and completes the endpoint. |
| `StreamMachine.Machine.EmitFlush` | src/stream/outgoing.rs:55-68 | Sends the barrier once its bytes have left. |
| `StreamMachine.Machine.EmitData` | src/stream/outgoing.rs:69-89 | Sends the oldest bytes within payload and credit, and the rest stays in order. |
| `StreamMachine.Machine.EmitEnd` | src/stream/outgoing.rs:90-98 | Sends the final offset once. |
| `StreamMachine.Machine.EmitClose` | src/stream/outgoing.rs:99-112 | Sends the close once, after the end. |
| `IoClockMachine.IoClockCell.AccountAt` | src/stream/io_clock.rs:56-67 | Charges the elapsed time to the running allowance alone. |
| `IoClockMachine.IoClockCell.Enter` | src/stream/io_clock.rs:23-37 | Re-arms only on a change of state, with what is left. |
| `IoClockMachine.IoClockCell.Advanced` | src/stream/io_clock.rs:39-54 | Progress refills the network allowance, and is refused where the source refuses it. |
| `IoClockMachine.IoClockCell.Halt` | src/stream/io_clock.rs:69-72 | Stops with the spent time accounted. |
| `StreamAdmission.EnvelopeCost` | src/admission.rs:475-600 | The exact encoded size, node count, allocation, depth and length checks of every envelope, of any version, numbered or not, as a sum over its parts; and the raw scan takes it for a bootstrap message if and only if its stream is 0. |
| `StreamAdmission.ProbeDominatesData` | src/stream/mod.rs:117-132 | A configuration whose probe message is admitted admits every data message of the stream. |
| `StreamAdmission.ControlAdmitted` | src/admission.rs:411-434 | Usable limits admit every control message of a stream. |
| `Admission.VisitData` | src/admission.rs:411-418 | The typed visit of a data body, with its own payload bound, accepts and charges exactly what the scan's bound by position does. |
| `Admission.VisitBody` | src/admission.rs:475-600 | The same for a body of any kind. |
| `Admission.VisitSlots` | src/admission.rs:475-600 | The loop over the eighteen body fields, of which one is filled, charges exactly their sum. |
| `Admission.VisitEnvelope` | src/admission.rs:475-600 | The typed walk over a whole envelope accepts if and only if depth, lengths, nodes, bytes and allocation fit, and then has charged exactly its tree. |
| `CborCodec.RoundTrip` | src/cbor.rs:524-547 | Decoding the encoding of any float-free value within the depth gives the value back with its maps in key order. |
| `CborCodec.FlatInjective` | src/cbor.rs:456-499 | Distinct values have distinct bytes. |
| `CborCodec.ReencodesIffAscending` | src/cbor.rs:653-679 | Re-encoding an accepted float-free input gives the input back if and only if every map in it has ascending keys. |
| `CborCodec.KeyOrderIsNotChecked` | src/cbor.rs:653-679 | A five-byte input with descending keys is accepted and re-encodes differently. |
| `CborCodec.AscendingIsCanonical` | src/cbor.rs:485-495 | Canonical form changes nothing in a value whose maps are in key order. |
| `CborProofs.DecodesFlat` | src/cbor.rs:605-705 | At any offset of any input, the bytes of a value decode to exactly that value and the offset behind it. |
| `CborProofs.FlattensDecoded` | src/cbor.rs:605-705 | Whatever decodes without floats occupies exactly its own bytes, so no two inputs decode alike. |
| `CborMachine.EncodeInto` | src/cbor.rs:450-499 | The recursive writer appends exactly the canonical bytes. |
| `CborMachine.EncodeEntries` | src/cbor.rs:485-495 | The sorting loop over a map writes the entries in key order. |
| `CborMachine.WriteHead` | src/cbor.rs:324-341 | Writes the shortest head. |
| `CborMachine.DecodeAt` | src/cbor.rs:605-705 | The recursive reader answers as the specification does, value, offset and error. |
| `CborMachine.DecodeEntries` | src/cbor.rs:653-679 | The map loop, with its duplicate check. |
| `Budget.Budget.Charge` | src/budget.rs:31-57 | Adds to both counters and says whether both are still within their caps. |
| `Budget.Budget.Visit` | src/budget.rs:58-99 | The walk over any metadata value at any depth accepts if and only if depth, lengths, nodes, bytes and allocation all fit, and then has charged exactly the value's cost. |
| `Preflight.Scan.Item` | src/codec/preflight.rs:73-125 | On the bytes of any value the scan accepts if and only if the value fits, moving past exactly those bytes and charging exactly its cost; on any other input it stays in bounds. |
| `Preflight.Check` | src/codec/preflight.rs:14-35 | The scan of a whole input accepts the bytes of a value if and only if the value fits the limits. |
| `Admission.AllocationCharge` | src/admission.rs:8-12 | For every sound envelope, with the bootstrap caps chosen by stream 0: the typed walk accepts if and only if the envelope's tree fits, by the scan's own definition, and reports exactly its charge. |
| `Codec.DefaultsAreCeilings` | src/codec.rs:39-43 | Whatever fits negotiated limits fits the defaults. |
| `Codec.Admit` | src/codec.rs:39-43 | Checked limits, validation and the typed walk admit a sound envelope if and only if it is valid and its tree fits by the definition that the scan of bytes meets. |
| `Codec.EncodeLimited` | src/codec.rs:88-97 | Encoding any sound envelope succeeds if and only if it is admitted, with the canonical bytes: the scans of the result never refuse what the typed walk admitted. |
| `Codec.DecodeTree` | src/codec.rs:71-74 | The scan and the decoder: the bytes of a value decode to exactly that value if it fits the limits and are refused if it does not, and whatever comes out without floats fits and has exactly these bytes. |
| `Codec.DecodeLimited` | src/codec.rs:71-79 | Any input whatever: what comes out is valid and within the bootstrap size. The bytes of a tree give the message that the tree holds if it fits the limits and holds a valid one, and are refused otherwise. |
| `EnvelopeTrees.EnvelopeTreeSound` | src/admission.rs:475-600 | Every sound envelope has a canonical tree with a wire form. |
| `EnvelopeReader.MessageComesBack` | src/protocol.rs:2172-2351 | Reading the record from the tree of any sound envelope, and taking the one body that its kind names, gives the very envelope, for every reader of its carried parts that gives those back. |
| `EnvelopeReader.UnknownFieldsAreIgnored` | src/cbor.rs:250-263 | A field that the schema does not name changes nothing in the message that is read. |
| `EnvelopeReader.NumberMayBeMissing` | src/cbor.rs:265-278 | A message without a number field reads as one whose number is null. |
| `Codec.ThereAndBack` | src/codec.rs:71-97 | Encoding and decoding, with the decoder handed the bytes whether or not the encoder let them out: both accept exactly the admitted messages, and then the very message comes back. |
| `EnvelopeTrees.TreeIdentifies` | src/admission.rs:475-600 | Two sound envelopes whose optional parts are records, never null, and that have the same tree are the same message, in all that is sent; the verdicts of the textual checks on their parts are not. |
| `Codec.BytesIdentify` | src/codec.rs:71-97 | So are two such envelopes with the same bytes. |
| `SequencedRuns.AccountsBalance` | src/sequenced.rs:404-550 | Over every run, for any messages and any answers of the application: frame and charge counters are exactly the sums over what waits, the gap clock runs exactly when something waits, and all of it fits, if and only if no waiting frame has been refused; and no sequence number is ever resolved twice. |
| `SequencedRuns.SubmitKeepsAccountsIff` | src/sequenced.rs:339-372 | From exact accounts, a submitted message leaves them exact if and only if the application did not refuse a frame that had been waiting: a frame refused on arrival, a refused abort, a protocol error and a gap timeout all leave them exact. |
| `SequencedRuns.RetryKeepsAccountsIff` | src/sequenced.rs:376-402 | From exact accounts, a retry leaves them exact if and only if it is not answered with a refusal of the application. |
| `SequencedRuns.RefusalUnbalances` | src/sequenced.rs:552-590 | In any session three calls do it: register, a first message the application holds up, a retry it refuses. |
| `SequencedAnswers.DrainRefusesIff` | src/sequenced.rs:552-590 | Draining ends in a refusal if and only if, for some number of frames that wait in sequence and are none of them last, the application takes those and refuses the next, which waits and is not a last frame with others behind it. |
| `SequencedAnswers.SubmitUnbalancesIff` | src/sequenced.rs:339-372 | Told before the call: from exact accounts a submission unbalances them if and only if its frame is next, has room and is taken, and the answers behind it refuse a frame that waits. |
| `SequencedAnswers.RetryUnbalancesIff` | src/sequenced.rs:376-402 | Told before the call: from exact accounts a retry unbalances them if and only if the binding lives, no gap has run out, and the answers refuse a frame that waits. |
| `SequencedRetained.RetainedIsKept` | src/sequenced.rs:592-614 | Over every run, failed bindings included, where a message costs what it says: the retained charge is exactly the sum over all kept openings and last frames, without the last frames that are also the first. |
| `SequencedRetained.AllKeptIsChargedIff` | src/sequenced.rs:599-612 | So everything that is kept is charged if and only if no stream has ended with its first frame. |
| `SequencedRetained.FinalFirstGoesFree` | src/sequenced.rs:599-612 | In any session two calls show the gap: a stream is registered and its first frame, a final one, is taken; it is kept and nothing is charged. |
| `SequencedAccounts.RefusedStaysCharged` | src/sequenced.rs:552-590 | A waiting frame that the application refuses is off the list and still in the counters, which are too high by exactly that frame. |
| `SequencedSystem.AppliedInOrder` | src/sequenced.rs:339-372 | Over a channel that delays, drops, repeats and reorders: what the application is handed is what was numbered, each once and in order, and then at most one abort that jumps to the end. |
| `SequencedSystem.NoHonestFrameRefused` | src/sequenced.rs:404-550 | No frame an honest sender let go is ever answered with a protocol error or with exhausted numbers, however late, early or often it arrives. |
| `SequencedSystem.AcceptedIsApplied` | src/sequenced.rs:376-402 | Once every frame has been accepted, one retry that the application does not hold up leaves it with the whole stream, in order, or with a stream that ended early in the sender's last frame, an abort. |
| `SequencedSystem.AlwaysSound` | src/sequenced.rs:157-220 | The sender's log and the receiver's state agree after every run of both ends and the channel. |
| `SequencedMachine.OutboundQueue.Push` | src/sequenced.rs:157-220 | Refines `Enqueue`: numbers only what is accepted, and nothing after a final frame. |
| `SequencedMachine.OutboundQueue.PopFirst` | src/sequenced.rs:222-227 | Refines `Pop`: first in, first out, with its charge returned. |
| `SequencedMachine.Assembler.RegisterStream` | src/sequenced.rs:288-318 | Refines `Register`. |
| `SequencedMachine.Assembler.TickAt` | src/sequenced.rs:324-337 | Refines `Tick`: a gap past its deadline fails the binding. |
| `SequencedMachine.Assembler.SubmitMessage` | src/sequenced.rs:339-372 | Refines `Submit` with the receiver's invariant kept; a number that is not positive, or is the last one, is refused as invalid before any stream is touched. |
| `SequencedMachine.Assembler.Place` | src/sequenced.rs:404-550 | Refines the decision between old, duplicate, early, next and aborting frames. |
| `SequencedMachine.Assembler.JumpTo` | src/sequenced.rs:404-550 | An abort supersedes everything that waits, in order, and returns its charge. |
| `SequencedMachine.Assembler.DrainPending` | src/sequenced.rs:552-590 | The loop hands over the longest run of waiting frames that the application takes, and stops where the specification does. |
| `SequencedMachine.Assembler.Mark` | src/sequenced.rs:592-614 | Refines `MarkApplied`. |
| `SequencedMachine.Assembler.File` | src/sequenced.rs:616-665 | Keeps an early frame if and only if it fits, and arms the gap clock. |
| `SequencedMachine.Assembler.RetryStream` | src/sequenced.rs:376-402 | Refines `Retry` with the receiver's invariant kept. |
| `SequencedMachine.WaitingCharge` | src/sequenced.rs:667-670 | The loop over the waiting frames adds up their charges exactly. |
| `SequencedMachine.LeastKey` | src/sequenced.rs:404-550 | The first key of the ordered map: present and no larger than any. |
| `SequencedMachine.SupersedeAll` | src/sequenced.rs:404-550 | Every waiting frame is superseded once, in ascending order. |
| `SetupClockRuns.SurvivesIffAhead` | src/pool/setup_clock/state.rs:122-153 | A clock that settles survives if and only if its deadline is still ahead of the reading. |
| `SetupClockRuns.ObservationsAreInvisible` | src/pool/setup_clock.rs:209-211 | In every run, leaving out all observations changes no later state and no later answer, where a reading that goes back counts as the latest one; for readings that do not go back this is the run as it stands (`ForwardObservations`). |
| `SetupClockRuns.ForwardObservations` | src/pool/setup_clock.rs:183-194 | In every run whose readings do not go back, leaving out all observations and nothing else changes no later state and no later answer. |
| `SetupClockRuns.ClampedRuns` | src/pool/setup_clock.rs:183-194 | Every run is the run with each reading raised to the latest one so far: the clock never goes back. |
| `SetupClockRuns.BackwardReadingsShow` | src/pool/setup_clock.rs:183-194 | With readings that go back, an observation alone can end a clock that the later reading would have spared. |
| `SetupClockRuns.SettleTwice` | src/pool/setup_clock/state.rs:122-153 | Settling on the way changes what a later settling finds if and only if it read a time later than both the clock and that settling. |
| `SetupClockRuns.ObservationShowsIffAhead` | src/pool/setup_clock.rs:183-211 | Leaving out one observation changes the state or the answer of the next call if and only if it read a time later than both the clock and that call. |
| `SetupClockRuns.FirstTerminalStays` | src/pool/setup_clock/state.rs:154-169 | Once a run has ended the clock, no continuation changes the cause. |
| `SetupClockRuns.LocalTimeIsGivenBack` | src/pool/setup_clock/transitions.rs:29-76 | In every run the aggregate deadline of a live clock is the original one moved by exactly the time spent in local phases. |
| `SetupClockRuns.PauseNeverUnderflows` | src/pool/setup_clock/state.rs:17-21 | Wherever timers are paused they are still ahead, so the unsigned subtraction cannot wrap. |
| `SetupClockRuns.PhasesStrictlyIncrease` | src/pool/setup_clock/state.rs:88-94 | In every run issued phase ids strictly increase, and so do published ones. |
| `SetupClockMachine.Authority.FinishWith` | src/pool/setup_clock/state.rs:154-169 | Ends the clock once and for all. |
| `SetupClockMachine.Authority.FindCause` | src/pool/setup_clock/state.rs:122-153 | The cause whose deadline came first, with the source's tie-breaks. |
| `SetupClockMachine.Authority.Begin` | src/pool/setup_clock.rs:183-194 | Every change settles first. |
| `SetupClockMachine.Authority.LookAt` | src/pool/setup_clock.rs:209-211 | Refines `Observe`: a look changes nothing but what time changes. |
| `SetupClockMachine.Authority.Prepare` | src/pool/setup_clock/transitions.rs:4-28 | Refines `PrepareLocal`. |
| `SetupClockMachine.Authority.PauseTimers` | src/pool/setup_clock/state.rs:17-21 | Both timers keep exactly what they had left. |
| `SetupClockMachine.Authority.ResumeTimers` | src/pool/setup_clock/state.rs:22-29 | Both timers get back exactly what they had left, or neither does where that would overflow. |
| `SetupClockMachine.Authority.PublishPrepared` | src/pool/setup_clock/transitions.rs:29-76 | Refines `PublishLocal`. |
| `SetupClockMachine.Authority.Discard` | src/pool/setup_clock.rs:145-159 | Dropping a prepared phase frees the slot only if it still holds that phase. |
| `SetupClockMachine.Authority.Publish` | src/pool/setup_clock/transitions.rs:77-101 | Refines `PublishNetwork`. |
| `SetupClockMachine.Authority.WaitOnNetwork` | src/pool/setup_clock/transitions.rs:102-117 | Refines `BeginNetworkWait`. |
| `SetupClockMachine.Authority.Progressed` | src/pool/setup_clock/transitions.rs:118-133 | Refines `NetworkProgress`. |
| `SetupClockMachine.Authority.WaitLocally` | src/pool/setup_clock/transitions.rs:137-156 | Refines `BeginLocalWait`. |
| `SetupClockMachine.Authority.StopWaiting` | src/pool/setup_clock/transitions.rs:158-174 | Refines `EndLocalWait`. |
| `SetupClockMachine.Authority.Confirm` | src/pool/setup_clock.rs:251-266 | Refines `Acknowledge`. |
| `SetupClockMachine.Authority.End` | src/pool/setup_clock.rs:212-217 | Refines `Terminate`: the first cause is the one reported. |
| `SetupClockMachine.Authority.Complete` | src/pool/setup_clock.rs:296-305 | Refines `AdmitCompleted`. |
| `PoolTheorems.AlwaysLinked` | src/pool/lifecycle.rs:63-108 | After every run of calls: an entry that serves a request serves one that counts on exactly that entry; a request without service counts on one that is closing or gone; ids are within their serials; no slot is both used and held. |
| `PoolTheorems.SafeRunsMatch` | src/pool/lifecycle.rs:63-108 | While no credential is retired under a request that its scope serves: a request is opening, or ready, if and only if its entry is connecting for it, or leased to it and unclaimed. |
| `PoolTheorems.RetireOrphansIffServing` | src/pool/lifecycle.rs:30-43 | Retiring a scope takes a request's connection from it if and only if something in the scope is connecting for, or ready for, a request. |
| `PoolTheorems.RetiringCanOrphan` | src/pool/lifecycle.rs:30-43 | Two calls do it in any pool: a first request in a scope, and retiring that scope. |
| `PoolTheorems.OrphansOutliveConnections` | src/pool/lifecycle.rs:213-225 | A served request's connection cannot be acknowledged as closed; an orphan's can, and the request still refers to it afterwards. |
| `PoolWitness.RetiringCanStrand` | src/pool/lifecycle.rs:30-43 | A run of four calls after which a request is still opening a connection that is no longer in the table. |
| `PoolTheorems.CeilingsHold` | src/pool/allocation.rs:139-193 | After every run whose requests carry no limits above the pool's: entries stay within the total, and entries with held slots within every host's and every user's ceiling. |
| `PoolTheorems.SessionsStayWithinLimits` | src/pool/machine.rs:186-194 | After every run, a session whose requests all carry the same limits holds no more than those in all, on any host or as any user. |
| `PoolTheorems.LeaseNeverLivesTwice` | src/pool/machine.rs:346-352 | A lease that was issued and is not live is not live after any continuation. |
| `PoolTheorems.ConnectionNeverReturns` | src/pool/allocation.rs:158-165 | A connection id that has left the table never comes back. |
| `PoolTheorems.EveryConnectIsAccountedFor` | src/pool/lifecycle.rs:293-373 | After every run each connect the host was given is still in the table or was acknowledged as disposed. |
| `PoolTheorems.ShutdownDisposesAll` | src/pool/machine.rs:320-322 | A completed shutdown means every connect ever given out was acknowledged as disposed. |
| `PoolQuiet.ScheduleLeavesNothing` | src/pool/allocation.rs:4-113 | Work conservation: after a pass no waiting request could lease an idle connection, open one, or evict one. |
| `PoolQuiet.ScheduleIsIdempotent` | src/pool/allocation.rs:4-113 | A second pass changes nothing. |
| `PoolQuiet.QuietIffScheduled` | src/pool/allocation.rs:4-113 | A pass changes nothing if and only if nobody could do anything. |
| `PoolQuiet.EvictionsAreJustified` | src/pool/allocation.rs:64-113 | Every idle connection that a pass closes is the victim of a waiting request without room, and counts against every ceiling on which that request has none. |
| `PoolFair.FirstComeFirstServed` | src/pool/allocation.rs:8-62 | First come, first served, within a session too: if a pass gives an idle connection to a request and leaves an earlier one waiting or makes it open a new one, then at the earlier one's own turn the connection was idle, the later one still waited, and the earlier one could not have it: it wanted a fresh one, its owner was already full, it waited for a preferred one, or this one does not suit it. |
| `PoolFair.OpenedInOrder` | src/pool/allocation.rs:63-66 | If a pass opens a connection for a request and leaves an earlier one waiting, then at the earlier one's own turn it could not open one, and the later one still waited. |
| `PoolRest.AlwaysAtRest` | src/pool/allocation.rs:4-113 | After every call of every run, scheduling or not, nobody waiting could lease, open or evict; the one exception is `scope_https`, under the exact condition below. Past a `retire` of a scope that serves a request, this speaks of the functions on values: there the source may stop at a missing entry. |
| `PoolRest.ScopingRestsIffConsiderate` | src/pool/lifecycle.rs:7-28 | Scoping a connection leaves nothing to schedule if and only if every request that waits for that connection to come back has no other chance either. |
| `PoolWitness.ScopingCanLeaveWork` | src/pool/lifecycle.rs:7-28 | A run of six calls after which a waiting request could open a connection and nothing has scheduled it. |
| `PoolRest.DeadlinesMissNothing` | src/pool/clock.rs:117-167 | After every such run, advancing to any time before the reported next deadline changes nothing but the time. Past a `retire` of a scope that serves a request, this speaks of the functions on values: there the source's advance and next deadline may stop at a missing entry (src/pool/clock.rs:22 and :131). |
| `PoolTime.NothingHappensBeforeTheDeadline` | src/pool/clock.rs:6-100 | The same from any linked pool at rest. |
| `PoolSchedule.FirstLeasable` | src/pool/allocation.rs:4-40 | The leasable connection with the least id, if there is any. |
| `PoolSchedule.Victim` | src/pool/allocation.rs:83-104 | The evictable connection that has been idle longest, the oldest of equals, if there is any. |
| `PoolOps.LapsedTo` | src/pool/limit.rs:206-233 | Exactly the held slots whose time is up, in the order in which they lapsed and, of equals, by id. |
| `PoolOps.SetThenFind` | src/pool/limit.rs:38-42 | A number that was set is what its site is held to, and every other site is as before. |
| `PoolOps.ClearThenFind` | src/pool/limit.rs:38-42 | A cleared site has no number, even where it had several, and every other site is as before. |
| `PoolMachine.PutNumber` | src/pool/limit.rs:19-26 | The search replaces the site's number in place, or adds it at the end. |
| `PoolMachine.DropNumber` | src/pool/limit.rs:32-36 | The filter keeps all other numbers in order. |
| `PoolMachine.Position` | src/pool/limit.rs:87-88 | The search finds the first place of the site, or none. |
| `PoolMachine.OpenPool` | src/pool/machine.rs:136-160 | A pool is opened if and only if its configuration is valid, empty, and every other configuration is answered with the configuration error. |
| `PoolMachine.Machine.constructor` | src/pool/machine.rs:136-160 | An empty, valid pool. |
| `PoolMachine.Machine.FindIdle` | src/pool/allocation.rs:14-40 | The preferred connection when idle and fitting, else the first that is. |
| `PoolMachine.Machine.Open` | src/pool/allocation.rs:139-193 | Refines `OpenFor`. |
| `PoolMachine.Machine.FindVictim` | src/pool/allocation.rs:83-104 | The loop finds the victim of the specification. |
| `PoolMachine.Machine.EvictOne` | src/pool/allocation.rs:64-113 | Refines `EvictFor`. |
| `PoolMachine.Machine.ScheduleAll` | src/pool/allocation.rs:4-113 | The three loops refine `Schedule`. |
| `PoolMachine.Machine.BeginClosing` | src/pool/lifecycle.rs:44-62 | Refines `StartClosing`; its lookup is of an entry that is there. |
| `PoolMachine.Machine.Fail` | src/pool/lifecycle.rs:63-108 | Refines `FailRequest` and keeps the pool valid: both lookups of the request's connection succeed. |
| `PoolMachine.Machine.RequestLease` | src/pool/machine.rs:209-275 | Refines `RequestUntil` with every refusal, and keeps the pool valid. |
| `PoolMachine.Machine.TakeReady` | src/pool/machine.rs:276-298 | Refines `Take`: a result is handed over once. |
| `PoolMachine.Machine.CancelRequest` | src/pool/lifecycle.rs:109-113 | Refines `Cancel`, validity kept. |
| `PoolMachine.Machine.AbandonRequest` | src/pool/lifecycle.rs:116-121 | Refines `Abandon`, validity kept. |
| `PoolMachine.Machine.CancelOwners` | src/pool/lifecycle.rs:131-153 | Refines `CancelMatching`, validity kept. |
| `PoolMachine.Machine.Release` | src/pool/lifecycle.rs:172-210 | Refines `ReleaseAt`: idle only when proven, asked for, young and running. |
| `PoolMachine.Machine.Discard` | src/pool/limit.rs:176-203 | Refines `Dispose`: the slot is freed or held. |
| `PoolMachine.Machine.ConfirmClosed` | src/pool/lifecycle.rs:213-225 | Refines `Closed`, validity kept. |
| `PoolMachine.Machine.LoseIdle` | src/pool/lifecycle.rs:231-240 | Refines `IdleClosed`, validity kept. |
| `PoolMachine.Machine.CloseIdle` | src/pool/lifecycle.rs:245-256 | Refines `ExpireIdle` and counts what it closed; validity kept. |
| `PoolMachine.Machine.Retire` | src/pool/lifecycle.rs:30-43 | Refines `RetireScope`; the pool is valid afterwards if and only if nothing in the scope served a request. |
| `PoolMachine.Machine.StopWith` | src/pool/lifecycle.rs:271-289 | Refines `Stop`: all requests fail, all idle and leased connections close. |
| `PoolMachine.Machine.ShutDownNow` | src/pool/lifecycle.rs:264-266 | Refines `ShutDown`, validity kept. |
| `PoolMachine.Machine.DriverGone` | src/pool/lifecycle.rs:267-270 | Refines `LoseDriver`, validity kept. |
| `PoolMachine.Machine.ReleaseUntouched` | src/pool/lifecycle.rs:163-169 | Refines `ReleaseUnused`: the connection is idle again since when it was idle before. |
| `PoolMachine.Machine.ScopeLease` | src/pool/lifecycle.rs:7-28 | Refines `ScopeHttps`: a scope is gained once and never changed; validity kept. |
| `PoolMachine.Machine.LimitSite` | src/pool/limit.rs:14-30 | Refines `SetLimit` with every refusal, validity kept. |
| `PoolMachine.Machine.ClearSite` | src/pool/limit.rs:32-36 | Refines `ClearLimit`, validity kept. |
| `PoolMachine.Machine.SettleSite` | src/pool/limit.rs:49-63 | Refines `SetSettle`, validity kept. |
| `PoolMachine.Machine.SpareSite` | src/pool/limit.rs:82-98 | Refines `SetNoEvict`: scheduled only on a change; validity kept. |
| `PoolMachine.Machine.DiscardIdleOn` | src/pool/limit.rs:107-120 | Refines `DiscardIdle` and counts what it closed; validity kept. |
| `PoolMachine.Machine.FinishConnect` | src/pool/allocation.rs:198-353 | Refines `Finish`: refused, cancelled, mismatched and granted connects. |
| `PoolMachine.Machine.ConnectDone` | src/pool/allocation.rs:198-353 | Refines `ConnectEnds`, validity kept. |
| `PoolMachine.Machine.TakeAction` | src/pool/lifecycle.rs:293-373 | Refines `NextAction`: cleanup before new connects, each told once. |
| `PoolMachine.Machine.FailOverdue` | src/pool/clock.rs:6-100 | The first loop of the advance fails exactly the requests that were overdue. |
| `PoolMachine.Machine.EndHolds` | src/pool/limit.rs:206-233 | Refines `LapseHolds`. |
| `PoolMachine.Machine.AdvanceTo` | src/pool/clock.rs:6-100 | Refines `Advance`, validity kept. |
| `PoolMachine.Machine.Deadline` | src/pool/clock.rs:117-167 | The three loops compute the earliest deadline. |
| `PoolMachine.Machine.StartInteraction` | src/pool/clock.rs:170-203 | Refines `BeginInteraction`, validity kept. |
| `PoolMachine.Machine.FinishInteraction` | src/pool/clock.rs:204-239 | Refines `EndInteraction`, validity kept. |
| `PoolMachine.Machine.StartLocalWait` | src/pool/clock.rs:243-293 | Refines `BeginLocalWait`, validity kept. |
| `PoolMachine.Machine.FinishLocalWait` | src/pool/clock.rs:295-330 | Refines `EndLocalWait`, validity kept. |

## Left out

* Floats: the decoder accepts them as the source does, but their shortest encoding is not modelled, so round trips are
  stated for float-free values; no message of this protocol holds one.
* The asynchronous adapters, wakers, mutexes, revision counters, peak and count statistics, and the host bindings.
* The multiplexer, route binding, policy and configuration files.
* The textual checks on keys, owners, facts and failure details: one flag on each value stands for them. The readers of
  connection facts, failure details and the bodies that no established stream exchanges are a parameter of the decoder.
* Which error a refused message is answered with, beyond malformed, invalid, out of bounds and too large.
* The sizes of the source's in-memory records are open constants: a decoded value has 1 to 512 bytes, a stream record of
  the sequenced layer is charged 256 to 4096 and a frame's overhead 128 to 4096. The results hold for any in these ranges.
* The pool's shared setup clock inside a connecting entry: the two are modelled apart, and pool connects use the pool's
  own clocks. Pool ids and request tags are left out, so ids are serials.
* Waiting for acknowledgements of the setup clock and its notification list.
* Looking up a connection that is gone, where the source stops the program: the functions on values leave the pool as
  it is, `PoolTheorems.SafeRunsMatch` says when it cannot happen, and `PoolMachine.Machine` requires that it cannot.
* The charge of a message in the sequenced layer is an input, and so are the application's answers; the probe in its
  limit check is left out.
* The stream object groups the source's fields into four records and a clock.
- StreamRuns.Reachable: both sides are configured alike, as their negotiation makes them (same session, stream, version and
  payload size, mirrored windows and limits); messages between differently configured sides are covered only by the
  one-sided results.
- IoRuns.AllowancesAddUp: stated while the host's clock is far enough from its last 64-bit value that no deadline saturates.
- PoolTheorems.CeilingsHold: a request that carries larger limits than the pool's own raises the ceilings for itself, as the
  source intends, so the pool's own are stated for runs without such requests.
