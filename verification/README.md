# go-fabric in Dafny

A model of the stateful core of go-fabric, a Matter stack, with proofs of what that core promises.

- **Bulk Data Exchange (BDX).** The message codec, both transfer flows as step machines and as objects, the pair of them joined by a FIFO exchange, and the Init/Accept negotiation. `BdxPair.Integrity`, `BdxFaithful.DefiniteOutcome`, `BdxOutboundLaws.SkipLaw`, `BdxInbound.AccountsThroughout` and `BdxNegotiation.SendAgreement` are the main results; `BdxReplies` says in terms of the messages alone what each flow answers and with which code it refuses.
- **Chunked replies.** Splitting a report or an invoke response over messages, against a reader that replays the chunks. `ReportChunker.ChunkReportData` says the reader learns exactly what the unsplit report says, path by path; `ReportMeaning.ReaderHasList` says which lists arrive whole by the sizes of plain messages.
- **The reliable tracker.** Retransmission, acknowledgement and waiter channels as interleaved critical sections; no waiter is forgotten (`TrackerWaiters.NoChannelForgotten`).
- **The binding manager.** A FIFO worker and its callers as interleaved critical sections; emissions are proved to alternate and to balance after Close, no wake or key change is lost (`BindingWakes`), and what is established was admitted as such (`BindingOutcomes.EmittedAsAdmitted`).
- **Connection routes, timed interactions and TLV walkers.** A count against a recount with what unlocked stores and deletions lose, a lazy sweep against the messages alone, and loops over an element stream against element trees.

Imperative code keeps its form. Objects with tables are classes whose methods reassign fields of type `map` and `seq`, loops are loops, and each such method is proved against a function of the old state (`State()`, `Now()`, `Ahead()`). Concurrency is modelled by step machines: every critical section is one step, taken apart where an unlocked access can fall into it, runs are arbitrary sequences of enabled steps, and the theorems quantify over all runs. Clocks, back-off delays, topology and peer answers, encoder sizes and I/O faults are inputs of the steps.

Five promises turned out to need a condition, which is stated exactly:

- A declared length that ends inside the stream is met only on a block boundary (`BdxPlan.DefiniteLaw`).
- A served length reaches the peer unchanged iff it is below 2^32, because the accept is written with a narrow length field (`BdxNegotiation.ServedLengthAgrees`). At 2^32 or more the transfer completes iff the length is a multiple of 2^32, which the peer reads as no length; otherwise it commits in no run (`BdxNegotiation.ServedTransferCompletes`, `BdxNegotiation.ServedTransferNeverCommits`, with an instance in `BdxNegotiation.LengthLost`).
- Unregister forgets an entry iff it is not both dormant and established; a group entry can be both (`BindingTheorems.UnregisterForgets`, `BindingTheorems.UnregisterCanLeaveEstablished`).
- The expiry sweep reads an entry and deletes its key in two steps, so a request with the Timed flag proceeds iff the last event on its key is a TimedRequest whose deadline has not passed and no sweep deleted the key since that event (`TimedTable.TimedAdmittedIff`). `TimedTable.SweepCanSteal` is a run in which a sweep does; where no TimedRequest falls between a visit and its deletion the sweep is invisible (`TimedTable.SweepInvisible`).
- The count on a connection's route stands for a recount of its sessions. The store of an initiated session and the deletions of an eviction do not take the lock, and each that hits an id bound to the route leaves the count one too high, unless a bind of that id that had already loaded the entry takes it off the count. So the count is the recount and the entries lost, and is the recount iff none is (`ConnRoutes.CountIsRecount`); the last leaving closes the connection iff none is and no handshake is in flight (`ConnRoutes.LastSessionCloses`). `ConnRoutes.StoreLoses` and `ConnRoutes.EvictionLoses` are reachable states with one lost.

Where the code and its comments disagree the code is followed: a Write or Invoke with the Timed flag and no TimedRequest before it is answered TIMED_REQUEST_MISMATCH, while the comment above `checkTimedGate` names NEEDS_TIMED_INTERACTION.

`dafny verify dfyconfig.toml` checks the whole project.

## Model

| member | source | states |
|---|---|---|
| `BdxMessages.ControlOctets` | bdx/messages.go:105-160 | the transfer and range control octets decode to what was encoded |
| `BdxMessages.ControlBits` | bdx/messages.go:105-160 | each control bit lies at its place in its octet |
| `BdxMessages.FixtureBytes` | bdx/testdata/bdx-wire-fixtures.json:33-62 | an Init with offset and length is encoded to the fixture's bytes |
| `BdxMessages.InitRoundTrip` | bdx/messages.go:200-252 | every valid Init decodes from its encoding to itself, range fields reduced to their wire width and a zero length absent |
| `BdxMessages.InitRoundTripExact` | bdx/messages.go:163-252 | the round trip is exact iff the range is wide or every range field is below 2^32 |
| `BdxMessages.InitPrefixRefused` | bdx/messages.go:224-252 | every strict prefix of an encoded Init that ends before its metadata is refused as truncated |
| `BdxMessages.InvalidInitRefused` | bdx/messages.go:178-197 | an encoded Init is refused exactly for its version, no driver, no designator or no block size, with the code of that |
| `BdxMessages.InvalidAcceptRefused` | bdx/messages.go:261-274 | an accept is refused for its version, no mode or no block size, with the code of that |
| `BdxMessages.SendAcceptRoundTrip` | bdx/messages.go:255-301 | SendAccept round trip, and its short prefixes are refused |
| `BdxMessages.ReceiveAcceptRoundTrip` | bdx/messages.go:304-353 | ReceiveAccept round trip with the length modulo its field, and its short prefixes are refused |
| `BdxMessages.BlockRoundTrip` | bdx/messages.go:356-377 | Block round trip, and a payload shorter than the counter is refused |
| `BdxMessages.CounterRoundTrip` | bdx/messages.go:380-396 | counter-only messages round trip |
| `BdxMessages.SkipRoundTrip` | bdx/messages.go:399-418 | BlockQueryWithSkip round trip |
| `BdxMessages.InitDecodeStable` | bdx/messages.go:200-252 | re-encoding a decoded Init and decoding again changes nothing |
| `BdxReader.Reader.Take` | bdx/messages.go:447-463 | the cursor hands out exactly the next bytes, or records the short read and stays |
| `BdxReader.DecodeInit` | bdx/messages.go:224-252 | the sticky cursor computes the positional parse, errors included |
| `BdxReader.DecodeSendAccept` | bdx/messages.go:288-301 | likewise for SendAccept |
| `BdxReader.DecodeReceiveAccept` | bdx/messages.go:331-353 | likewise for ReceiveAccept |
| `BdxReader.DecodeBlock` | bdx/messages.go:368-377 | likewise for Block |
| `BdxReader.DecodeSkip` | bdx/messages.go:411-418 | likewise for BlockQueryWithSkip |
| `BdxExchange.Exchange.Next` | bdx/messenger.go:88-116 | skips foreign messages, returns the next expected one, or the failure of a status report, an unexpected type, a parse error or the end of the script |
| `BdxExchange.BlockDelivered` | bdx/messenger.go:206-254 | a sent block is received with its counter and data |
| `BdxExchange.StatusDelivered` | bdx/messenger.go:128-146 | a sent BDX error arrives as the peer's status with its code |
| `BdxOutboundFlow.OutboundFlow.ReadDataChunk` | bdx/outbound.go:90-119 | one read of the stream against the block size and the bytes left, a stream that errs behind its data included |
| `BdxOutboundFlow.OutboundFlow.DrivenNext` | bdx/outbound.go:125-150 | one driven block and its acknowledgement, sent or not, are steps of the outbound machine |
| `BdxOutboundFlow.OutboundFlow.ReadBlockQuery` | bdx/messenger.go:256-280 | the next query, with an acknowledgement before it, as the outbound machine takes them |
| `BdxReplies.AckThenQuery` | bdx/messenger.go:256-280 | a BlockAck changes nothing for the query that follows it by one, across the wrap at 2^32 |
| `BdxReplies.AckThenOther` | bdx/messenger.go:256-280 | any other query after it ends the flow with BAD_BLOCK_COUNTER |
| `BdxReplies.QueryRefused` | bdx/outbound.go:154-176 | a query for another block than the next, or over the largest skip, ends the flow with its code |
| `BdxReplies.QueryAnswered` | bdx/outbound.go:154-203 | the query for the next block is answered with the bytes behind the skip, a full block or what is left, the last one when the stream ends in it or the length is met |
| `BdxReplies.AckLaw` | bdx/outbound.go:125-150 | at every point of every transfer exactly the acknowledgement with the number of the block just sent is taken |
| `BdxReplies.ForeignIgnored` | bdx/messenger.go:88-116 | a message of another protocol changes no run of either flow |
| `BdxReplies.MessagesEnd` | bdx/outbound.go:240-281 | when the messages end the flow fails, but for a disabled scope behind the last block, which ends it |
| `BdxReplies.BrokenNeverEnds` | bdx/outbound.go:90-119 | over a stream that breaks off no last block is ever sent without a length |
| `BdxReplies.SenderTells` | bdx/outbound.go:268-281 | after every message an outbound flow has told its peer exactly its BDX failure, if any |
| `BdxReplies.SenderWithin` | bdx/outbound.go:90-203 | it never goes on as if a message had gone out that the exchange did not take |
| `BdxOutboundFlow.OutboundFlow.ServeQuery` | bdx/outbound.go:154-203 | a query's limit and counter checks, its skip and its block, in this order, with the stream and send errors of each |
| `BdxOutboundFlow.OutboundFlow.RunTransfer` | bdx/outbound.go:220-281 | the whole flow ends in the state the outbound machine reaches on the same messages and faults: finished, finished with the scope disabled, or stopped and told to the peer as far as it can be |
| `BdxInboundFlow.InboundFlow.StoreBlock` | bdx/session.go:252-308 | one block is counted, written and acknowledged, or the failed write or send ends the flow |
| `BdxInboundFlow.InboundFlow.Process` | bdx/session.go:206-235 | the blocks, then the commit, then the BlockAckEof, each with its failure |
| `BdxInboundFlow.InboundFlow.DrivingNext` | bdx/session.go:252-267 | a query and the block it asks for are steps of the inbound machine |
| `BdxInboundFlow.InboundFlow.FollowingNext` | bdx/session.go:271-286 | a block and its acknowledgement are steps of the inbound machine |
| `BdxInboundFlow.InboundFlow.RunTransfer` | bdx/session.go:129-235 | the whole flow ends in the state the inbound machine reaches on the same messages and faults; the sink is discarded on any failure before the commit |
| `BdxInbound.AccountsThroughout` | bdx/session.go:195-308 | after every message of any peer and any I/O fault: while the flow runs, bytes counted are bytes written and the block data read, bytes left is the length minus them and accepted counters are 0, 1, 2, ... modulo 2^32; a stopped flow wrote all it read but for the block it stopped at; a length is committed only when met exactly |
| `BdxInbound.RunIsAfter` | bdx/session.go:206-235 | a whole run is the flow after its messages, ended, so the accounts cover every run |
| `BdxReplies.ReceiverTells` | bdx/session.go:129-142 | after every message an inbound flow has told its peer exactly its BDX failure, if any |
| `BdxReplies.BlockOutcome` | bdx/session.go:252-308 | a Block is taken, written and acknowledged iff it has data and the number after those read; else the flow ends with the code of that |
| `BdxReplies.EofOutcome` | bdx/session.go:206-308 | a BlockEof in turn commits iff the length is met or there is none; else it is too short or too large |
| `BdxReplies.FaultsEnd` | bdx/session.go:206-308 | a query, write, commit or acknowledgement that fails ends the flow, committed only if the commit came first |
| `BdxReplies.ReceiverWithin` | bdx/session.go:206-308 | every run keeps to the sends and writes that work and commits nothing where the commit fails |
| `BdxOutboundLaws.ReceiveSound` | bdx/outbound.go:90-281 | every message, well formed or not, keeps the data sent equal to the stream without the skipped ranges, the length held, nothing behind the last block and every block within its size |
| `BdxOutboundLaws.SoundThroughout` | bdx/outbound.go:90-281 | the same after every message of any peer, from the start |
| `BdxOutboundLaws.RunIsAfter` | bdx/outbound.go:220-266 | a whole run is the flow after its messages, ended, so the laws cover every run |
| `BdxOutboundLaws.SkipLaw` | bdx/outbound.go:154-203 | after every message of any peer: the data sent is the stream up to the position with exactly the skipped ranges removed, `transferred` is bytes sent plus bytes skipped, and the ranges are those the queries asked for in order, each from the bytes sent and skipped before its query; only the message that ended the flow may lack its own |
| `BdxPlan.IndefiniteLaw` | bdx/outbound.go:90-119 | without a length the reads yield the whole stream in floor(L/b)+1 blocks |
| `BdxPlan.DefiniteLaw` | bdx/outbound.go:90-119 | a length is met iff the stream has it, or is longer and the length is on a block boundary; then the first bytes in ceil(l/b) blocks, else the exact length error |
| `BdxPair.RunInv` | bdx/outbound.go:220-281 | every step of every run of the pair keeps both sides' histories consistent, faults included |
| `BdxPair.Integrity` | bdx/outbound.go:90-266 | in every run the sender finishes only after the receiver committed, and a committed sink holds exactly the bytes the stream yielded, as many as the lengths say |
| `BdxPair.CommittedIsSent` | bdx/session.go:206-308 | what is committed is everything the sender put into blocks |
| `BdxFaithful.FaithfulRunsEnd` | bdx/session.go:206-308 | faultless runs are at most four steps per read long, have at most one message in flight and never raise a counter error, across the wrap at 2^32 |
| `BdxFaithful.IndefiniteOutcome` | bdx/outbound.go:90-266 | a faultless run without a length that cannot go on has committed the whole stream in floor(L/b)+1 blocks |
| `BdxFaithful.DefiniteOutcome` | bdx/send.go:175-192 | a faultless run with a length that cannot go on has committed exactly its bytes in ceil(l/b) blocks, or both sides stopped with the exact length error |
| `BdxFaithful.MissedLengthNeverCommits` | bdx/outbound.go:90-119 | a run that will miss its length commits at no point |
| `BdxNegotiation.ChooseIsChoice` | bdx/serve.go:101-115 | the chosen mode is the first preferred one that is offered |
| `BdxNegotiation.DetermineAccept` | bdx/serve.go:101-131 | the search, the block size caps and the length check compute the responder's answer |
| `BdxNegotiation.AcceptIff` | bdx/serve.go:101-131 | a valid offer is accepted iff a mode is shared, the exchange carries a byte and the length is safe; with its length unless that is zero |
| `BdxNegotiation.AcceptLargest` | bdx/serve.go:101-131 | its block size is the largest within the Init, the exchange and the responder's own maximum |
| `BdxNegotiation.AcceptRefusals` | bdx/serve.go:101-131 | else it is refused for its modes, its block size or its length, in this order, with the code of that |
| `BdxNegotiation.OfferLaw` | bdx/send.go:110-140 | an initiator offers its modes and the largest block size within 16 bits, its exchange and its maximum, and no Send over its limit |
| `BdxNegotiation.SameTextIff` | bdx/designator.go:38-50 | two designators match iff they are the same bytes or one spells out the other's hexadecimal form |
| `BdxNegotiation.PlainBytesAre` | bdx/designator.go:38-50 | the bytes written as they are |
| `BdxNegotiation.HexText` | bdx/designator.go:38-50 | other designators are written in lower-case hexadecimal |
| `BdxNegotiation.SendAgreement` | bdx/send.go:110-171 | over the encoded bytes both sides of a Send settle or neither does, exactly when the offer is valid, names the file and is acceptable, on the same mode and block size, the sender driving iff the mode says so and blocks that fit both exchanges |
| `BdxNegotiation.ReceiveAgreement` | bdx/session.go:143-192 | the same for a Receive, exactly when the file is there as well |
| `BdxNegotiation.ServesIff` | bdx/serve.go:152-209 | a valid ReceiveInit is served iff the designator matches, the file opens, the offset is safe, the offer is acceptable and the length fits behind the offset |
| `BdxNegotiation.ServeRefusals` | bdx/serve.go:152-187 | else it is refused with the code of the first thing that fails |
| `BdxNegotiation.RefusalTold` | bdx/serve.go:135-150 | the initiator learns the code of a refused Receive as the peer's status |
| `BdxNegotiation.SendRefusalTold` | bdx/serve.go:212-249 | likewise of a refused Send |
| `BdxNegotiation.ServedLengthAgrees` | bdx/serve.go:152-209 | a served length reaches the peer unchanged iff it is absent or below 2^32 |
| `BdxNegotiation.BlocksFitBoth` | bdx/outbound.go:29-34 | every block of every run of a settled transfer fits the maximum payload of both exchanges |
| `BdxNegotiation.ServedTransferCompletes` | bdx/serve.go:135-209 | a served transfer, each side held to the length it knows, delivers in every faultless run the file's bytes from the asked offset on, as many as asked for or else all that follow, if the length survives the wire |
| `BdxNegotiation.ServedTransferNeverCommits` | bdx/serve.go:190-209 | if it does not, no run commits |
| `BdxNegotiation.LengthLost` | bdx/serve.go:190-209 | an Init for 2^32 + 1 bytes that is served and announced as one byte |
| `ReportChunks.SplitListAttributeReport` | bridge/reply.go:554-606 | a list that does not fit becomes a first part of its leading members and one append per further member |
| `ReportMeaning.ListKept` | bridge/reply.go:554-648 | a list whose first member alone and whose later members as appends each fit a message goes out without a status and leaves the reader the whole list |
| `ReportMeaning.ListTakenApart` | bridge/reply.go:554-606 | a list over the budget never goes out as one entry with all its members while these are over the budget too, and parts of several members fit the budget |
| `ReportMeaning.ListRefused` | bridge/reply.go:625-648 | a list over the budget with a member that no message carries is one status on its path |
| `ReportMeaning.OtherEntries` | bridge/reply.go:617-640 | any other entry goes out as it is, or as one status on its attribute when no message carries it |
| `ReportMeaning.EventSent` | bridge/reply.go:485-510 | an event goes out in its place as it is, or as a status on its path |
| `ReportChunks.HeadCount` | bridge/reply.go:582-591 | the first part holds one member, or as many as fit, and one member more would not fit |
| `ReportChunks.PartsMean` | bridge/reply.go:554-606 | replaying the parts leaves what replaying the whole list does |
| `ReportChunks.AnyPartOversized` | bridge/reply.go:636-648 | true iff some part is too large for a message of its own |
| `ReportChunks.SplitTooLargeIff` | bridge/reply.go:554-648 | a split list is refused iff its first member as a list of one, or a later member as an append, is over the hard cap |
| `ReportChunker.Chunker.PutAttribute` | bridge/reply.go:456-484 | an entry lands whole in the current or a new chunk, downgraded iff no message carries it |
| `ReportChunker.Chunker.PutEvent` | bridge/reply.go:485-510 | the same for an event |
| `ReportChunker.Chunker.AddAttribute` | bridge/reply.go:441-484 | one attribute goes out as itself, as the parts of its list, or as one status, behind what was sent |
| `ReportChunks.SpreadMeans` | bridge/reply.go:441-484 | replaying what an attribute goes out as leaves what the attribute, or its status when no message carries it, says |
| `ReportChunker.Stamp` | bridge/reply.go:523-530 | exactly the non-last chunks announce more and only the last may suppress the response; entries stay |
| `ReportChunker.ChunkReportData` | bridge/reply.go:424-531 | the replayed chunks mean the intended report in order, chunks of several entries fit the budget, single values the hard cap, a chunk closes only when the next entry does not fit it, and it fails only when the report, one of its entries, list parts or events alone, or some that go out next to each other, each once, cannot be encoded |
| `ReportMeaning.ReaderHasList` | bridge/reply.go:424-648 | whatever the chunks are, a reader has in the place of each list all of whose members fit a message that list with all its members |
| `ReportMeaning.ReaderHasValue` | bridge/reply.go:424-531 | and in the place of any other value that fits a message, that value |
| `InvokeChunks.ChunkInvokeResponse` | bridge/receive_dispatch.go:861-923 | the sequence of paths and references is kept, only entries over the hard cap are downgraded, chunks of several fit the budget and a payload alone the cap, a chunk closes only when the next answer does not fit it, exactly the last announces no more, and it fails only when some message of answers next to each other, each once, cannot be encoded |
| `ReliableTracker.BoundedRetransmission` | bridge/outbound_reliable.go:435-488 | in every run each tracking is re-sent at most MaxRetransmissions times |
| `ReliableTracker.NoResendLost` | bridge/outbound_reliable.go:446-486 | a tracking still pending with no resend scheduled was re-sent exactly as often as its sweeps counted |
| `ReliableTracker.GoneIsNotResent` | bridge/outbound_reliable.go:303-346 | a tracking acknowledged, untracked, abandoned or given up is never re-sent again |
| `ReliableTracker.AckIsLocal` | bridge/outbound_reliable.go:303-346 | an Ack takes out its own (session, counter) and leaves every other entry and waiter alone |
| `ReliableTracker.DueEntryGoes` | bridge/outbound_reliable.go:435-471 | an entry not tracked anew is gone after one sweep more than the limit that finds it due, whatever the other entries do |
| `ReliableTracker.DueSweepsEmpty` | bridge/outbound_reliable.go:435-471 | without new messages, one due sweep more than the limit empties the table |
| `ReliableTracker.WaitersResolveOnce` | bridge/outbound_reliable.go:275-401 | no waiter channel is sent to or closed twice, and the send made under the lock finds an empty buffer |
| `TrackerWaiters.NoChannelForgotten` | bridge/outbound_reliable.go:275-471 | in every run each channel a wait made is in the table, owed an action, resolved, or its own wait was cancelled |
| `TrackerWaiters.GivenUpIsTold` | bridge/outbound_reliable.go:446-457 | from the sweep that gives a message up, its waiter's channel has got one error and is closed |
| `TrackerWaiters.AckedIsClosed` | bridge/outbound_reliable.go:308-346 | an acknowledged message's waiter finds its channel closed once the Ack has got to it, and nothing else happens to it |
| `TrackerWaiters.AbandonedIsTold` | bridge/outbound_reliable.go:275-301 | an abandoned message's waiter has got one error once the abandonment has got to it |
| `TrackerWaiters.SweepLaw` | bridge/outbound_reliable.go:446-471 | a sweep leaves an entry that is not due, counts, puts off and schedules one that is, and gives it up when its four retries are spent |
| `TrackerWaiters.RemovalLaw` | bridge/outbound_reliable.go:266-346 | untracking and acknowledging take out their own entry, abandoning those of its exchange, and no other |
| `TrackerWaiters.TrackLaw` | bridge/outbound_reliable.go:231-252 | a tracking is new: no retries and an identity no entry or resend had |
| `TrackerWaiters.WaitLaw` | bridge/outbound_reliable.go:368-380 | a wait makes a channel iff the message is pending and no one waits yet, and shares it else |
| `ReliableTrackerObject.OutboundReliableTracker.Track` | bridge/outbound_reliable.go:231-252 | tracking is the machine's Track step |
| `ReliableTrackerObject.OutboundReliableTracker.AbandonExchange` | bridge/outbound_reliable.go:275-301 | the loop over the table is the Abandon step; its count and channels are the exchange's |
| `ReliableTrackerObject.OutboundReliableTracker.Ack` | bridge/outbound_reliable.go:308-346 | the locked part of Ack is the Ack step |
| `ReliableTrackerObject.OutboundReliableTracker.WaitForAck` | bridge/outbound_reliable.go:368-401 | a waiter's channel is shared per key and made only while the key is pending |
| `ReliableTrackerObject.OutboundReliableTracker.Sweep` | bridge/outbound_reliable.go:435-471 | the sweep loop of Tick is the Sweep step |
| `ReliableTrackerObject.OutboundReliableTracker.Recheck` | bridge/outbound_reliable.go:472-486 | an entry is re-sent iff the very tracking is still pending |
| `ReliableTrackerObject.SweepOneMore` | bridge/outbound_reliable.go:446-471 | sweeping a set of keys is sweeping them one by one, in any order |
| `BindingRecords.BalancedAlternates` | binding/resolve.go:389-436 | balanced emissions alternate slot by slot, each removal of the resolution established before it |
| `BindingRecords.RemovalsBalance` | binding/resolve.go:453-478 | removing live resolutions one by one keeps balance and takes exactly their slots out |
| `BindingLaws.StepCore` | binding/resolve.go:68-478 | every step keeps the tables, the emissions and the pending links consistent |
| `BindingLaws.StepClose` | binding/manager.go:540-571 | Close's disposal stays the last task and leaves no record |
| `BindingLaws.RunInv` | binding/manager.go:274-571 | the invariant holds in every state of every interleaving |
| `BindingTheorems.EventBalance` | binding/manager.go:501-571 | per slot, emissions alternate starting with established; the established bindings are exactly the unbalanced slots; once closed all are balanced |
| `BindingTheorems.NodeTablesDisjoint` | binding/resolve.go:189-247 | a node entry is pending, established or dormant and never two of these; no record is empty |
| `BindingTheorems.PendingFiresOnce` | binding/resolve.go:327-361 | each pending entry establishes at most once |
| `BindingTheorems.StaleNeverEstablishes` | binding/resolve.go:356-384 | once unregistered, replaced, disposed of or used, a pending entry establishes nothing for the rest of the run |
| `BindingTheorems.ClosingProgress` | binding/manager.go:540-571 | while it closes, callers add no work and every worker step leaves less |
| `BindingTheorems.ClosingNotStuck` | binding/manager.go:274-293 | until it is closed the worker has a step to take |
| `BindingTheorems.UnregisterForgets` | binding/manager.go:439-452 | the unregister task leaves its slot in no table iff it was not both dormant and established; other slots stay |
| `BindingTheorems.UnregisterCanLeaveEstablished` | binding/manager.go:439-452 | a reachable state after a whole Unregister in which the group entry is still established |
| `BindingResolutions.EmissionsAreRight` | binding/resolve.go:68-158 | every established emission of every run has the kind, target endpoint, clients and link its entry calls for |
| `BindingResolutions.EstablishesWhileHeard` | binding/resolve.go:389-404 | an established emission is made by a step that finds a listener |
| `BindingOutcomes.EmittedAsAdmitted` | binding/resolve.go:68-158 | every established emission of every run was admitted as what it is: a Server's entry named this node's id at that moment, a Client's another or an unknown one, a Group's a group on a known fabric |
| `BindingOutcomes.ServerOutcome` | binding/resolve.go:68-91 | with a listener an entry of this node that passes is established as a server |
| `BindingOutcomes.ClientOutcome` | binding/resolve.go:92-112 | an entry of another node awaits a session with its peer, if there is one |
| `BindingOutcomes.GroupOutcome` | binding/resolve.go:73-88 | a group entry that passes is established iff it has its key throughout and a sender |
| `BindingOutcomes.DormantOutcome` | binding/resolve.go:185-202 | without a listener an entry that passes is dormant |
| `BindingOutcomes.UnheardOutcome` | binding/resolve.go:389-392 | an entry whose last listener left before it was emitted is dormant again |
| `BindingOutcomes.GroupingOutcome` | binding/resolve.go:77-92 | with a listener, a group entry is established iff its key, its sender and its registration still stand, and is dropped otherwise |
| `BindingOutcomes.DroppedOutcome` | binding/resolve.go:114-158 | an entry that does not pass changes nothing |
| `BindingOutcomes.OnlineOutcome` | binding/resolve.go:350-361 | a session that comes up establishes the entry that waits for it |
| `BindingOutcomes.RecheckOutcome` | binding/resolve.go:300-320 | a recheck takes up an item iff it is registered, not established, and its group has a key |
| `BindingOutcomes.TaskWorks` | binding/resolve.go:204-320 | a registration takes up its item unless tracked, a wake every dormant item, a recheck every registered one of its fabric |
| `BindingOutcomes.RegisteredSince` | binding/manager.go:392-452 | a registered slot was noted as a group entry while nothing closed and kept since |
| `BindingOutcomes.StaysRegistered` | binding/manager.go:392-452 | and stays registered until it is unregistered, its source detached or the manager closed |
| `BindingManagerObject.Manager.Register` | binding/manager.go:392-409 | a group entry is recorded at the call unless closing or taken, and the task posted |
| `BindingManagerObject.Manager.Unregister` | binding/manager.go:439-452 | the registration ends at the call, and the task is posted |
| `BindingManagerObject.Manager.Attach` | binding/manager.go:320-356 | a closing manager and the same server change nothing; a server before it is detached first and every entry registered in order |
| `BindingManagerObject.Manager.OnChange` | binding/manager.go:334-343 | what a write added is registered, then what it removed unregistered, in order |
| `BindingManagerObject.Manager.GroupKeysChanged` | binding/manager.go:518-526 | a key change marks its fabric and posts a recheck unless it was marked |
| `BindingManagerObject.Manager.BeginRecheck` | binding/manager.go:527-531 | the recheck takes the mark back and then lists the fabric's registrations, each once |
| `BindingWakes.NoLostWake` | binding/resolve.go:185-231 | in every run: with a listener, every first listener's wake posted and the worker at rest, no entry is dormant |
| `BindingWakes.NoLostRecheck` | binding/manager.go:514-532 | in every run: once every marking call has posted and the worker is at rest, a recheck of the fabric has begun after each key change, or the manager is closed |
| `BindingManagerObject.Manager.Detach` | binding/manager.go:362-372 | the source's registrations go, and its disposal is posted |
| `BindingManagerObject.Manager.OnEstablished` | binding/manager.go:459-478 | the first listener posts the wake |
| `BindingManagerObject.Manager.BeginClose` | binding/manager.go:540-563 | closing is set once and the disposal becomes the last task |
| `BindingManagerObject.Manager.EstablishedNow` | binding/manager.go:501-512 | the result holds exactly the established slots with their resolutions |
| `BindingManagerObject.Manager.Admit` | binding/resolve.go:119-158 | passes iff every check of its kind does, with the clients directed, and as this node's own iff the entry names this node's id |
| `BindingManagerObject.Manager.ResolveAndEmit` | binding/resolve.go:68-114 | undisturbed, the function does what the worker's steps do on the item at work |
| `BindingManagerObject.Manager.EstablishClientKind` | binding/resolve.go:327-352 | a fresh pending entry takes the key, and with a session at hand its online task follows |
| `BindingManagerObject.Manager.EmitResolution` | binding/resolve.go:389-404 | a resolution is recorded and emitted, or its entry parked when nothing listens |
| `BindingManagerObject.Manager.ForgetPending` | binding/resolve.go:365-384 | a pending entry is cleared, with `only` set only that one |
| `BindingManagerObject.Manager.RunUnregister` | binding/manager.go:446-451 | dormant, else pending, else established is forgotten |
| `BindingManagerObject.Manager.RunOnline` | binding/resolve.go:356-361 | an online callback emits iff its own pending entry still waits |
| `BindingManagerObject.Manager.DisposeServer` | binding/resolve.go:453-478 | the record goes and each established entry's removal is emitted |
| `BindingManagerObject.Manager.WakeDormant` | binding/resolve.go:207-218 | the dormant items of all records are taken and records left empty forgotten |
| `BindingManagerObject.SelectClientClusters` | binding/resolve.go:164-176 | the loop computes the chosen clients |
| `BindingManagerObject.ClientsAre` | binding/resolve.go:160-176 | the chosen clients are the declared, bindable ones of the entry's cluster, as often as declared |
| `ConnRoutes.StepGap` | bridge/conn.go:181-279 | every step moves a route's count against its recount by exactly the entry it overwrites or deletes without the lock, or makes good |
| `ConnRoutes.CountIsRecount` | bridge/conn.go:181-279 | after every step of every run a route's count is the number of sessions bound to it and the entries lost to it, so it is the recount iff none is lost |
| `ConnRoutes.LossHasCause` | bridge/case_initiator.go:325-326 | an entry is lost only by the store of an initiated session or an eviction's deletion that hits an id bound to the route |
| `ConnRoutes.StoreLoses` | bridge/case_initiator.go:325-326 | a reachable store over a bound id after which the session is off its connection, the count is one above the recount and the last leaving closes nothing |
| `ConnRoutes.EvictionLoses` | bridge/conn.go:488-551 | a reachable eviction that deletes an id rebound to another connection, whose count is then one above the recount |
| `ConnRoutes.EvictIsSteps` | bridge/conn.go:488-551 | with nothing in between, forgetting the connection, finding its sessions and deleting each comes to the drop of exactly them |
| `ConnRoutes.NeverBelowZero` | bridge/conn.go:254-264 | a session comes off a positive count, which falls by exactly one |
| `ConnRoutes.CloseOnlyUnused` | bridge/conn.go:254-279 | a close is decided only for a route with no bound session and no handshake in flight |
| `ConnRoutes.LastSessionCloses` | bridge/conn.go:231-279 | a session's leaving closes its connection iff no session is left on it, no entry was lost to it and no handshake is in flight |
| `ConnRoutes.InFlightIs` | bridge/conn.go:266-279 | a CASE hold counts until it is released, a PASE hold for a minute at most |
| `ConnRoutes.HeldStaysOpen` | bridge/conn.go:242-327 | in every run, from a handshake's first message until its release or a PASE handshake's minute, no leaving closes its connection |
| `ConnRoutes.HoldBegins` | bridge/conn.go:281-300 | the first message of a handshake holds its connection, another changes nothing |
| `ConnRoutes.HoldEnds` | bridge/conn.go:300-327 | its end lets go, an eviction of CASE state only of a CASE handshake |
| `ConnRoutes.BindKeepsIff` | bridge/conn.go:181-219 | a bind leaves a session on its connection iff it names that connection or the bound session object |
| `ConnRoutes.BindLaw` | bridge/conn.go:181-219 | where a bind leaves its session and under which owner, and every other session where it was |
| `ConnRoutes.UnbindLaw` | bridge/conn.go:231-240 | an unbind forgets the entry and owner of its session and no other |
| `ConnRoutes.StepKeepsIff` | bridge/conn.go:181-219 | a step leaves a session object on its connection iff it does not unbind it, delete its entry or owner, store its id as initiated, or bind its id under another object or elsewhere with none found |
| `ConnRoutes.SessionKeepsConnection` | bridge/conn.go:181-219 | a session object stays on its connection over a stretch of a run iff every step of the stretch spares it |
| `ConnRoutesObject.Bridge.LiveHandshakes` | bridge/conn.go:272-280 | expired PASE holds are dropped and the rest counted |
| `ConnRoutesObject.Bridge.ReleaseConnRoute` | bridge/conn.go:254-264 | the release step, with the close it decides |
| `ConnRoutesObject.Bridge.BindSessionRoute` | bridge/conn.go:181-219 | the bind step |
| `ConnRoutesObject.Bridge.UnbindSessionRoute` | bridge/conn.go:231-241 | the unbind step |
| `ConnRoutesObject.Bridge.EvictConn` | bridge/conn.go:488-549 | the connection's route and exactly the sessions bound to it go |
| `ConnRoutesObject.Bridge.Hold` | bridge/conn.go:284-299 | a handshake is held once, from its first message |
| `TimedTable.TableIsStanding` | bridge/exchange_routing.go:163-189 | the table holds exactly the last TimedRequest of each key, unless a later event, a deletion or a sweep past its deadline took it |
| `TimedTable.TimedAdmittedIff` | bridge/receive.go:534-560 | with the flag a request proceeds iff the last event on its key is an unexpired TimedRequest and no sweep deleted the key since that event |
| `TimedTable.FlaggedReplyIs` | bridge/receive.go:534-560 | the whole answer with the flag: a mismatch when no TimedRequest stands, else it proceeds up to the deadline and has timed out behind it |
| `TimedTable.UntimedRefusedIff` | bridge/receive.go:534-545 | without the flag it is refused iff the last event is a TimedRequest, expired or not, that no sweep took since |
| `TimedTable.AdmitsAtMostOne` | bridge/receive.go:534-560 | between two admitted requests there is a new TimedRequest |
| `TimedTable.SweepInvisible` | bridge/exchange_routing.go:141-172 | if no TimedRequest on the key fell between a sweep's visit and its deletion before the request, admission is what the messages alone say |
| `TimedTable.SweepCanSteal` | bridge/exchange_routing.go:163-172 | a run in which it does, and a request in time is refused |
| `TimedTable.ExchangeRouting.DispatchTimedRequest` | bridge/receive_dispatch.go:683-693 | the deadline is stored and survives the sweep that may follow |
| `TimedTable.ExchangeRouting.CheckTimedGate` | bridge/receive.go:534-560 | the reply, and the deadline is consumed |
| `TimedTable.ExchangeRouting.MaybeSweepExpired` | bridge/exchange_routing.go:141-154 | at most one sweep per interval |
| `TimedTable.ExchangeRouting.SweepExpired` | bridge/exchange_routing.go:163-174 | exactly the expired deadlines go, and are counted |
| `TimedTable.ExchangeRouting.DropSessionDeadlines` | bridge/exchange_routing.go:182-189 | exactly the session's deadlines go |
| `TlvWalkers.ReadStopsWhereDrainStops` | bridge/fields_reader.go:604-619 | on every stream the tree reader and the drain stop at the same place or both fail |
| `TlvWalkers.ReadSpelled` | bridge/fields_reader_scenes.go:31-49 | a spelled tree is read back, with the stream left at what followed |
| `TlvWalkers.ReadSpells` | bridge/fields_reader_scenes.go:31-49 | what is read is what the stream spells |
| `TlvWalkers.DrainSpelled` | bridge/fields_reader.go:604-619 | one drain after any members reaches what follows their container |
| `TlvWalkers.FieldAgrees` | bridge/fields_reader_groupcast.go:80-161 | a field decoder yields the field's meaning and consumes its element and no more, also when it rejects |
| `TlvWalkers.EndpointsAgree` | bridge/fields_reader_groupcast.go:134-161 | an endpoint list is its entries, or the first bad entry's code with the list consumed |
| `TlvWalkers.KeySetAgrees` | bridge/fields_reader_groupkeys.go:189-293 | a group key set is its fields with the first error kept, its container consumed |
| `TlvWalkers.WalkAgrees` | bridge/fields_reader_groupcast.go:50-77 | the walk yields what the members say; it ends past the container on success or a consumed reject, and one drain gets there after any other |
| `TlvWalkers.FieldIsOk` | bridge/fields_reader_groupkeys.go:189-292 | a field is taken iff it is typed member by member: an endpoint list of unsigned integers below 2^16, a key set whose known tags have their types and whose tags 0 to 7 are there |
| `TlvWalkers.KeySetMeans` | bridge/fields_reader_groupkeys.go:189-292 | a key set that is taken holds, field by field, the last value under the field's tag |
| `TlvWalkers.LastCounts` | bridge/fields_reader_groupcast.go:50-161 | of the fields under a tag the last one counts, with the value its element carries |
| `TlvWalkers.FirstRejects` | bridge/fields_reader_groupcast.go:50-77 | the first field that is not typed decides the code |
| `TlvWalkers.FieldRejects` | bridge/fields_reader_groupcast.go:80-161 | a number too large is a constraint error, anything else an invalid command |
| `TlvWalkers.EndpointsReject` | bridge/fields_reader_groupcast.go:134-161 | in an endpoint list the first bad entry decides |
| `TlvWalkers.KeySetRejects` | bridge/fields_reader_groupkeys.go:189-292 | in a key set the first bad member decides |
| `TlvWalkers.AcceptedIff` | bridge/fields_reader_groupcast.go:50-77 | a command is accepted iff every known field is typed and every mandatory one is there |
| `TlvDecoder.Decoder.DrainContainer` | bridge/fields_reader.go:604-619 | the depth counter loop drains one container |
| `TlvDecoder.Decoder.ReadScenesTree` | bridge/fields_reader_scenes.go:31-49 | the recursive reader returns the tree and stops behind it |
| `TlvDecoder.Decoder.ReadEndpoints` | bridge/fields_reader_groupcast.go:134-161 | the endpoint list loop |
| `TlvDecoder.Decoder.ReadGroupKeySet` | bridge/fields_reader_groupkeys.go:189-293 | the group key set loop |
| `TlvDecoder.Decoder.DecodeField` | bridge/fields_reader_groupcast.go:80-161 | each field decoder's verdict and stream position |
| `TlvDecoder.Decoder.WalkCommandFields` | bridge/fields_reader_groupcast.go:50-77 | the walk's verdict and stream position |
| `TlvDecoder.Decoder.DecodeSingleUint16` | bridge/fields_reader_groupkeys.go:72-102 | the single-field loop is the walk with one mandatory uint16 |
| `TlvDecoder.Decoder.DecodeKeySetWrite` | bridge/fields_reader_groupkeys.go:131-164 | the KeySetWrite loop is the walk with one mandatory group key set |

## Left out

- Progress hooks, file sinks and their paths, BDX URIs, and the responder's table of scopes and storage contexts.
- A send that fails although the peer receives it, but for the last block with its scope disabled; part of a block written by a failed write.
- The asynchronous BDX mode, which every flow here refuses.
- The TLV byte encoding: report and invoke sizes come from an arbitrary encoder, and the walkers run over decoded elements, the end of the stream standing for any decoder error.
- `decodeJoinGroupRequest` and its siblings, which only name the fields given to `walkCommandFields`.
- Back-off and jitter of retransmissions, round-trip statistics and the handshake peer timing: each sweep takes its delays as input.
- The library sorts of the binding manager: a disposal, a wake and a recheck take their order as input, the wake's held to registration order.
- The joined text of a binding entry's key: an entry is the tuple of the fields its key joins.
- BindingManagerObject.Manager.ResolveAndEmit: states the undisturbed call; callers that come in between are the interleavings of the step machine.
- Handler failures and logging of the binding manager; an emission is an event of its own whether or not a handler hears it.
- ConnRoutesObject.Bridge.EvictConn: states the undisturbed call, whose interleavings are those of the step machine; the exchanges, subscriptions and registry entry of an evicted session are not modelled.
- PASE, CASE, group and operational cryptography, sockets, mDNS, commissioning windows and the attribute and command type switches.
