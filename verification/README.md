# Verified model of the ipfs-embed network layer

This project models the network layer of ipfs-embed and its command line text
protocol, and proves what every run of them keeps.

- **Address book** (`Book.dfy`, `AddressBook.dfy`). `Books` is a state machine
  over values: each handler is a function, the clock and the iteration order of
  hash tables are arguments. Class `AddressBook` performs the handlers in place
  and is proved to take exactly those steps and to keep the invariant.
  `Decisions.dfy`, `Identify.dfy`, `Invariants.dfy`, `Probes.dfy`, `Prune.dfy`,
  `FailureLog.dfy`, `Records.dfy`, `DialQueue.dfy` and `Events.dfy` prove what the
  steps mean and what holds over runs.
- **Swarm** (`Swarm.dfy`, `Redial.dfy`). The book is closed with an honest swarm
  that holds open connections and outstanding dials, those of the other protocols
  included. The connection map, the link events and the end of redialling are proved
  against it.
- **Per-peer bookkeeping** (`PeerInfo.dfy`, `Rtt.dfy`, `Multiaddr.dfy`).
- **Query router** (`Router.dfy`, `Backend.dfy`, `SyncQuery.dfy`). Commands and
  events interleave freely, and the loop may stop at any time; every reply channel
  is accounted for.
- **Subscriptions** (`Subscriptions.dfy`).
- **Command line text** (`CliText.dfy`, `Cli.dfy`, `CliTheorems.dfy`).

Runs are explicit sequences of states and steps; theorems about them quantify
over all runs. What the environment decides (hash order, time, fresh ids, whether
a protocol accepts, which timer elapses first) is an argument of the step.

## Where the code differs from what is promised

- The failure rate is documented as 1_000_000 for only failures. It never gets
  beyond 999_901, which is its fixed point (`ReachableFailureRate`,
  `FailuresClimbToCeiling`).
- The connection map forgets a live connection when two connections of a peer
  share a remote address and one of them closes or moves. `StepOnMap` proves that
  this is the only way to lose one, `ShadowedConnectionIsDenied` and
  `SharedRemoteIsReachable` show it happening.
- `SyncQuery::poll` does not return on a closed channel without a completion
  (`SpinsIff`). While the swarm loop runs, a held query never meets that case before
  its result is taken (`LiveSyncQueryTerminates`). When the loop stops, for example
  because its task is dropped with the last service handle, every sync query that is
  pending then does: a held query's poll spins if and only if the loop stopped while
  it was pending (`HeldSyncQueryPolls`, `SpinsIffStoppedWhilePending`), and
  `StopWhilePendingIsReachable` shows such a run.
- When gossipsub refuses a new topic, the topic stays in the subscriber table, and
  later subscribers are accepted without gossipsub being asked
  (`AgreementBreaksIff`, `RefusalSticks`).
- An incoming address without an IP and a TCP component is dropped by Identify
  without a replacement (`SetInfoMeaning`; `GuessRule` covers the others).
- IPv6, DNS and empty addresses count as loopback, so a book without loopback
  stores IPv4 addresses only (`ReachableBooksAreGood`).
- A command or event does not come back from its own line if one of its fields is
  not written as one word, if its block is empty, or if its error text has other
  whitespace than single blanks (`CommandRoundTrip`, `EventRoundTrip`). The empty
  multiaddress is such a field: it is written as nothing, and the parser panics on
  the missing word (`EmptyAddressPanics`).
- Dial failures are said to remove unconfirmed addresses. `StepForgetsIff` has the
  exact rule: a failed probe also removes a `Candidate`, which counts as confirmed,
  while an incoming address is only removed when the wrong peer answers.

## Model

| member | source | states |
|---|---|---|
| Multiaddrs.NormalizeStripRoundTrip | src/net/peers.rs:130-146 | the normalized address is the only one that ends in `/p2p`, strips to what the address strips to, and names the given peer unless the address already named one; normalizing is idempotent and popping undoes it |
| Multiaddrs.NormalizePointMeaning | src/net/peers.rs:148-169 | a connected point only gets the names of the peers at its ends: it is otherwise the same, role included, and left alone if both are named |
| Multiaddrs.IpPortIff | src/net/peers.rs:584-596 | a socket is found exactly in addresses that begin with its host and its TCP port |
| Multiaddrs.WithPort | src/net/peers.rs:494-501 | a port variant has the given TCP port as its second component and is otherwise the same address, so it names the same host and the same peer |
| Multiaddrs.LoopbackIff | src/net/peers.rs:177-184 | only addresses that begin with an IPv4 host outside 127/8 are not loopback |
| Decisions.BlameIff | src/net/peers.rs:731-736 | a failed dial is booked on the peer that the address under test names, and only if it names none on the one that was dialled |
| Decisions.RefusedIff | src/net/peers.rs:278-299 | refused are our own peer, loopback unless enabled, and whatever is our listener once the name is taken off |
| Decisions.DialRecordIsBare | src/net/peer_info.rs:304-320 | failures of normalized addresses are recorded with the bare address |
| Decisions.ValidationRedialsIff | src/net/peers.rs:746-776 | a validation dial is tried again if and only if retries are left and some address failed with a simultaneous open |
| Decisions.ConnectEnters | src/net/peers.rs:666-684 | a dialled far end is stored as `Dial` and outbound; an inbound one is inbound, and keeps its source or is `Incoming` |
| Decisions.ChangeEnters | src/net/peers.rs:698-719 | the same for a connection that moves |
| Rtts.AveragesStayWithinSamples | src/net/peer_info.rs:171-177 | after any history of pings the two averages lie in [lo-3, hi] and [lo-9, hi] when all samples lie in [lo, hi] |
| Rtts.RoundingMarginsAreReached | src/net/peer_info.rs:173-174 | both margins are attained, so they cannot be improved |
| Rtts.SuccessMovesAverages | src/net/peer_info.rs:161-177 | a success becomes the current value and moves each average to its share of old and new, within the loss of two roundings; the first one sets everything |
| Rtts.FailureKeepsAverages | src/net/peer_info.rs:179-183 | a failure leaves the current value and the averages alone |
| Rtts.CurrentIsNewest | src/net/peer_info.rs:185-188 | after any history the current value is the newest successful sample |
| Rtts.ReachableFailureRate | src/net/peer_info.rs:74-84 | in every history the rate is at most 999_901, its computation fits in 32 bits, and the counter counts the failures since the last success |
| Rtts.FailuresClimbToCeiling | src/net/peer_info.rs:179-183 | failures alone raise the rate strictly until it stays at 999_901 |
| Rtts.SuccessesDrainToZero | src/net/peer_info.rs:176 | successes alone lower the rate strictly until it is zero |
| Rtts.RepeatedPings | src/net/peer_info.rs:160-183 | the two sequences above are what the statistics do under repeated failures and successes |
| PeerInfos.SourceOrder | src/net/peer_info.rs:217-247 | the order of the sources and the three predicates, source by source |
| PeerInfos.IngestMeaning | src/net/peer_info.rs:132-148 | an ingestion stores the address as seen now, and asks for a probe exactly when the source became one that is to be probed |
| PeerInfos.StoredSourceIsMaximum | src/net/peer_info.rs:132-148 | ingestion is a join: the stored source is the maximum of all ingested ones, in any order, and nothing else changes |
| PeerInfos.HistoryIsNewestEnd | src/net/peer_info.rs:86-109 | after any log the deque is the newest ten failures, newest first |
| FailureLogs.FailuresAreNewest | src/net/peers.rs:343-349 | in every run the failures kept for a peer are the newest ten booked on it since its record was created, newest first, so pruning looks at the most recent |
| RecordTheorems.StepIntroducesIff | src/net/peers.rs:277-324 | exactly when a step brings in an address that was not stored |
| RecordTheorems.StoredAddressesWereIntroduced | src/net/peers.rs:525-554 | in every run a stored address has been there since a step that brought it in |
| RecordTheorems.ProfilesAreUpToDate | src/net/peers.rs:440-456 | in every run a record shows the last Identify message since it was created, and its statistics are those of exactly the pings since then |
| RecordTheorems.ListenersAreAnnounced | src/net/peers.rs:839-853 | in every run our listeners are the addresses announced and not expired since |
| QueueTheorems.RequestsAreQueued | src/net/peers.rs:239-275 | what a dial request queues, for whom, and when it is skipped |
| QueueTheorems.QueueIsFifo | src/net/peers.rs:649-650 | in every run what has been queued is what has been served, in order, followed by what is waiting |
| QueueTheorems.DeferredAreConserved | src/net/peers.rs:651-652 | in every run each deferred dial is waiting or has been retried once |
| EventTheorems.StepSends | src/net/peers.rs:564-568 | every step sends exactly the stated events, in order, and takes none back |
| EventTheorems.DiscoveredIff | src/net/peers.rs:284-318 | a peer is reported as discovered exactly when an added address or a connection gives it its first confirmed address |
| EventTheorems.UnreachableIff | src/net/peers.rs:810-826 | a peer is reported as unreachable exactly when a plain dial of a known peer fails for good |
| EventTheorems.ConnectionEventsIff | src/net/peers.rs:423-722 | connections are reported exactly when they are opened, moved and closed |
| PeerInfos.PeerInfo.IngestAddress | src/net/peer_info.rs:132-148 | takes the ingest step in place and reports whether a probe is wanted |
| PeerInfos.PeerInfo.PushFailure | src/net/peer_info.rs:90-109 | pushes into the bounded history and forgets a probed address that failed |
| PeerInfos.PeerInfo.RegisterPing | src/net/peer_info.rs:74-84 | updates the statistics in place, and ignores failures before the first success |
| PeerInfos.PeerInfo.AnyConfirmed | src/net/peer_info.rs:111-116 | finds a confirmed address if and only if there is one |
| IdentifyTheorems.SetInfoMeaning | src/net/peers.rs:449-558 | the set specification: which addresses are stored afterwards with which source, which are dialled, once each, and that nothing else changes |
| IdentifyTheorems.GuessRule | src/net/peers.rs:488-513 | an incoming address becomes its same-host listen-port variants, else all common-port variants, else itself |
| IdentifyTheorems.ListenSocketsMeaning | src/net/peers.rs:458-471 | the listen sockets are exactly those of advertised addresses that are not the far end of a connection |
| IdentifyTheorems.IdentifyCandidatesMeaning | src/net/peers.rs:458-523 | the candidates in terms of the Identify record and the stored addresses alone: the advertised addresses and the translations of incoming ones |
| IdentifyTheorems.TranslationKeepsPeer | src/net/peers.rs:488-513 | a translation differs from its incoming address in the port at most, and names the same peer |
| IdentifyTheorems.IngestCandidatesMeaning | src/net/peers.rs:525-554 | the ingest loop in closed form, for any visiting order |
| IdentifyTheorems.CandidateProbesMeaning | src/net/peers.rs:535-551 | the dials of the loop are those of the candidates that were not known, decided up front |
| IdentifyTheorems.SetInfoRaisesSources | src/net/peers.rs:515-554 | no incoming address is left, no source drops, and every candidate that is not our listener is stored |
| IdentifyTheorems.TraversalOrderIsIrrelevant | src/net/peers.rs:488-554 | two hash orders give the same book and the same multiset of dials |
| IdentifyTheorems.SetInfoIsIdempotent | src/net/peers.rs:449-558 | repeating it with the same record dials nobody and changes no address and no source |
| Invariants.CandidatesAreGood | src/net/peers.rs:488-523 | every candidate, translated or advertised, ends in `/p2p` and leads off the machine unless loopback is enabled |
| Invariants.ReplaceNeverFails | src/net/peers.rs:494-501 | the unwrapped replacement of the port succeeds wherever it is called |
| Invariants.StepKeepsInv | src/net/peers.rs:239-866 | every step of the book keeps the invariant and the configuration |
| Invariants.ReachableBooksAreGood | src/net/peer_info.rs:144 | in every run stored addresses and connection keys end in `/p2p`, stored addresses are not loopback unless that is enabled, and histories are bounded |
| Invariants.StepForgetsIff | CHANGELOG.md:10-14 | for every source, exactly when a step forgets an address; otherwise it never lowers its rank |
| Invariants.FailDialForgets | src/net/peers.rs:738-805 | which dial failures forget an address: the wrong peer, or a failed probe or plain dial of one that is to be probed |
| Invariants.StepOnFirm | src/net/peers.rs:326-369 | a step loses a `User` or `Dial` address if and only if it removes it explicitly or is a validation dial that met the wrong peer, and never lowers its rank |
| Invariants.FirmAddressesStay | src/net/peers.rs:326-369 | in every run such an address stays, with at least its rank, until a step of those two kinds |
| ProbeTheorems.AddAddressQueues | src/net/peers.rs:302-315 | exactly when, and with what, adding an address queues a dial |
| ProbeTheorems.SetInfoQueues | src/net/peers.rs:535-551 | exactly which candidates Identify queues dials for, without duplicates |
| ProbeTheorems.StepPaysForProbes | src/net/peer_info.rs:132-148 | each probe of an address is paid for by a rise of its source or by its removal |
| ProbeTheorems.ProbesAreAmortised | src/net/peers.rs:302-315 | in every run one address is probed at most 4 * (1 + removals) times |
| ProbeTheorems.EnteringTheBandIsVouched | src/net/peers.rs:525-553 | a step that gives an address a to-probe source queues one probe for it or finds it connected |
| ProbeTheorems.UnconfirmedAddressesWereProbed | CHANGELOG.md:10-14 | in every run an address with a to-probe source has had one ever since a step that probed it or found it connected |
| ProbeTheorems.OwnListenersAreNotProbed | src/net/peers.rs:525-532 | no probe targets one of our own listeners, and each dials the address under test with the right number of retries |
| PruneTheorems.PrunableIff | src/net/peers.rs:338-363 | a peer is prunable exactly if none of the reasons to keep it holds, with ages spelled out in nanoseconds |
| PruneTheorems.PruneMeaning | src/net/peers.rs:334-369 | pruning removes exactly the peers without connection, failure within the minimum age, confirmed address, or to-probe address seen within the minimum age or ten seconds; the rest is unchanged and one event is sent per peer |
| PruneTheorems.PruneIsIdempotent | src/net/peers.rs:334-369 | pruning again at the same time changes nothing |
| PruneTheorems.LongerMinAgePrunesLess | src/net/peers.rs:343-361 | a larger minimum age prunes a subset |
| Swarms.SwarmStepsAreBookSteps | src/net/mod.rs:583-594 | what the swarm reports is a step of the book, and dials of the other protocols do not touch the book |
| ConnectionTheorems.StepOnMap | src/net/peers.rs:371-428 | a map without stale addresses stays so, and an exact map stays exact if and only if the step does not shadow another connection |
| ConnectionTheorems.MapIsNeverStale | src/net/peers.rs:658-723 | in every honest run the map holds no address without an open connection |
| ConnectionTheorems.MapIsExact | src/net/mod.rs:392-400 | in every honest run without shadowing the map is the set of open remote addresses and `is_connected` agrees for every other peer |
| ConnectionTheorems.DistinctRemotesKeepMapExact | src/net/mod.rs:392-400 | in every honest run with distinct remote addresses per peer the map is exact and `is_connected` agrees |
| ConnectionTheorems.ShadowedConnectionIsDenied | src/net/peers.rs:413 | two connections from one remote address, one closed: the book denies the other |
| ConnectionTheorems.SharedRemoteIsReachable | src/net/peers.rs:679-684 | that state is reached from the empty one |
| ConnectionTheorems.OtherStepsKeepConnections | src/net/peers.rs:338-342 | all other steps, pruning included, keep every peer's connections |
| ConnectionTheorems.CloseUndoesConnect | src/net/peers.rs:411-420 | closing a connection undoes opening it for the connections of every peer, and leaves its address known: as `Dial` if we dialled, else as it was, or `Incoming` if new |
| ConnectionTheorems.LinkEventsAlternate | src/net/peers.rs:424-426 | in every honest run `Connected` and `Disconnected` of a peer alternate, beginning with `Connected`, and the last one tells whether a connection is open |
| RedialTheorems.FailDialDefers | src/net/peers.rs:761-817 | a failed dial defers exactly its redials and queues nothing |
| RedialTheorems.FaultRedialsMeaning | src/net/peers.rs:784-805 | a plain dial is followed by one redial with ten retries per simultaneous open |
| RedialTheorems.FailureLowersMeasure | src/net/peers.rs:725-831 | every dial failure strictly lowers the pair of plain dials and attempts left, over queued, deferred and running dials |
| RedialTheorems.LineageIsBounded | src/net/peers.rs:761-776 | no dial has more successors in a line than retries, and a plain dial at most eleven |
| RedialTheorems.RequestedLineageIsBounded | src/net/peers.rs:252-275 | at most eleven redials in a line after a requested dial or an added address, and four after an Identify probe |
| RedialTheorems.RedialTargetsFailedAddress | src/net/peers.rs:761-803 | a redial follows a simultaneous open only, and goes to the address that failed, of the peer the failure is booked on |
| RedialTheorems.RedialWhileRetriesLast | src/net/peers.rs:761-776 | the bound is attained: a simultaneous open is followed by a redial while retries are left |
| RedialTheorems.CreditOfRequests | src/net/peers.rs:307-314 | what each request is worth: one failure, twelve, or five |
| RedialTheorems.EveryStepIsPaid | src/net/peers.rs:725-831 | every step of the swarm, dials of the other protocols included, pays for the failure it may be |
| RedialTheorems.FailuresAreBounded | src/net/peers.rs:725-831 | in every run, with the other protocols dialling too, the dial failures are bounded by the initial dials, the requests, one per foreign dial, and eleven per simultaneous open of a plain dial |
| AddressBooks.CollectListenSockets | src/net/peers.rs:458-471 | the filter collects exactly the offered sockets |
| AddressBooks.SameHostGuesses | src/net/peers.rs:491-496 | the loop over same-host listen ports collects the set of their variants |
| AddressBooks.CommonPortGuesses | src/net/peers.rs:497-504 | the loop over common ports collects the set of their variants, in any order |
| AddressBooks.TranslateOne | src/net/peers.rs:490-512 | the three-way choice is the guess set |
| AddressBooks.Translate | src/net/peers.rs:478-513 | the nested translation loops compute the union of the guess sets, in any order |
| AddressBooks.AddressBook.Dial | src/net/peers.rs:239-250 | takes the step in place |
| AddressBooks.AddressBook.DialAddress | src/net/peers.rs:252-275 | takes the step in place: creates the record, and dials unless connected |
| AddressBooks.AddressBook.AddAddress | src/net/peers.rs:277-324 | takes the step in place and keeps the invariant |
| AddressBooks.AddressBook.RemoveAddress | src/net/peers.rs:326-332 | takes the step in place |
| AddressBooks.AddressBook.CheckPrunable | src/net/peers.rs:339-363 | the early exits decide exactly whether there is a reason to keep the peer |
| AddressBooks.AddressBook.CollectPrunable | src/net/peers.rs:337-364 | visits the prunable peers once each, in some order |
| AddressBooks.AddressBook.PrunePeers | src/net/peers.rs:334-369 | takes the step in place |
| AddressBooks.AddressBook.SetRtt | src/net/peers.rs:440-447 | takes the step in place |
| AddressBooks.AddressBook.IngestOne | src/net/peers.rs:526-553 | one round of the ingest loop |
| AddressBooks.AddressBook.IngestIdentified | src/net/peers.rs:525-554 | the ingest loop, for the order it happened to take |
| AddressBooks.AddressBook.PrepareIdentified | src/net/peers.rs:453-523 | stores the record and computes the candidate set |
| AddressBooks.AddressBook.SetInfo | src/net/peers.rs:449-558 | takes the step in place, for some order of the candidates |
| AddressBooks.AddressBook.ConnectionEstablished | src/net/peers.rs:658-689 | takes the step in place; the connection and its address are entered by direction as stated above |
| AddressBooks.AddressBook.AddressChange | src/net/peers.rs:691-723 | takes the step in place; the same for the new end |
| AddressBooks.AddressBook.CloseConnection | src/net/peers.rs:371-428 | takes the step in place |
| AddressBooks.AddressBook.ValidationFailed | src/net/peers.rs:739-780 | the branch for our own validation dials; it defers another try exactly after a simultaneous open with retries left |
| AddressBooks.AddressBook.BookFaults | src/net/peers.rs:782-805 | the loop over failed addresses: records, events and redials |
| AddressBooks.AddressBook.PlainFailed | src/net/peers.rs:781-818 | the branch for plain dials |
| AddressBooks.AddressBook.DialFailed | src/net/peers.rs:725-831 | takes the step in place |
| AddressBooks.AddressBook.NewListenAddr | src/net/peers.rs:839-845 | takes the step in place |
| AddressBooks.AddressBook.ExpiredListenAddr | src/net/peers.rs:847-853 | takes the step in place |
| AddressBooks.AddressBook.PollAction | src/net/peers.rs:649-655 | hands out the first queued dial, else a deferred one, else nothing |
| RouterTheorems.RequestsAreConserved | src/net/behaviour.rs:503-629 | in every honest run each accepted request is exactly one of pending, answered once, cancelled, and abandoned by the end of the loop; no sender is dropped otherwise, stored channels match their queries, and bootstrapped implies Kademlia |
| RouterTheorems.StepKeepsInv | src/net/mod.rs:595-768 | every command and event keeps that, and never takes bootstrapping back |
| RouterTheorems.PendingMeansStored | src/net/behaviour.rs:720-745 | a pending request's channel is stored under its own query, with its kind, and nowhere else |
| RouterTheorems.RequestsAreTaken | src/net/behaviour.rs:503-745 | a request waits if a query is started and is answered at once otherwise, with the right reason; no other request notices |
| RouterTheorems.CompletionIsDelivered | src/net/behaviour.rs:162-277 | a completion, a successful bootstrap included, puts its outcome into the channel of its query, in the right form, closes it, and touches no other request |
| RouterTheorems.ProgressIsDelivered | src/net/behaviour.rs:262-266 | progress goes to the stored sync query, which stays pending, and to no other request |
| RouterTheorems.StepOnDecided | src/net/behaviour.rs:256-277 | no step touches a request that is no longer pending |
| RouterTheorems.DecidedRequestsStay | src/net/behaviour.rs:747-752 | in every honest run nothing is sent after an answer, a cancellation or the end of the loop, and none is taken back |
| RouterTheorems.BootstrappedIff | src/net/behaviour.rs:171-180 | in every honest run the router is bootstrapped if and only if some step reported a bootstrap with nothing left, whoever waited for it |
| RouterTheorems.BootstrappedStays | src/net/mod.rs:595-607 | in every honest run bootstrapping is permanent and only happens with Kademlia enabled |
| RouterTheorems.StopMeaning | src/net/mod.rs:568-582 | the end of the loop abandons exactly the pending requests |
| RouterTheorems.AbandonedIff | src/net/mod.rs:568-582 | in every honest run the abandoned requests are those that were pending when the loop stopped |
| RouterTheorems.CancelEndsOneRequest | src/net/behaviour.rs:747-752 | a cancel command ends the one pending request of its query, if there is one, and touches no other |
| RouterTheorems.DroppedHandleIsCancelled | src/net/mod.rs:814-822 | a dropped handle sends its cancel command, and that ends the request |
| Backends.Backend.Bootstrap | src/net/behaviour.rs:503-520 | in place: the request waits or is answered with the right reason, every other request is left alone, and conservation is kept |
| Backends.Backend.KadRequest | src/net/behaviour.rs:543-629 | in place: the same for the four requests that need a bootstrapped Kademlia; none is dropped silently |
| Backends.Backend.BitswapRequest | src/net/behaviour.rs:720-745 | in place: the request waits under the handle that the caller gets, every other is left alone, and conservation is kept |
| Backends.Backend.CancelQuery | src/net/behaviour.rs:747-752 | in place: the pending request of the query ends as cancelled and no other is touched; the unwrapped bitswap is there |
| Backends.Backend.FinishKad | src/net/behaviour.rs:198-219 | in place: the outcome is delivered into the channel of the query, and conservation is kept, if the kind fits |
| Backends.Backend.InjectKadEvent | src/net/behaviour.rs:162-252 | in place: a completion is delivered and touches no other request; the copied flag, written back only when it changed, is set exactly by a bootstrap with nothing left |
| Backends.Backend.InjectProgress | src/net/behaviour.rs:262-266 | in place: the query stays pending, no other request notices, and conservation is kept |
| Backends.Backend.InjectComplete | src/net/behaviour.rs:267-275 | in place: the outcome is delivered into the channel of the query and into no other, and conservation is kept |
| Backends.Backend.Shutdown | src/net/mod.rs:568-582 | in place: exactly the pending requests are abandoned |
| SyncQueries.SyncQuery.Poll | src/net/mod.rs:844-858 | returns the first completion and consumes everything up to it, or empties the channel; the result is the outcome that the theorems speak of |
| SyncQueries.SpinsIff | src/net/mod.rs:847-857 | a poll fails to return exactly when the sender is gone and no completion is left |
| SyncQueries.HeldSyncQueryPolls | src/net/mod.rs:844-880 | a held query blocks while it is stored, gives the result once completed, and spins if and only if it was abandoned |
| SyncQueries.LiveSyncQueryTerminates | src/net/mod.rs:844-880 | while the loop runs, a held query's poll returns |
| SyncQueries.SpinsIffStoppedWhilePending | src/executor.rs:80-99 | in every honest run a held query's poll spins if and only if the loop stopped while it was pending |
| SyncQueries.StopWhilePendingIsReachable | src/net/mod.rs:746-759 | a run in which that happens |
| SyncQueries.ReadyQueryReturns | src/net/mod.rs:530-548 | the router is asked exactly when blocks are missing and there are providers; otherwise the first poll returns, with success if nothing was missing |
| SyncQueries.PollAfterCompletionSpins | src/net/mod.rs:847-857 | polling a finished query again does not return |
| Subscriptions.RetainedMeaning | src/net/behaviour.rs:684 | exactly the live subscribers are retained |
| Subscriptions.DeliverMeaning | src/net/behaviour.rs:684 | exactly the live subscribers of the topic get the event, once |
| Subscriptions.StepKeepsInv | src/net/behaviour.rs:637-690 | every step keeps the delivery invariant |
| Subscriptions.ReceiversGetEverything | src/net/behaviour.rs:677-690 | in every run lists are nonempty and each live receiver has every event of its topic since it subscribed, once and in order |
| Subscriptions.SubscribeAcceptsIff | src/net/behaviour.rs:642-661 | a subscriber gets a receiver if and only if a protocol is enabled and gossipsub accepts a topic that is new here or is not asked |
| Subscriptions.AgreementBreaksIff | src/net/behaviour.rs:646-675 | a step breaks the agreement with the protocols if and only if gossipsub fails in it |
| Subscriptions.TopicsAgree | src/net/behaviour.rs:637-690 | in every run without such failures the topics with subscribers are those subscribed in each enabled protocol |
| Subscriptions.RefusalSticks | src/net/behaviour.rs:646-656 | after a refusal the next subscriber is accepted although gossipsub does not have the topic |
| Subscriptions.SubscriptionTable.Subscribe | src/net/behaviour.rs:637-662 | takes the step in place and says whether the caller gets a receiver |
| Subscriptions.SubscriptionTable.SendToAll | src/net/behaviour.rs:684 | the retain loop delivers and filters |
| Subscriptions.SubscriptionTable.NotifySubscribers | src/net/behaviour.rs:677-690 | takes the step in place, unsubscribing when the list empties |
| CliText.TokensOfJoin | cli/src/lib.rs:140 | splitting a line of fields gives the words of each field in turn |
| CliText.CollapseIff | cli/src/lib.rs:348 | splitting and joining is idempotent, and leaves a text alone exactly when it has only single blanks between words |
| CliText.HexRoundTrip | cli/src/lib.rs:159-163 | reading undoes writing of block data |
| CliText.HexText | cli/src/lib.rs:119-121 | the high digit of each byte comes first |
| CliText.DigitIff | cli/src/lib.rs:120 | digits are written in lower case and read in either |
| CliText.WriteHex | cli/src/lib.rs:119-121 | the loop writes two digits a byte |
| CliText.BytesOfMeaning | cli/src/lib.rs:159-163 | reading succeeds exactly when every chunk of two is valid, and gives the value of each, in order |
| CliText.ReadHex | cli/src/lib.rs:159-163 | the loop reads chunks of two, fails exactly when some chunk is invalid, and else returns their values |
| CliTheorems.BlockArgs | cli/src/lib.rs:156-166 | a printed block is read back if and only if its id is written as a word and it is nonempty and matches; an empty one panics, a mismatch is an error |
| CliTheorems.CommandRoundTrip | cli/src/lib.rs:110-180 | a command is read back from its line if and only if each field is written as one word and its block is nonempty and valid |
| CliTheorems.CommandLine | cli/src/lib.rs:110-134 | the line of every command, letter by letter |
| CliTheorems.UnknownCommand | cli/src/lib.rs:177 | lines that begin with anything but a command keyword are errors |
| CliTheorems.UnknownEvent | cli/src/lib.rs:361 | lines that begin with anything but an event keyword are errors |
| CliTheorems.ShortEventLine | cli/src/lib.rs:238-262 | the line of every event with at most one field |
| CliTheorems.LongEventLine | cli/src/lib.rs:248-265 | the line of every other event |
| CliTheorems.EmptyAddressPanics | cli/src/lib.rs:142-146 | an address that is written as nothing makes the parser panic on its own command or event |
| CliTheorems.DialFailureCollapses | cli/src/lib.rs:345-350 | a dial failure is read back with the whitespace of its error collapsed if and only if its peer and address are written as words |
| CliTheorems.PeerInfoCollapses | cli/src/lib.rs:335-340 | a peer-info event is read from its record with whitespace collapsed, so it is read back if and only if that reads as the same record |
| CliTheorems.EventRoundTrip | cli/src/lib.rs:235-364 | every other event is read back from its line if and only if each field is written as one word, its block is nonempty and valid, and its error text is collapsed |

## Left out

- AddressBook.Notify: one event log stands for the event streams; dropping the streams of receivers that are gone is not modelled.
- AddressBook.Borrow: records are taken out of the map by value, changed in place and put back; the lock around the map and aliasing of records are not modelled.
- CliTheorems.PeerInfoCollapses: the JSON codec is opaque, so which records read back after collapsing is not spelled out; the peer must be written as a word, as every peer identifier is.
- CliTheorems.CommandRoundTrip: peer, address and content-id formats are assumed to be free of whitespace and to read back.
- Backends.Backend.BitswapRequest: a disabled bitswap, on which the source panics, is a precondition.
- Backends.Backend.KadRequest: payloads and error values of replies are opaque numbers.
- Rtts.AveragesStayWithinSamples: durations are unbounded nanosecond counts, so overflow of a duration is not modelled.
- Rtts.ReachableFailureRate: the failure counter is a natural number without wrap-around.
- A handler reads the clock once.
- Whether an error is the one of a TCP simultaneous open (src/net/peers.rs:887-911) is a boolean of the fault, and the random delay of a redial is any delay.
- The texts of failures, the external address list, metrics and tracing.
- `addresses_of_peer`, which only filters, and the choice the swarm makes from it.
- Forwarding of added and removed addresses to Kademlia, and the connection handler's keep-alive.
- `forward_listener_events`, `publish`, `broadcast`, bans, and the panic on a broadcast topic that is not UTF-8.
- What subscriptions and event streams see when the swarm loop ends; only reply channels are followed beyond it.
- Kademlia, bitswap, gossipsub and broadcast themselves: they issue fresh ids, report results of the kind asked for, and accept or refuse.
- The block store, pinning and garbage collection, transports and DNS, the executor and the shared-variable plumbing.
