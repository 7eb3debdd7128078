# Cluster membership, modelled and proved

This project models the gossip cluster membership of the repository: how nodes
learn of each other, suspect, bury and forget each other, and how a node defends
or gives up its own good name. It works at two levels.

**Components.** Each object that several tasks share is a class with the fields the
source keeps behind one lock, and each of its methods is proved against a function
on the values of those fields. The properties are lemmas about those functions.

| file | what it models |
|---|---|
| `Types.dfy` | ids, addresses, records, messages, the limits on tags |
| `LocalNode.dfy` | a node's own incarnation, readiness and shutdown flag |
| `MemberTable.dfy` | the table of beliefs and its one merge rule |
| `GossipQueue.dfy` | rumors with send budgets |
| `Dissemination.dfy` | merging a rumor and passing it on; the health flip |
| `Detector.dfy` | the probe rotation, marking, sweeping, reaping |
| `Sync.dfy` | whole-table exchanges and joins |
| `Framing.dfy` | messages on a TCP stream |
| `Datagrams.dfy` | the size of a datagram |
| `Proxy.dfy` | backends and the round-robin over them |

**Protocols.** `Cluster.dfy` puts any number of processes and a network side by side
as one transition system, built on the component functions. Every lock a task takes
is a step of its own, and what a task carries from one lock to the next (a rumor not
yet merged, a rumor merged but not yet queued, a copy of a member being probed or
swept, a snapshot) is part of the state, so the theorems hold for every
interleaving. The network loses messages, repeats them, reorders them and may hand
any message to anyone. `ClusterInvariants.dfy`, `ClusterTheorems.dfy`,
`ClusterHistory.dfy` and `Reaping.dfy` prove what holds in every state of every run.
`ClusterRefinement.dfy` proves that every task of a process, taken lock by lock but
without interruption, can run and does what the component's own operation does, so the
steps leave nothing out. `ClusterWitnesses.dfy` builds whole runs: a member that joins,
leaves and is forgotten, and the runs that show where a promise stops holding. `Probing.dfy` has the registry
of probes in flight and a second transition system, for probes and their answers, with a
log of what happened when; `ProbeTheorems.dfy` says exactly how far its numbers and
addresses can be relied on.

## Reading the model

- A process's id is its place in starting order; the source draws ids at random and
  relies on their being different. Addresses, tags and the largest incarnation are
  as in the source. A restart is a new process.
- One clock is shared by all processes and never runs backwards. It only ever drives
  the two timeouts, each on entries the same process clocked itself.
- A "record" about a member is anything that can still be merged: a table entry, a
  queued rumor, a rumor or snapshot in a message, the sender of a join, a sync or a
  leave, or a copy some task holds. `Cluster.IsRecord` says so in full.
- `Proc.said` and `Proc.flippedAtMax` are history: no step reads them. So is `since`
  in the packets of `Probing.dfy`.
- Nobody probes itself: a node is never in its own table (`src/membership/src/state.rs:41-49`).
- Hash-map order and shuffles are arbitrary. `MembersWhere` and `ShuffledIds` pick
  elements without saying which, and every result holds for all picks.
- The byte layout of bodies and the authentication tag are parameters of
  `Framing.dfy`: decoding undoes encoding, and a tag has 32 bytes.

## Where the code and its comments disagree

The model follows the code.

- `src/membership/src/sync.rs:30-34` calls the merge rule order-independent. It is for
  an entry that is held. For a member not held, `OrderMattersExactlyWhenAnObituaryOutranks`
  gives the exact condition under which order matters, and
  `DeadThenAliveDiffersFromAliveThenDead` the smallest case.
- `src/membership/src/state.rs:80-83` says two rumors at one incarnation never disagree.
  A change of readiness at the largest incarnation reuses the number:
  `RecordsContradictExactlyAtMax` shows that some run holds two contradicting records at
  an incarnation if and only if it is the largest one.
- `src/membership/src/node.rs:171-174` says a refutation outranks the rumor everywhere.
  `DoubtIsAnswered` shows that it does exactly when the rumor is below the largest
  incarnation, which a node can reach (`FlipsReach`).
- `src/membership/src/dissemination.rs:73-76` queues whatever changed the table. The merge
  and the push take two locks, so what is queued can be older than what is believed:
  `SplitApplyAgreesExactlyWhenLastMergePushesLast` gives the exact condition.
- `src/membership/src/dissemination.rs:15-17` gives the limit as three times the
  logarithm of the cluster size. The size is cut to 32 bits first:
  `RetransmitLimitIsLogarithmic` shows the formula holds exactly below 2^32. (Between
  2^31 and 2^32 a build with overflow checks stops instead of answering 32.)
- `src/membership/src/udp.rs:130-134` says no two probes in flight share a sequence
  number. The counter wraps: `NextNumberIsInUseExactlyWhen` and
  `NumbersRepeatExactlyWhenDrawsWrap` give the exact condition in every run, and
  `ANumberIsTakenFromAProbeInFlight` a run in which a probe in flight loses its number.
- `src/membership/src/udp.rs:156-158` lets only an answer about the member asked about
  count. It may be an answer to somebody else, or to an earlier question:
  `ProbesCanBeFooledExactlyWhen` shows that a probe can be woken with no answer since it
  was registered if and only if two processes use one address, or two processes exist
  and one draws more than 2^32 numbers.
- `src/membership/src/join.rs:64-76` writes frames that `join.rs:92-94` refuses to read:
  `FrameRoundTripExactlyWithinLimit`.
- `src/proxy.rs:94-99` gives every backend one try. `EachBackendOnceUnlessTheCounterWraps`
  gives the exact condition on the wrapping counter.

## Model

| member | source | states |
|---|---|---|
| LocalNodes.LocalNode.Refute | src/membership/src/node.rs:175-185 | refuses while leaving; otherwise the number ends above the rumor, or both are at the largest incarnation |
| LocalNodes.LocalNode.SetReady | src/membership/src/node.rs:203-213 | reports a change exactly when readiness changed, and moves number and readiness together |
| LocalNodes.LocalNode.Leave | src/membership/src/node.rs:190-195 | sets the flag and nothing else |
| LocalNodes.RefuteMovesJustPastTheRumor | src/membership/src/node.rs:175-185 | a refute changes nothing but the number, to one past the rumor if it has to move and can |
| LocalNodes.FlipMovesUpByOne | src/membership/src/node.rs:203-213 | a change of readiness moves the number up by one if it can; the same answer, or any answer while leaving, moves nothing |
| LocalNodes.OwnNumberOnlyGrows | src/membership/src/node.rs:171-213 | over any sequence of refutes, flips and leaves the number never falls, nothing moves after a leave, and a number that stays keeps its readiness below the largest incarnation |
| MemberTables.MemberTable.Merge | src/membership/src/state.rs:40-95 | the whole new table and the outcome for every kind of rumor, ourselves included |
| MemberTables.MergeDoesWhatItSays | src/membership/src/state.rs:40-95 | the outcome and the new table, in the fields of rumor and entry: only a doubt about ourselves is for refuting, our own alive rumor is ignored, and who is added or updated is so exactly when the source says, with the clock started now |
| MemberTables.MemberTable.Remove | src/membership/src/state.rs:168-173 | exactly the given ids go |
| MemberTables.MemberTable.MembersWhere | src/membership/src/state.rs:185-193 | lists exactly the matching entries, each once, in arbitrary order |
| MemberTables.MemberTable.RelayCandidates | src/membership/src/state.rs:135-150 | at most `count` different members, none dead, none the target, and all of them when there are fewer than `count` |
| MemberTables.MemberTable.ShuffledIds | src/membership/src/state.rs:118-128 | every id exactly once, in arbitrary order |
| MemberTables.FoldHeldIsMaximum | src/membership/src/state.rs:73-93 | a held entry ends untouched, clock and all, or as the first rumor of the highest rank, at that rumor's time |
| MemberTables.AddressStaysAsFirstLearned | src/membership/src/state.rs:75-78 | no news moves or removes an entry, whatever addresses the rumors carry |
| MemberTables.FoldVacantStartsAtFirstCreator | src/membership/src/state.rs:52-72 | a member not held stays unknown until the first rumor that is not dead and has a real address |
| MemberTables.MergeIsOrderIndependentWhenHeld | src/membership/src/sync.rs:30-34 | over coherent rumors a held entry ends as the one maximum, whatever the order and repetition |
| MemberTables.VacantFoldIsSuffixMaximum | src/membership/src/state.rs:52-93 | a member not held ends as the maximum over the suffix from the first rumor able to open an entry |
| MemberTables.OrderMattersExactlyWhenAnObituaryOutranks | src/membership/src/sync.rs:30-34 | for a member not held, two rearrangements of the same rumors can end differently exactly when some rumor can open an entry but one that cannot outranks all of those; otherwise not even repetition matters |
| MemberTables.DeadThenAliveDiffersFromAliveThenDead | src/membership/src/state.rs:59-69 | the smallest case in which order matters |
| MemberTables.FoldTableIsPointwise | src/membership/src/state.rs:50-94 | entries never interfere: each sees only the rumors about its own member, and our own id is never touched |
| MemberTables.RefutationTakesHold | src/membership/src/state.rs:196-206 | an alive rumor above r lands in any entry or none, and no run of rumors at or below r changes the result |
| GossipQueues.RetransmitLimitIsLogarithmic | src/membership/src/dissemination.rs:66-70 | the limit is three times the rounded-up logarithm exactly for sizes below 2^32, and between 3 and 96 always |
| GossipQueues.GossipQueue.Push | src/membership/src/dissemination.rs:34-43 | the new rumor replaces any about the same member and every other entry stays as it was |
| GossipQueues.PushReplaces | src/membership/src/dissemination.rs:34-43 | the rumor ends up last, in place of whatever was queued about its member, and the others stay |
| GossipQueues.GossipQueue.Take | src/membership/src/dissemination.rs:46-63 | the batch and the queue left behind; no decrement meets a zero |
| GossipQueues.TakeSendsTheFront | src/membership/src/dissemination.rs:46-63 | the batch is the front of the sorted queue, and what is left is the sorted queue with a send off each of the first ten and the spent ones gone |
| GossipQueues.TakeKeepsOrder | src/membership/src/dissemination.rs:52-62 | what is left is in the order it was sent in |
| GossipQueues.SortIsStable | src/membership/src/dissemination.rs:49-50 | most sends left first, a permutation, equals in their old order |
| GossipQueues.TakeLowersTotal | src/membership/src/dissemination.rs:46-63 | min(10, length) different queued rumors go out and the total owed falls by as many |
| GossipQueues.TakeConserves | src/membership/src/dissemination.rs:52-62 | for any member, what a batch carries is exactly what stops being owed |
| GossipQueues.RunConserves | src/membership/src/dissemination.rs:35-63 | over any run without a replacement, sent plus still owed equals what was owed; ids stay unique and budgets positive |
| GossipQueues.BudgetIsSpentExactly | src/membership/src/dissemination.rs:15-17 | a rumor not replaced goes out at most its limit of times, and exactly that often if and only if it has left the queue |
| GossipQueues.TakeLowersDrainTime | src/membership/src/dissemination.rs:49-62 | max(longest budget, total / 10 rounded up) falls by exactly one per take |
| GossipQueues.QueueDrainsInExactlyDrainTime | src/membership/src/dissemination.rs:46-63 | without pushes the queue is empty after n takes if and only if n has reached that number |
| Dissemination.Apply | src/membership/src/dissemination.rs:78-113 | the whole new state of node, table and queue, and agreement between them is kept |
| Dissemination.ApplyTellsWhatItLearned | src/membership/src/dissemination.rs:84-93 | news about another member is queued exactly when it changed the table, as it came and with a full budget, and whatever else was queued stays |
| Dissemination.OwnAliveRumorIsIgnored | src/membership/src/state.rs:41-43 | our own alive rumor coming back changes nothing at all |
| Dissemination.TellReadiness | src/health.rs:37-49 | a changed answer moves the number and queues the alive rumor; an unchanged one does nothing |
| Dissemination.FlipIsTold | src/health.rs:37-49 | a changed answer is queued with a full budget under the next number, in the fields of the rumor; anything else changes nothing |
| Dissemination.HandleGossip | src/membership/src/udp.rs:348-370 | the rumors are applied in the order they came |
| Dissemination.HandleLeave | src/membership/src/udp.rs:324-340 | a leave is applied as its sender's death at the number given: a held entry not above it is then dead at it, and an unknown sender stays unknown |
| Dissemination.QueueAgreesWithTable | src/membership/src/dissemination.rs:25-26 | through any sequence of applies, takes, reaps, flips and a leave, queue and table agree on every member in both, queued rumors about ourselves are current, and the table never holds ourselves or an unreachable address |
| Dissemination.FreshAgentAgrees | src/commands/start.rs:67-82 | a new node satisfies the agreement exactly when its address is a real one, which start-up checks |
| Dissemination.SplitApplyAgreesExactlyWhenLastMergePushesLast | src/membership/src/dissemination.rs:84-90 | with merge and push taken apart, in any order and with sends in between, a queued rumor says what the entry says exactly when the last push is that of the last merge |
| Dissemination.SplitApplyCanDisagree | src/membership/src/dissemination.rs:35-42 | the smallest case in which the older rumor stays queued |
| Dissemination.DoubtIsAnswered | src/membership/src/dissemination.rs:92-109 | in any state, a doubt about ourselves is ignored while leaving, and otherwise leaves exactly one alive rumor about us, current, with a full budget, and the rest of the queue as it was; it is above the doubt if and only if the doubt is below the largest incarnation |
| Detector.Rotation.NextTarget | src/membership/src/detector.rs:110-125 | the last live member of this pass or of one fresh shuffle; none exactly when nobody is live; always terminates |
| Detector.EveryLiveMemberIsProbed | src/membership/src/detector.rs:110-125 | from any list without repeats, 2n - 1 consecutive calls return each of the n live members, under every shuffle |
| Detector.FewerCallsCanMissAMember | src/membership/src/detector.rs:110-125 | for every table and live member there is a list and a shuffle for which 2n - 2 calls miss it |
| Detector.Mark | src/membership/src/detector.rs:187-206 | merges the new state at the incarnation of the copy, and reports exactly whether an entry changed |
| Detector.HandleResult | src/membership/src/detector.rs:127-147 | an answered probe changes nothing, a failed one merges a suspicion of the copy |
| Detector.SweepSuspects | src/membership/src/detector.rs:149-159 | exactly the entries suspected for 5000 milliseconds become dead, clocked from now, and each such death is queued with a full budget; every other entry, and what is queued about it, stays |
| Detector.SweepKillsOnlyWhatItScanned | src/membership/src/detector.rs:149-159 | whatever happens between scan and mark no entry is created, and unless the member is reaped on the way only the very suspicion that was scanned is killed |
| Detector.SuspicionClockNeverRestarts | src/membership/src/detector.rs:142-146 | repeated suspicions keep the first clock, and a suspicion nobody cleared is dead after the first sweep at five seconds or later |
| Detector.FailedProbeOnlySuspectsTheLiving | src/membership/src/detector.rs:140-146 | unless the member is reaped on the way, a failed probe turns an entry suspect only if it is still exactly as copied and alive; on a reaped one the mark would open an entry |
| Detector.ReapDead | src/membership/src/detector.rs:168-185 | an entry goes if and only if it has been dead for 30000 milliseconds; every other entry stays as it is |
| Detector.DeathClockNeverRestarts | src/membership/src/detector.rs:20-28 | nothing heard at or below a dead member's number changes its clock, and the first reap at thirty seconds or later forgets it, none before |
| Detector.SuspectedIsForgottenOnTime | src/membership/src/detector.rs:149-185 | an uncontradicted suspicion is dead after the first sweep at five seconds, and gone after the first reap thirty seconds after that sweep |
| Sync.Absorb | src/membership/src/sync.rs:91-103 | the peer's own record first, then every member, each applied in turn |
| Sync.HandleSyncRequest | src/membership/src/join.rs:240-249 | the reply is the identity and table from before the request is absorbed |
| Sync.HandleJoinRequest | src/membership/src/join.rs:269-285 | the reply lists the table from before the joiner is added |
| Sync.SyncMakesViewsEqual | src/membership/src/sync.rs:23-34 | after an uninterrupted exchange both sides have the same view of a third node if and only if their entries did not conflict, and each holds the other at no less than it introduced itself with |
| ClusterTheorems.SyncInAnyRunMakesViewsEqual | src/membership/src/sync.rs:57-103 | in every state of every run, for any two processes, the views are equal for every third member that has not flipped at the largest incarnation |
| ClusterInvariants.ActHolds | src/membership/src/dissemination.rs:78-113 | every step of a process builds its records out of records it had or what it says new, so a property of all of these spreads to all records |
| ClusterInvariants.IncarnationOwnership | src/membership/src/node.rs:197-202 | in every run no record anywhere is above its member's own incarnation or carries another address or other tags |
| ClusterInvariants.OnlyTheOwnerMovesItsNumber | src/membership/src/node.rs:171-213 | a number moves only by its owner's refute or flip, only up, and then above every record there is |
| ClusterHistory.RefutesOnlyDoubts | src/membership/src/state.rs:41-49 | in every run a node only refutes a record that is about itself and not alive |
| ClusterHistory.UndoubtedNumberStays | src/membership/src/node.rs:171-185 | in every run a node that no record doubts and that does not flip keeps its number, whatever it hears |
| ClusterHistory.DeathHasACause | src/membership/src/detector.rs:149-159 | in every run a member is anywhere said to be dead only after it announced leaving or some process held it suspected for five seconds, and suspect only after a probe of it failed |
| ClusterHistory.ForgottenOnlyWhenLongDead | src/membership/src/detector.rs:168-185 | in every run a running process forgets a member only by a reap that found it dead for thirty seconds in its table |
| ClusterInvariants.NumbersNeverFall | src/membership/src/node.rs:187-195 | numbers never fall over a run, and nothing about a leaving node ever changes |
| ClusterInvariants.RecordCoherence | src/membership/src/state.rs:80-83 | any two records about one member at one incarnation, from any two states of a run, agree on readiness, tags and address, except at the largest incarnation of a member that flipped there |
| ClusterInvariants.FlipContradictsOnlyAtMax | src/membership/src/node.rs:203-213 | a flip contradicts something the node stood for before exactly when it happens at the largest incarnation |
| ClusterHistory.FlippedMeansItFlipped | src/membership/src/node.rs:203-213 | in every run, what the coherence theorems except happened: the member changed its readiness at the largest incarnation |
| ClusterWitnesses.FlipsReach | src/membership/src/node.rs:34-36 | a run reaches every incarnation, the largest included |
| ClusterWitnesses.RecordsContradictExactlyAtMax | src/membership/src/state.rs:80-83 | some run holds two records about one member at one incarnation with different readiness if and only if that incarnation is the largest |
| ClusterTheorems.LeaveCarriesTheFinalNumber | src/membership/src/udp.rs:301-308 | whoever received a Leave heard the sender's final values |
| ClusterTheorems.ReceivedLeaveIsToBeMergedAsDeath | src/membership/src/udp.rs:328-334 | receiving a Leave leaves exactly one thing to do: merge the sender's record, dead |
| ClusterTheorems.LeaveIsFinal | src/membership/src/udp.rs:324-340 | a received Leave hands over its sender's death, and merged into an entry makes it exactly dead at the incarnation given; it stays so until it is removed, whatever else arrives |
| ClusterRefinement.ReceivedLeaveBuries | src/membership/src/udp.rs:324-340 | in any run, any running process that holds the leaver and receives its Leave can go on to hold it dead at the number given |
| ClusterRefinement.ReceivedMessageIsHandled | src/membership/src/udp.rs:407-466 | a process that receives a message and is left to itself ends as the component for that message would leave it: gossip applied, a leave as a death, a join as an alive record, a sync absorbed |
| ClusterRefinement.FailedProbeRuns | src/membership/src/detector.rs:127-147 | picking a target and failing to reach it can run, and suspects exactly what was copied |
| ClusterRefinement.SweepRuns | src/membership/src/detector.rs:149-159 | an expired suspicion can be swept, and its obituary applied |
| ClusterRefinement.ReapRuns | src/membership/src/detector.rs:168-185 | a member dead for thirty seconds can be reaped, and nothing else changes |
| ClusterRefinement.FlipRuns | src/health.rs:37-49 | a health check's answer, lock by lock, does what it does as one step |
| ClusterRefinement.LeaveRuns | src/commands/start.rs:228-249 | leaving sets the flag and then sends the final identity |
| ClusterRefinement.DatagramRuns | src/membership/src/udp.rs:171-299 | any ping, ack, request or report can go out with the identity of the moment and the next batch |
| ClusterRefinement.TableRuns | src/membership/src/join.rs:231-249 | any sync message or join reply can go out with the identity and table of the moment |
| ClusterWitnesses.AMemberIsForgotten | src/membership/src/detector.rs:161-167 | a run in which a member joins, leaves and stops, one table holds its obituary, and thirty seconds later none does |
| ClusterTheorems.RefutationIsAbove | src/membership/src/node.rs:171-185 | every alive rumor built after answering a doubt is above the doubt, and above every record about the node if its number moved |
| ClusterTheorems.RefutationWins | src/membership/src/state.rs:196-206 | any table that merges such a rumor holds the member above the doubt, for as long as the entry stays, and no record at or below the doubt changes it |
| ClusterTheorems.EntryNeverFalls | src/membership/src/state.rs:196-206 | over any run an entry that stays never falls in rank |
| ClusterTheorems.RecordsAreCoherent | src/membership/src/state.rs:80-83 | records from any states of a run meet the condition under which a held entry's merge is order-independent |
| ClusterTheorems.EntryIsTheMaximumOfWhatItHeard | src/membership/src/sync.rs:30-34 | in every run an entry that stays is the one highest of the record it was and all the rumors merged about it since, whatever their order |
| ClusterTheorems.TablesCohere | src/membership/src/sync.rs:86-90 | any two tables of one state conflict about a member only at the largest incarnation, and only if it flipped there |
| Reaping.TouchesIsAnyChange | src/membership/src/detector.rs:161-185 | the steps counted against the measure are exactly those that change what some table holds about the member |
| Reaping.ForgettingRun | src/membership/src/detector.rs:161-167 | once only obituaries of a gone member are left, every change to what a table holds about it uses up some of a measure that nothing raises |
| Reaping.ReapingSticks | src/membership/src/state.rs:59-69 | from then on no other record of it reappears, no table takes it up again, and all reaps and clock restarts together stay below a fixed bound |
| Datagrams.RumorFits | src/membership/src/wire.rs:19-26 | a rumor with checked tags takes at most 113 bytes |
| Datagrams.EveryDatagramFits | src/membership/src/udp.rs:33-91 | in every run every datagram in the network takes at most 1299 bytes and carries at most ten rumors of at most 113 |
| Datagrams.LongestDatagram | src/membership/src/wire.rs:22-24 | 1299 is reached |
| Datagrams.KindsOfDatagram | src/membership/src/udp.rs:34-77 | how the lengths of the five kinds compare |
| Datagrams.ShortestRumor | src/membership/src/wire.rs:19-26 | a rumor takes 27 bytes at least, which is reached, and every tag adds its length and a byte |
| Datagrams.VarintLenIsExact | src/membership/src/wire.rs:19-26 | a number takes one byte per group of seven bits |
| Probing.PendingAcks.NextSeq | src/membership/src/udp.rs:135-137 | hands out the counter and moves it on, wrapping at 2^32 |
| Probing.PendingAcks.Register | src/membership/src/udp.rs:142-146 | adds the waiter under its number |
| Probing.PendingAcks.Resolve | src/membership/src/udp.rs:153-167 | wakes and removes a waiter exactly when the answer is about the member it asked about |
| Probing.PendingAcks.Ping | src/membership/src/udp.rs:171-199 | true exactly when the ping was sent and an answer about the target came in under its number; afterwards it waits no more |
| Probing.PendingAcks.PingReq | src/membership/src/udp.rs:201-240 | the same for one round of relays, of which at least one must have been sent to |
| Probing.PendingAcks.Probe | src/membership/src/detector.rs:78-106 | a probe succeeds exactly when one of its two rounds was sent and answered about the target under that round's number, and draws one number or two |
| Probing.AckedExactlyWhenWoken | src/membership/src/udp.rs:142-199 | a waiting probe is acked exactly when one of the answers, in the order they come, wakes its own registration |
| Probing.ResolveKeepsInv | src/membership/src/udp.rs:417-470 | an answer that reaches a waiter goes back to that waiter's own registration |
| Probing.ReportKeepsInv | src/membership/src/udp.rs:266-299 | a relay's report rests on an answer later than the request it reports on |
| Probing.ProbeSuccessIsCaused | src/membership/src/detector.rs:78-106 | every wake-up, direct or relayed, rests on one registration and an answer to a ping by the subject itself after it, and no registration is woken twice |
| ProbeTheorems.OnlyAnswersAboutTheSubjectWake | src/membership/src/udp.rs:153-167 | in every run a step wakes a registration exactly when it is an answer, direct or relayed, under its number about the member it was for; any other answer changes nothing |
| ProbeTheorems.DirectProbeSucceeds | src/membership/src/udp.rs:171-199 | over any two addresses, a run in which a ping is answered and wakes its probe |
| ProbeTheorems.RelayedProbeSucceeds | src/membership/src/udp.rs:266-299 | over any three addresses, a run in which the asker's own ping is lost and given up and a relay's report wakes its second round |
| ProbeTheorems.NumbersRepeatExactlyWhenDrawsWrap | src/membership/src/udp.rs:130-137 | in every run two registrations of one process share a number exactly when the numbers drawn before them are equal modulo 2^32 |
| ProbeTheorems.NextNumberIsInUseExactlyWhen | src/membership/src/udp.rs:130-137 | in every run the next number is that of a probe in flight exactly when that probe is a multiple of 2^32 draws back |
| ProbeTheorems.ANumberIsTakenFromAProbeInFlight | src/membership/src/udp.rs:142-146 | a run in which a new probe takes the number of one in flight, which is then no longer waiting |
| ProbeTheorems.SharedAddressFoolsAProbe | src/membership/src/udp.rs:249-255 | for any addresses of which two are the same, a run in which a probe is woken with no answer since it was registered |
| ProbeTheorems.ProbesCanBeFooledExactlyWhen | src/membership/src/udp.rs:153-167 | for all address lists and bounds on draws, such a run exists if and only if two addresses are the same and a number may be drawn, or there are two processes and more than 2^32 draws |
| Framing.TcpConnection.WriteFrame | src/membership/src/join.rs:64-76 | appends the length and the sealed payload, or nothing if the length does not fit |
| Framing.TcpConnection.ParseFrame | src/membership/src/join.rs:78-119 | what the front of the buffer is, taking it off when it is a frame |
| Framing.TcpConnection.ReadFrame | src/membership/src/join.rs:48-62 | however the bytes arrive in pieces, the next frame, the end or an error is that of all of them together |
| Framing.TcpConnection.ReadAllFrames | src/membership/src/join.rs:222-230 | serving a connection yields what reading the whole stream yields |
| Framing.FrameRoundTripExactlyWithinLimit | src/membership/src/join.rs:90-118 | a written frame is read back if its sealed payload is within the limit, and is an error otherwise |
| Framing.StreamRoundTrip | src/membership/src/join.rs:48-119 | for any bodies, those before the first too long for the reader come back in order, and then the stream ends, or fails at that one |
| Framing.TcpConnection.WriteAllFrames | src/membership/src/join.rs:64-76 | writing one body after the other puts their frames on the stream, up to the first that cannot be framed |
| Framing.SendAll | src/membership/src/join.rs:48-119 | bodies written at one end and read at the other, the bytes cut in between in any way, come back in order, all of them when they fit |
| Framing.CutStreamIsAnError | src/membership/src/join.rs:54-60 | a stream cut inside a frame gives the whole frames before it and then an error |
| Framing.OpenUndoesSeal | src/membership/src/auth.rs:58-80 | opening undoes sealing |
| Framing.OpenAcceptsOnlySealed | src/membership/src/auth.rs:58-80 | opening gives a message exactly for what sealing that message makes |
| Framing.FrameIsWhatParses | src/membership/src/join.rs:78-119 | the front of a buffer is read as a body exactly when it is a length of at most four megabytes, highest byte first, and as many bytes that start with version 6 and are an authentic message decoding to it |
| Framing.WaitsOnlyForMissingBytes | src/membership/src/join.rs:85-100 | more bytes are waited for exactly while the length or what it announces is incomplete |
| Proxy.Backends | src/proxy.rs:132-157 | whatever order the table lists its members in, the strictly ascending list of exactly the addresses, at the given port, of members that are alive, ready and carry the tag if one is asked for, and our own under the same rule |
| Proxy.BeforeIsAnOrder | src/proxy.rs:130-131 | the order of the list is a strict total order with IPv4 first, then by address, then by port |
| Proxy.AscendingListIsUnique | src/proxy.rs:130-131 | there is only one such list |
| Proxy.RoundRobin.Forward | src/proxy.rs:80-125 | tries go around the list from the shared counter, stop at the first that accepts, and cover the whole length when none does |
| Proxy.EachBackendOnceUnlessTheCounterWraps | src/proxy.rs:94-99 | the tries of one connection, and the first tries of consecutive ones, are all different exactly when the counter does not wrap on the way or wraps at a multiple of the length |
| Proxy.VisitingOnceVisitsAll | src/proxy.rs:94-99 | and then every backend is among them |

## Left out

- Sockets, tasks, timeouts and accept loops: they appear only as steps that deliver, lose, give up or time out.
- The strength of the authentication tag, and forged messages: every message in the model was sent by a process of the model.
- The byte-level layout of bodies; datagram sizes are computed from the layout's size rules.
- The command line, member listing, HTTP API, logging, signals and the health check's own connection.
- The quality of random choices, and how fast gossip spreads: no delivery is promised.
- The return to life of a member reaped everywhere by a very late rumor that is not dead: the code relies on the thirty seconds an entry is kept, and the model makes no promise about it.
- The count of members told about a leave: each send is one step, in any order.
- Deliver to the addressee only: a cluster message may reach any process, and a task may apply what it holds in any order, so the cluster theorems cover more behaviours than the code has.
- ClusterTheorems.LeaveIsFinal: says nothing about an entry opened again after it was removed.
- Detector.SweepKillsOnlyWhatItScanned: on a member reaped and met again between scan and mark it promises only that no entry is created; in the code one task scans, marks and reaps, so that cannot happen.
- Detector.FailedProbeOnlySuspectsTheLiving: on a member reaped between copy and mark it says when the mark opens an entry again; in the code one task probes, marks and reaps, so that cannot happen.
- Probing.PendingAcks.Probe: the answers of each round and which sends went out are inputs, and other tasks draw no number between the two rounds.
- Probing.ProbeSuccessIsCaused: assumes one address per process and at most 2^32 sequence numbers per process, which `ProbesCanBeFooledExactlyWhen` shows to be needed, and says what caused a success, not that a live member is always found alive.
- GossipQueues.GossipQueue.Take: updates the queue as a sequence and sorts it with a specified stable sort in place of the library's.
