# Verified models of the replication protocols

A Dafny model of the Byzantine fault-tolerant replication library: the replicas and clients of HotStuff,
Neo, PBFT and Zyzzyva, the block chain they share, and the ordered multicast with its sequencer, receivers
and delegate. `dafny verify dfyconfig.toml` checks the project.

## How it is organised

Every replica and client is a class with the fields of the source and one method per handler
(`HotStuffReplica`, `NeoReplica`, `PbftReplica`, `ZyzzyvaReplica`, `QuorumClient`, `ZyzzyvaClient`, `Chains`,
`Sequencing`, `Delegates`). Each method is proved to compute a function on values (`HotStuff`, `Neo`, `Pbft`,
`Zyzzyva`, …); the theorems about runs are proved about these functions:

- a *run* is any interleaving of handler steps of the correct replicas. Messages may be lost, repeated and
  reordered; up to f replicas, where n > 3f, may send anything. A message in the name of a correct replica
  was sent by it. What a theorem assumes beyond this is in its row below or under "Left out".
- a *history* of one replica is any sequence of messages it may receive, from anyone; a replica in a run has one.
- a failed assertion, a missing map key or an index out of bounds stops the replica (its status says why). It
  takes no further steps. Theorems say which of these can happen.
- a digest is modelled by the block it was computed from, so it is injective; the application is an arbitrary
  deterministic function, whose results are represented by the history they depend on.

| module | content |
|---|---|
| `Blocks`, `Quorums`, `Chains` | blocks, digests, counting, the chain of `common.rs` |
| `HotStuff*` | replica, reorder buffer, agreement, correct primary, execution |
| `HotStuffVoting`, `HotStuffCounting`, `HotStuffCommits` | exactly when a replica votes, certifies, locks, executes and proposes |
| `Neo*`, `PacedReplica` | replica, confirmation number, log, confirm buffers, agreement, composition with the delegate |
| `NeoQueries`, `NeoProgress`, `NeoStops` | queries and their answers, what must be confirmed and executed, what stops a replica |
| `Pbft*`, `Zyzzyva*` | replicas, agreement and request conservation, Zyzzyva client |
| `PbftSends`, `PbftStops`, `ZyzzyvaSends`, `ZyzzyvaClientCompletes` | what a replica must send and count and a client must complete, told from the messages received |
| `HotStuffRuns`, `HotStuffPrimarySteps`, `HotStuffPrimaryRecords`, `NeoRuns`, `NeoSystem`, `NeoBuffers`, `NeoConfirmNet`, `PbftRuns`, `ZyzzyvaRuns` | the runs the theorems speak of, and the invariants every step keeps |
| `QuorumClient`, `PbftExecution`, `ClientResults` | reply quorums and, end to end, what an accepted result means |
| `Multicast`, `Wire`, `WireLayout`, `Sequencing`, `SequencerStream`, `Delegates`, `DelegateOrder`, `OrderedDelivery` | ordered multicast, its bytes and its order, and from sender to log |

Findings where the code does not give a property that might be expected of it, each with a proof:

- The Zyzzyva client keeps `local_commits` when it turns to another block (`zyzzyva.rs` lines 155 and 172), so
  local commits of one block can complete another; `SlowPathCanMiscount` is such a run of correct replicas,
  `CountsRightIff` the exact condition, and `OrderedOnceIsUndisturbed` shows that ordering each request once
  avoids it.
- A HotStuff replica takes proposals of any replica, and takes the same one again (`hotstuff.rs` lines 256-258
  and 433). With a correct primary, `InsertionsIff` is the exact condition on insertions under which one chain
  comes out of it, `OneChainIff` the one on proposals taken that also keeps the buffer clean, and
  `OtherProposalIsTaken` an input that breaks both.
- A vote that reaches a HotStuff replica before its block is inserted stops it (`OutrunStopsIff`).
- A Neo replica executes a request again when the sequencer stamps it again (`AnsweredOnceIff`,
  `StampedTwiceRunsTwice`).
- A PBFT reply can carry the digest of another block; `RepliesCarryAnother` is such a run of correct replicas,
  `CarriesOwnIff` the exact condition.
- The fan-out loop counts in 8 bits; `CoverageIff` shows that it serves up to 252 replicas and no more.
- The 52-byte state does not determine linked hash and digest; `StateBytesEqualIff` says exactly which pairs
  have the same bytes.

## Model

| member | source | states |
|---|---|---|
| `Chains.Chain.constructor` | crates/permissioned-blockchain/src/common.rs:74-83 | a new chain proposes on and executes from the genesis block, with nothing pending |
| `Chains.Chain.Propose` | crates/permissioned-blockchain/src/common.rs:99-111 | takes the first at most 100 requests off the queue into a block on the parent digest, one higher; batch and rest together are the queue, and a short batch empties it |
| `Chains.Chain.ProposeEmpty` | crates/permissioned-blockchain/src/common.rs:113-122 | the same with no requests |
| `Chains.Chain.Commit` | crates/permissioned-blockchain/src/common.rs:124-135 | executable at once exactly when the parent is the last executed block; otherwise pending under the parent digest, a conflict exactly when something already waits there |
| `Chains.Chain.NextExecute` | crates/permissioned-blockchain/src/common.rs:137-144 | hands out and removes the block pending on the last executed one, if there is one |
| `Chains.CommitReassembles` | crates/permissioned-blockchain/src/common.rs:124-135 | committing a block of the chain for the first time never conflicts and is executable exactly when it is the next one; pending stays exactly the committed, unexecuted blocks |
| `Chains.NextReassembles` | crates/permissioned-blockchain/src/common.rs:137-144 | the next block is handed out exactly when it has been committed |
| `Chains.DrainReassembles` | crates/permissioned-blockchain/src/pbft.rs:337-352 | draining terminates and hands out exactly the blocks up to the first one not committed, in order |
| `Chains.ChainRefinesInOrderExecution` | crates/permissioned-blockchain/src/common.rs:124-144 | each block of one chain committed once in any order, with draining: what is executed is the longest committed prefix, pending is exactly the rest, no conflict |
| `Chains.CommitWithin` | crates/permissioned-blockchain/src/common.rs:124-135 | even when blocks are committed repeatedly, only the next one is ever executable and pending holds only blocks of the chain |
| `Chains.NextWithin` | crates/permissioned-blockchain/src/common.rs:137-144 | even then what is handed out is the next block of the chain |
| `Chains.ProposeKeepsOrder` | crates/permissioned-blockchain/src/common.rs:99-111 | blocks proposed so far plus queue are all accepted requests in order, in batches of 1 to 100, linked, with heights 1, 2, … |
| `Chains.NoRepeats` | crates/permissioned-blockchain/src/common.rs:99-111 | no block occurs twice in a prefix of a linked chain |
| `Blocks.DigestFixesChain` | crates/permissioned-blockchain/src/common.rs:46-66 | a digest determines the whole chain that leads to it |
| `Blocks.AncestorIsPrefix` | crates/permissioned-blockchain/src/common.rs:46-66 | if the tip of one chain is an ancestor of the tip of another, the first is a prefix of the second |
| `Quorums.CommonCorrect` | src/context/replication.rs:35 | two sets of replicas that together exceed n + f share a correct one |
| `HotStuffReplica.Replica.constructor` | crates/permissioned-blockchain/src/hotstuff.rs:155-188 | initial state: genesis inserted, certified and locked |
| `HotStuffReplica.Replica.HandleRequest` | crates/permissioned-blockchain/src/hotstuff.rs:235-254 | old requests are ignored, repeated ones answered from the cache, new ones queued at the primary only |
| `HotStuffReplica.Replica.HandleVote` | crates/permissioned-blockchain/src/hotstuff.rs:260-271 | stores a vote until n - f are held, and certifies the block on reaching n - f; a vote for an unknown block stops the replica |
| `HotStuffReplica.Replica.OnPace` | crates/permissioned-blockchain/src/hotstuff.rs:220-228 | proposes exactly when this is the primary, some client waits and the last proposal is certified |
| `HotStuffReplica.Replica.DoPropose` | crates/permissioned-blockchain/src/hotstuff.rs:273-291 | block on the certified digest, with the stored votes for it as certificate; a missing certificate stops the replica |
| `HotStuffReplica.Replica.HandleGeneric` | crates/permissioned-blockchain/src/hotstuff.rs:256-258 | hands a proposal to the reorder buffer |
| `HotStuffReplica.Replica.HandleLoopback` | crates/permissioned-blockchain/src/hotstuff.rs:155-218 | a replica's own proposal is inserted directly |
| `HotStuffReplica.Replica.DoReorderGeneric` | crates/permissioned-blockchain/src/hotstuff.rs:293-317 | buffers under a missing parent or certified digest, else inserts and then handles everything that waited; terminates |
| `HotStuffReplica.Replica.DoInsertGeneric` | crates/permissioned-blockchain/src/hotstuff.rs:319-344 | stores the proposal, votes by the height and lock rule, then updates |
| `HotStuffReplica.Replica.DoUpdate` | crates/permissioned-blockchain/src/hotstuff.rs:346-377 | certifies, locks and commits along three certified digests |
| `HotStuffReplica.Replica.DoUpdateCertified` | crates/permissioned-blockchain/src/hotstuff.rs:379-383 | the certified digest moves only to a higher block |
| `HotStuffSafety.Agreement` | crates/permissioned-blockchain/src/hotstuff.rs:319-383 | any two correct replicas' executed chains are linked and one is a prefix of the other, in every state of every run with at most f arbitrary replicas and an equivocating leader |
| `HotStuffSafety.VotesNeverConflict` | crates/permissioned-blockchain/src/hotstuff.rs:260-271 | correct replicas vote at strictly increasing heights; two blocks of one height that both gather n - f votes are the same |
| `HotStuffSafety.NothingIsTakenBack` | crates/permissioned-blockchain/src/hotstuff.rs:319-354 | votes and executed blocks only grow, and the heights voted at and locked at never decrease, between any two states of a run |
| `HotStuffSafety.DecidedIsAncestor` | crates/permissioned-blockchain/src/hotstuff.rs:324-359 | a block certified at or above the height of a decided block has it as ancestor |
| `HotStuffSafety.CertifiedUnique` | crates/permissioned-blockchain/src/hotstuff.rs:260-271 | at most one certified block at each height |
| `HotStuffSafety.CommonVoterLock` | crates/permissioned-blockchain/src/hotstuff.rs:324-334 | of two certified blocks, some correct replica voted for the lower first and for the higher under a lock set in between |
| `HotStuffRuns.VoteKeeps` | crates/permissioned-blockchain/src/hotstuff.rs:324-342 | casting a vote keeps all votes of a replica ordered by the lock rule |
| `HotStuffRuns.LockAfterUpdate` | crates/permissioned-blockchain/src/hotstuff.rs:346-354 | after an insertion the lock is certified and at most two below the inserted block |
| `HotStuffRuns.CommitAfterUpdate` | crates/permissioned-blockchain/src/hotstuff.rs:355-376 | only blocks at the head of two further certified blocks are executed, each on top of the one before |
| `HotStuffRuns.StepKeeps` | crates/permissioned-blockchain/src/hotstuff.rs:176-228 | every step of every correct replica keeps the safety invariant |
| `HotStuffReorder.ReorderBufferIsConfluent` | crates/permissioned-blockchain/src/hotstuff.rs:293-317 | proposals with distinct digests, each delivered once, between any requests, votes and paces, to a replica that is still running: the inserted ones are the least set closed under 'parent and certified block present'; every other one waits once, for its parent as long as that is missing and then for the block it certifies |
| `HotStuffReorder.DeliveryOrderIrrelevant` | crates/permissioned-blockchain/src/hotstuff.rs:293-317 | two such delivery orders of the same proposals that leave the replica running end with the same inserted entries and the same proposals waiting |
| `HotStuffReorder.OutrunStopsIff` | crates/permissioned-blockchain/src/hotstuff.rs:260-262 | a delivery stops a replica at the assertion in line 262 if and only if some vote reaches it, still running, before the block it is for is inserted |
| `HotStuffReorder.StoppingDependsOnOrder` | crates/permissioned-blockchain/src/hotstuff.rs:260-262 | so whether a replica stops does depend on the order: an input in both orders |
| `HotStuffPrimary.CorrectPrimaryBuildsOneChain` | crates/permissioned-blockchain/src/hotstuff.rs:220-228 | with a correct primary, and while replicas take only proposals of the primary and no proposal again that waits or is of block 4 or later: proposals are blocks 1, 2, 3, … of one chain with n - f genuine votes for the parent; a replica that inserted k has voted for each of the k blocks, once and in order, has executed exactly the first k - 3 and keeps every other proposal it took; only a vote for an unknown block can stop a replica |
| `HotStuffPrimary.OneChainIff` | crates/permissioned-blockchain/src/hotstuff.rs:256-258 | that guard is exact for a property that includes the buffer, where each proposal that waits must wait once: all of it holds throughout a run if and only if every proposal taken passes the guard, which neither handle_generic nor verify (lines 432-447) has |
| `HotStuffInsertions.InsertionsIff` | crates/permissioned-blockchain/src/hotstuff.rs:319-344 | without the buffer, what waits there is free: in every state and after every insertion there is one chain of certified proposals that all correct replicas vote for block by block and are three behind on, and nothing but a vote for an unknown block stops one, if and only if every insertion is of a proposal of the primary that is not inserted yet or of the first three blocks |
| `HotStuffInsertions.ReorderIff` | crates/permissioned-blockchain/src/hotstuff.rs:293-317 | the same for the insertions that one proposal leads to through the reorder buffer |
| `HotStuffInsertions.InsertIff` | crates/permissioned-blockchain/src/hotstuff.rs:319-377 | and for one insertion |
| `HotStuffPrimary.OtherBreaks` | crates/permissioned-blockchain/src/hotstuff.rs:293-306 | a replica that takes a proposal of another replica than the primary follows no longer, and is still three behind exactly when the proposal is buffered |
| `HotStuffPrimary.OtherProposalIsTaken` | crates/permissioned-blockchain/src/hotstuff.rs:432-436 | an input: the first step of a run with a correct primary and one faulty backup of four inserts the backup's own block |
| `HotStuffPrimary.RequestsConserved` | crates/permissioned-blockchain/src/hotstuff.rs:273-291 | under the guard: the executed requests are a prefix of those the primary queued, in order; proposed blocks and queue are all of them, in batches of at most 100 |
| `HotStuffPrimarySteps.InsertAgain` | crates/permissioned-blockchain/src/hotstuff.rs:346-377 | inserting a proposal again executes nothing, and stops the replica at line 362 exactly when it is of block 4 or later |
| `HotStuffPrimarySteps.ExecutesThreeBehind` | crates/permissioned-blockchain/src/hotstuff.rs:346-377 | inserting block k executes block k - 3, if there is one, and nothing else |
| `HotStuffPrimarySteps.VotesNext` | crates/permissioned-blockchain/src/hotstuff.rs:324-342 | a replica that voted for the first k blocks of the chain, once each and in order, votes for block k + 1 when it is inserted |
| `HotStuffVoting.InsertVotesIff` | crates/permissioned-blockchain/src/hotstuff.rs:324-342 | an insertion adds one vote, for its block, if the block is higher than every block voted for and has the lock as ancestor or certifies a block above the lock, and none otherwise |
| `HotStuffVoting.VotesExactly` | crates/permissioned-blockchain/src/hotstuff.rs:293-342 | so do, with any leader and in every state of every run, all insertions that an event leads to, buffered proposals and own ones included |
| `HotStuffVoting.CertifiesAndLocksHighest` | crates/permissioned-blockchain/src/hotstuff.rs:346-383 | over all runs: the certified block is itself certified, and no block with n - f votes or certified by an inserted proposal is above it; the lock is the highest block two certified digests back from an inserted one |
| `HotStuffCommits.InsertionsUpdateExactly` | crates/permissioned-blockchain/src/hotstuff.rs:346-383 | over any history of a replica and for proposals of any shape: each insertion certifies the block certified and locks the one that certifies, if higher, and executes the head of three certified digests, the last two of them parents, if it is next; one that is not next stops the replica, and otherwise nothing is executed |
| `HotStuffCounting.VotesAreCounted` | crates/permissioned-blockchain/src/hotstuff.rs:260-271 | over any history of a replica that is running: the votes held for a block are min(n - f, number of voters) of those that arrived, and a block with n - f voters is certified if no higher one is |
| `HotStuffCounting.PaceProposes` | crates/permissioned-blockchain/src/hotstuff.rs:220-291 | over any such history: a pace makes one proposal if and only if this is the primary, a client waits and its last proposal is certified: the next height on the certified block, with the votes held for it and the first of the queue, at most 100; without any votes for the certified block it stops instead |
| `HotStuffCounting.NewRequestIsProposed` | crates/permissioned-blockchain/src/hotstuff.rs:235-291 | a request with a new number that reaches the running primary, its last proposal certified and fewer than 100 queued, is the last one of the block proposed at the next pace |
| `HotStuffCounting.RepeatIsNotQueued` | crates/permissioned-blockchain/src/hotstuff.rs:235-254 | the same request coming again is not queued again |
| `HotStuffPrimarySteps.ProposeExtends` | crates/permissioned-blockchain/src/hotstuff.rs:273-291 | a proposal of the correct primary extends the chain by one block and carries n - f votes for its parent |
| `HotStuffExecution.RepliesFollowTheLog` | crates/permissioned-blockchain/src/hotstuff.rs:363-374 | application state, sent and cached replies are those of running the executed blocks in order: every executed request has been answered with its result, nothing else has, and the latest reply of each client is cached unless a newer request of it was taken |
| `HotStuffExecution.ResultsAgree` | crates/permissioned-blockchain/src/hotstuff.rs:363-374 | two correct replicas give the same result at the same position of the log |
| `HotStuffExecution.RepeatIsAnswered` | crates/permissioned-blockchain/src/hotstuff.rs:235-254 | a request that comes again and is the latest of its client in the log, with none newer taken, is answered again with its result |
| `ClientResults.HotStuffResult` | crates/permissioned-blockchain/src/hotstuff.rs:111-132 | a result accepted on f + 1 matching replies is the one that a request with the client's index and that number has in the log of a correct replica; blocks carry no client signatures, so under an arbitrary leader its operation may be another |
| `NeoReplica.Replica.constructor` | crates/permissioned-blockchain/src/neo.rs:176-201 | empty log; in confirm mode every replica is recorded at 0 |
| `NeoReplica.Replica.HandleRequest` | crates/permissioned-blockchain/src/neo.rs:275-326 | drops old numbers, buffers gaps (query at 100 waiting, stop at 1100), orders the next one |
| `NeoReplica.Replica.DoOrder` | crates/permissioned-blockchain/src/neo.rs:298-325 | extends the log, then reaches each newly verified operation in order |
| `NeoReplica.Replica.DoDrainRequests` | crates/permissioned-blockchain/src/neo.rs:304-310 | moves buffered requests that follow the log onto it; terminates |
| `NeoReplica.Replica.DoReach` | crates/permissioned-blockchain/src/neo.rs:312-320 | commits a verified operation, or in confirm mode handles the confirms that waited for it |
| `NeoReplica.Replica.HandleConfirm` | crates/permissioned-blockchain/src/neo.rs:328-340 | confirms beyond the log wait under their end, others are handled |
| `NeoReplica.Replica.HandleLoopback` | crates/permissioned-blockchain/src/neo.rs:239-254 | an own confirm must follow the own entry, which then moves to its end |
| `NeoReplica.Replica.HandleQuery` | crates/permissioned-blockchain/src/neo.rs:342-361 | answers from the log or the buffer, restoring the signature as checked |
| `NeoReplica.Replica.HandleQueryOk` | crates/permissioned-blockchain/src/neo.rs:363-377 | takes the answer if it is the next operation, and queries again if many wait |
| `NeoReplica.Replica.OnPace` | crates/permissioned-blockchain/src/neo.rs:260-264 | in confirm mode tries to send a confirm |
| `NeoReplica.Replica.DoSendConfirm` | crates/permissioned-blockchain/src/neo.rs:400-421 | confirms everything not yet confirmed if the last own confirm is back |
| `NeoReplica.Replica.DoConfirm1` | crates/permissioned-blockchain/src/neo.rs:423-439 | a confirm that starts later waits under its start; the next one is counted and then those that follow it |
| `NeoReplica.Replica.DoConfirm2` | crates/permissioned-blockchain/src/neo.rs:441-450 | compares the digest with the own log and moves the entry to the end of the range |
| `NeoReplica.Replica.DoUpdateConfirmNum` | crates/permissioned-blockchain/src/neo.rs:452-462 | element f of the sorted entries; commits up to it |
| `NeoReplica.Replica.DoCommit` | crates/permissioned-blockchain/src/neo.rs:379-398 | executes an operation and replies with its sequence number |
| `NeoConfirm.ConfirmedOfIsGreatest` | crates/permissioned-blockchain/src/neo.rs:452-456 | element f of the sorted entries is the greatest number that at least n - f replicas have confirmed |
| `NeoConfirm.ConfirmedOfGrows` | crates/permissioned-blockchain/src/neo.rs:456-456 | it never decreases when entries grow, so the assertion holds |
| `NeoLog.LogIsLongestGapFreePrefix` | crates/permissioned-blockchain/src/neo.rs:275-310 | for any order, loss or repetition, with query answers mixed in: the log is the longest gap-free prefix of what was delivered, the next number was not, and the buffer is exactly what lies past the gap |
| `NeoLog.LogFollowsStream` | crates/permissioned-blockchain/src/neo.rs:275-310 | deliveries from one stream give a log that is a stretch of that stream |
| `NeoLog.CommitsInOrderOnce` | crates/permissioned-blockchain/src/neo.rs:298-325 | verified_num is the last verified position; operations 1, 2, … are committed once each, in order, up to it, or up to the confirmation number in confirm mode, which is the greatest confirmed by n - f |
| `NeoQueries.QueryAnswered` | crates/permissioned-blockchain/src/neo.rs:342-361 | a query is answered if and only if the operation is in the log or waits, with what is held for it |
| `NeoQueries.AnswersAreTaken` | crates/permissioned-blockchain/src/neo.rs:342-361 | in every run each answer sent has the number, link and payload of that position of the log, or of a message taken with that operation number, and its signature if it was left unchecked |
| `NeoQueries.AnswerFillsGap` | crates/permissioned-blockchain/src/neo.rs:363-377 | between replicas with one offset, the answer to a query for the next operation extends the log of the asker by exactly that operation |
| `NeoQueries.RequestAsks` | crates/permissioned-blockchain/src/neo.rs:275-296 | a request that leaves the replica running sends a query, for the operation missing next, exactly when it has to wait and 100 wait with it |
| `NeoQueries.AnswerAsks` | crates/permissioned-blockchain/src/neo.rs:363-377 | an answer makes another query exactly when it is taken and 100 or more still wait |
| `NeoStops.RequestStopsIff` | crates/permissioned-blockchain/src/neo.rs:275-296 | without confirms, a request stops a running replica if and only if it has to wait and 1100 wait with it |
| `NeoStops.ConfirmStopsIff` | crates/permissioned-blockchain/src/neo.rs:328-450 | in every run: a confirm stops a replica that is not in confirm mode; in it, a confirm beyond the log waits; another one stops the replica if its sender is unknown, it repeats what is recorded, or it is next and differs from the log; a right one waits for its turn or is counted |
| `NeoRepeats.AnsweredOnceIff` | crates/permissioned-blockchain/src/neo.rs:379-398 | every request is answered once if and only if the executed part of the log holds it once: replies is read but never filled |
| `NeoRepeats.StampedTwiceRunsTwice` | crates/permissioned-blockchain/src/neo.rs:379-398 | an input: a request stamped with two consecutive numbers is executed twice, with two results |
| `OrderedDelivery.SignedStreamIsLogged` | src/context/ordered_multicast.rs:134-182 | from sender to log: if the delegates take in what is read from the signed packets of one stream of fewer than 2^32 requests, in any order, lost or repeated, with any trailing bytes, and a replica takes only what a delegate passed on, its log is the stretch of the original requests from the first one it took up to the next one it did not, and all of them if it took all, the first one first |
| `OrderedDelivery.GroupStreamIsLogged` | src/context/ordered_multicast.rs:134-182 | the same for packets with codes, for up to 252 replicas that drop the packets of other groups |
| `OrderedDelivery.LogIsStretchOfStream` | crates/permissioned-blockchain/src/neo.rs:275-310 | the replica's part: messages with the numbers and payloads of one stream give such a stretch |
| `OrderedDelivery.AllReceivedIsLogged` | crates/permissioned-blockchain/src/neo.rs:275-310 | and if the first one is taken first and all are taken, the log is the stream |
| `OrderedDelivery.PassedIsOfStream` | src/context/ordered_multicast.rs:233-304 | the delegate's part: it passes on messages of the stream only |
| `NeoRuns.HandleCommits` | crates/permissioned-blockchain/src/neo.rs:225-265 | every handler keeps: verified prefix, in-order execution and replies, confirmation number |
| `NeoAgreement.Agreement` | crates/permissioned-blockchain/src/neo.rs:400-462 | in confirm mode the requests executed by two correct replicas are prefixes of one another, even if the sequencer gives different requests the same number, with at most f arbitrary replicas |
| `NeoSystem.RangeAgrees` | crates/permissioned-blockchain/src/neo.rs:441-450 | logs that agree up to a confirmed range and on its digest agree up to its end |
| `NeoSystem.StepKeeps` | crates/permissioned-blockchain/src/neo.rs:225-265 | every step keeps the agreement invariant: n - f replicas stand behind what a replica executed |
| `NeoBuffers.DrainConfirmsOk` | crates/permissioned-blockchain/src/neo.rs:431-439 | draining the second buffer never fails an assertion and accounts for every confirm |
| `NeoBuffers.DrainSettles` | crates/permissioned-blockchain/src/neo.rs:433-438 | draining stops at the first missing confirm and touches only that replica's entry |
| `NeoBuffers.Confirm1Ok` | crates/permissioned-blockchain/src/neo.rs:423-439 | a confirm that arrives for the first time starts after the entry, is counted or buffered without displacing another |
| `NeoBuffers.TakeWaiting` | crates/permissioned-blockchain/src/neo.rs:315-319 | the confirms released when an operation is verified are those buffered under it, once each |
| `NeoConfirmRuns.ConfirmsNeverFail` | crates/permissioned-blockchain/src/neo.rs:239-254 | correct replicas with agreeing logs, each confirm arriving at most once in any order: the assertions at lines 248, 425 and 446 never fail, own confirms partition the log with at most one in flight, and entries of others advance without a gap |
| `NeoConfirmNet.BackIsInFlight` | crates/permissioned-blockchain/src/neo.rs:245-248 | the own confirm that comes back is the one in flight and starts right after the own entry |
| `NeoProgress.ConfirmedIsExecuted` | crates/permissioned-blockchain/src/neo.rs:312-320 | in these runs a running replica to which n - f replicas have confirmed operations 1 to k, with nothing missing in between and its log verified that far, has executed them |
| `NeoProgress.PaceConfirms` | crates/permissioned-blockchain/src/neo.rs:400-421 | in these runs a pace sends a confirm if and only if none is in flight and the log goes beyond the last one; it covers exactly what is new, with the requests there |
| `ClientResults.NeoResult` | crates/permissioned-blockchain/src/neo.rs:115-150 | a result accepted on n - f matching replies was sent by n - 2f correct replicas and is the one that a request with the client's index and that number has in the executed log, with whatever operation the sequencer stamped |
| `PbftReplica.Replica.constructor` | crates/permissioned-blockchain/src/pbft.rs:161-173 | initial state |
| `PbftReplica.Replica.HandleRequest` | crates/permissioned-blockchain/src/pbft.rs:220-229 | queued at the primary only |
| `PbftReplica.Replica.HandlePrePrepare` | crates/permissioned-blockchain/src/pbft.rs:231-250 | stores the block and sends a prepare; stops if this is the primary |
| `PbftReplica.Replica.HandlePrepare` | crates/permissioned-blockchain/src/pbft.rs:252-263 | only of this view |
| `PbftReplica.Replica.HandleCommit` | crates/permissioned-blockchain/src/pbft.rs:265-276 | only of this view |
| `PbftReplica.Replica.HandleLoopbackPrePrepare` | crates/permissioned-blockchain/src/pbft.rs:196-206 | the primary keeps its own block |
| `PbftReplica.Replica.HandleLoopbackPrepare` | crates/permissioned-blockchain/src/pbft.rs:196-206 | own prepares are counted |
| `PbftReplica.Replica.HandleLoopbackCommit` | crates/permissioned-blockchain/src/pbft.rs:196-206 | own commits are counted |
| `PbftReplica.Replica.OnPace` | crates/permissioned-blockchain/src/pbft.rs:208-212 | the primary proposes what is queued |
| `PbftReplica.Replica.DoInsertPrepare` | crates/permissioned-blockchain/src/pbft.rs:287-317 | at most n - f - 1 prepares are kept; commits on reaching them with the block at hand, or on the own prepare afterwards |
| `PbftReplica.Replica.DoInsertCommit` | crates/permissioned-blockchain/src/pbft.rs:319-330 | at most n - f commits are kept; executes on reaching them |
| `PbftReplica.Replica.DoExecuteBlock` | crates/permissioned-blockchain/src/pbft.rs:332-336 | a missing block or a conflict stops the replica; a block out of order waits |
| `PbftReplica.Replica.DoExecuteFrom` | crates/permissioned-blockchain/src/pbft.rs:337-352 | the loop: executes a block and those that waited behind it; replies carry the digest that started it |
| `PbftAgreement.Agreement` | crates/permissioned-blockchain/src/pbft.rs:287-353 | with a correct primary and at most f arbitrary backups: executed blocks are prefixes of the primary's chain and of one another, no block twice, over all runs with loss, reordering and repetition |
| `PbftAgreement.ExecutedIsPrepared` | crates/permissioned-blockchain/src/pbft.rs:287-330 | every executed block was proposed by the primary and at least n - 2f correct replicas hold it with n - f - 1 prepares of distinct replicas, each that is in the name of a correct replica sent by it |
| `PbftAgreement.RequestsConserved` | crates/permissioned-blockchain/src/pbft.rs:278-285 | executed requests are a prefix of the requests in the order queued, batches hold 1 to 100, what is in no block is still queued |
| `PbftAgreement.OnlyTheseStops` | crates/permissioned-blockchain/src/pbft.rs:292-334 | assertions on certificate sizes and on conflicting commits never fail; the remaining stops are named; a running replica has executed up to the first block without a full commit certificate |
| `PbftSends.SendsExactlyWhatIsDue` | crates/permissioned-blockchain/src/pbft.rs:231-330 | over any history of a replica: the prepares and commits sent and the requests queued are exactly those the messages it took call for, and a certificate is full exactly when enough replicas' messages were taken |
| `PbftSends.PreparedCommits` | crates/permissioned-blockchain/src/pbft.rs:297-316 | a replica that has taken the block, n - f - 1 prepares for it and its own prepare coming back has sent its commit, in whatever order they came |
| `PbftSends.PreparedCommitsInRun` | crates/permissioned-blockchain/src/pbft.rs:297-316 | the same in every run with a correct primary |
| `PbftSends.CommittedIsExecuted` | crates/permissioned-blockchain/src/pbft.rs:319-353 | in every such run a running correct replica has executed the first k blocks once n - f replicas' commits for each of them have reached it |
| `PbftSends.PaceProposes` | crates/permissioned-blockchain/src/pbft.rs:278-285 | a pace at a running primary makes one proposal if and only if requests wait: the first of them, at most 100, on its last block |
| `PbftStops.StopsIff` | crates/permissioned-blockchain/src/pbft.rs:231-336 | over any history: which event stops a running replica, and with which assertion: a pre-prepare from the network at the primary, or the commit that is the (n - f)th for a block it does not have or whose parent another waiting block has too; none else |
| `PbftRuns.FillFollows` | crates/permissioned-blockchain/src/pbft.rs:326-353 | filling a commit certificate executes everything that has become executable, and nothing else |
| `PbftAgreement.FullIsBacked` | crates/permissioned-blockchain/src/pbft.rs:319-330 | a full commit certificate proves n - 2f correct replicas prepared |
| `PbftRuns.StepKeeps` | crates/permissioned-blockchain/src/pbft.rs:179-212 | every step keeps the invariant |
| `PbftExecution.RepliesFollowTheLog` | crates/permissioned-blockchain/src/pbft.rs:338-346 | application state and replies are those of running the executed blocks in order: reply i is the one to request i of the log, with the result of running everything before it |
| `PbftExecution.ClientGetsLogResult` | crates/permissioned-blockchain/src/pbft.rs:111-144 | end to end: a result accepted on f + 1 matching replies is that of the operation the client sent under that number, at a position of the primary's one order of requests |
| `PbftReplyDigests.CarriesOwnIff` | crates/permissioned-blockchain/src/pbft.rs:319-353 | over whole runs: all replies of a correct replica carry the digest of the block of their own request if and only if it never took a commit that fills the certificate of a block that is next while a block waits right behind it, a guard on the state before |
| `PbftOvertaken.RepliesCarryAnother` | crates/permissioned-blockchain/src/pbft.rs:332-353 | an input: a run of two correct replicas in which the commits for block 2 overtake those for block 1, and the reply to its request carries the digest of block 1 |
| `PbftReplyDigests.OwnDigestsIff` | crates/permissioned-blockchain/src/pbft.rs:332-353 | one execution, of a block that is next, by a replica whose replies so far are right: they stay so if and only if no block waits right behind it |
| `PbftReplyDigests.RunningIsSound` | crates/permissioned-blockchain/src/pbft.rs:332-353 | what this assumes of a replica (its blocks carry requests, a waiting block waits under its parent) holds of every running correct replica in every run |
| `QuorumClient.Client.DoInvoke` | crates/permissioned-blockchain/src/pbft.rs:92-109 | numbers the request and forgets earlier replies; a second pending request is an error |
| `QuorumClient.Client.Handle` | crates/permissioned-blockchain/src/pbft.rs:111-144 | keeps the latest reply of each replica, counts those that match and completes at the threshold (the same shape in hotstuff.rs and neo.rs) |
| `QuorumClient.CountMatching` | crates/permissioned-blockchain/src/pbft.rs:125-131 | the number of replicas whose latest reply matches |
| `QuorumClient.AcceptsOnlyBackedResults` | crates/permissioned-blockchain/src/pbft.rs:119-143 | each invocation completes at most once and in order, the assertion on the count never fails, threshold - f correct replicas said each completed result, and while pending no result has reached the threshold |
| `QuorumClient.MatchingMore` | crates/permissioned-blockchain/src/pbft.rs:122-132 | one more reply raises the count of its own key by at most one and no other |
| `QuorumClient.EnoughCompletes` | crates/permissioned-blockchain/src/pbft.rs:119-143 | over all runs of a client: once the latest replies of a threshold of replicas match, every request invoked has completed |
| `QuorumClient.LastReplyCompletes` | crates/permissioned-blockchain/src/pbft.rs:132-143 | the reply that makes a threshold of them match completes the request with its result |
| `QuorumClient.StopsIff` | crates/permissioned-blockchain/src/pbft.rs:92-144 | over all runs a client stops if and only if it is invoked while a request is pending |
| `ZyzzyvaReplica.Replica.constructor` | crates/permissioned-blockchain/src/zyzzyva.rs:205-216 | initial state |
| `ZyzzyvaReplica.Replica.HandleRequest` | crates/permissioned-blockchain/src/zyzzyva.rs:259-268 | queued at the primary only |
| `ZyzzyvaReplica.Replica.HandleOrderRequest` | crates/permissioned-blockchain/src/zyzzyva.rs:270-283 | stores the block and tries to execute it |
| `ZyzzyvaReplica.Replica.HandleCommit` | crates/permissioned-blockchain/src/zyzzyva.rs:285-306 | acknowledges a commit for a known block, again on repetition |
| `ZyzzyvaReplica.Replica.OnPace` | crates/permissioned-blockchain/src/zyzzyva.rs:247-251 | the primary proposes what is queued |
| `ZyzzyvaReplica.Replica.DoExecuteBlock` | crates/permissioned-blockchain/src/zyzzyva.rs:317-321 | a conflict stops the replica; a block out of order waits |
| `ZyzzyvaReplica.Replica.DoExecuteFrom` | crates/permissioned-blockchain/src/zyzzyva.rs:322-343 | the loop: executes a block and those that waited behind it |
| `ZyzzyvaReplica.Replica.DoRunBlock` | crates/permissioned-blockchain/src/zyzzyva.rs:323-339 | one response per block, with the results of its requests in order, to their clients |
| `ZyzzyvaOrder.RequestsConserved` | crates/permissioned-blockchain/src/zyzzyva.rs:308-344 | with a correct primary and any delivery of order requests: executed blocks are prefixes of the primary's chain and of one another, without repetition; executed requests are a prefix of those queued |
| `ZyzzyvaOrder.ExactWhenOnce` | crates/permissioned-blockchain/src/zyzzyva.rs:270-344 | each order request delivered at most once: no conflict, and exactly the longest received prefix is executed |
| `ZyzzyvaOrder.ResponsesFollowTheLog` | crates/permissioned-blockchain/src/zyzzyva.rs:323-339 | every response is a block of the primary's chain with, for each request, the result of running the chain up to it |
| `ZyzzyvaSends.TakesAndAcknowledgesWhatIsDue` | crates/permissioned-blockchain/src/zyzzyva.rs:259-306 | over any history of a replica: it has queued exactly the requests that reached it as running primary, stored exactly the blocks that reached it running, and acknowledged exactly the commits that came after their block, each to its sender |
| `ZyzzyvaSends.StopsIff` | crates/permissioned-blockchain/src/zyzzyva.rs:270-321 | over any such history, an event stops a running replica if and only if it brings a block that is not next and whose parent another waiting block has too |
| `ZyzzyvaSends.PaceProposes` | crates/permissioned-blockchain/src/zyzzyva.rs:308-315 | a pace at a running primary makes one proposal if and only if requests wait: the first of them, at most 100, on its last block |
| `ZyzzyvaClient.Client.DoInvoke` | crates/permissioned-blockchain/src/zyzzyva.rs:95-114 | numbers the request and clears what was held for the one before |
| `ZyzzyvaClient.Client.DoHandleResponse` | crates/permissioned-blockchain/src/zyzzyva.rs:120-164 | completes on n matching responses; on n - f, if configured for the commit path, sends a commit for that block |
| `ZyzzyvaClient.Client.DoHandleLocalCommit` | crates/permissioned-blockchain/src/zyzzyva.rs:165-182 | counts local commits of the block being committed and completes at n - f |
| `ZyzzyvaClient.FindRequest` | crates/permissioned-blockchain/src/zyzzyva.rs:125-133 | the first position of the client's own pending request in a block |
| `ZyzzyvaClientRuns.AcceptsOnlyProducedResults` | crates/permissioned-blockchain/src/zyzzyva.rs:116-185 | each invocation completes at most once and in order; its result was produced for the completed block by n - f replicas less at most f (fast path: by n less at most f) |
| `ZyzzyvaClientCompletes.RunFollows` | crates/permissioned-blockchain/src/zyzzyva.rs:116-185 | what a client holds is what it took since its last invocation: the latest response of each replica, the last digest with n - f matches, and the replicas whose local commits for the digest to commit came |
| `ZyzzyvaClientCompletes.EnoughCompletes` | crates/permissioned-blockchain/src/zyzzyva.rs:141-148 | over all runs, once the latest responses of all n replicas match, or n - f replicas have sent a local commit for what was the target, every request invoked has completed |
| `ZyzzyvaClientCompletes.LastResponseCompletes` | crates/permissioned-blockchain/src/zyzzyva.rs:141-148 | the response that makes n match completes the request with the result at the position of the client's own request |
| `ZyzzyvaClientCompletes.EnoughSendsCommit` | crates/permissioned-blockchain/src/zyzzyva.rs:149-164 | with the commit path, a response sends a commit if and only if n - f but not n latest responses match it, for its block and with those that match |
| `ZyzzyvaClientCompletes.StopsIff` | crates/permissioned-blockchain/src/zyzzyva.rs:95-135 | a client stops if and only if it is invoked while a request is pending, or a response has the pending request but no result for it |
| `ZyzzyvaClientRuns.CountsRightIff` | crates/permissioned-blockchain/src/zyzzyva.rs:153-181 | throughout a run the held local commits are for the block being committed if and only if no response meets a guard on the state before it: it makes n - f but not n responses match for another block while local commits are held |
| `ZyzzyvaClientRuns.SlowPathIsConfirmed` | crates/permissioned-blockchain/src/zyzzyva.rs:165-182 | in runs in which no response meets that guard, every commit-path completion was confirmed for its block by n - f replicas, at most f of them faulty |
| `ZyzzyvaClientRuns.OrderedOnceIsUndisturbed` | crates/permissioned-blockchain/src/zyzzyva.rs:152-163 | no response meets it if correct replicas answer each request in one block only |
| `ZyzzyvaMiscount.SlowPathCanMiscount` | crates/permissioned-blockchain/src/zyzzyva.rs:155-175 | a run of four correct replicas and the client run on what they send: the primary is handed the request twice, and the client completes on the commit path although only one replica confirmed the block: local_commits is not emptied when commit_digest changes |
| `ZyzzyvaOrderedTwice.AnsweredTwice` | crates/permissioned-blockchain/src/zyzzyva.rs:253-343 | the replicas' side of that run: a primary that is handed a request twice orders it twice, replicas execute and answer both blocks and acknowledge a commit of either |
| `ClientResults.ZyzzyvaResult` | crates/permissioned-blockchain/src/zyzzyva.rs:116-185 | with a correct primary, a completed result is the one that a request with the client's index and that number has in the primary's order, and its block is on the primary's chain |
| `ClientResults.ZyzzyvaClientGetsLogResult` | crates/permissioned-blockchain/src/zyzzyva.rs:116-185 | and with authenticated requests it is that of the operation the client sent under that number, at a position of the primary's one order of requests |
| `ZyzzyvaOrder.LocalCommitsAreForHeldBlocks` | crates/permissioned-blockchain/src/zyzzyva.rs:285-306 | a correct replica acknowledges a commit only for a block of the primary's chain that it holds |
| `ClientResults.ZyzzyvaSlowPathIsHeld` | crates/permissioned-blockchain/src/zyzzyva.rs:165-182 | a block completed on an undisturbed commit path is held by at least n - 2f correct replicas |
| `Wire.StateInternal` | src/context/ordered_multicast.rs:93-101 | the 52 bytes: linked hash, digest xor-ed in from byte 16 on, number in the last four |
| `Wire.XorBit` | src/context/ordered_multicast.rs:95-98 | a bit of the exclusive or of two bytes is 0 if and only if their bits are equal |
| `Wire.StateOfOne` | src/context/ordered_multicast.rs:93-101 | with a zero digest the 52 bytes are hash, 16 zeros, number; with a zero hash they are 16 zeros, digest, number |
| `Wire.BigEndianBytes` | src/context/ordered_multicast.rs:99-99 | a number is its four bytes, the most significant first |
| `Wire.StateBytesEqualIff` | src/context/ordered_multicast.rs:93-101 | exactly when two multicasts have the same 52 bytes: same number, same first half of the linked hash, same second half of the digest, and the same exclusive or of the halves that overlap |
| `Wire.SameStateLinkIffDigest` | src/context/ordered_multicast.rs:93-101 | of two multicasts with the same bytes, the linked hashes are equal if and only if the digests are |
| `Wire.StateInjective` | src/context/ordered_multicast.rs:93-101 | so for a fixed linked hash the bytes determine digest and number |
| `Wire.StateNotInjective` | src/context/ordered_multicast.rs:95-98 | and an input on which they do not determine the pair: two different pairs of hash and digest with the same bytes |
| `Sequencing.Sequencer.DoProcess` | src/context/ordered_multicast.rs:363-387 | next number; the link is the hash of the state before, the new state covers link, digest and number |
| `Sequencing.DoApply` | src/context/ordered_multicast.rs:390-417 | stamps the buffer in place with number, link and reversed signature, or with codes for groups of four |
| `Sequencing.SendGroups` | src/context/ordered_multicast.rs:394-402 | the send loop: ceil(n mod 256 / 4) packets, overflow exactly if n mod 256 exceeds 252 |
| `Sequencing.StampCodes` | src/context/ordered_multicast.rs:396-399 | the four codes of a packet, everything else unchanged |
| `SequencerStream.SignedStreamRoundTrip` | src/context/ordered_multicast.rs:363-417 | for every stream and any trailing bytes: deserialize returns each message with consecutive numbers, the recomputed state equals the signed one, and the link is the hash of the state before |
| `SequencerStream.FanOutStreamRoundTrip` | src/context/ordered_multicast.rs:134-182 | for up to 252 replicas: each replica reads the original message in every packet and keeps exactly one of them |
| `SequencerStream.CoverageIff` | src/context/ordered_multicast.rs:244-255 | the fan-out reaches every replica in exactly one packet if and only if there are at most 252 |
| `SequencerStream.K256PacketReads` | src/context/ordered_multicast.rs:134-182 | what is read out of a signed packet |
| `WireLayout.SignedPacketBytes` | src/context/ordered_multicast.rs:406-416 | every byte of a signed packet: number, signature from its last byte to its first, link, payload as it was |
| `WireLayout.GroupPacketBytes` | src/context/ordered_multicast.rs:394-402 | every byte of a packet for four replicas: number, four marked indices, the rest as it was |
| `WireLayout.ReadIff` | src/context/ordered_multicast.rs:134-182 | any buffer: it is read if and only if it has 100 bytes, its payload decodes and, for signed packets, its signature is all zeros or parses; and what is read is what the bytes say |
| `Delegates.ReceiverDelegate.DoHandle` | src/context/ordered_multicast.rs:234-285 | drops packets coded for others; with signed messages passes on unsigned ones and swaps the held signed one for the newer |
| `Delegates.ReceiverDelegate.DoOnPace` | src/context/ordered_multicast.rs:287-304 | releases the held message, if there is one |
| `Delegates.NothingIsLost` | src/context/ordered_multicast.rs:233-304 | over any interleaving, what was passed on plus what is held is exactly what was taken in, once each; held is the newest signed |
| `Delegates.OnlyPaceReleasesVerified` | src/context/ordered_multicast.rs:233-304 | only a pace releases a verified message, the newest signed one |
| `DelegateOrder.PassedInOrder` | src/context/ordered_multicast.rs:233-304 | over any interleaving, signed messages are passed on in the order taken in, all but at most the last, with sender, number, link, payload and signature as they were; linked ones are all passed on, in order |
| `DelegateOrder.OwnGroupIsPassedOn` | src/context/ordered_multicast.rs:244-258 | of the packets of each message for up to 252 replicas the delegate of a replica passes on the one of its group, as it was read and at once, and no other |
| `PacedReplica.CommitsAllAfterPace` | src/context/ordered_multicast.rs:233-304 | in front of a non-confirm Neo replica, with all messages signed and in order: after each pace all of them are committed, in order, once each |

## Left out

- HotStuffSafety.Agreement: accepted proposals are assumed to have the shape `do_propose` gives them (certified digest is the parent digest, height one above, n - f distinct votes for it), because `verify` leaves the certificate size as a TODO (hotstuff.rs:437).
- HotStuffPrimary.CorrectPrimaryBuildsOneChain: assumes of the proposals that replicas take the guard `MayTake`, which the code lacks: they are the primary's, and none comes again that waits or is of block 4 or later. `OneChainIff` shows that this cannot be weakened; `InsertionsIff` asks for it only where a proposal is inserted, and says less about the buffer.
- HotStuffReorder.ReorderBufferIsConfluent: speaks of a replica that is still running and does not propose itself; whether it stops depends on the order of delivery (for votes, exactly as `OutrunStopsIff` says), and a primary inserts its own proposals without looking at the buffer.
- NeoLog.LogIsLongestGapFreePrefix: speaks of operation numbers, which are differences of sequence numbers modulo 2^32 as in a release build; a debug build stops on a sequence number below the first one seen.
- NeoConfirmRuns.ConfirmsNeverFail: all replicas are correct, their logs agree, and queries ask for operation numbers from 1 on; a malformed confirm fails one of the assertions.
- NeoProgress.ConfirmedIsExecuted: the same runs, in which all replicas are correct.
- NeoStops.RequestStopsIff: without confirm mode; in it a request can also stop the replica through a confirm that waited for it.
- PbftAgreement.Agreement: the primary is correct; a faulty one can propose two blocks with the same parent.
- ZyzzyvaOrder.RequestsConserved: the primary is correct, as for PBFT.
- SequencerStream.SignedStreamRoundTrip: numbers wrap modulo 2^32 as in a release build.
- Sequencing.SendGroups: an overflow of the 8-bit offset ends the method with `overflowed`; a release build would go on from 0 forever.
- Heights, request numbers and view numbers are unbounded; only Neo operation numbers and sequencer numbers wrap.
- Cryptography: digests are injective, signatures authenticate their sender, and the mock check of keyed codes in `Receiver::verify` is not part of this model. The payload codec, the hash and the signature bytes of the wire format are parameters.
- The order of the votes in a HotStuff certificate and of the responses in a Zyzzyva commit is not modelled (they are sets), nor is the destination of a HotStuff vote.
- `sort_unstable` of the standard library is a function that returns the sorted permutation.
- The source iterates over hash maps in an arbitrary order; the model counts or sorts, so that the order does not matter.
- Neo digests over slices of the log are represented by the requests hashed.
- PBFT and Zyzzyva agreement under a faulty primary, view change, timers, retransmission, liveness and leader rotation: the code has `todo!()` or fixed leaders there.
- minbft.rs and unreplicated.rs repeat the shape of PBFT over the same chain; ycsb.rs is the arbitrary deterministic application.
- Sockets, tasks, the control server, benchmarks, the simulated context and crates/kademlia are not part of this model.
