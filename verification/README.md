# Raft and MapReduce, verified

A Dafny model of the Raft peer (`src/raft`), the MapReduce library (`src/mapreduce`) and the type
walk of `src/labgob`, with proofs of what they guarantee in every run.

## What is modelled

**Raft.** A cluster of `n` peers and all the requests and replies they ever sent. Steps of a run:
election timeout, adopting a newer term, handling a vote request, receiving a vote reply, `Start`,
heartbeat, sending an AppendEntries request, handling one, receiving its reply, collecting and
delivering committed entries, crash with restart. Requests and replies may be handled late, in any
order, repeatedly or never, which includes the at-most-once, lossy, reordering network of
`src/labrpc/labrpc.go:29-38`. A reply has an effect only while the goroutine that made the call waits
for it. A crash keeps only what is on disk (`src/raft/config.go:98-215`).

| file | content |
|---|---|
| `Logs.dfy` | logs, logs backed by leader logs, what accepting a batch does to a log, Figure 2's rule |
| `Consensus.dfy` | the history of a cluster (ballots, leader logs, acknowledgements, committed entries), six transitions, the safety invariant |
| `Node.dfy` | a peer as a value and one function per critical section |
| `Cluster.dfy`, `Origins.dfy` | the network, the steps, runs; where messages come from |
| `Invariants.dfy`, `Refinement.dfy` | what holds of peers and messages relative to the history; every step is a transition of the history |
| `Theorems.dfy` | the guarantees, about states of runs only |
| `Reigns.dfy`, `Answers.dfy` | what leaders announce and commit, what peers answer, where entries come from |
| `Progress.dfy` | any majority can always go on |
| `RaftNode.dfy` | the peer and the persister as classes with the source's loops, proved to compute the functions of `Node.dfy` |
| `Repair.dfy` | finding the point of agreement of two logs |
| `Indices.dfy` | what runs do to nextIndex and matchIndex: the bound on rejections, and when progress is undone |
| `LockGaps.dfy` | what the atomicity assumption buys |
| `Paths.dfy`, `Scenario.dfy` | building concrete runs; runs that elect, commit and apply, exceed the bound, lower matchIndex |
| `StringOrder.dfy`, `MapReduce.dfy` | the order of keys; doMap, doReduce, merge and a whole job against a group-by specification |
| `Scheduler.dfy` | one phase of the scheduler as a state machine, and its shared variables as a class |
| `Distributed.dfy` | a phase with the files its workers write, and a job of two phases |
| `TypeWalk.dfy` | labgob's `checkType` |

The history is a proof device: the steps of `Cluster.dfy` neither read nor carry it, and no guarantee
of `Theorems.dfy` listed below mentions it.

**Assumptions.**

- Atomicity: a guard and its effect are one step. The source releases the lock between them at
  `src/raft/raft.go:811` and `:814-816`, `:814-827` and `:830-832`, `:618-628` and `:630-668`, `:694-699`
  and `:706-727`, `:744-782`, `:1412` and `:1446`, `:1476-1481` and `:1508-1517`. `LockGaps.dfy` shows for two
  of these what goes wrong in the window and exactly when nothing does. The step-down that opens each
  handler is a step of its own, so a crash may fall between a handler's two writes to disk.
- An election's term and log position are fixed when it starts. A broadcast's index, term and commit
  index are fixed when it is created; `Start` appends and creates its broadcast in one step.
- gob and JSON decode what they encode; log slices are immutable values.
- Sorting yields some sorted permutation. The hash is any function into the naturals.
- In `Distributed.dfy` a worker replaces a file as a whole, and nobody deletes one before the job ends.

**Where the code and its comments differ.** `src/mapreduce/schedule.go:31-32` says that `schedule` returns
once all tasks have completed. It can return earlier (`Scheduling.MayReturnIncomplete`);
`Scheduling.ReturnsCompleteIffNoLateFailure` says exactly when it does not.
`src/raft/raft.go:112-113` says that matchIndex increases monotonically. The code can lower it
(`Scenario.MatchIndexFalls`); `Indices.MatchIndexFallsIff` says exactly when, and what stays true is its
soundness (`Theorems.LeaderIndicesSound`). `src/raft/raft.go:527-534` promises one rejected request per
conflicting term. That holds for a goroutine whose nextIndex nobody else writes (`Indices.FastBackup`);
goroutines share nextIndex, and one can be rejected more often (`Scenario.BoundExceeded`), because a late
rejection can raise nextIndex again; `Indices.RejectionLowersIff` says exactly when it does not lower it.

## Model

| member | source | states |
|---|---|---|
| `Theorems.StateMachineSafety` | src/raft/raft.go:1058-1087 | in every run, of the apply streams of any two servers or incarnations at any two moments one is a prefix of the other, so no index is applied with two commands |
| `Theorems.LeadersHaveCommitted` | src/raft/raft.go:759-771 | whatever any peer considers committed at any moment of a run is in the log of every leader of a later term at every moment, also of leaders that were gone before the commitment was noticed, and in the log of the leader of its own term from then on |
| `Consensus.LeaderCompleteness` | src/raft/raft.go:759-771 | an entry of the leader's term acknowledged by a majority, and everything before it, is in the log of every leader of a later term |
| `Consensus.EarlierLeaderHas` | src/raft/raft.go:759-771 | the leader of a later term had it in its log already before it was committed, since what a leader log gains is of its own term |
| `Consensus.WinnerHas` | src/raft/raft.go:450-485 | a candidate with a majority of up-to-date ballots has every entry that could still get a majority, by quorum intersection |
| `Progress.CanProgress` | src/raft/raft.go:1406-1536 | from every state of every run of two or more servers, any servers that are more than half can go on, with the others left as they are, to elect a leader among them and to commit and apply any new command on all of them |
| `Progress.CanElect` | src/raft/raft.go:450-485 | any majority can elect its member with the best log, in a term beyond all others |
| `Progress.Convinces` | src/raft/raft.go:615-751 | asking again after each rejection, a leader gets its broadcast accepted and counted by any server of its term |
| `Reigns.SingleServerNeverCommits` | src/raft/raft.go:752-771 | a cluster of one never commits anything: there is nobody to count |
| `Reigns.MajorityCommits` | src/raft/raft.go:752-771 | in every state of a run, a broadcast of the leader's term for which more than half of the servers, itself and at least one other, have been counted has committed its index, if the entry there is of this term |
| `Answers.CommitFollowsLeader` | src/raft/raft.go:298-308 | an accepted request sets the commit index to the larger of the receiver's and the leader's, never to less, and is answered with success |
| `Answers.CommitSpreads` | src/raft/raft.go:298-308 | a server that accepts a request of a broadcast created after its leader committed k has committed k |
| `Reigns.AnnouncesCommit` | src/raft/raft.go:830-832 | every request carries the commit index its sender had when the heartbeat or command created the broadcast, and its log from nextIndex through its last index at that time |
| `Answers.EntryWasSubmitted` | src/raft/raft.go:811-816 | every entry of every log was submitted, as this command and at this index, to the leader of its term |
| `Answers.AppliedWasSubmitted` | src/raft/raft.go:1073-1087 | every applied command was submitted earlier in the run |
| `Answers.VoteRefusedIff` | src/raft/raft.go:450-488 | a vote is refused if and only if the request is of an older term, the vote has gone to another, or the voter's last entry is of a later term or of the same at a larger index; the reply carries the voter's term |
| `Answers.OneNotBehind` | src/raft/raft.go:466-469 | of any two logs at least one is not ahead of the other |
| `Answers.BallotSent` | src/raft/raft.go:1431-1452 | every vote request describes the candidate's log at the start of the election, in its new term |
| `Answers.RequestAnswered` | src/raft/raft.go:257-386 | every request is answered from the log of that moment: success exactly if the entry before the batch is there; otherwise the length of the log, or the conflicting term and the least index of that term; a refusal changes nothing at the receiver |
| `Answers.ReplyTells` | src/raft/raft.go:337-378 | every reply in a run is such an answer |
| `Theorems.ElectionSafety` | src/raft/raft.go:1512-1531 | at most one server is ever leader in a term, over all moments of a run and all restarts |
| `Theorems.TermsAndVotesStick` | src/raft/raft.go:430-484 | terms never fall, and a vote cast in a term is never changed or forgotten, crashes included |
| `Reigns.LedBefore` | src/raft/raft.go:1512-1531 | nobody leads the same term twice: between two moments of leading a term there is no interruption |
| `Theorems.LogMatching` | src/raft/raft.go:257-292 | any two logs at any two moments that agree on the term at an index agree on everything up to it |
| `Theorems.BatchMatching` | src/raft/raft.go:639-668 | the same between a log at one moment and a batch in flight at any other, with the batch's predecessor matching as well |
| `Theorems.BatchesMatch` | src/raft/raft.go:639-668 | the same between any two batches in flight, as far back as both reach |
| `Theorems.LogTermsSorted` | src/raft/raft.go:814-816 | terms never decrease along a log |
| `Theorems.CommittedAgree` | src/raft/raft.go:298-308 | the committed parts of any two logs at any two moments agree |
| `Theorems.CommittedStays` | src/raft/raft.go:263-308 | nothing at or below a peer's commit index is ever changed or removed from its log, whatever it receives and however often it crashes |
| `Theorems.AppliesInOrder` | src/raft/raft.go:1073-1087 | each incarnation has applied exactly entries 1, 2, 3, ... of its log up to lastApplied, which never exceeds the commit index, which never exceeds the last index |
| `Theorems.CommitIndexMonotone` | src/raft/raft.go:298-308 | within an incarnation commit index, apply position and stream never move back: the clamp never lowers the commit index |
| `Theorems.LeaderCommitCovered` | src/raft/raft.go:639-668 | every request covers the commit index it carries |
| `Theorems.CrashLosesNothingDurable` | src/raft/raft.go:143-203 | after every step the disk decodes to term, vote and log, so a restart at any point restores them |
| `Theorems.CountsAreSound` | src/raft/raft.go:743-771 | nReplica is the number of distinct servers, leader included, that have held the leader's log through the broadcast's index in its term |
| `Theorems.CommitHasMajority` | src/raft/raft.go:759-771 | when a leader commits by counting, a majority has held its log through that index in its term |
| `Theorems.LeaderIndicesSound` | src/raft/raft.go:1528-1531 | nextIndex entries lie in 1..len(Log); a matchIndex entry is an index through which that server held the leader's log |
| `Theorems.NoPanic` | src/raft/raft.go:527-574 | no step of any run indexes a log, nextIndex or matchIndex out of range |
| `Theorems.AcceptsLikeFigure2` | src/raft/raft.go:263-292 | on every batch accepted in a run, replacing the whole suffix equals truncating at the first conflict and appending what is missing |
| `Indices.FastBackup` | src/raft/raft.go:337-378 | in every run, a goroutine whose nextIndex no other step writes between its rejections is rejected by a follower with an unchanging log at most once more often than that log has terms; the leader may append meanwhile |
| `Scenario.BoundExceeded` | src/raft/raft.go:638-731 | otherwise: a run in which a second goroutine moves nextIndex up again and the first is rejected three times by a log with one term |
| `Indices.RejectionLowersIff` | src/raft/raft.go:728-731 | a rejection lowers nextIndex if and only if it was asked for at most the present nextIndex, or leads below it: the reported index, or the end of the stretch of the conflicting term in the leader's log, lies below the present value |
| `Indices.TriesNext` | src/raft/raft.go:637-668 | between two rejections with nextIndex left alone, the second request was sent for the index the first rejection set |
| `Indices.MatchIndexFallsIff` | src/raft/raft.go:748-751 | within one leadership a step lowers matchIndex if and only if it counts a success of a broadcast whose index is at least nextIndex and below matchIndex |
| `Indices.SuccessRaises` | src/raft/raft.go:748-751 | a counted success leaves nextIndex beyond the index, and sets matchIndex unless nextIndex was beyond it |
| `Indices.NewLeaderIndices` | src/raft/raft.go:1528-1531 | a new leader's nextIndex is its log's length and its matchIndex 0, for every server |
| `Scenario.MatchIndexFalls` | src/raft/raft.go:748-751 | a run in which matchIndex falls from 3 to 2 |
| `Theorems.RejectionMovesBack` | src/raft/raft.go:728-731 | a rejection moves nextIndex to an index from 1 to strictly below the one tried |
| `Theorems.SuccessCopies` | src/raft/raft.go:257-292 | an accepted batch makes the receiver's log equal, through the batch, to the log its sender had as leader of that term when it sent it, and to the sender's log at every later moment of that leadership |
| `Theorems.HandlersAreSteps` | src/raft/raft.go:232-251 | a handler that meets a newer term is two steps with a write to disk after each |
| `Origins.RequestSent` | src/raft/raft.go:637-668 | every request was cut, by a leader of its term, from the log that leader had at some earlier moment |
| `Origins.ReplySent` | src/raft/raft.go:337-378 | every reply is what the handler answered at some moment since it was not yet under way |
| `Refinement.AnyStep` | src/raft/raft.go:224-386 | every step keeps the invariants of peers and messages and is a transition of the history |
| `Refinement.NextIndexDecreases` | src/raft/raft.go:527-574 | getNextIndex yields an index from 1 to below the one rejected, and indexes in range |
| `Refinement.RejectionPointsBack` | src/raft/raft.go:337-378 | a rejection never blames the sentinel and reports a term the leader does not have at that index |
| `Refinement.CommittedKept` | src/raft/raft.go:263-292 | accepting a batch keeps every committed entry of the receiver |
| `Refinement.TallyWins` | src/raft/raft.go:1507-1517 | nVotes counts distinct voters of one term, all of which saw the candidate's present log |
| `Refinement.CountedMajority` | src/raft/raft.go:743-771 | the counted servers and the leader are a majority that acknowledged the index |
| `Consensus.ElectInv` | src/raft/raft.go:1512-1531 | an election keeps the safety invariant |
| `Consensus.AcceptInv` | src/raft/raft.go:257-330 | accepting a batch keeps the safety invariant |
| `Consensus.ExtendInv` | src/raft/raft.go:814-816 | a leader's append keeps the safety invariant |
| `Consensus.ChooseInv` | src/raft/raft.go:759-771 | committing by majority keeps the safety invariant |
| `Consensus.CastVoteInv` | src/raft/raft.go:450-485 | granting an up-to-date candidate keeps the safety invariant |
| `Consensus.BumpTermInv` | src/raft/raft.go:232-251 | adopting a newer term keeps the safety invariant |
| `Logs.ReconcileWithLeader` | src/raft/raft.go:263-292 | the receiver agrees with the leader through the batch and loses no entry on which it agreed before, also beyond the batch |
| `Logs.ReconcileIsFigure2` | src/raft/raft.go:263-292 | suffix replacement equals Figure 2's rule whenever equal terms before the first conflict mean equal entries |
| `Node.SearchBack` | src/raft/raft.go:549-554 | the largest index not above the start that is 0 or has the term |
| `Node.SearchForward` | src/raft/raft.go:558-564 | the last index of the stretch of that term, below the bound |
| `Node.FirstOfRun` | src/raft/raft.go:368-374 | the first index of the stretch of equal terms |
| `Repair.ConflictTermDrops` | src/raft/raft.go:527-574 | after a conflict the next probe is accepted or meets a strictly smaller term |
| `Repair.RejectionsBounded` | src/raft/raft.go:527-574 | between two fixed logs the tries of one undisturbed goroutine are rejected at most once more often than the follower's log has terms |
| `Repair.WeightDrops` | src/raft/raft.go:527-574 | of two successive rejections the second meets a follower with strictly less left to reject, also if the leader's log has grown |
| `Repair.RetryIsGetNextIndex` | src/raft/raft.go:527-574 | a rejection of any request, whatever its term and entries, sets nextIndex as the retry function of two logs says |
| `Repair.FindAgreement` | src/raft/raft.go:527-574 | a lone goroutine against two fixed logs ends, within the bound, at an index where the follower accepts |
| `Repair.RepairConverges` | src/raft/raft.go:257-292 | from there one batch makes the follower's log equal to the leader's through `index` |
| `RaftNode.Raft.AppendEntries` | src/raft/raft.go:224-386 | the handler, with its match and conflict loops, computes the new peer and the reply of the model |
| `RaftNode.Raft.TakeEntries` | src/raft/raft.go:257-330 | after a passed check: the reconciled log, the clamped commit index, the follower role and the write to disk |
| `RaftNode.Raft.IsMatch` | src/raft/raft.go:270-280 | decides whether the log holds the whole batch, by terms |
| `RaftNode.Raft.ConflictFirst` | src/raft/raft.go:361-374 | finds the first index of the conflicting term |
| `RaftNode.Raft.RequestVote` | src/raft/raft.go:419-488 | the handler computes the new peer and the reply of the model |
| `RaftNode.Raft.AdoptTerm` | src/raft/raft.go:430-444 | the step-down, with its write to disk |
| `RaftNode.Raft.StartElection` | src/raft/raft.go:1406-1452 | new term, own vote, disk, and the request to send |
| `RaftNode.Raft.OnVoteReply` | src/raft/raft.go:1476-1536 | drops stale replies, steps down, counts the vote, becomes leader at a majority |
| `RaftNode.Raft.ResetIndices` | src/raft/raft.go:1528-1531 | nextIndex is the log's length and matchIndex 0, for every peer |
| `RaftNode.Raft.Start` | src/raft/raft.go:805-832 | appends, persists and broadcasts if leader, and returns index, term and leadership |
| `RaftNode.Raft.BroadcastHeartbeat` | src/raft/raft.go:1209-1225 | a leader starts a broadcast for its last index |
| `RaftNode.Raft.PrepareAppend` | src/raft/raft.go:639-668 | the request and the record of the outstanding call |
| `RaftNode.Raft.GetNextIndex` | src/raft/raft.go:527-574 | the two search loops compute the model's next index |
| `RaftNode.Raft.OnAppendReply` | src/raft/raft.go:694-782 | drops stale replies, steps down, backs up, or counts |
| `RaftNode.Raft.OnSuccess` | src/raft/raft.go:743-782 | updates nextIndex and matchIndex, counts, and commits entries of the current term only |
| `RaftNode.Raft.ApplyEntries` | src/raft/raft.go:1058-1087 | sends everything committed so far, in order |
| `RaftNode.Raft.Make` | src/raft/raft.go:1563-1617 | fresh volatile state, persistent state from the disk |
| `RaftNode.Raft.Persist` | src/raft/raft.go:143-162 | writes term, vote and log |
| `RaftNode.Raft.ReadPersist` | src/raft/raft.go:169-205 | restores them, and nothing from an empty disk |
| `RaftNode.Persister.SaveRaftState` | src/raft/persister.go:33-37 | replaces the stored state and leaves the snapshot |
| `RaftNode.Persister.SaveStateAndSnapshot` | src/raft/persister.go:53-58 | replaces both |
| `RaftNode.Persister.ReadRaftState` | src/raft/persister.go:39-43 | returns the stored state |
| `RaftNode.Persister.Copy` | src/raft/persister.go:24-31 | an independent copy of state and snapshot |
| `LockGaps.LateStepDownKeepsIff` | src/raft/raft.go:694-727 | in every run, a step-down that acts at a later moment than its term check keeps term and vote if and only if in between the peer neither voted in the reply's term nor learned of a later one |
| `LockGaps.LateStepDownElectsTwo` | src/raft/raft.go:694-727 | otherwise: a run in which the peer falls back to term 2 after voting in term 3, votes there again, and two servers lead term 3 |
| `LockGaps.LateAppendIff` | src/raft/raft.go:811-816 | in every run, an append that acts at a later moment than its leader check is what a guarded one does if and only if nothing interrupted the leadership since the check or since an election won after it |
| `LockGaps.LateAppendBreaksLogMatching` | src/raft/raft.go:811-816 | otherwise: a run in which two logs get different entries of one term at one index |
| `Scenario.Applies` | src/raft/raft.go:1406-1536 | a run that elects a leader, replicates, commits and applies a command |
| `Scenario.TwoOfThreeApply` | src/raft/raft.go:1058-1087 | a run in which two of three servers apply a command and the third never takes part |
| `Scenario.Recovers` | src/raft/config.go:98-215 | a run in which a server applies, crashes and is back with its log and an empty stream |
| `MapReduce.RunJob` | src/mapreduce/master.go:60-79 | for any files, map and reduce functions, hash and nReduce >= 1 the output is the group-by of everything emitted: each key once, ascending, with the reduction of a permutation of all its values |
| `Distributed.DistributedJob` | src/mapreduce/schedule.go:81-116 | if both phases return without a late failure, the merged output of a job run by workers is the group-by of everything emitted, although calls may fail after writing some files, be repeated, and write again at any later time |
| `Distributed.PhaseComplete` | src/mapreduce/schedule.go:101-113 | when a phase returns without a late failure every file of every task is there with right contents |
| `MapReduce.PartitioningIsIrrelevant` | src/mapreduce/common_map.go:69-74 | for an order-insensitive reduction the output is the same for any two hashes and numbers of reduce tasks |
| `MapReduce.GroupedUnique` | src/mapreduce/common_reduce.go:74-151 | for an order-insensitive reduction the group-by specification has exactly one solution, also for permuted input |
| `MapReduce.DoMap` | src/mapreduce/common_map.go:60-94 | bucket r is, in order, the pairs whose key hashes to r |
| `MapReduce.BucketValues` | src/mapreduce/common_map.go:69-74 | all the values of a key are in the bucket its hash selects, and in no other |
| `MapReduce.DoReduce` | src/mapreduce/common_reduce.go:74-151 | the output of one reduce task is the group-by of its files |
| `MapReduce.ReduceRuns` | src/mapreduce/common_reduce.go:135-151 | the begin/end loops on sorted data compute the group-by |
| `MapReduce.Gather` | src/mapreduce/common_reduce.go:141-145 | the values of one run of equal keys |
| `MapReduce.SortByKey` | src/mapreduce/common_reduce.go:111-115 | a permutation in which no later key is smaller |
| `MapReduce.Merge` | src/mapreduce/master_splitmerge.go:14-51 | each key once, ascending, with the last value read for it |
| `MapReduce.ReadInto` | src/mapreduce/master_splitmerge.go:17-34 | reading a file into the map keeps the last value of each key |
| `MapReduce.TableLast` | src/mapreduce/master_splitmerge.go:25-32 | of several values of a key the last one read is kept |
| `MapReduce.WriteSorted` | src/mapreduce/master_splitmerge.go:35-51 | the map is written once per key, ascending |
| `MapReduce.ColumnValues` | src/mapreduce/common_reduce.go:76-114 | a reduce task sees all the values of the keys that hash to it, and no others |
| `StringOrder.LessIff` | src/mapreduce/common_reduce.go:17-19 | a string is less if it is a proper prefix, or has the smaller character at the first difference |
| `StringOrder.LessTotal` | src/mapreduce/common_reduce.go:17-19 | any two strings are ordered or equal |
| `StringOrder.LessTransitive` | src/mapreduce/common_reduce.go:17-19 | the order is transitive |
| `StringOrder.AscendingUnique` | src/mapreduce/master_splitmerge.go:35-39 | an ascending key list is determined by its set of keys |
| `Scheduling.EachTaskOnce` | src/mapreduce/schedule.go:81-116 | under every interleaving each number below ntasks is in exactly one place: queued, held, in flight or completed |
| `Scheduling.ReturnsCompleteIffNoLateFailure` | src/mapreduce/schedule.go:85-116 | on return nothing is in flight, what is not completed is in the queue, and all are completed if and only if no call failed after the loop's last look at the queue |
| `Scheduling.MayReturnIncomplete` | src/mapreduce/schedule.go:85-116 | a run that returns with work undone |
| `Scheduling.WorkerExclusive` | src/mapreduce/schedule.go:96-114 | with distinct names a worker is offered or busy at most once, so it never has two calls outstanding |
| `Scheduling.FailedWorkerUnused` | src/mapreduce/schedule.go:101-113 | a worker whose call failed is never offered or called again |
| `Scheduling.FirstInFirstOut` | src/mapreduce/schedule.go:86-106 | what was queued and put back is, in this order, what was taken and is still queued: a failed call goes to the end |
| `Scheduling.NoPanicIffEnoughFiles` | src/mapreduce/schedule.go:98 | `mapFiles[task]` is never out of range, in any run, if and only if ntasks does not exceed the number of files |
| `Scheduling.StepKeepsWorkers` | src/mapreduce/master.go:85-101 | every forwarded worker is offered, working or lost to a failed call, exactly once |
| `Scheduling.Scheduler.constructor` | src/mapreduce/schedule.go:81-84 | the queue starts as 0, 1, ..., ntasks-1 |
| `Scheduling.Scheduler.NextTask` | src/mapreduce/schedule.go:86-94 | pops the head of the queue, or leaves the loop if it is empty |
| `Scheduling.Scheduler.StartCall` | src/mapreduce/schedule.go:96-100 | takes a worker and counts the call |
| `Scheduling.Scheduler.Requeue` | src/mapreduce/schedule.go:102-106 | a failed call puts its task back, under the lock |
| `Scheduling.Scheduler.GiveUp` | src/mapreduce/schedule.go:107-108 | and only then, after the lock is released, leaves the wait group |
| `Scheduling.Scheduler.Succeed` | src/mapreduce/schedule.go:109-113 | a successful call leaves the wait group and offers its worker again |
| `TypeWalk.CheckAll` | src/labgob/labgob.go:68-113 | after any sequence of top-level calls on a finite, possibly cyclic graph the checked types are exactly the reachable ones and the error count is the number of their lower-case fields |
| `TypeWalk.ReachableIsLeast` | src/labgob/labgob.go:87-112 | the reachable types are the least collection with the root, all field types, all element types and both types of every map |
| `TypeWalk.LowerFieldIff` | src/labgob/labgob.go:89-101 | an error is a field of a struct type whose name does not start with a capital |
| `TypeWalk.Checker.CheckValue` | src/labgob/labgob.go:68-70 | one top-level call adds exactly the types reachable from its argument |
| `TypeWalk.Checker.CheckType` | src/labgob/labgob.go:72-113 | ends on cyclic graphs; adds only reachable types, each with its successors, and reports each of their lower-case fields once |
| `TypeWalk.Checker.CheckFields` | src/labgob/labgob.go:89-103 | the loop over the fields of a struct |

## Left out

- Interleavings inside the windows listed under Atomicity, apart from the two in `LockGaps.dfy`.
- Real time: timers, random timeouts, condition variables, the event loop. Elections and heartbeats may start at any moment. That progress stays possible is proved (`Progress.dfy`); that it happens depends on timing and is not claimed.
- leaderId, debug output, `Kill`, `GetState`, RPC counts: nothing depends on them.
- Reflection, channels and gob encoding in labrpc and labgob; `checkDefault` in labgob, which adds to the same error counter.
- The size and snapshot queries of the persister, which the Raft code does not use.
- Aliasing of the log slice in outgoing requests (`src/raft/raft.go:655`): entries are values.
- Go's fixed-width integers: terms, indices and counters are unbounded.
- MapReduce.RunJob: does not model files, JSON or reading errors; it is the sequential driver. `Distributed.DistributedJob` covers the distributed one.
- Distributed.DistributedJob: does not model a file that is read while it is being rewritten; a repeated write replaces it at once.
- Repair.FindAgreement: one goroutine and two fixed logs; goroutines of a run that share nextIndex are the subject of `Indices.dfy`.
- Repair.RejectionsBounded: the same.
- MapReduce.SortByKey: an insertion sort stands for `sort.Sort`; only its contract is used.
- A worker offered to a finished phase and still to be received by the next one.
- Shutdown of workers and clean-up of files.
