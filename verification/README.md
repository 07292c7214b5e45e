# Verified models of the labs

A Dafny model of the parts of this repository that are hard to get right, with proofs about them:
the linearizability checker, Raft with log compaction, the shard controller, MapReduce, and
duplicate suppression while shards move between groups.  `dafny verify dfyconfig.toml` checks all
of it.

## How the pieces fit

**The linearizability checker.**  `Linearizability` says what a linearization is.  `Search` is the
backtracking search on values, with the invariant that every node of the search tree that was left
has been explored; `TraversalOrder` orders its states, so that every iteration moves forward, and
`SearchVerdict` concludes that the verdict is exact and does not depend on the memo table.
`LinkedHistory` and `ListSearch` are the doubly linked list, with `lift` and `unlift` as exact
inverses; `Bitset` and `MemoTable` are the memo table and what it stands for.  `Checker` is
`checkSingle` on the heap: each iteration is one step of `Search`.  `Operations` and `Events` build
its input, and `EventVerdict` relates the verdict to the operations behind a history of events.
`KvLocality` proves that partitioning by key is sound, `CheckParallel` puts the partitions together,
and `KvMeaning` says what the answer means without the model.

**Raft.**  `RaftServer` gives each handler as a function on a server value, and `RaftPeer` is the
class whose methods, loops and early returns included, compute these functions.  `RaftNet` is a
cluster: servers, calls and replies in flight, and steps for timeouts, heartbeats, client commands,
snapshots, delivery, loss, crash and restart.  A reply is received at most once, as with one
goroutine per call.  A snapshot is represented by the log prefix it summarizes, so that every server
has a full log besides its trimmed one.  `RaftCore` and `RaftCoreSteps` hold the history of
elections, votes and acknowledgements on full logs, where log matching and leader completeness are
proved; `RaftInvariant`, `RaftFrames` and the `RaftStep` modules carry the history along every step
of the cluster; `RaftTerms` proves that no term is ever lost from a disk; `RaftSafety` states the
results over whole runs.  `RaftCluster` drives objects of the class through any schedule, and every
step of it is a step of the cluster of values.  `RaftHandlers` says what each handler owes its
callers, in terms of full logs and majorities, and `RaftProgress` builds a run of a new cluster that
commits a command everywhere.

**The shard controller.**  `ShardBalance` and `Rebalance` are the rebalancer, and `EvenMoves` says
when it moves as few shards as possible; `ShardCtrler` is the replicated state machine around it, and
`ShardHistory` reads its state off the log.  Iterating a Go map is choosing any remaining key, so a
method that equals a function of its inputs is one that does not depend on the order.

**MapReduce.**  `MapReduce` is the pipeline of both programs, `MapReduceAgree` compares them,
`Coordinator` hands out tasks, and `MapReduceJob` is a run of coordinator and workers, with renames
as atomic updates of the files; `JobHistory` says what the tables of the coordinator mean.

**Sharded key/value.**  `ShardKv` is one group; `ShardMigration` follows the writes behind every
shard through all copies, and `ShardMeaning` says what a key holds and how a shard changes hands.

`Sequences`, `Sorting`, `StringOrder` and `Register` are shared.

## Where code and comments disagree

The models follow the code.

- The comment on `balance` says that the groups in front get the extra shard; the code gives it to
  the tail (src/shardctrler/server.go:465-485).  `Rebalance.EvenStillMoves` states the
  consequence, and `EvenMoves.FewestOfAllIff` says exactly when no even assignment moves fewer shards.
- The range test in `handleMove` can never be true (src/shardctrler/server.go:438), and a group that
  has not joined is accepted.  `ShardCtrler.MoveOkIff` states when a move is harmless, and
  `ShardCtrler.StrayMove` is one that is not.
- `InstallSnapshot` has two returns that come after the term was raised and before it is persisted
  (src/raft/raft.go:568-586).  The model has them too, and no run reaches one with a newer term:
  `RaftSafety.TermAlwaysPersisted`.

## Model

| member | source | states |
|---|---|---|
| `Checker.CheckSingle` | src/porcupine/checker.go:179-253 | true only for a linearizable history; an unkilled false only for one that is not; every recorded partial linearization is legal and contains its operation; with `computePartial`, an exhausted search has for every operation one of maximal length, or none exists; a true verdict records complete linearizations; the loop ends |
| `Checker.BuildList` | src/porcupine/checker.go:179-189 | the list behind the head sentinel carries exactly the entries in order, each call pointing to its return, and n is the number of operations |
| `Checker.Length` | src/porcupine/checker.go:83-90 | the number of nodes of a chain |
| `Checker.Decide` | src/porcupine/checker.go:196-200 | a call is to be linearized exactly if the model accepts it and the pair of linearized set and state is new |
| `Checker.Linearize` | src/porcupine/checker.go:198-207 | the branch that pushes: memo table, stack, state, bit vector and list are those of the pushed search state |
| `Checker.TryCall` | src/porcupine/checker.go:194-213 | the whole call branch keeps the loop invariant, on the heap and in the search it stands for, and moves forward |
| `Checker.PushEntry` | src/porcupine/checker.go:206-207 | after `lift` the list has lost exactly the call and its return, and the new cursor is the first live node |
| `Checker.PopEntry` | src/porcupine/checker.go:235-241 | after `unlift` the list is the one below the popped call, and the cursor is the next live node behind it |
| `Checker.Backtrack` | src/porcupine/checker.go:214-242 | the whole return branch keeps the loop invariant, on the heap and in the search it stands for, and moves forward |
| `Checker.CollectIds` | src/porcupine/checker.go:222-231 | the ids on the stack, in order |
| `Checker.RecordLongest` | src/porcupine/checker.go:219-234 | replaces exactly the missing and shorter entries of the operations on the stack |
| `Search.StartInv` | src/porcupine/checker.go:179-189 | the search invariant holds at the start |
| `Search.AdvanceInv` | src/porcupine/checker.go:208-213 | skipping a call the model refuses or the memo table knows keeps the invariant: nothing unexplored is lost |
| `Search.PushInv` | src/porcupine/checker.go:198-207 | linearizing a call keeps the invariant: the stack stays a legal partial linearization |
| `Search.PopInv` | src/porcupine/checker.go:214-242 | backtracking keeps the invariant: the popped node is fully explored, and so is every node the table holds |
| `Search.CursorMinimal` | src/porcupine/checker.go:194-213 | no node before the cursor is a return, so the call under it may be linearized next |
| `Search.NodeExplored` | src/porcupine/checker.go:214-242 | at a return every continuation has been accounted for |
| `Search.SuccessIsLinearization` | src/porcupine/checker.go:244-252 | an empty list means the stack is a complete linearization |
| `Search.ExhaustedIsRefuted` | src/porcupine/checker.go:214-217 | a return under the cursor with an empty stack means that no linearization exists, and that recorded partial ones are maximal |
| `Linearizability.FullPartialIsLinearization` | src/porcupine/checker.go:244-252 | a legal prefix of full length is a linearization, and conversely |
| `TraversalOrder.AdvanceProgress` | src/porcupine/checker.go:208-213 | an advance moves strictly forward in a finite order over stacks and list positions |
| `TraversalOrder.PushProgress` | src/porcupine/checker.go:203-207 | a push moves strictly forward in that order, although it jumps back to the head |
| `TraversalOrder.PopProgress` | src/porcupine/checker.go:235-241 | a pop moves strictly forward in that order, although it shortens the stack |
| `TraversalOrder.ProgressBound` | src/porcupine/checker.go:190-243 | the order is bounded by a number fixed by the history |
| `SearchVerdict.VerdictExact` | src/porcupine/checker.go:190-252 | the search from any state that satisfies the invariant ends with true exactly if the history is linearizable |
| `SearchVerdict.PruningKeepsVerdict` | src/porcupine/checker.go:197-210 | the search with the memo table and the search without it give the same verdict |
| `LinkedHistory.RemoveLinked` | src/porcupine/checker.go:159-167 | unlinking a node leaves a list of exactly the other live nodes, both ways |
| `LinkedHistory.RestoreRemove` | src/porcupine/checker.go:169-177 | relinking a node through the fields it kept undoes the unlinking exactly |
| `LinkedHistory.LiftLinked` | src/porcupine/checker.go:159-167 | `lift` leaves the list without the call and its return |
| `LinkedHistory.UnliftUndoesLift` | src/porcupine/checker.go:159-177 | `unlift` after `lift` gives back every pointer |
| `LinkedHistory.LiftIndices` | src/porcupine/checker.go:159-177 | no pointer the two follow is nil or the node itself |
| `LinkedHistory.Lift` | src/porcupine/checker.go:159-167 | the writes to the nodes are the lift on links |
| `LinkedHistory.Unlift` | src/porcupine/checker.go:169-177 | the writes to the nodes give back the links before the lift |
| `LinkedHistory.InsertBefore` | src/porcupine/checker.go:70-81 | the new node is linked in front of the mark, between it and what was before it; a nil mark changes nothing |
| `LinkedHistory.MakeLinkedEntries` | src/porcupine/checker.go:121-138 | a fresh chain with one node per entry, in order, every call matched with the node of its return |
| `ListSearch.NextIsNextLive` | src/porcupine/checker.go:190-243 | following `next` from a live node gives the next entry whose operation is not on the stack |
| `ListSearch.ListStackPush` | src/porcupine/checker.go:203-207 | at every depth of the stack the links are the original list minus the calls below; a push adds a depth |
| `ListSearch.ListStackPop` | src/porcupine/checker.go:235-241 | a pop removes the last depth and leaves the others |
| `MemoTable.MemberIffInBucket` | src/porcupine/checker.go:145-152 | a pair is in the table exactly if its entry is in the bucket of its own hash, collisions included |
| `MemoTable.CacheContains` | src/porcupine/checker.go:145-152 | a lookup is exactly membership of the pair of linearized set and state |
| `MemoTable.CacheAdd` | src/porcupine/checker.go:201-202 | adding an entry adds exactly its pair |
| `Bitset.SameWordsIffSamePositions` | src/porcupine/bitset.go:62-72 | two vectors of one length are equal words exactly if they are the same set of positions |
| `Bitset.WithBitPositions` | src/porcupine/bitset.go:29-33 | setting a bit adds exactly its position |
| `Bitset.WithoutBitPositions` | src/porcupine/bitset.go:35-39 | clearing a bit removes exactly its position |
| `Bitset.NewBitset` | src/porcupine/bitset.go:10-17 | enough words for the bits asked for, and the empty set |
| `Bitset.Clone` | src/porcupine/bitset.go:19-23 | a fresh array with the same words |
| `Bitset.Set` | src/porcupine/bitset.go:29-33 | the set gains the position |
| `Bitset.Clear` | src/porcupine/bitset.go:35-39 | the set loses the position |
| `Bitset.Get` | src/porcupine/bitset.go:41-44 | membership of the position |
| `Bitset.Popcnt` | src/porcupine/bitset.go:46-52 | the size of the set |
| `Bitset.OnesCountIsSize` | src/porcupine/bitset.go:46-52 | the number of ones of all words is the size of the set |
| `Bitset.HashOf` | src/porcupine/bitset.go:54-60 | population count and words, xored; truncated to 64 bits |
| `Bitset.Equals` | src/porcupine/bitset.go:62-72 | equality of the words, which for one length is equality of the sets |
| `Operations.MakeEntries` | src/porcupine/checker.go:48-68 | a call and a return entry per operation with its index as id, sorted by time |
| `Operations.EntriesWellFormed` | src/porcupine/checker.go:48-68 | if every operation is called no later than it returns, each id has one call and one later return |
| `Operations.PrecedesIsTime` | src/porcupine/checker.go:39-46 | one operation precedes another in the entries exactly if it returned strictly before the other was called |
| `Operations.EntriesDecideOperations` | src/porcupine/checker.go:48-68 | the entries are linearizable exactly if the operations are, whatever order equal times end up in |
| `Events.Renumber` | src/porcupine/checker.go:92-106 | ids renamed one to one to 0, 1, 2 … in order of first appearance |
| `Events.Convert` | src/porcupine/checker.go:108-119 | an entry per event, in order: kind, value and id of the event, timed by its position |
| `EventVerdict.RenamedOps` | src/porcupine/checker.go:92-106 | renumbering leaves the operations behind the events alone |
| `EventVerdict.ConvertedEntries` | src/porcupine/checker.go:108-119 | the converted entries are the entries of the operations behind the events, in order of time |
| `EventVerdict.EventsDecideOperations` | src/porcupine/checker.go:92-119 | a renumbered and converted history is linearizable exactly if the operations behind the events are |
| `EventVerdict.CheckEvents` | src/porcupine/checker.go:355-363 | for a model that does not partition, Ok means that the operations behind the events are linearizable, Illegal that they are not, and Unknown exactly if the timeout comes first |
| `Events.RenumberedWellFormed` | src/porcupine/checker.go:92-119 | any history of paired calls and returns becomes a well-formed history of dense ids |
| `KvLocality.GroupByKey` | src/models/kv.go:19-23 | every key with its operations, in order |
| `KvLocality.Keys` | src/models/kv.go:24-27 | the keys in some order |
| `KvLocality.SortedKeys` | src/models/kv.go:24-28 | the keys sorted |
| `KvLocality.Partition` | src/models/kv.go:18-34 | one part per key, in sorted order, holding exactly the operations of the key, in order |
| `KvLocality.StoreStepIsLocal` | src/models/kv.go:40-54 | a step of the whole store is the step of the key's own register and leaves the other keys alone |
| `KvLocality.StoreOrderGivesKeyOrder` | src/models/kv.go:18-54 | a linearization of the store restricted to a key is one of the key |
| `KvLocality.Merge` | src/models/kv.go:18-54 | linearizations of all keys merge into one of the store that respects real time |
| `KvLocality.Locality` | src/models/kv.go:18-54 | the store is linearizable exactly if every part is |
| `KvMeaning.AcceptsIff` | src/models/kv.go:35-53 | the store accepts a sequence of operations exactly if every get returned the last put of its key before it, followed by all later appends |
| `KvMeaning.LinearizableIff` | src/models/kv.go:35-53 | a history is linearizable exactly if some order that respects real time explains every get in this way |
| `CheckParallel.CompleteIsLongest` | src/porcupine/checker.go:221-233 | a complete linearization is a longest partial one for every operation |
| `CheckParallel.Receive` | src/porcupine/checker.go:279-292 | a search that ends while the kill flag is down decides its part, and with `computeInfo` has a longest partial linearization for every operation |
| `CheckParallel.CollectRest` | src/porcupine/checker.go:311-318 | waiting for searches that may have been killed leaves sound tables, and complete ones if all had reported before |
| `CheckParallel.CheckParallel` | src/porcupine/checker.go:274-353 | Ok only if all parts are linearizable, Illegal only if some part is not; Unknown exactly if the time runs out before all parts have reported and those that have are linearizable; whatever order results arrive in and whenever a search sees the kill flag; the partial linearizations reported are sound, and longest if the time does not run out |
| `CheckParallel.MakeAllEntries` | src/porcupine/checker.go:367-371 | the entries of every part |
| `CheckParallel.PartsDecideStore` | src/porcupine/checker.go:365-373 | the parts are all linearizable exactly if the history is for one map-valued store |
| `CheckParallel.OnePartPerKey` | src/porcupine/checker.go:365-373 | as many parts as there are keys |
| `CheckParallel.CheckKvOperations` | src/porcupine/checker.go:365-373 | for every non-empty history of key/value operations, Ok means linearizable for the whole store and Illegal means not; Unknown exactly if the time runs out before all keys have reported and the histories of those that have are linearizable |
| `RaftPeer.Raft.constructor` | src/raft/raft.go:1009-1033 | an empty persister gives the initial server |
| `RaftPeer.Raft.Persist` | src/raft/raft.go:259-285 | the disk holds the current term, vote, log and snapshot |
| `RaftPeer.Raft.ReadPersist` | src/raft/raft.go:288-316 | a restarted server is what the disk says, with everything volatile reset |
| `RaftPeer.Raft.RequestVote` | src/raft/raft.go:368-401 | the handler is the server function `RequestVote`; see RaftStepVote.VoteCallStep |
| `RaftPeer.Raft.StartElection` | src/raft/raft.go:942-962 | term raised, own vote recorded and persisted; the arguments describe the full log |
| `RaftPeer.Raft.InitializeLeaderEasilyLostState` | src/raft/raft.go:196-209 | indices of a new leader for every peer |
| `RaftPeer.Raft.ReceiveVote` | src/raft/raft.go:964-995 | the reply handler is the server function `HandleVoteReply`; see RaftStepVote.VoteAnswerStep |
| `RaftPeer.Raft.FindConflict` | src/raft/raft.go:500-506 | the loop computes `ConflictIndex`; see RaftServer.ConflictIndexLowest |
| `RaftPeer.Raft.AppendNew` | src/raft/raft.go:513-524 | the loop over the entries is `AppendLoop`; RaftStepAppend.AppendMerges says what that is |
| `RaftPeer.Raft.AcceptEntries` | src/raft/raft.go:513-529 | log and commit index after an accepted call |
| `RaftPeer.Raft.AppendEntries` | src/raft/raft.go:454-532 | the handler is the server function `AppendEntries`; see RaftStepAppend.AppendCallStep |
| `RaftPeer.Raft.Snapshot` | src/raft/raft.go:326-352 | trimming keeps the full log; nothing happens for an uncommitted or old index |
| `RaftPeer.Raft.InstallSnapshot` | src/raft/raft.go:552-633 | the handler is the server function `InstallSnapshot`, including the two returns that do not persist |
| `RaftPeer.Raft.Start` | src/raft/raft.go:652-681 | a leader appends one entry of its term and persists it; others refuse |
| `RaftPeer.Raft.SendTo` | src/raft/raft.go:785-836 | one message per peer, snapshot or entries, given the bound that keeps the panic away |
| `RaftPeer.Raft.CountPeers` | src/raft/raft.go:904-909 | the number of peers known to hold an index of the current term |
| `RaftPeer.Raft.CheckAndCommitLogs` | src/raft/raft.go:900-920 | the commit index moves to the last index of the current term on a majority |
| `RaftPeer.Raft.FindNextIndex` | src/raft/raft.go:922-939 | the three cases of the conflict hint |
| `RaftPeer.Raft.ReceiveAppendReply` | src/raft/raft.go:838-870 | the reply handler is the server function `HandleAppendReply` |
| `RaftPeer.Raft.ReceiveInstallReply` | src/raft/raft.go:872-898 | the reply handler is the server function `HandleInstallReply` |
| `RaftCluster.Cluster.constructor` | src/raft/raft.go:1009-1033 | newly made peers are the initial cluster |
| `RaftCluster.Cluster.Messages` | src/raft/raft.go:785-836 | the broadcast loop sends what the step of the cluster says, given the bound that keeps the panic away |
| `RaftCluster.Cluster.Timeout` | src/raft/raft.go:942-962 | an election is the step `ElectionTimeout` |
| `RaftCluster.Cluster.Beat` | src/raft/raft.go:714-727 | a heartbeat is the step `Heartbeat`, and never panics |
| `RaftCluster.Cluster.Command` | src/raft/raft.go:652-681 | a client command is the step `Client` |
| `RaftCluster.Cluster.Trim` | src/raft/raft.go:326-352 | a snapshot by the service is the step `Compact` |
| `RaftCluster.Cluster.Reboot` | src/raft/raft.go:288-316 | a restart is the step `Crash` |
| `RaftCluster.Cluster.Receive` | src/raft/raft.go:368-998 | handling a call or an answer is the step `Deliver`; a won election broadcasts at once and does not panic |
| `RaftCluster.Cluster.Take` | src/raft/raft.go:368-998 | any step, where its own demands are met, drives the objects to the next state of a run, so every result about runs holds of them |
| `RaftCluster.PossibleEnabled` | src/raft/raft.go:785-836 | in every run the handlers find the state they rely on |
| `RaftHandlers.VoteGrantedIff` | src/raft/raft.go:368-401 | a vote is given exactly if the term is not old, the vote of the term is not taken by another, and the log of the candidate is at least as up to date as the full log; then it is on disk |
| `RaftHandlers.StandingExact` | src/raft/raft.go:942-962 | a candidate has voted for itself on disk, and its call describes its full log |
| `RaftHandlers.CampaignReaches` | src/raft/raft.go:949-964 | every other peer is asked, and nobody else |
| `RaftHandlers.ElectedIff` | src/raft/raft.go:976-993 | an answer makes a leader exactly if it is about the term the candidate stands in and the votes are a majority; every index of the new leader starts at the end of its log |
| `RaftHandlers.AcceptedIff` | src/raft/raft.go:454-532 | entries are taken exactly if the term is not old and the untrimmed log has the entry before them; a refusal changes neither log nor commit index |
| `RaftHandlers.RefusalHints` | src/raft/raft.go:480-511 | a refusal says how long the log is, or which term it has where the entries did not fit |
| `RaftHandlers.ConflictHint` | src/raft/raft.go:500-508 | and where the run of uncommitted entries of that term starts |
| `RaftHandlers.NextIndexExact` | src/raft/raft.go:922-939 | the leader goes to the end of the log of the peer, to its own last entry of the term, or to the start of the run |
| `RaftHandlers.HintBacksUp` | src/raft/raft.go:922-939 | a refusal with a hint makes the leader of the call, in any later state of its term, start strictly before the entry that did not match |
| `RaftHandlers.StartExact` | src/raft/raft.go:652-681 | the command of a leader is the next entry of its full log, and on disk; others refuse it |
| `RaftHandlers.MessageExact` | src/raft/raft.go:785-836 | the snapshot, if the peer needs what is trimmed; else everything from its next index on, with the term before it and the commit index of the leader |
| `RaftHandlers.BroadcastReaches` | src/raft/raft.go:785-836 | a broadcast has exactly the message of every other peer |
| `RaftHandlers.LastMajority` | src/raft/raft.go:900-920 | the commit loop finds the last index of the current term that more than half of the peers are known to hold |
| `RaftHandlers.CommittedIff` | src/raft/raft.go:900-920 | an index is committed exactly if it was, or an index of the current term from it on is on a majority |
| `RaftHandlers.SuccessExact` | src/raft/raft.go:838-870 | a success advances what is known of the peer and of no other, and commits all that is then on a majority |
| `RaftHandlers.RefusalExact` | src/raft/raft.go:838-870 | a refusal changes only where to go on with the peer |
| `RaftHandlers.InstalledExact` | src/raft/raft.go:872-898 | an installed snapshot advances what is known of the peer and of no other |
| `RaftHandlers.NewerTermTaken` | src/raft/raft.go:368-590 | who is called with a newer term follows it |
| `RaftHandlers.NewerTermStepsDown` | src/raft/raft.go:838-983 | who is answered with a newer term steps down; only a candidate forgets its vote; answers to old calls are ignored |
| `RaftHandlers.SnapshotExact` | src/raft/raft.go:326-352 | exactly a newer committed prefix is trimmed, and the full log stays what it is |
| `RaftHandlers.InstallExact` | src/raft/raft.go:552-633 | a snapshot is installed exactly if its term is not old and it reaches beyond the commit index; what follows it is kept exactly if the log has its last entry |
| `RaftProgress.LeaderElected` | src/raft/raft.go:942-998 | a new cluster of two or more servers has a run that elects a leader |
| `RaftProgress.CommandCommitted` | src/raft/raft.go:454-998 | and one in which a command is committed on every server |
| `RaftProgress.AloneNeverLeads` | src/raft/raft.go:942-998 | a cluster of one server never has a leader: nobody answers its calls |
| `RaftProgress.ElectableIff` | src/raft/raft.go:942-998 | some run has a leader exactly if there are two or more servers |
| `RaftServer.ConflictIndexLowest` | src/raft/raft.go:500-506 | the conflict hint is the lowest index of the run of the conflicting term above the commit index |
| `RaftServer.SupportedAbove` | src/raft/raft.go:900-920 | what the commit loop finds is supported, and nothing above it is |
| `RaftCore.LogMatching` | src/raft/raft.go:480-524 | logs whose entries come from the leaders of their terms agree up to any index where their terms agree |
| `RaftCore.OneWinner` | src/raft/raft.go:368-401 | a quorum of votes in a term belongs to the leader of that term |
| `RaftCore.WinnerHas` | src/raft/raft.go:137-139 | a winner at least as up to date as a voter that has a committed entry has it too |
| `RaftCore.LeaderCompleteness` | src/raft/raft.go:368-401 | every leader of a later term was elected with every committed entry |
| `RaftCoreSteps.RaiseKeepsInv` | src/raft/raft.go:475-477 | persisting a newer term keeps the history invariant |
| `RaftCoreSteps.GrantVoteKeepsInv` | src/raft/raft.go:391-398 | granting the first vote of a term keeps the history invariant |
| `RaftCoreSteps.WinKeepsInv` | src/raft/raft.go:984-993 | winning a term with a majority of votes keeps the history invariant |
| `RaftCoreSteps.ExtendKeepsInv` | src/raft/raft.go:665-672 | a leader's own append keeps the history invariant |
| `RaftCoreSteps.AdoptKeepsInv` | src/raft/raft.go:513-531 | taking over a prefix of the leader's log keeps the history invariant: nothing acknowledged earlier is lost unless superseded |
| `RaftStepLocal.VoteRemembered` | src/raft/raft.go:886-891 | in memory as on disk, a server remembers the vote it granted in its current term, also when it steps down without clearing it |
| `RaftStepLocal.CrashStep` | src/raft/raft.go:288-316 | a crash and restart from the disk keeps the cluster invariant |
| `RaftStepLocal.LoseStep` | src/raft/raft.go:430-433 | losing a message keeps the cluster invariant |
| `RaftStepLocal.CompactStep` | src/raft/raft.go:326-352 | trimming the log behind a snapshot keeps the cluster invariant |
| `RaftStepLocal.ClientStep` | src/raft/raft.go:652-681 | a client command keeps the cluster invariant |
| `RaftStepLocal.MessageOk` | src/raft/raft.go:785-836 | a leader has a message for every peer, and it is a piece of its own log |
| `RaftStepLocal.HeartbeatStep` | src/raft/raft.go:714-742 | a broadcast keeps the cluster invariant |
| `RaftStepVote.TimeoutStep` | src/raft/raft.go:702-712 | an election timeout, in any role, keeps the cluster invariant |
| `RaftStepVote.GrantIsNew` | src/raft/raft.go:386-398 | a vote is granted only where none was granted in that term |
| `RaftStepVote.VoteCallStep` | src/raft/raft.go:368-401 | delivering a vote request keeps the cluster invariant |
| `RaftStepVote.MajorityWins` | src/raft/raft.go:984-993 | a counter above half the peers means distinct voters forming a quorum, in a term nobody has won |
| `RaftStepVote.VoteAnswerStep` | src/raft/raft.go:964-995 | delivering a vote reply keeps the cluster invariant, a won election and its broadcast included |
| `RaftStepAppend.AppendTrimmed` | src/raft/raft.go:513-524 | the loop on a trimmed log is the loop on the full log |
| `RaftStepAppend.AppendMerges` | src/raft/raft.go:513-524 | the loop leaves a log that has the entries alone and otherwise replaces it by the leader's prefix |
| `RaftStepAppend.AcceptLog` | src/raft/raft.go:513-524 | after an accepted call the full log is the merge of its own with the leader's |
| `RaftStepAppend.AcceptShape` | src/raft/raft.go:526-529 | the commit index becomes the leader's or stays: the minimum with the own last index never bites |
| `RaftStepAppend.EvidentInLeader` | src/raft/raft.go:454-532 | what a server considers committed is in the log of every leader of a term at least as new |
| `RaftStepAppend.RefuseServer` | src/raft/raft.go:480-511 | a refused call that is not stale still persists the term and keeps the server in order |
| `RaftStepAppend.AppendReplyHints` | src/raft/raft.go:480-511 | hints never point beyond the index the leader asked about |
| `RaftStepAppend.AppendCallStep` | src/raft/raft.go:454-532 | delivering entries keeps the cluster invariant |
| `RaftStepAppend.SupportedCommitted` | src/raft/raft.go:900-920 | an index the commit loop selects is held by a quorum that acknowledged it in this term |
| `RaftStepAppend.LastWithTermBound` | src/raft/raft.go:929-934 | the search for a term finds the last entry of that term in the log, or none |
| `RaftStepAppend.AppendAnswerStep` | src/raft/raft.go:838-870 | delivering an append reply keeps the cluster invariant |
| `RaftStepInstall.InstalledMerges` | src/raft/raft.go:596-621 | installing a snapshot beyond the commit index is merging it into the full log, whether or not its last entry is held |
| `RaftStepInstall.FollowServer` | src/raft/raft.go:568-586 | a newer term taken up without being persisted leaves the server in order |
| `RaftStepInstall.InstallCallStep` | src/raft/raft.go:552-633 | delivering a snapshot keeps the cluster invariant |
| `RaftStepInstall.InstallAnswerStep` | src/raft/raft.go:872-898 | delivering a snapshot reply keeps the cluster invariant |
| `RaftSafety.InitialOk` | src/raft/raft.go:1009-1033 | the invariant holds of a fresh cluster |
| `RaftSafety.StepKeepsInv` | src/raft/raft.go:368-997 | every step of the cluster keeps the invariant, and the history only grows |
| `RaftSafety.AlwaysShaped` | src/raft/raft.go:137-187 | in every reachable state indices, logs and snapshots fit together and every message can be handled |
| `RaftSafety.ElectionSafety` | src/raft/raft.go:942-997 | over a whole run, at most one server ever leads a term |
| `RaftSafety.LeaderAppendOnly` | src/raft/raft.go:652-681 | a leader only appends to its log while it leads |
| `RaftTerms.CommitBelowElection` | src/raft/raft.go:137-139 | what a server has committed is inside the log of every later leader at its election |
| `RaftTerms.NewerInstalls` | src/raft/raft.go:568-588 | a snapshot call of a newer term reaches beyond the commit index of the server it is for |
| `RaftTerms.TermStep` | src/raft/raft.go:368-1000 | every step keeps every term on disk, and every snapshot call to a server behind its term covers the log its sender was elected with |
| `RaftSafety.TermAlwaysPersisted` | src/raft/raft.go:552-633 | in every reachable state the current term of every server is the one on its disk |
| `RaftSafety.TermMonotone` | src/raft/raft.go:288-316 | the term of a server never decreases, through crashes and restarts |
| `RaftSafety.DiskAlwaysCurrent` | src/raft/raft.go:259-316 | in every reachable state the disk holds the current term, vote, log and snapshot |
| `RaftSafety.CrashCostsNothing` | src/raft/raft.go:288-316 | in every run a crash costs no entry, no term and no vote |
| `RaftSafety.NewerSnapshotInstalled` | src/raft/raft.go:568-588 | no snapshot call of a newer term returns before it is installed and the term persisted |
| `RaftSafety.LogsMatch` | src/raft/raft.go:480-524 | full logs at any two times of a run agree up to any index at which their terms agree |
| `RaftSafety.TrimmedLogsMatch` | src/raft/raft.go:480-524 | trimmed logs agree on every entry both still hold up to an index of equal terms |
| `RaftSafety.PiecesMatch` | src/raft/raft.go:480-524 | any two of logs, entries in flight and snapshots in flight, at any two times, agree up to any index where their terms agree |
| `RaftSafety.MessagesMatch` | src/raft/raft.go:785-836 | entries in flight match every log in the same sense |
| `RaftSafety.SnapshotsMatch` | src/raft/raft.go:596-621 | snapshots in flight match every log in the same sense |
| `RaftSafety.StateMachineSafety` | src/raft/raft.go:454-633 | what any two servers consider committed, at any two times of a run, agrees |
| `RaftSafety.LeaderHoldsCommitted` | src/raft/raft.go:368-401 | the log of a leader extends what any server of an older term considers committed, at any two times, and what any server of its own term has committed by then |
| `RaftSafety.FollowerCommitVerified` | src/raft/raft.go:513-529 | a follower's new commit index never passes the last index the accepted call verified |
| `RaftSafety.LeaderAlwaysSends` | src/raft/raft.go:785-836 | while a server leads, nextIndex is at most its log length for every peer, so the panic is out of reach |
| `ShardBalance.OrderUnique` | src/shardctrler/server.go:452-463 | the sorted order of the groups is unique |
| `ShardBalance.SortGids` | src/shardctrler/server.go:452-463 | whatever order the map is iterated in, the sorted groups are the same |
| `ShardBalance.ReplaceFirst` | src/shardctrler/server.go:494-502 | the inner loop hands exactly the first k shards of one owner to another |
| `ShardBalance.ReplacedCounts` | src/shardctrler/server.go:494-502 | handing over the first k shards moves exactly k from one count to the other |
| `ShardBalance.TargetsCover` | src/shardctrler/server.go:475-485 | the shares add up to the number of shards, for any number of groups |
| `ShardBalance.LackIsFree` | src/shardctrler/server.go:480-530 | what overloaded groups give up, with the free shards, is what the others lack |
| `ShardBalance.ReleasedOk` | src/shardctrler/server.go:480-505 | after the first pass no group is above its share, and only overloaded groups lost shards |
| `ShardBalance.FilledOk` | src/shardctrler/server.go:507-527 | after the second pass every group has its share, and only underloaded groups gained shards |
| `Rebalance.ReleasePass` | src/shardctrler/server.go:480-505 | the loop of the first pass |
| `Rebalance.FillPass` | src/shardctrler/server.go:507-527 | the loop of the second pass |
| `Rebalance.Balance` | src/shardctrler/server.go:474-530 | no shard unassigned, every group exactly its share, sizes within one, only shrinking groups lose shards, and as many moves as the sum of the overloads |
| `Rebalance.AllAssigned` | src/shardctrler/server.go:474-530 | every shard belongs to a group |
| `Rebalance.ExactShares` | src/shardctrler/server.go:474-530 | every group has exactly its share |
| `Rebalance.TiesByGid` | src/shardctrler/server.go:452-466 | most loaded groups first, and among equals those with larger ids |
| `Rebalance.NearlyEqual` | src/shardctrler/server.go:474-530 | sizes differ by at most one |
| `Rebalance.OthersKeep` | src/shardctrler/server.go:486-505 | a group at or below its share keeps all its shards |
| `Rebalance.FewestMoves` | src/shardctrler/server.go:474-530 | no assignment with the same shares moves fewer shards |
| `Rebalance.EvenButMoved` | src/shardctrler/server.go:465-485 | four, three and three shards are even already, and the code moves one |
| `Rebalance.EvenStillMoves` | src/shardctrler/server.go:465-485 | because the remainder goes to the tail and not, as the comment says, to the front, an even assignment is moved by exactly the smaller of remainder and the rest |
| `EvenMoves.BetterExists` | src/shardctrler/server.go:465-530 | where the groups do not divide the shards and one is above the average, some even assignment moves fewer shards than the code |
| `EvenMoves.FewestOfAllIff` | src/shardctrler/server.go:465-530 | no even assignment moves fewer shards than the code, if and only if the groups divide the shards or no group has more than the average |
| `ShardCtrler.ZeroCounts` | src/shardctrler/server.go:362-365 | a zero per listed group |
| `ShardCtrler.CountShards` | src/shardctrler/server.go:361-371 | the number of shards of each listed or owning group |
| `ShardCtrler.Assign` | src/shardctrler/server.go:373-381 | the new assignment: balanced, or all zero without groups |
| `ShardCtrler.AddGroups` | src/shardctrler/server.go:356-359 | the groups with the joining ones put in |
| `ShardCtrler.RemoveGroups` | src/shardctrler/server.go:394-397 | the groups without the leaving ones |
| `ShardCtrler.FreeShards` | src/shardctrler/server.go:409-417 | the shards with those of leaving groups freed |
| `ShardCtrler.AssignmentOk` | src/shardctrler/server.go:373-381 | over listed owners the assignment uses exactly the listed groups and is balanced |
| `ShardCtrler.JoinOk` | src/shardctrler/server.go:353-383 | a join keeps the history in order and makes a balanced configuration |
| `ShardCtrler.LeaveOk` | src/shardctrler/server.go:385-429 | a leave keeps the history in order and makes a balanced configuration, also when the last group leaves |
| `ShardCtrler.MoveOkIff` | src/shardctrler/server.go:432-444 | a move keeps every shard with a listed group if and only if it goes to one |
| `ShardCtrler.StrayMove` | src/shardctrler/server.go:432-444 | a move to a group that never joined, as the first command, is carried out and breaks the history |
| `ShardCtrler.StepOk` | src/shardctrler/server.go:309-341 | every applied command keeps the history in order |
| `ShardCtrler.StepOkIff` | src/shardctrler/server.go:309-463 | a command leaves the history in order exactly if it was in order and the command is a duplicate, no move, or a move to a listed group |
| `ShardCtrler.HistoryAlwaysOk` | src/shardctrler/server.go:309-463 | configuration i has number i and every shard is with a listed group, or with none if there is none, if and only if every move in the log was a duplicate or to a listed group |
| `ShardCtrler.NumberedAlways` | src/shardctrler/server.go:373-377 | for every log, also with moves to groups that never joined, configuration i has number i |
| `ShardCtrler.AssignmentBalanced` | src/shardctrler/server.go:465-530 | the rebalancer makes the listed groups balanced even where shards are with unlisted ones |
| `ShardCtrler.JoinAndLeaveBalance` | src/shardctrler/server.go:353-429 | whatever the log before, a join or a leave makes a balanced configuration |
| `ShardCtrler.OldConfigsKept` | src/shardctrler/server.go:353-444 | old configurations never change |
| `ShardCtrler.RetryIgnored` | src/shardctrler/server.go:316-319 | a command that reaches the log again while its client did nothing else has no effect |
| `ShardHistory.IgnoredIff` | src/shardctrler/server.go:309-342 | a command of a log is ignored exactly if it has the number of the command its client sent before it |
| `ShardHistory.GroupsAfter` | src/shardctrler/server.go:353-429 | a join lists the groups it names with their servers, a leave removes those it names, and nothing else changes |
| `ShardHistory.ListedIff` | src/shardctrler/server.go:309-463 | after every log a group is listed exactly if the last command carried out that names it is a join, and with the servers of that join |
| `ShardHistory.JoinKeeps` | src/shardctrler/server.go:353-383 | through a join a shard leaves its group only if the group has fewer afterwards |
| `ShardHistory.LeaveKeeps` | src/shardctrler/server.go:385-429 | the same through a leave, for groups that stay |
| `ShardHistory.MoveExact` | src/shardctrler/server.go:432-444 | a move changes the owner of one shard |
| `ShardHistory.QueryExact` | src/shardctrler/server.go:309-342 | a query changes no configuration |
| `ShardCtrler.Ctrler.constructor` | src/shardctrler/server.go:284-307 | one empty configuration with number 0 |
| `ShardCtrler.Ctrler.HandleJoin` | src/shardctrler/server.go:353-383 | appends the joined configuration and nothing else |
| `ShardCtrler.Ctrler.HandleLeave` | src/shardctrler/server.go:385-429 | appends the configuration without the leaving groups and nothing else |
| `ShardCtrler.Ctrler.HandleMove` | src/shardctrler/server.go:432-444 | appends a copy with one shard handed over |
| `ShardCtrler.Ctrler.ApplyOp` | src/shardctrler/server.go:309-341 | one command, or nothing for a repetition |
| `ShardCtrler.Ctrler.ApplyLog` | src/shardctrler/server.go:309-341 | the state after a log is a function of the log: replicas agree however they iterate their maps |
| `ShardCtrler.Ctrler.Lookup` | src/shardctrler/server.go:229-248 | the configuration with the number, the latest for -1 or a number too large, none for other negative numbers |
| `MapReduce.PerformMap` | src/mr/worker.go:96-103 | file r holds exactly the pairs whose key hashes to r, in order |
| `MapReduce.PerformReduce` | src/mr/worker.go:119-165 | one line per key in ascending order, each from all the values of its key |
| `MapReduce.Sequential` | src/main/mrsequential.go:38-84 | one line per key in ascending order, each from all the values of its key, for all pairs in one place |
| `MapReduce.SortAndGroup` | src/mr/worker.go:138-165 | sorting and grouping any pairs |
| `MapReduce.GroupSorted` | src/mr/worker.go:147-165 | the three loops over a sorted sequence |
| `MapReduce.ValuesPermutation` | src/mr/worker.go:138-139 | sorting rearranges the values of each key and nothing else |
| `MapReduce.GroupNext` | src/mr/worker.go:150-165 | each run of equal keys adds the one line of its key |
| `MapReduce.BucketValues` | src/mr/worker.go:98-103 | a key's bucket has all its values in order, every other bucket none |
| `MapReduce.BucketsValues` | src/mr/worker.go:121-136 | what a reduce task reads from all map tasks has all values of its own keys, in order, and none of the others |
| `MapReduceAgree.LineIff` | src/mr/worker.go:147-165 | for a reducer that ignores order, exactly which lines an output has |
| `MapReduceAgree.OutputUnique` | src/mr/worker.go:138-165 | for such a reducer the output file is the same however the pairs were sorted |
| `MapReduceAgree.OutputUniqueIff` | src/mr/worker.go:138-165 | every input has one output, if and only if the reducer ignores the order of values |
| `MapReduceAgree.OneTaskPerKey` | src/mr/worker.go:98-103 | a key is written by the one reduce task it hashes to |
| `MapReduceAgree.DistributedIsSequential` | src/mr/worker.go:119-165 | the lines of all reduce tasks are, as a multiset, the lines of the sequential program |
| `MapReduceAgree.SameTexts` | src/mr/worker.go:160-160 | the same lines in any order are, as text, the same multiset |
| `MapReduceAgree.TextDetermines` | src/mr/worker.go:158-158 | a line can be read back if its key has no space |
| `Coordinator.Scan` | src/mr/coordinator.go:45-60 | the first task not finished and not handed out in the last ten seconds; otherwise whether all are finished |
| `Coordinator.DecisionUnique` | src/mr/coordinator.go:36-96 | every state and time has one decision |
| `Coordinator.Coordinator.constructor` | src/mr/coordinator.go:153-166 | nothing handed out, nothing finished |
| `Coordinator.Coordinator.GetTask` | src/mr/coordinator.go:36-96 | maps before reduces, the first available one, waiting while some are out, done only when all are finished |
| `Coordinator.Coordinator.FinishedTask` | src/mr/coordinator.go:98-113 | the reported task is finished, and nothing else changes; other kinds are refused |
| `Coordinator.Coordinator.Done` | src/mr/coordinator.go:138-148 | reports the job as done only if every map and every reduce task was reported finished |
| `MapReduceJob.StepKeepsInv` | src/mr/worker.go:178-195 | every step of coordinator and workers keeps the invariant, crashes and reassignments included |
| `MapReduceJob.NextFileThere` | src/mr/worker.go:121-126 | the file a reduce task opens next exists and is complete |
| `MapReduceJob.InvAlways` | src/mr/worker.go:178-195 | the invariant holds in every reachable state |
| `MapReduceJob.ReduceFindsFiles` | src/mr/worker.go:119-136 | whoever holds a reduce task finds every intermediate file, complete and correct |
| `MapReduceJob.OutputFinal` | src/mr/worker.go:167-170 | an output file that exists never changes, whoever writes it again |
| `MapReduceJob.DoneMeansFinal` | src/mr/coordinator.go:138-148 | done is reported only when every output file exists and is final |
| `MapReduceJob.DoneMeansSequential` | src/mr/coordinator.go:91-95 | when done is reported the output files together hold the lines of the sequential program |
| `JobHistory.FinishedIff` | src/mr/coordinator.go:98-113 | in every run a task counts as finished exactly if a worker that did it has reported |
| `JobHistory.AssignedIff` | src/mr/coordinator.go:46-56 | the table has the time a task was handed out last, if ever |
| `JobHistory.HandedOutIff` | src/mr/coordinator.go:43-91 | a worker that asks is given the first map task that is neither reported nor out for less than ten seconds; if all are reported, the first such reduce task |
| `JobHistory.HandedOutApart` | src/mr/coordinator.go:43-91 | no task is handed out once reported or within ten seconds of the last time, and no reduce task before all maps are reported |
| `JobHistory.DoneIff` | src/mr/coordinator.go:92-96 | a worker is told that the job is done exactly if every task is reported |
| `ShardKv.Key2Shard` | src/shardkv/client.go:20-27 | every key has one of the shards |
| `ShardKv.StepAtLeast` | src/shardkv/server.go:224-272 | no command lowers a client's number in the table |
| `ShardKv.TableNeverDecreases` | src/shardkv/server.go:224-272 | no sequence of commands lowers a client's number in the table |
| `ShardKv.NeverAgain` | src/shardkv/server.go:240-256 | a write the table knows is never carried out again, whatever is applied in between |
| `ShardKv.ParcelIff` | src/shardkv/server.go:317-328 | a parcel is made for exactly the shards that have to leave |
| `ShardKv.MergeTables` | src/shardkv/server.go:434-440 | for every client the higher of the two numbers |
| `ShardKv.Server.constructor` | src/shardkv/server.go:193-206 | no shards, no configuration, an empty table |
| `ShardKv.Server.ApplyWrite` | src/shardkv/server.go:232-256 | a served, new write changes its key and the table; everything else is refused or ignored |
| `ShardKv.Server.ApplyGet` | src/shardkv/server.go:232-256 | a served, new read changes only the table |
| `ShardKv.Server.DoUpgradeConfig` | src/shardkv/server.go:406-424 | a newer configuration is taken up, and shards owned by nobody before start empty |
| `ShardKv.Server.DoAddShard` | src/shardkv/server.go:426-441 | an arriving shard is taken with its table, if it is due and not there |
| `ShardKv.Server.DoRemoveShard` | src/shardkv/server.go:443-448 | the shard is dropped unless the command is old |
| `ShardKv.Server.Apply` | src/shardkv/server.go:224-272 | one command and its answer |
| `ShardKv.Server.CopyShards` | src/shardkv/server.go:312-328 | data and table of every leaving shard, copied together |
| `ShardKv.Server.IsAllSent` | src/shardkv/server.go:518-526 | nothing is left to send |
| `ShardMigration.WriteTraced` | src/shardkv/server.go:240-250 | a write that is carried out is newer than all earlier ones of its client behind the shard |
| `ShardMigration.ArriveTraced` | src/shardkv/server.go:426-441 | an accepted shard brings the table that knows all its writes |
| `ShardMigration.PackedOk` | src/shardkv/server.go:312-328 | the copy of a shard is in order by the table copied with it |
| `ShardMigration.AfterOk` | src/shardkv/server.go:224-272 | every command keeps every shard of the group in order |
| `ShardMigration.StepKeepsInv` | src/shardkv/server.go:224-373 | every step of the groups and parcels keeps every shard in order, parcels from stale replicas included |
| `ShardMigration.InvAlways` | src/shardkv/server.go:224-373 | every shard of every group is in order in every reachable state |
| `ShardMigration.AppliedOnce` | src/shardkv/server.go:426-441 | through any number of moves no write is behind a shard twice, and the data is what its writes make |
| `ShardMigration.MigratedNeverAgain` | src/shardkv/server.go:426-441 | a write behind a shard, whoever applied it, is never carried out again by the group that has the shard |
| `ShardMigration.RunOrdered` | src/shardkv/server.go:224-373 | the table of a group only learns, and its configuration number only rises |
| `ShardMigration.AcceptedKnows` | src/shardkv/server.go:426-441 | the group that accepts a shard knows from then on every write the sender knew when the copy was made |
| `ShardMigration.SentWriteNeverAgain` | src/shardkv/server.go:312-441 | a write the sender carried out before the copy is never carried out again by the group that accepts the shard; a copy from before the write is accepted only under a configuration older than the write's |
| `ShardMigration.ChainKnows` | src/shardkv/server.go:312-441 | through any number of moves, every write the first copy knew is known to the last group from then on |
| `ShardMigration.ChainNeverAgain` | src/shardkv/server.go:312-441 | a write is never carried out again by any group its shard reaches through any number of moves |
| `ShardMigration.SenderStoppedInRun` | src/shardkv/server.go:235-238 | a write carried out after the shard had to leave belongs to a later configuration |
| `ShardMigration.SenderStopped` | src/shardkv/server.go:235-238 | from the configuration that takes the shard away, the sender writes nothing to it until one brings it back |
| `ShardMeaning.WriteExact` | src/shardkv/server.go:240-250 | a put leaves its value, an append adds to what was there, and no other key or shard changes |
| `ShardMeaning.WriteChangesIff` | src/shardkv/server.go:232-240 | a write is carried out exactly if the shard is the one of the group, its data is here and the command is new; it is refused exactly if not served |
| `ShardMeaning.GetExact` | src/shardkv/server.go:232-252 | a read changes no shard, is remembered, and is refused where a write would be |
| `ShardMeaning.ReplayHolds` | src/shardkv/server.go:240-250 | the writes behind a shard make of each key the last put followed by all later appends |
| `ShardMeaning.KeyHolds` | src/shardkv/server.go:240-250 | and that is what every key holds in every reachable state |
| `ShardMeaning.UpgradeExact` | src/shardkv/server.go:406-424 | a newer configuration is taken up and the last one remembered; a shard that had no owner starts empty |
| `ShardMeaning.RefusedIff` | src/shardkv/server.go:426-441 | a parcel is taken exactly if the group has its configuration, has not passed it and lacks the shard |
| `ShardMeaning.RemoveExact` | src/shardkv/server.go:443-451 | a shard is dropped, unless the group has moved on |
| `ShardMeaning.Handoff` | src/shardkv/server.go:297-451 | when a configuration gives a shard to another group, the old one refuses it and sends it, the new one serves it with the same data and knows all commands, and nothing is left to send |

## Left out

- Raft liveness beyond `RaftProgress.CommandCommitted`, and convergence of `nextIndex` beyond `RaftHandlers.HintBacksUp`: a rejection at src/raft/raft.go:480-483 carries no hints.
- Delivery on `applyCh`, `lastApplied`, and the order between entries and installed snapshots: they depend on sleeps and an atomic flag; safety is stated on commit indices.
- The `leader` hint of a Raft server, timers and channels; when a timer fires is any time.
- RaftNet: that the snapshot a service hands to `Snapshot` summarizes the log prefix is part of when that step is enabled.
- Integers are unbounded where the source uses 64-bit integers, except for the words and the hash of the bit vector, which wrap.
- Bytes: JSON, gob and the persister are treated as exact copies; commands and clients are numbers.
- Describing operations, visualization and the information collected for it, apart from the partial linearizations.
- EventVerdict.CheckEvents: for models that do not partition events; partitioning is modelled for operations only.
- `checkParallel` on an empty list of partitions, where its loop waits for a first result that never comes.
- Models with a custom `Equal`: states are compared with equality.
- Rebalance.FewestMoves: over assignments with the shares the code chose; `EvenMoves.FewestOfAllIff` says exactly when it holds over all even assignments.
- ShardCtrler.HistoryAlwaysOk: for joins with nonzero group ids and moves of existing shards, which the code does not check.
- The RPC handlers and clerks of the shard controller and of the key/value services: they wait, wake and retry around the state machines modelled here.
- The hash behind `ihash` is an arbitrary function of the key.
- MapReduceJob.DoneMeansSequential: for reducers that ignore the order of values; sorting is not stable, and `MapReduceAgree.OutputUniqueIff` shows that any other reducer has no fixed result.
- Lost or failing RPCs of a MapReduce worker are crashes of the worker.
- Conservation of shards and unique ownership across groups: an undelivered shard is dropped after a timeout (src/shardkv/server.go:349-356).
- ShardMigration.MigratedNeverAgain: about the writes behind the copy a group has; `ShardMigration.ChainNeverAgain` follows any write through any number of moves.
- src/kvraft/server.go, whose replay from a snapshot adds nothing harder.
