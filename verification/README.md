# Verification of the distributed systems labs in Dafny

This project models three parts of the repository and proves what they are for.

- **Raft** (`src/raft`): every handler as a function of the server's state (`RaftServer`), the
  imperative handlers as a class proved to compute those functions (`RaftPeer`), and a cluster of
  servers on a network that loses, delays, repeats and reorders messages, with crashes and restarts at
  any moment (`RaftCluster`). The safety theorems are in `RaftTheorems`; they speak of runs only.
  `RaftHistory`, `RaftBase`, `RaftCommit`, `RaftSafe`, `RaftSteps` and `RaftReplication` hold the
  invariants behind them and `RaftRuns` their history over a run, `RaftGuard` the exact meaning of the one
  assumption on deliveries, `RaftQuorum` the commit and election arithmetic, `RaftCatchUp` the repair of a
  follower's log, `RaftRecovery` persistence at the level of single lock sections. `RaftAdvance` says how far
  each step gets, `RaftVoting` which votes are granted and why somebody can always win, and `RaftProgress`
  that every majority can always get a new command applied. `RaftDisorder` and
  `RaftEven`, built on `RaftTrace`, exhibit the runs that show why two assumptions are needed.
- **The linearizability checker** (`src/linearizability`): the specification (`Linearizability`,
  `Operations`), the search on values (`Search`) and its termination (`Countdown`), the linked list
  (`EntryList`), the bitset (`Word`, `Bitset`), the search itself on the mutable list, bitset, stack and
  cache (`Checker`), the preparation of histories (`Entries`, `Events`), the locality theorem
  (`Locality`), what the key/value model means (`KvMeaning`), and the checks a user calls (`CheckHistory`).
- **MapReduce** (`src/mapreduce`, `src/main`): the scheduler as a state machine over its goroutines and
  channels (`Scheduler`, `SchedulerTheorems`), the work of one task and the merge (`MapReduceTasks`,
  `MapReduceMerge`, `Sorting`), a whole job (`MapReduceJob`) and the two example jobs (`WordCount`,
  `InvertedIndex`).

`Collections` holds a few facts about sequences and sets that all three share.

`dafny verify dfyconfig.toml` checks everything.

## Assumptions

The Raft code is looser than Figure 2 of the extended Raft paper, so its theorems name what they assume.

- **A1** Every RPC handler, and every reply handler, is one step. The code releases its lock in between
  (`src/raft/raft_common.go:46-52`). `RaftRecovery` does without this.
- **A2** Votes and heartbeat replies are used only in the term and the round that asked for them: the
  guards `HasVote` and `RepliesOfRound` of `RaftCluster`. The code re-checks the phase only
  (`src/raft/raft_candidate.go:69`, `src/raft/raft_leader.go:58`).
- **A3** The number of servers is odd (`ValidSize`). `RaftEven.ElectionSafetyIffOdd` shows that this is exact:
  with the code's election majority every run is safe if and only if the number is odd.
- **A4** AppendEntries from one leader to one follower in one term arrive in sending order, with losses
  and repetitions (`IsOrderedRun`). The merge at `src/raft/rpc_appendentries.go:41` truncates
  unconditionally, and `RaftDisorder.OrderMatters` shows that safety fails for some order of arrival. The
  theorems need less than A4: a guard that a follower could check by remembering one number per term
  (`IsGuardedRun`), which A4 implies (`RaftRuns.OrderedIsGuarded`). The guard is exactly what keeps the merge
  from dropping acknowledged entries (`RaftGuard.GuardedIffKeeps`), and every violation of safety goes back
  to such a drop (`RaftTheorems.ViolationDropsEntry`).
- **A5** A message holds a copy of the leader's entries (the code sends a slice of its log).

The checker is given complete, non-empty histories in which every operation is called before it returns,
never times out, and is never told to stop. Completeness of the search needs `Simulates`: states that the
model calls equal accept the same steps and lead to equal states. Soundness and termination need nothing of
the model. Operations whose times touch are read in two ways: `true` for "the one that returned is
earlier", `false` for "concurrent"; the unstable sort can produce either (`Entries.ReadingAttained`), so the
verdict lies between the two and is exact when no two operations touch.

The scheduler is given any finite set of distinct workers, which may register at any time and whose calls
may fail or succeed at any time; every call returns. A worker whose call failed does nothing more.
`ihash`, the map and reduce functions, `strings.FieldsFunc`, `strconv.Atoi` and `strconv.Itoa` are
parameters; reading a listing back assumes that `Itoa` writes no space.

## Where the code and its comments disagree

- The comment at `src/linearizability/linearizability.go:53` is the wrong way round: a node with a
  non-nil `match` is a call. The model follows the code.
- `KvModel` defines `Partition` but no `PartitionEvent`, so `CheckEvents` falls back to a single
  partition and treats all keys as one register. Over the histories on a set of keys its verdict is that of
  the store if and only if the set has at most one key (`CheckHistory.ExactIffOneKey`).
- The merged output can have a line for the empty key that no map function emitted, because a reduce
  task without pairs still writes one entry (`src/mapreduce/common_reduce.go:71-72`), and that entry can
  replace the real one. `MapReduceJob.JobOutput` says exactly when; `MapReduceJob.EmptyTaskAdds` and
  `MapReduceJob.EmptyTaskReplaces` show both.
- A cluster of one server can elect itself but never commit: the commit rule reads position (1+1)/2 of an
  array of length 1 (`src/raft/raft_leader.go:83`). `Collect` needs two servers, and so does progress.
- `schedule` never returns for a phase without tasks, since it compares the counter only after a task is
  done (`src/mapreduce/schedule.go:61-66`).

## Model

| member | source | states |
|---|---|---|
| RaftTheorems.StateMachineSafety | src/raft/config.go:175-191 | A1, A2, A3, A5 and the guard. Over every guarded run with losses, repetitions, reordering, crashes and restarts: the x-th command that any server instance ever applies is the x-th that any other ever applies. The guard is weaker than A4: no follower accepts from a leader a message built on a shorter log than one it accepted from that leader before |
| RaftTheorems.OrderedStateMachineSafety | src/raft/config.go:175-191 | A1-A5. The same when messages arrive in sending order, as a corollary |
| RaftRuns.OrderedIsGuarded | src/raft/raft_leader.go:21-51 | Arrival in sending order (A4) implies the guard, because a leader's log only grows between heartbeats |
| RaftGuard.GuardedIffKeeps | src/raft/rpc_appendentries.go:36-50 | The guard is exact, run by run: a run is guarded if and only if no follower, by accepting a message, ever drops an entry that it has acknowledged to that leader before |
| RaftTheorems.ViolationDropsEntry | src/raft/rpc_appendentries.go:39-41 | In every run, whatever the order of deliveries: if two instances apply different commands at one index, some follower has dropped an entry that it had acknowledged in that term. No other part of the protocol can break state machine safety |
| RaftTheorems.AppliesInOrder | src/raft/raft_common.go:3-11 | In every reachable state of a guarded run a server instance has applied exactly the indices 1, 2, ..., lastApplied, each once and with the data its log still holds, and commitIndex lies inside the log, so the apply loop never indexes past it |
| RaftTheorems.CommittedPrefixesAgree | src/raft/rpc_appendentries.go:36-50 | At any two moments of a guarded run, any two servers agree on every entry up to an index both have committed |
| RaftTheorems.LeadersHoldCommitted | src/raft/rpc_requestvote.go:40-48 | In guarded runs, leader completeness: whatever a server has committed in some term is in the log of every leader of every later term |
| RaftTheorems.LogMatching | src/raft/rpc_appendentries.go:36-41 | A1, A2, A3, A5, any delivery order. Two entries with one index and one term, in two logs at two moments of a run, have identical logs below them |
| RaftTheorems.ElectionSafety | src/raft/raft_candidate.go:22-79 | A1-A3, any delivery order. In every run, across crashes, no two servers ever lead the same term |
| RaftDisorder.OrderMatters | src/raft/rpc_appendentries.go:39-41 | State machine safety fails without the guard: a run of three servers, with nothing lost or restarted, in which one heartbeat overtaken by its successor makes two servers apply different commands at index 1 |
| RaftBase.BaseKept | src/raft/rpc_appendentries.go:23-71 | Every step keeps the invariant behind Election Safety and Log Matching: each log entry was created by the one leader of its term on top of everything below it, each vote is recorded once per term, each message tells the truth about its sender |
| RaftBase.TermIsFree | src/raft/raft_candidate.go:34-79 | A term that is about to be won has not been won before, because two vote quorums share a voter |
| RaftBase.AcceptedLog | src/raft/rpc_appendentries.go:36-41 | A follower that accepts ends with exactly the log the leader had when it sent the message |
| RaftCommit.LeaderCompleteness | src/raft/rpc_requestvote.go:40-48 | A certified entry (held by a majority in the term of its leader) is in the starting log of every later leader, by induction over terms through the up-to-date test of the shared voter |
| RaftCommit.CertificatesAgree | src/raft/raft_leader.go:76-90 | Two certified commits never disagree on an index both cover |
| RaftReplication.SafeKept | src/raft/rpc_appendentries.go:36-50 | Every step that respects the guard keeps: what is committed anywhere is certified by a strict majority that accepted it in its leader's term, each of these keeps it unless a later leader overrode it, and every message carries a commit index that is certified too |
| RaftQuorum.CommitCandidateIsGreatest | src/raft/raft_leader.go:76-83 | For every number of peers from 2 and every matchIndex array, a strict majority (leader included) holds the candidate index, and no greater index is held by a strict majority |
| RaftQuorum.CommitCandidateIsUnique | src/raft/raft_leader.go:76-83 | The converse: any index with that property is the one the sorted array yields |
| RaftQuorum.CommitMeetsElection | src/raft/raft_candidate.go:34 | Every commit quorum meets every election quorum, for odd and even numbers of peers |
| RaftQuorum.ElectionsMeetIffOdd | src/raft/raft_candidate.go:34 | Two election quorums of ceil(n/2) always meet if and only if n is odd |
| RaftEven.ElectionSafetyIffOdd | src/raft/raft_candidate.go:34 | A3 is exact: every run of n servers has at most one leader per term if and only if n is odd, for every n from 1 |
| RaftEven.TwoLeaders | src/raft/raft_candidate.go:34-79 | For every even n a run in which each half of the servers elects its own leader of term 1 |
| RaftQuorum.ScanCommitIsGreatest | src/raft/raft_leader.go:84-90 | The downward search never goes below the old commit index, stops at an entry of the term, and leaves none of the term above it |
| RaftAdvance.LeaderCommitsHighest | src/raft/raft_leader.go:76-90 | In every run, using replies moves the commit index only to an entry of the current term that a strict majority is known to hold, never back, and leaves no such entry above it |
| RaftAdvance.SuccessIsUsed | src/raft/raft_leader.go:64-74 | In every run, one success makes the leader's matchIndex for that peer the last index it sent and its nextIndex the one after |
| RaftAdvance.SendsOnlyNew | src/raft/raft_leader.go:35-49 | The heartbeat after a success starts where the one before it ended and carries exactly the entries that one did not |
| RaftAdvance.FirstHeartbeatProbes | src/raft/raft_leader.go:8-19 | A new leader's first heartbeat asks every peer about the very end of its own log and carries nothing |
| RaftAdvance.FollowerCommits | src/raft/rpc_appendentries.go:43-48 | In every run, an accepted message moves the follower's commit index up to the leader's, as far as the log now reaches, no further and never back |
| RaftAdvance.CommitPropagates | src/raft/rpc_appendentries.go:43-48 | In guarded runs, a follower that accepts a heartbeat has committed at least all that the leader had committed when it sent it |
| RaftAdvance.AppliesAll | src/raft/raft_common.go:3-11 | In guarded runs, applying catches up with the commit index at once |
| RaftAdvance.NeverFallsBack | src/raft/raft.go:210-228 | In every run, between two restarts a server's term, commit index, applied index and sequence of applied commands only grow |
| RaftAdvance.StaleLeaderStepsDown | src/raft/rpc_appendentries.go:23-29 | The answer to an AppendEntries of an old term refuses, carries the receiver's term, and makes a sender still in that old term step down when it returns |
| RaftAdvance.StaleCandidateStepsDown | src/raft/rpc_requestvote.go:30-35 | The same for RequestVote |
| RaftVoting.GrantedIff | src/raft/rpc_requestvote.go:30-51 | A vote is granted if and only if the request is not of an earlier term, the voter has not voted for another in its term, and the last (term, index) of the candidate's log is not lexicographically before the voter's |
| RaftVoting.UpToDateTotal | src/raft/rpc_requestvote.go:41-44 | Of any two logs one is up to date for the other |
| RaftVoting.SomeoneIsAcceptable | src/raft/rpc_requestvote.go:40-48 | Every non-empty set of servers, whatever their logs and votes, has a member whose request in a term above theirs all of them grant |
| RaftVoting.TimeoutStands | src/raft/raft_candidate.go:13-31 | In every run a timeout opens the next term, votes for itself and asks for votes with the last index and term of its own log |
| RaftVoting.SomeoneCanWin | src/raft/raft_candidate.go:13-79 | From every state of every run, of any number of servers, any half of them can go on to elect one of their members: no mixture of terms, votes and logs blocks an election |
| RaftProgress.ProgressIsPossible | src/raft/raft_leader.go:21-96 | From every state of every guarded run of an odd number of servers, at least three, each majority can go on, guarded, to a state in which all its members have applied a given new command. It joins the election, the catch-up, the commit rule, the spreading of the commit index and the applying of entries |
| RaftCatchUp.SteadyRound | src/raft/raft_leader.go:35-74 | With equal logs every round is accepted, teaches the leader that the follower holds all of it, and leaves the follower with all the leader had committed |
| RaftCatchUp.CatchUp | src/raft/rpc_appendentries.go:36-66 | Undisturbed heartbeats with a fixed leader log make the follower's log equal to it, PrevLogIndex falls strictly until then, the follower's log is untouched until then, and it takes at most one round more than the follower's log has runs of terms |
| RaftCatchUp.CatchUpInside | src/raft/raft_leader.go:64-74 | The same, with at most as many rounds as there are runs of terms up to PrevLogIndex, once PrevLogIndex is inside the follower's log |
| RaftCatchUp.RefusedRound | src/raft/rpc_appendentries.go:51-66 | A refusal lowers PrevLogIndex, into the follower's log or below the conflicting run of terms, and changes neither log |
| RaftCatchUp.ScanBackSkipsRun | src/raft/rpc_appendentries.go:52-62 | The downward scan stops at the start of the conflicting run: exactly one run of terms is skipped |
| RaftRecovery.AlwaysDurable | src/raft/raft.go:111-147 | None of A1-A4. After every lock section of every life of a server, crashes anywhere in between, what a restart would load is what the server holds |
| RaftRecovery.TermNeverFalls | src/raft/raft_common.go:46-50 | None of A1-A4. The term of a server never decreases, across restarts too |
| RaftRecovery.VoteIsFinal | src/raft/rpc_requestvote.go:40-47 | None of A1-A4. While the term lasts, a vote once cast is never changed or forgotten, across restarts too |
| RaftPeer.Persister.SaveRaftState | src/raft/persister.go:33-37 | Replaces the saved state by the given one |
| RaftPeer.Raft.Make | src/raft/raft.go:210-228 | A fresh instance holds what the persister held and zero everywhere else, and is durable |
| RaftPeer.Raft.ReadPersist | src/raft/raft.go:127-147 | Loads the three saved fields, or changes nothing when nothing was saved |
| RaftPeer.Raft.Save | src/raft/raft.go:111-122 | Writes the three durable fields; a restart then loads them |
| RaftPeer.Raft.UpdateTermSection | src/raft/raft_common.go:41-60 | First lock section: adopts a higher term, drops the vote, persists; returns the old term and the sign of the difference |
| RaftPeer.Raft.PhaseChange | src/raft/raft_common.go:19-38 | Sets the phase and says whether it changed; nothing leaves the exit phase; keeps durability |
| RaftPeer.Raft.Kill | src/raft/raft.go:188-197 | Sets the exit phase and nothing else |
| RaftPeer.Raft.TermSyncCall | src/raft/raft_common.go:41-60 | The whole of termSync: a higher term makes a follower of it |
| RaftPeer.Raft.VoteSection | src/raft/rpc_requestvote.go:38-51 | Grants at most one candidate per term and only an up-to-date one; persists the vote before the lock is released |
| RaftPeer.Raft.RequestVote | src/raft/rpc_requestvote.go:30-53 | The whole handler is the function the cluster model runs; the reply carries the term from before the sync |
| RaftPeer.Raft.FindConflict | src/raft/rpc_appendentries.go:51-62 | The downward loop finds the start of the conflicting run of terms |
| RaftPeer.Raft.AppendSection | src/raft/rpc_appendentries.go:33-68 | Merge, commit update, or the back-up index, with the log persisted before the lock is released |
| RaftPeer.Raft.AppendEntriesCall | src/raft/rpc_appendentries.go:23-71 | The whole handler is the function the cluster model runs |
| RaftPeer.Raft.ElectionSection | src/raft/raft_candidate.go:14-31 | A candidate starts a new term, votes for itself, persists, and builds the vote request from its own log; any other server does nothing |
| RaftPeer.Raft.TimeoutCall | src/raft/raft_candidate.go:9-31 | Becoming candidate and opening the election; a candidate or an exited server does nothing |
| RaftPeer.Raft.LeaderSection | src/raft/raft_leader.go:8-17 | Rebuilds nextIndex and matchIndex for every peer |
| RaftPeer.Raft.ElectedCall | src/raft/raft_candidate.go:68-79 | Only a server that is still candidate becomes leader, as one step |
| RaftPeer.Raft.Start | src/raft/raft.go:165-180 | Only a leader appends; the returned index is where the command is, and it is on disk |
| RaftPeer.Raft.BuildMessages | src/raft/raft_leader.go:33-50 | The loop over peers builds one message for each other peer, cut at its nextIndex |
| RaftPeer.Raft.BeatSection | src/raft/raft_leader.go:25-51 | A leader sends one heartbeat, remembering its number and last index; any other server sends nothing |
| RaftPeer.Raft.UseReplies | src/raft/raft_leader.go:64-74 | The loop over replies: success moves both indices to the end of what was sent, a refusal moves nextIndex back |
| RaftPeer.Raft.AdvanceCommit | src/raft/raft_leader.go:76-90 | The sort and the downward loop compute the commit index of the cluster model, which LeaderCommitsHighest pins to the highest entry of the current term that a majority holds |
| RaftPeer.Raft.CollectSection | src/raft/raft_leader.go:56-92 | Both of these in one lock section, by a server that still leads; any other server does nothing |
| RaftPeer.Raft.ApplySection | src/raft/raft_common.go:3-11 | The loop sends every committed entry not yet applied, in order |
| Checker.CheckSingle | src/linearizability/linearizability.go:167-214 | Sound for every model: a true answer means some order of all operations respects return-before-call and is accepted step by step. Complete for every model whose Equal implies equal behaviour. Terminates for every model, and the cursor is never nil inside the loop |
| Checker.TryCall | src/linearizability/linearizability.go:180-199 | One iteration on a call entry keeps the whole search invariant and strictly uses up fuel |
| Checker.Linearize | src/linearizability/linearizability.go:187-193 | Taking a call: cache, undo stack, state, bitset and list move together |
| Checker.Backtrack | src/linearizability/linearizability.go:204-210 | One iteration on a return entry undoes exactly the last call, in all five places, and strictly uses up fuel |
| Checker.CacheContains | src/linearizability/linearizability.go:133-140 | Looking only in one hash bucket gives the same answer as looking through the whole cache |
| Checker.ContainsIsSeen | src/linearizability/linearizability.go:133-140 | A hit is an earlier entry with the same set of operations and an equal state |
| Search.CacheHitFails | src/linearizability/linearizability.go:184-196 | Cache pruning loses nothing: a configuration that hits the cache has no accepting completion |
| Search.NotOnPath | src/linearizability/linearizability.go:184-196 | A configuration about to be entered is never one on the current undo stack, so a hit is always a finished failure |
| Search.Push | src/linearizability/linearizability.go:187-193 | Entering a call keeps: the stack is a legal partial order, everything left of the cursor has failed, and each cached pair is on the stack or has no completion |
| Search.Pop | src/linearizability/linearizability.go:201-210 | Leaving a call keeps the same, and marks the abandoned configuration as having no completion |
| Search.DeadEnd | src/linearizability/linearizability.go:200-203 | A live return under the cursor, all calls before it having failed, means there is no completion at all |
| Search.Success | src/linearizability/linearizability.go:212-213 | A stack that holds every operation is a linearization |
| Search.Failure | src/linearizability/linearizability.go:201-203 | Reaching a return with an empty stack means the history is not linearizable |
| Countdown.AdvanceBurns | src/linearizability/linearizability.go:194-198 | Moving the cursor lowers the termination measure, a number in mixed base read off the undo stack and the cursor |
| Countdown.PushBurns | src/linearizability/linearizability.go:187-193 | Taking a call lowers it |
| Countdown.PopBurns | src/linearizability/linearizability.go:204-210 | Backtracking lowers it, so the loop ends even for a model whose Equal is useless |
| EntryList.Lift | src/linearizability/linearizability.go:147-155 | Removes a call and its return from the list, adjacent or not, last or not, leaving both with the pointers that put them back; the call is never the last node, so its next pointer is followed without a test |
| EntryList.Unlift | src/linearizability/linearizability.go:157-165 | Restores every next and prev pointer that the matching lift changed, again without testing the call's next pointer |
| EntryList.InsertBefore | src/linearizability/linearizability.go:59-70 | The list with the new node before the mark; a nil mark leaves two separate lists |
| EntryList.Length | src/linearizability/linearizability.go:72-79 | The number of nodes |
| EntryList.MakeLinkedEntries | src/linearizability/linearizability.go:109-126 | The list is the entry sequence in order; every call node points at the node of its own return, every return node at nothing |
| Entries.SortByTime | src/linearizability/linearizability.go:23-47 | Any permutation sorted by time: equal times stay in no particular order |
| Entries.MakeEntries | src/linearizability/linearizability.go:37-49 | Each id below n has one call before its one return, carries its operation's input and output, and precedence is that of the times |
| Entries.ListImpliesHistory | src/linearizability/linearizability.go:37-49 | If the prepared list is linearizable, so is the history it came from |
| Entries.HistoryImpliesList | src/linearizability/linearizability.go:37-49 | If the history is linearizable with ties counted as order, so is the prepared list, whatever the sort did to ties |
| Entries.ReadingAttained | src/linearizability/linearizability.go:33-47 | Both ends of that range are attained: for every history and model the unstable sort may return a list that is linearizable exactly when the history is with ties as concurrent, and one that is exactly when it is with ties as order |
| Operations.TiesDoNotMatter | src/linearizability/linearizability.go:33-35 | Without two operations that touch at one instant the two readings of a tie agree |
| Events.Renumber | src/linearizability/linearizability.go:81-95 | An injective renaming of the ids onto 0..k-1 that changes nothing else |
| Events.RenamingIsNeutral | src/linearizability/linearizability.go:81-95 | Such a renaming changes neither well-formedness nor linearizability, in either direction |
| Locality.RunsByKey | src/linearizability/models.go:34-48 | The store accepts a sequence of operations if and only if each key's register accepts that key's part of it |
| KvMeaning.StoreMeaning | src/linearizability/models.go:29-48 | The store accepts a sequence of operations if and only if every get returns the value last put under its key followed by everything appended to that key since, in order; said by positions, without the step function |
| KvMeaning.LinearizableMeaning | src/linearizability/models.go:29-48 | Hence linearizability against the store is: some order keeps real time and gives every get what was written |
| Locality.StoreImpliesKeys | src/linearizability/model.go:24-27 | If the whole history is linearizable, so is every key's part |
| Locality.KeysImplyStore | src/linearizability/model.go:24-27 | The hard half of locality: if every key's part is linearizable, so is the whole, by merging the orders in the sequence of their earliest pending returns |
| Locality.StoreIffKeys | src/linearizability/model.go:24-27 | The partition contract of the model, as an if-and-only-if, for any list of distinct keys that covers the history |
| Locality.MergeInOrder | src/linearizability/models.go:17-28 | The merge of two orders without reversed precedence has none either |
| Locality.KvModelSimulates | src/linearizability/models.go:49 | Equality of the key/value model implies equal behaviour, so the cache may be used |
| CheckHistory.GroupByKey | src/linearizability/models.go:18-22 | For each key that occurs, that key's operations in history order; no other key |
| CheckHistory.Partition | src/linearizability/models.go:17-28 | One partition per key that occurs, each that key's operations in history order, in any order of keys |
| CheckHistory.CheckPartition | src/linearizability/linearizability.go:241-246 | One partition from raw operations to the verdict, in both directions |
| CheckHistory.CheckOperations | src/linearizability/linearizability.go:235-270 | A conjunction over the partitions, whatever order the results arrive in, with the early exit on the first false |
| CheckHistory.CheckKvOperations | src/linearizability/linearizability.go:229-270 | End to end: the verdict for a multi-key history is whether some order keeps real time and gives every get what was last put and since appended under its key, in both directions, exact when no two operations touch at one instant |
| CheckHistory.TiesCanMatter | src/linearizability/linearizability.go:33-47 | A history with a tie of which one legal sort gives a linearizable list and another does not |
| CheckHistory.CheckEventPartition | src/linearizability/linearizability.go:284-289 | One partition of events, from the raw events to the verdict, in both directions, for every model |
| CheckHistory.CheckEvents | src/linearizability/linearizability.go:278-313 | A conjunction over the partitions that the model's PartitionEvent made, whatever order the results arrive in |
| CheckHistory.ExactIffOneKey | src/linearizability/linearizability.go:216-227 | The exact condition: over the histories on a set of keys, CheckEvents with the key/value model, which has no PartitionEvent, agrees with the store if and only if the set has at most one key |
| CheckHistory.OneKeyIsStore | src/linearizability/linearizability.go:216-227 | On events of a single key the unpartitioned model and the store agree |
| CheckHistory.EventsMixKeys | src/linearizability/linearizability.go:216-227 | For any two different keys, a history that the store accepts and the unpartitioned model rejects |
| Bitset.New | src/linearizability/bitset.go:8-15 | The empty set, with room for every position below bits |
| Bitset.Clone | src/linearizability/bitset.go:17-21 | A fresh copy with the same words |
| Bitset.Set | src/linearizability/bitset.go:27-31 | Adds exactly one member |
| Bitset.Clear | src/linearizability/bitset.go:33-37 | Removes exactly one member |
| Bitset.SetThenClear | src/linearizability/bitset.go:27-37 | Clearing a bit that was not set before restores the very same words |
| Bitset.Get | src/linearizability/bitset.go:39-42 | Membership |
| Bitset.Popcnt | src/linearizability/bitset.go:44-54 | The number of members |
| Bitset.Hash | src/linearizability/bitset.go:56-62 | The population count folded with every word |
| Bitset.HashBits | src/linearizability/bitset.go:56-62 | Bit by bit, the hash is the parity of that column of the words, flipped where the number of members has a one |
| Bitset.Equals | src/linearizability/bitset.go:64-74 | Same size and same members |
| Bitset.MembersDetermineWords | src/linearizability/bitset.go:64-74 | Two bitsets of one size with the same members have the same words |
| Bitset.EqualSetsHashAlike | src/linearizability/bitset.go:56-62 | Equal sets are in the same hash bucket |
| Bitset.TotalIsCardinality | src/linearizability/bitset.go:44-54 | Counting ones word by word counts members |
| Word.PopcountCorrect | src/linearizability/bitset.go:47-51 | The masked additions, the multiplication and the shift count the ones of any 64-bit word |
| Word.ClearUndoesSet | src/linearizability/bitset.go:27-37 | In one word, clearing after setting restores it when the bit was unset |
| SchedulerTheorems.EachTaskInOnePlace | src/mapreduce/schedule.go:40-80 | In every interleaving and at every moment, each task number is in the queue, held by the loop, with one goroutine, or counted: in exactly one of these, exactly once; and has had at most one successful call |
| SchedulerTheorems.HandedOutInOrder | src/mapreduce/schedule.go:40-60 | Tasks go to workers in numeric order, and after that in the order in which failed ones came back |
| SchedulerTheorems.RequeueNeverBlocks | src/mapreduce/schedule.go:77-79 | A failed do always finds room in the buffered queue |
| SchedulerTheorems.ReturnsIffAllCounted | src/mapreduce/schedule.go:61-66 | The phase has returned if and only if it has tasks and each has been counted once; then each had exactly one successful call and nothing is outstanding. With no tasks it never returns |
| SchedulerTheorems.OneCallPerWorker | src/mapreduce/worker.go:50-54 | A worker never has two calls outstanding, and one whose call failed is never called again |
| SchedulerTheorems.FewCalls | src/mapreduce/schedule.go:47-80 | A phase issues at most one call per task and one more per worker whose call failed, hence at most tasks plus workers |
| SchedulerTheorems.RunsAreShort | src/mapreduce/schedule.go:47-80 | No run has more than 5 steps per task and 12 per worker, so none goes on for ever |
| SchedulerTheorems.StuckIffOutOfWorkers | src/mapreduce/schedule.go:49-60 | Short of returning, no step is possible if and only if every worker has failed and the loop waits for one |
| SchedulerTheorems.FinishedRunReturns | src/mapreduce/schedule.go:33-80 | A run that cannot go on has returned with every task done, if there are tasks and one worker has not failed |
| Scheduler.TaskKept | src/mapreduce/schedule.go:47-80 | Every step keeps task conservation |
| Scheduler.WorkerKept | src/mapreduce/schedule.go:33-38 | Every step keeps worker conservation |
| Scheduler.StepCosts | src/mapreduce/schedule.go:47-80 | Every step lowers one non-negative budget |
| MapReduceTasks.DoMap | src/mapreduce/common_map.go:46-52 | File r holds exactly the emitted pairs whose key hashes to r, in order |
| MapReduceTasks.Gather | src/mapreduce/common_reduce.go:19-40 | All pairs of the task's files, in order |
| MapReduceTasks.Group | src/mapreduce/common_reduce.go:60-72 | On sorted input: one entry per key, keys strictly descending, each reduced from all values of its key in order; on no input one entry, for the empty key |
| MapReduceTasks.DoReduce | src/mapreduce/common_reduce.go:19-72 | One entry per key, each reduced from all values of its key in some order: all that the unstable sort leaves open |
| MapReduceMerge.Merge | src/mapreduce/master_splitmerge.go:16-48 | One line per key of any reduce output, in strictly ascending order, each with the last value written for it |
| MapReduceMerge.SortedDistinct | src/mapreduce/master_splitmerge.go:35-39 | Sorting the keys of a map gives the strictly ascending list of them |
| MapReduceJob.MapPhase | src/mapreduce/master.go:66-70 | Tasks in any order and repeated: every intermediate file holds its bucket |
| MapReduceJob.ReducePhase | src/mapreduce/master.go:71-74 | Tasks in any order and repeated: every output is the reduction of its files |
| MapReduceJob.FilesHoldBucket | src/mapreduce/common_reduce.go:19-40 | What a reduce task reads is its bucket of everything emitted, over all input files |
| MapReduceJob.BucketValues | src/mapreduce/common_map.go:46-52 | A bucket holds all values of its own keys and none of any other |
| MapReduceJob.Run | src/mapreduce/master.go:132-150 | The whole job refines group-by-key-then-reduce, for every hash function, every reducer and every order of tasks: every emitted key has one line, in sorted order, reduced from all its values; the extra entry of an empty reduce task, and when it overrides the empty key, is accounted for exactly |
| MapReduceJob.EmptyTaskReplaces | src/mapreduce/common_reduce.go:71-72 | A job that emits the value x for the empty key and whose line for it is reduced from no values: the entry of the empty second task replaced the real one |
| MapReduceJob.EmptyTaskAdds | src/mapreduce/common_reduce.go:71-72 | A job that never emits the empty key and still has a line for it |
| MapReduceJob.ReturnedPhaseCovers | src/mapreduce/schedule.go:61-66 | A phase that the scheduler has returned from has run every task, which is what the job needs of the order |
| WordCount.Map | src/main/wc.go:19-27 | One pair per word, with value 1 |
| WordCount.Reduce | src/main/wc.go:34-44 | The 64-bit sum of the values, or a panic if and only if one of them is not a number |
| WordCount.WrapIsInt64 | src/main/wc.go:41 | The sum is a 64-bit integer, the same modulo 2^64, and unchanged if and only if it fits |
| WordCount.SumAddsUp | src/main/wc.go:35-42 | One value counts for its number, and two lists for the sum of both |
| WordCount.TotalOfPermutation | src/main/wc.go:34-44 | The order of the values cannot change the result, nor whether it panics |
| WordCount.Run | src/main/wc.go:19-44 | End to end: every word of all files with the number of its occurrences, wrapped to 64 bits only if there are 2^63 words or more, in sorted order, whatever the hash, the sorts and the order of tasks did |
| InvertedIndex.Map | src/main/ii.go:17-25 | One pair per word, with the file's name |
| InvertedIndex.Reduce | src/main/ii.go:30-44 | The number of distinct values before the first space, and after it a list that splits at the commas into exactly those values in ascending order, if none of them has a comma |
| InvertedIndex.SplitIffNoComma | src/main/ii.go:42-43 | Joining and splitting: a joined list splits back into itself if and only if it is not empty and no name in it has a comma |
| InvertedIndex.ListingReads | src/main/ii.go:42-43 | What the reducer writes reads back as the number and, if no name has a comma, the list |
| InvertedIndex.ListingOfPermutation | src/main/ii.go:30-44 | The order and repetition of the values cannot change the result |
| InvertedIndex.Run | src/main/ii.go:17-44 | End to end: every word has a line, in sorted order, whose part before the first space is the number of files that contain it and whose rest splits at the commas into exactly those files, in ascending order, if no name has a comma |
| Sorting.LessIsLexicographic | src/mapreduce/master_splitmerge.go:39 | The order on strings is the lexicographic one: decided at the first difference, a prefix coming first |
| Sorting.AscendingUnique | src/main/ii.go:39-41 | A strictly ascending list is determined by its members |

## Left out

- `src/labrpc` and `src/labgob`: a message that may be lost, delayed or repeated, and a lossless encoding, stand for them.
- Timers, sleeps and the global `electionReset` channel: a timeout or a step down may happen at any time. `RaftVoting` and `RaftProgress` show what a run can always go on to do, not that it will.
- The delay in `Kill` that lets a test finish.
- Lock-level interleavings inside a Raft handler, except in `RaftRecovery`; see A1.
- Slice aliasing between a leader's log and the messages it has sent; see A5.
- Machine integers in Raft, the scheduler and the checker's ids and times are unbounded; only the bitset's words and the word count's sum wrap.
- `src/kvraft`, `src/shardkv` and `src/shardmaster`: lab stubs and retry loops without a core of their own.
- The `kill` flag, the timeout and the concurrency of partition checks, which share nothing: the results are collected in any order.
- Incomplete histories, operations that return before they are called, and the empty history, on which the collecting loop waits for ever.
- `convertEntries` changes the type of an event into that of an entry; the model has one type for both.
- Bitset.Hash: is a natural number below 2^64 rather than a machine word.
- Files, JSON, sockets and the formatting of output lines: a file is a sequence of pairs, and a line is a key with its value.
- Two runs of one task at the same time, after a call that failed while its worker went on: a task runs again after it ran before.
- `src/mapreduce/master.go` and `src/mapreduce/worker.go` beyond the order of the phases: connection and lifecycle plumbing.
- The scheduler is modelled on values, one state per step, since its goroutines change their shared channels in any order.
- Test harnesses, debug printing and scripts.
