# Cachey, modelled and proved in Dafny

Cachey is a replicated key-value cache with expiring keys. This project models the four parts of it whose correctness is
hardest to see from the code, and proves over all inputs, all interleavings and all reachable states what they are for.

- **Raft** (`internal/raft`). `RaftSpec` has the handlers of a node as functions, `RaftSystem` a cluster whose messages may
  arrive late, repeatedly or never, `RaftHistory` and the modules after it the inductive invariant, and `RaftTheorems` the
  classical safety theorems with their proofs down to the handlers. `RaftVotes`, `RaftCatchUp` and `RaftProgress` show that
  nothing gets stuck: votes are granted, peers catch up, and any majority that is up can go on from any reachable state.
  `RaftLog` and `RaftNode` are the log and the node as
  objects updated in place, with compaction, and refine the functions: a node with a compacted log behaves as one without.
- **Write-ahead log** (`internal/wal`). `WalWriter` and `WalRecovery` are the writer and the recovery procedure in place,
  `WalSystem` puts them together with clients, the rotation manager, crashes between any two durable effects and a recovery
  that may itself be interrupted. `WalTheorems` proves crash consistency, `WalOrder` and `WalArrivals` arrival order and
  who is refused, over every run, `WalRotation` that a rotation can always be completed, `WalClock` when the time of a
  recovery matters.
- **B+Tree and store** (`internal/btree`, `internal/store`). `BTreeSpec` to `BTreeTheorems` treat the tree as a value and
  prove that it refines a plain set; `BTreeHeap` to `BPlusTree` are nodes on the heap with a leaf chain, proved to compute
  the same trees. `Store` is the key-value store over that index; `StoreSpec` proves that expiration cannot be observed,
  `StoreSweep` treats the clean-up that runs next to other clients, `StoreSnapshots` the way of a snapshot out and back in.
- **Chained HotStuff** (`internal/hotstuff`). `HsSpec` has the handlers as functions, `HsReplica` the replica in place,
  `HsRecovery` replay and recovery, `HsSystem` the correct replicas among Byzantine members, with crashes after any effect
  of any handler. `HsTheorems` and `HsLeader` prove agreement, `HsGaps` that its condition is exact, `HsExact` to `HsSolo`
  what crashes can and cannot do to executed commands. `HsCertify` to `HsWelcome` are about progress: certificates form, a
  correct leader is not refused, and commands get committed while up to f members are silent. `HsEpoch`, `HsStamps` and `HsDerive` treat membership by epochs.

## How the model stands for the code

- A critical section under a lock is one step. Network, disk, clocks and failing writes are inputs: every message may be
  delivered at any time, a write succeeds or fails as the environment decides, clock readings are parameters.
- A handler of HotStuff leaves a journal of its effects: records written, commands executed, votes sent. A crash keeps a
  prefix of it. A signature verifies if its signer is Byzantine or has signed; the identity of a block is its contents.
- Ghost histories (reigns and ballots in Raft, votes in HotStuff, the durable log in the write-ahead log) only observe.
- Integers are unbounded.

## What the proofs show beyond the intended properties

- HotStuff agreement needs commits at consecutive heights, and nothing in the chain rule checks heights
  (`internal/hotstuff/block.go:103-111`). `GapsBreakAgreement` gives, for all heights with a gap, a run in which correct
  replicas commit conflicting blocks; `ConsecutiveIff` says that no other chains are at fault. `Agreement` holds whenever the
  committing chains have no gap, and `CorrectLeaderAgrees` shows that a correct leader leaves none unless it restarts.
- HotStuff executes a command at most once, but not exactly once. `internal/server/hotstuff_node.go:26-29` promises that a
  restart restores the data with neither loss nor repetition, and the comments in `internal/hotstuff/persist.go:33-37` only
  admit a repeated execution after a write that failed. `CommandLost` is a run with a loss; `ExactlyOnceIff` says which crashes
  lead to one.
- The theorems about what a replica has *committed* follow `bExec`, which recovery rebuilds; those about what it has
  *executed* follow the calls of the state machine in its journal, which no crash takes back.
- A leader's epoch stamps and the followers' derivation part ways as soon as two transitions are closer than three blocks:
  `EpochsAgree` is exact.
- Replay of the write-ahead log compares expiries with the clock of the recovery. A key whose expiry was extended is lost by
  a recovery between the two expiries: `ExtendedKeyLost`, with the exact condition in `LosesIff`. A shortened expiry only
  changes what is rebuilt, not what can be seen; `ClockFreeIff` is exact for that.
- The active expiration of the store can lose an index entry if a key gets an expiry in the past that equals the one being
  dropped: `EntryLost`, with the exact condition in `ExpiryIsSafeIff`. A positive time to live cannot do that, and no client
  can notice it: `CleanupUnobservable`.
- `Log.set` of Raft documents that records at the base are ignored (`internal/raft/log.go:67-68`); its code replaces the base
  entry and drops the rest. The caller never passes the base.

## Model

| member | source | states |
|---|---|---|
| `RaftTheorems.ElectionSafety` | internal/raft/raft.go:333-488 | Election safety: over any two moments of any run with a fixed voter set, two nodes that lead in the same term are the same node, although `startElection` reads the term again after `becomeCandidate` has released the lock |
| `RaftTheorems.LogMatching` | internal/raft/raft.go:491-561 | Log matching: two logs, at any two moments, that agree on the term at an index are equal up to that index |
| `RaftTheorems.CommittedReachesLeaders` | internal/raft/raft.go:463-711 | Leader completeness: what the leader of a term has committed, at any moment of a run, is in the log of every leader of a later term at any moment |
| `RaftTheorems.CommitHasTerm` | internal/raft/raft.go:491-711 | Everything a node holds to be committed was committed by the leader of a term not above its own |
| `RaftTheorems.StateMachineSafety` | internal/raft/raft.go:491-728 | State machine safety: of what two nodes have applied, at any two moments, one is a prefix of the other |
| `RaftTheorems.AppliedInOrder` | internal/raft/raft.go:716-728 | Every node has applied exactly the entries 1 to `lastApplied` of its own log, in order, and `lastApplied` equals `commitIndex` |
| `RaftTheorems.CommittedStays` | internal/raft/raft.go:491-728 | Between any two moments of any run neither `commitIndex` nor `lastApplied` of a node falls, and the entries it had committed are still the first of its log |
| `RaftTheorems.RollbackNeverFires` | internal/raft/raft.go:530-553 | Whenever an entry of a request that passes the consistency check differs in term from the one in the log, its index is above `commitIndex` and `lastApplied`: the two rollbacks of the merge loop never take effect |
| `RaftTheorems.DurableLogRebuilds` | internal/raft/persist.go:36-105 | As long as no write of a node has failed, folding `Log.set` over its persisted records gives back its log: the same terms and the same decoded operations at every index |
| `RaftTheorems.LeaderCanSend` | internal/raft/raft.go:637-660 | In every reachable state a leader can take the slice it sends to each peer: no log access of `replicateTo` is out of range |
| `RaftTheorems.RunKeeps` | internal/raft/raft.go:333-728 | The inductive invariant (votes, reigns of leaders, acknowledgements, commits, messages, durable logs) holds after every run |
| `RaftSafety.StepKeeps` | internal/raft/raft.go:333-728 | Every step of every node, with messages late, repeated or lost, keeps that invariant |
| `RaftElection.TermIsFree` | internal/raft/raft.go:408-438 | A candidate that has collected a majority in its current term is the first to win that term, and every counted vote was cast for it in that term |
| `RaftHistory.QuorumsMeet` | internal/raft/raft.go:178-180 | Two majorities of the voters share a voter |
| `RaftCompleteness.UpToDateKeeps` | internal/raft/raft.go:478-486 | The up-to-date check of a vote: a candidate that passes it holds every prefix of the voter that ends in an entry of an earlier leader and that all leaders in between started from |
| `RaftCompleteness.LeaderCompleteness` | internal/raft/raft.go:693-711 | What a majority has acknowledged to the leader of a term, up to an entry of that term, is in the log with which every later leader starts |
| `RaftCompleteness.CommittedAgree` | internal/raft/raft.go:693-711 | Two committed prefixes are comparable |
| `RaftLogMatching.MergeIsPrefix` | internal/raft/raft.go:530-553 | Merging a request of a leader keeps the part that matches and yields the log of that leader up to the end of the request, unless the follower holds all of it already |
| `RaftLogMatching.LateMismatch` | internal/raft/raft.go:519-529 | After the first entry of a request that the follower does not hold, none of the rest matches either |
| `RaftLogMatching.MissingRebuilds` | internal/raft/raft.go:519-529 | Replaying the records that `HandleAppendEntries` writes turns the old log into the merged one |
| `RaftLeader.AdvanceIsLargest` | internal/raft/raft.go:693-711 | The commit scan reaches every index above the old one that a majority holds with an entry of the current term |
| `RaftLeader.MajorityHolds` | internal/raft/raft.go:693-711 | An index that passes the count of the commit scan has been acknowledged by a majority in the current term |
| `RaftReplies.SuccessIsAck` | internal/raft/raft.go:667-683 | A success that a leader counts, with a reply term not below its own, means that the peer did confirm that prefix in the current term |
| `RaftReplies.SentArgsOk` | internal/raft/raft.go:650-659 | Every request is a slice of the leader's log and announces a commit index within what it covers |
| `RaftFollower.ConflictAboveCommit` | internal/raft/raft.go:530-553 | The first conflict of an acceptable request lies above the commit index of the follower |
| `RaftFollower.HandlerAccepts` | internal/raft/raft.go:491-561 | On every request that passes the consistency check in a reachable state the handler persists, merges, advances and applies without ever rolling back |
| `RaftLog.Log.constructor` | internal/raft/log.go:38-40 | A new log is empty at base 0 |
| `RaftLog.Log.LastIndex` | internal/raft/log.go:42-43 | The last index is the length of the log as if nothing had been compacted |
| `RaftLog.Log.LastTerm` | internal/raft/log.go:45-46 | The last term is that of the uncompacted log |
| `RaftLog.Log.TermAt` | internal/raft/log.go:51-52 | From the base on, the term at an index is that of the uncompacted log |
| `RaftLog.Log.EntryAt` | internal/raft/log.go:54-55 | Above the base, the entry at an index is that of the uncompacted log |
| `RaftLog.Log.Append` | internal/raft/log.go:57-58 | Appends to the uncompacted log |
| `RaftLog.Log.Truncate` | internal/raft/log.go:60-62 | Cuts the uncompacted log before the given index |
| `RaftLog.Log.Set` | internal/raft/log.go:64-77 | Replaces the tail from an index above the base on, appends beyond the end, ignores indexes below the base; at the base the placeholder itself is overwritten and every entry above it dropped, which keeps the log valid exactly if the terms agree |
| `RaftLog.Log.Slice` | internal/raft/log.go:79-81 | The entries of the uncompacted log from an index above the base on |
| `RaftLog.Log.Compact` | internal/raft/log.go:83-92 | Moves the base and leaves the uncompacted log as it is |
| `RaftLog.Log.Reset` | internal/raft/log.go:94-99 | The log becomes the prefix that the snapshot stands for |
| `RaftNode.Node.constructor` | internal/raft/raft.go:129-162 | A new node is an empty follower in term 0 |
| `RaftNode.Node.BecomeCandidate` | internal/raft/raft.go:333-344 | Equals the specification; a leader stays leader and reports failure |
| `RaftNode.Node.StartElection` | internal/raft/raft.go:346-365 | Equals the specification: asks for votes with the term and log read at this moment |
| `RaftNode.Node.OnVoteReply` | internal/raft/raft.go:366-396 | Equals the specification: counts a vote only as a candidate still in the term of the request, steps down before a higher term |
| `RaftNode.Node.HandleRequestVote` | internal/raft/raft.go:463-488 | New state and reply equal the specification, also on a compacted log; whom that grants a vote is `PrefixIsGranted` and `OneOfTwoGrants` |
| `RaftNode.Node.HandleAppendEntries` | internal/raft/raft.go:491-561 | For every request from the base on, reply, log and all else equal those of a node that never compacted; before the base the request is refused and the log kept; between handlers base <= lastApplied = commitIndex <= lastIndex |
| `RaftNode.Node.PersistMissing` | internal/raft/raft.go:519-529 | Writes exactly the records of the entries the follower does not hold, or fails at the first write that fails |
| `RaftNode.Node.MergeLoop` | internal/raft/raft.go:530-553 | The loop leaves the merged log and both positions rolled back to before the first conflict |
| `RaftNode.Node.AppendLocal` | internal/raft/raft.go:567-579 | Equals the specification: persist, append, advance the commit index |
| `RaftNode.Node.Propose` | internal/raft/raft.go:583-596 | Equals the specification; returns the index exactly when this node leads and the write succeeds |
| `RaftNode.Node.Crown` | internal/raft/raft.go:408-438 | A new leader starts with fresh progress for every peer and keeps the rest |
| `RaftNode.Node.TryBecomeLeader` | internal/raft/raft.go:408-438 | Equals the specification: wins only as a candidate still in the term, after the no-op is durable |
| `RaftNode.Node.ReplicateTo` | internal/raft/raft.go:637-660 | The request equals that of an uncompacted leader, or none if the peer needs entries that are compacted away |
| `RaftNode.Node.OnAppendReply` | internal/raft/raft.go:667-689 | Equals the specification: ignores replies of lower terms, never lowers the match index, backs off on a rejection |
| `RaftNode.Node.CountHolders` | internal/raft/raft.go:698-703 | Counts this server and every peer whose match index reaches the given index |
| `RaftNode.Node.ScanCommit` | internal/raft/raft.go:693-709 | The loop computes the commit scan of the specification |
| `RaftNode.Node.UpdateCommitIndex` | internal/raft/raft.go:693-711 | Equals the specification: commit scan, then apply |
| `RaftNode.Node.ApplyCommitted` | internal/raft/raft.go:716-728 | Applies each committed entry once and in order, whatever is compacted on the way |
| `RaftNode.Node.MaybeCompact` | internal/raft/snapshot.go:200-228 | Compaction never drops an entry that is not applied and leaves the log as a whole unchanged |
| `RaftNode.Node.Rebase` | internal/raft/snapshot.go:136-142 | Keeps the tail that agrees with the snapshot, discards the log otherwise |
| `RaftNode.Node.HandleInstallSnapshot` | internal/raft/snapshot.go:100-149 | Index bookkeeping of every branch: stale, redundant, failed and successful installation; positions and base never fall |
| `RaftNode.Node.ApplyRecoveredRecord` | internal/raft/persist.go:79-103 | Places a recovered record in the log unless a snapshot covers it |
| `WalTheorems.CrashConsistency` | internal/wal/recovery.go:32-234 | Crash consistency: after any run of clients, writer, rotation, crashes (also in a torn line and inside `rebuildActive`) and recoveries, `Recover` reports no gap, returns the number of durable records, and rebuilds the replay of a selection of them that holds every acknowledged one, although the snapshot labelled with the boundary may hold later records |
| `WalTheorems.RecoveryNeverFails` | internal/wal/recovery.go:106-190 | In no run does a recovery stop with a gap or an unknown record |
| `WalTheorems.InterruptedRecovery` | internal/wal/recovery.go:32-85 | A recovery that was interrupted any number of times ends with the index and contents an uninterrupted one would read off the disk |
| `WalTheorems.MemoryIsDurable` | internal/wal/wal.go:174-188 | While the process is up its memory is the replay of durable records, with every acknowledged one among them |
| `WalTheorems.StepKeeps` | internal/wal/manager.go:140-278 | Every step of clients, writer, manager, crash and recovery keeps the invariant between memory, channel and the five files |
| `WalDisk.RecoverySucceeds` | internal/wal/recovery.go:32-85 | On every disk that the invariant admits, recovery succeeds and holds every acknowledged record |
| `WalDisk.ReplayReaches` | internal/wal/recovery.go:106-190 | Replaying lines whose indexes are old or consecutive applies each record above the last index once, in order |
| `WalReplay.Absorb` | internal/wal/manager.go:231-264 | Replaying a whole stretch of records over a state that holds any selection of them already gives what replaying it from scratch would |
| `WalReplay.ApplyIsTimeless` | internal/wal/recovery.go:106-178 | A record that has not expired at the horizon has the same effect at every clock reading up to it |
| `WalClock.ClockFreeIff` | internal/wal/recovery.go:106-178 | Exactly when the rebuilt contents depend on the clock: recoveries of a log, behind a snapshot or not, give the same result at any two moments if and only if the log is refused for an unknown record or no key has had an expiry replaced by another since its value was put |
| `WalClock.LosesIff` | internal/wal/recovery.go:106-178 | Exactly when a recovery loses a live key: a key that is alive at the time of the recovery is missing if and only if one of the expiries its value had earlier, in the snapshot or in the log, has come and the one in force has not |
| `WalClock.RecoveredIsMeant` | internal/wal/recovery.go:106-178 | Every key that a recovery does rebuild has the value and expiry that the snapshot and the log leave it with |
| `WalClock.ExtendedKeyLost` | internal/wal/recovery.go:106-178 | For every key that is put, given an expiry, and given a later one before that: a recovery between the two expiries loses the key, although it is live |
| `WalBoot.SwapKeeps` | internal/wal/recovery.go:195-234 | A crash after the rename and before the removal in `rebuildActive` leaves every record twice, and recovery skips the second copies |
| `WalCycle.PublishKeeps` | internal/wal/manager.go:231-264 | The rename that publishes the snapshot keeps the invariant |
| `WalCycle.RenameKeeps` | internal/wal/manager.go:268-278 | The rename of the temporary log over the active one loses nothing that the snapshot does not hold |
| `WalCycle.ResendKeeps` | internal/wal/manager.go:187-227 | A control message that is sent again keeps the invariant |
| `WalOrder.ArrivalOrder` | internal/wal/writer.go:104-233 | Over any messages and failures to open files: the two logs have gained exactly the accepted mutations in arrival order, less those still held, each on one line under the next index; queue and temporary log stay within their limits |
| `WalOrder.ArrivalOrderFromOpen` | internal/wal/writer.go:80-233 | The same without any premise for every writer that recovery opens: the indexes on disk go on from the recovered one |
| `WalArrivals.ArrivalOrderOnDisk` | internal/wal/writer.go:104-233 | Over every run, with rotations, renames, crashes and recoveries: the line with index i of either log carries the i-th mutation that was accepted, no index above the snapshot is missing, and what was accepted and is not on disk is held by the writer in arrival order |
| `WalOrder.ToldIsOnDisk` | internal/wal/writer.go:136-162 | Whoever is told an index finds the record on disk under it, and the lines added to each log have rising indexes |
| `WalOrder.AppendGains` | internal/wal/writer.go:136-162 | An append puts its mutation on one line of the chosen log under the next index and leaves the other log alone |
| `WalOrder.AnswersStay` | internal/wal/writer.go:164-233 | Once a control ID has an answer, no later message changes it |
| `WalOrder.RepeatedControl` | internal/wal/writer.go:164-233 | A repeated control message, however late, finds its first answer and changes neither writer nor disk |
| `WalDrain.RotationCompletes` | internal/wal/writer.go:211-233 | Draining the held mutations one durable step at a time is the handler as a whole |
| `WalWriter.Writer.constructor` | internal/wal/writer.go:80-89 | The writer opens the active log after the last recovered index |
| `WalWriter.Writer.HandleMutation` | internal/wal/writer.go:104-117 | Appends to the active or temporary log, or holds, by mode and limit, as specified; when it may refuse is `BusyOnlyWhenFull` |
| `WalWriter.Writer.HandleStartSealing` | internal/wal/writer.go:164-193 | Seals at the last index once, repeats the answer for a known ID, answers with the old boundary out of turn, stays silent if the file cannot be opened |
| `WalWriter.Writer.HandleFinishRotation` | internal/wal/writer.go:195-209 | Stops writing and answers with the last index, once per ID |
| `WalWriter.Writer.HandleRotationComplete` | internal/wal/writer.go:211-233 | Reopens the active log and drains the held mutations in order, once per ID |
| `WalRecovery.Volume.ReplayLines` | internal/wal/recovery.go:106-178 | The loop over complete lines equals the replay function, errors included |
| `WalRecovery.Volume.ReplayFile` | internal/wal/recovery.go:106-178 | Replays a file and repairs a torn or unframed end; a file that fails validation is left alone |
| `WalRecovery.Volume.RebuildActive` | internal/wal/recovery.go:195-234 | Leaves the merge of both logs as the active log and no temporary log |
| `WalRecovery.Volume.Recover` | internal/wal/recovery.go:32-85 | Result equals what the disk implies; on success the disk is repaired and merged |
| `WalRecovery.ReplayConcat` | internal/wal/recovery.go:106-178 | Replaying two files in turn is replaying their lines in turn, with the first error deciding |
| `BTreeTheorems.RefinesSet` | internal/btree/tree.go:31-203 | After any sequence of insertions and deletions the tree has equal leaf depth, 3 to 7 keys in every node but the root, separators that bound their subtrees, holds exactly what a plain set would, and a deletion reports a missing entry exactly when the set does not hold it |
| `BTreeTheorems.InsertRootKeeps` | internal/btree/tree.go:31-40 | Insertion keeps the tree good, adds exactly the entry, and changes nothing if it is there |
| `BTreeTheorems.DeleteRootKeeps` | internal/btree/tree.go:91-100 | Deletion succeeds exactly when the entry is there, keeps the tree good and removes exactly that entry |
| `BTreeTheorems.UpToIsAll` | internal/btree/iterator.go:22-42 | Cutting ascending entries at the first later expiry gives all entries up to the end, in order |
| `BTreeUpdate.InsertGood` | internal/btree/tree.go:42-67 | Insertion into a subtree keeps its bounds, depth and occupancy, or splits it into two such halves around a separator |
| `BTreeUpdate.InsertContents` | internal/btree/tree.go:42-67 | Insertion adds exactly the entry to the contents, in its place |
| `BTreeUpdate.SplitLeafGood` | internal/btree/tree.go:69-77 | A leaf split keeps all keys in order and leaves two halves of legal size |
| `BTreeUpdate.SplitNodeGood` | internal/btree/tree.go:79-88 | An internal split leaves two good halves of legal size around the separator it takes out |
| `BTreeRemove.LendLastGood` | internal/btree/tree.go:143-164 | A loan from the left restores the occupancy of both neighbours, keeps separators and contents |
| `BTreeRemove.LendFirstGood` | internal/btree/tree.go:166-184 | A loan from the right restores the occupancy of both neighbours, keeps separators and contents |
| `BTreeRemove.JoinGood` | internal/btree/tree.go:188-203 | A merge gives one good node of legal size with the contents of both |
| `BTreeRemove.FixKeeps` | internal/btree/tree.go:122-141 | Repairing a child that has lost a key gives a good node with the same contents and at most one key less |
| `BTreeRemove.DeleteGood` | internal/btree/tree.go:102-118 | Deletion keeps a subtree good; only its top node may fall short, by one key |
| `BTreeRemove.DeleteContents` | internal/btree/tree.go:102-118 | Deletion succeeds exactly when the entry is there and removes exactly that entry |
| `BTreeGood.ChosenChild` | internal/btree/node.go:65-76 | The child chosen for an entry is the only one that can hold it |
| `BTreeOrder.TotalOrder` | internal/btree/node.go:12-21 | The order of entries by expiry and key is a strict total order |
| `BTreeOrder.FindLowerBound` | internal/btree/node.go:50-61 | The binary search finds the number of keys below the target |
| `BTreeOrder.FindChildIndex` | internal/btree/node.go:65-76 | The binary search finds the number of keys not above the target |
| `BPlusTree.ChainHoldsContents` | internal/btree/iterator.go:5-42 | The keys along the leaves are the contents of the tree in order |
| `BPlusTree.Tree.constructor` | internal/btree/tree.go:18-20 | A new tree is empty |
| `BPlusTree.Tree.Insert` | internal/btree/tree.go:31-40 | Adds the entry to the set, splitting the root if need be; tree, ownership and leaf chain stay valid |
| `BPlusTree.Tree.Delete` | internal/btree/tree.go:91-100 | Removes the entry and reports whether it was there; tree, ownership and leaf chain stay valid |
| `BPlusTree.Tree.First` | internal/btree/iterator.go:5-17 | The entry that expires first, none exactly when the tree is empty |
| `BPlusTree.Tree.Range` | internal/btree/iterator.go:22-42 | Exactly the entries that expire up to the end, ascending |
| `BPlusTree.Walk` | internal/btree/iterator.go:22-42 | The walk along the leaf chain collects the entries up to the end |
| `BTreeInsert.InsertNode` | internal/btree/tree.go:42-67 | The recursive insertion in place computes the insertion on values, touches only its subtree and keeps the leaf chain |
| `BTreeInsert.SplitLeafNode` | internal/btree/tree.go:69-77 | The new leaf takes the upper half of the keys and follows the old one in the chain |
| `BTreeInsert.SplitInternal` | internal/btree/tree.go:79-88 | The new node takes the upper half of keys and children |
| `BTreeErase.DeleteNode` | internal/btree/tree.go:102-118 | The recursive deletion in place computes the deletion on values, touches only its subtree and keeps the leaf chain |
| `BTreeFix.FixNode` | internal/btree/tree.go:122-141 | Borrows or merges in place exactly as on values, with left before right and borrowing before merging |
| `BTreeFix.BorrowLeft` | internal/btree/tree.go:143-164 | The loan from the left neighbour in place, separator included |
| `BTreeFix.BorrowRight` | internal/btree/tree.go:166-184 | The loan from the right neighbour in place, separator included |
| `BTreeFix.MergeAt` | internal/btree/tree.go:188-203 | The merge in place: the parent loses separator and right child, the leaf chain skips the merged leaf |
| `StoreSpec.ExpirationUnobservable` | internal/store/store.go:72-177 | Over every run with a clock that does not go back, the results of get, put, delete and time-to-live equal those of a reference map that never removes an entry because of its age |
| `StoreSpec.SweepUnobservable` | internal/store/active_expiration.go:11-36 | A sweep anywhere in a run changes none of the other results |
| `StoreSpec.ServeAgrees` | internal/store/store.go:83-177 | Each single operation gives the reference result and keeps store and reference in agreement |
| `Store.CacheyStore.constructor` | internal/store/store.go:42-47 | A new store is empty, with an exact index |
| `Store.CacheyStore.ExpireKey` | internal/store/store.go:72-81 | Removes an entry only if it is still the expired one that was seen |
| `Store.CacheyStore.Get` | internal/store/store.go:83-96 | Data and result equal the specification; the index keeps every entry that expires and stays exact |
| `Store.CacheyStore.Put` | internal/store/store.go:101-112 | Stores the value without expiry once the record is durable, else changes nothing; index as above |
| `Store.CacheyStore.DeleteLocked` | internal/store/store.go:126-140 | Data and result equal the specification; index as above |
| `Store.CacheyStore.Delete` | internal/store/store.go:114-124 | The same, only after the record is durable |
| `Store.CacheyStore.TtlAtLocked` | internal/store/store.go:160-177 | Sets the absolute expiry of a live key; the index stays exact unless the expiry is 0 |
| `Store.CacheyStore.TTL` | internal/store/store.go:146-157 | The same for a relative expiry, only after the record is durable |
| `Store.CacheyStore.ApplySnapshot` | internal/store/store.go:180-190 | Key by key: a loaded key has the value and the expiry of its last entry, every other key is as before; the index stays complete, and exact when all keys are new |
| `Store.CacheyStore.ApplyRecord` | internal/store/store.go:194-223 | Data equals the replay of one record; the index stays exact unless an expiry is 0 |
| `Store.CacheyStore.TakeSnapshot` | internal/store/store.go:227-239 | Exactly the entries that have not expired |
| `Store.CacheyStore.SweepOne` | internal/store/active_expiration.go:15-33 | Removes the entry if it is still the expired one, its index entry in any case, so that the index shrinks |
| `Store.CacheyStore.CleanupExpired` | internal/store/active_expiration.go:11-36 | Removes only expired entries, at most the limit, all of them if it stops below the limit; ends because the index shrinks |
| `StoreSweep.IndexStaysComplete` | internal/store/active_expiration.go:11-36 | However look, check and drop of the clean-up interleave with other operations, every entry that expires keeps its index entry, as long as no step of the run conflicts with the entry about to be dropped |
| `StoreSweep.PositiveRunsAreSafe` | internal/store/store.go:146-157 | Without that premise for every run whose expiries lie in the future when they are set, as those of `TTL` do |
| `StoreSweep.ExpiryIsSafeIff` | internal/store/store.go:160-177 | An expiry can be set in every reachable state without conflict if and only if it is 0 or lies in the future |
| `StoreSweep.EntryLost` | internal/store/active_expiration.go:11-36 | For every key and every other expiry a run from an empty store in which the clean-up drops the only index entry of a key that is still stored |
| `StoreSweep.ConflictBreaks` | internal/store/active_expiration.go:11-36 | The condition is exact: a step that gives a live key the very expiry whose index entry the clean-up is about to drop loses that entry |
| `StoreSweep.PositiveTtlIsSafe` | internal/store/store.go:146-157 | A positive time to live never conflicts |
| `StoreSweep.CleanerSparesLive` | internal/store/active_expiration.go:20-33 | No step of the clean-up removes or changes a live key |
| `StoreSweep.CleanupUnobservable` | internal/store/active_expiration.go:11-36 | In every run, however look, check and drop of the clean-up interleave with the operations of clients, every operation gives the result of the reference map that knows neither clean-up nor removal by age, even where an index entry is lost |
| `StoreSweep.StepKeeps` | internal/store/active_expiration.go:11-36 | Every step without conflict keeps the index complete |
| `HsTheorems.Agreement` | internal/hotstuff/node.go:440-752 | Agreement: with 3f + 1 members and at most f Byzantine ones, leader included, in one view and epoch, with correct replicas crashing anywhere, the committed branches of two correct replicas are prefixes of one another, as long as every commit is made by a chain at consecutive heights |
| `HsTheorems.AgreementOverTime` | internal/hotstuff/node.go:440-752 | The same for two replicas at two different moments |
| `HsTheorems.CertifiedExtendsCommitted` | internal/hotstuff/node.go:698-752 | Every certified block at or above the height of a block some correct replica has committed extends that block |
| `HsTheorems.CommittedIsBranch` | internal/hotstuff/node.go:730-752 | What a replica has committed is exactly the branch from the root to `bExec` |
| `HsTheorems.CommitWalksMeet` | internal/hotstuff/node.go:730-752 | Every walk of `commitUpToLocked` meets the old `bExec`: each step of a run, a crash included, moves `bExec` up its own branch, and the blocks walked over are exactly those in between |
| `HsTheorems.RunsOnOneBranch` | internal/hotstuff/node.go:739-750 | Any two blocks whose commands two correct replicas have executed, before or after any number of crashes, lie on one branch |
| `HsTheorems.CommittedGrows` | internal/hotstuff/node.go:730-752 | Nothing committed is ever taken back, not by a crash either |
| `HsTheorems.GapFreeIsTight` | internal/hotstuff/block.go:103-111 | If no correct replica votes for a block that skips heights, every commit is made at consecutive heights |
| `HsLeader.CorrectLeaderAgrees` | internal/hotstuff/node.go:343-393 | Under a correct leader that does not crash agreement needs no condition at all: two correct replicas never commit conflicting blocks, whatever Byzantine members do and wherever other replicas crash |
| `HsLeader.LeaderUnbroken` | internal/hotstuff/node.go:343-373 | Such a leader proposes every block exactly one height above its parent, and correct replicas vote for nothing else: the skip above the highest known block is a no-op |
| `HsTheorems.CertificatesUnique` | internal/hotstuff/node.go:519-532 | At most one block is ever certified at a height, although a leader's vote for its own block does not raise its vote height |
| `HsTheorems.CommandsRunOnce` | internal/hotstuff/persist.go:224-292 | Wherever the crashes fall, no replica executes a command twice, and commands run in the order of the branch |
| `HsTheorems.VotesAlwaysRise` | internal/hotstuff/persist.go:116-129 | Across any number of crashes and recoveries the votes returned by proposal handling have strictly rising heights |
| `HsTheorems.RecoveryRestores` | internal/hotstuff/persist.go:176-292 | A crash between handlers restores tree, highest certificate, lock and committed block, and the vote height if all writes succeeded; never a vote height below a vote that has left |
| `HsTheorems.RunKeeps` | internal/hotstuff/node.go:343-752 | The inductive invariant holds after every run, crashes included |
| `HsSkips.ExactlyOnceIff` | internal/hotstuff/persist.go:176-292 | A correct replica has executed exactly the commands of the branch it has committed, once and in order, if and only if none of its crashes fell between the record of a certificate and the execution of the last command that certificate commits |
| `HsSolo.CommandLost` | internal/hotstuff/node.go:698-752 | For any three commands a run of a one-member cluster, without Byzantine members, that commits the first command and, because of one crash, never executes it |
| `HsSkips.ExecutionAgrees` | internal/hotstuff/node.go:730-752 | The commands that two correct replicas without such a crash have executed are prefixes of one another |
| `HsSkips.CommandsRunExactly` | internal/hotstuff/node.go:730-752 | A replica that does not crash has executed exactly the commands of the branch it has committed, once and in order |
| `HsSkips.BrokenCutOk` | internal/hotstuff/persist.go:176-292 | Every cut of every handler: recovery ends at the block the completed handler would leave if the record of the certificate was kept, and at the old one otherwise |
| `HsSkips.CutEven` | internal/hotstuff/persist.go:224-292 | A replica that was even with its branch is still so after a crash exactly if the crash did not fall in that window; one that is behind never catches up |
| `HsExact.ActedRunsDue` | internal/hotstuff/node.go:738-750 | A handler that completes executes exactly the commands between the old and the new committed block, in order |
| `HsCrash.StepKeeps` | internal/hotstuff/persist.go:176-292 | Every step, completed or cut short after any number of its effects, keeps the invariant |
| `HsCrash.BrokenKeeps` | internal/hotstuff/persist.go:176-292 | The same for a crash in the middle of any handler of a follower or of the leader |
| `HsSteps.CompleteKeeps` | internal/hotstuff/node.go:343-752 | The same for a handler that completes |
| `HsHistory.CertifiedExtends` | internal/hotstuff/node.go:512-517 | The heart of agreement: once a direct chain of three blocks at consecutive heights is certified, every certified block at or above the first extends it, whenever it was certified |
| `HsHistory.OnePerHeight` | internal/hotstuff/node.go:519-532 | Under the voting rule two certified blocks of one height are equal |
| `HsHistory.CertifiedParent` | internal/hotstuff/node.go:475-484 | A certified block stands on a certified parent of smaller height |
| `HsGaps.GapsBreakAgreement` | internal/hotstuff/block.go:103-111 | For all heights that are not consecutive: a run of four members under a Byzantine leader that commits a chain of three blocks at these heights at one correct replica and a conflicting block at another |
| `HsGaps.ConsecutiveIff` | internal/hotstuff/block.go:103-111 | Consecutive heights are the exact condition: no run, whatever its members, lets a correct replica commit at or above a chain of three committed at these heights without extending it, if and only if the heights are consecutive |
| `HsQuorum.CommonCorrect` | internal/hotstuff/epoch.go:41-54 | With 3f + 1 members two quorums of 2f + 1 share a correct member |
| `HsQuorum.IntersectingIff` | internal/hotstuff/epoch.go:41-54 | The quorum 2f + 1 with f = (n - 1) / 3 has overlaps of more than f members exactly when n = 3f + 1 |
| `HsSafety.QCMeans` | internal/hotstuff/auth.go:151-194 | A certificate that passes `qcValid` names a block for which a quorum has voted, at its own height |
| `HsSafety.AcceptKeeps` | internal/hotstuff/node.go:440-532 | An accepted proposal stands on a certified parent, extends the lock or is justified above it, and leaves tree, lock and certificate well placed |
| `HsSafety.TakeQC` | internal/hotstuff/node.go:698-724 | Taking in a certificate never lowers lock or certificate, and moves the committed block only to the grandparent of the certified block |
| `HsSteps.SelfVoteIsOk` | internal/hotstuff/node.go:343-393 | The leader's vote for its own block keeps the voting rule although it checks neither lock nor vote height, also after a restart |
| `HsSteps.SpanIsPath` | internal/hotstuff/node.go:730-752 | The walk down from a block that extends the committed one yields exactly the blocks in between |
| `HsOnce.CommitRuns` | internal/hotstuff/node.go:738-750 | A commit executes blocks above all executed before, each once, on the branch of the committed block |
| `HsDurable.CertificateCut` | internal/hotstuff/node.go:698-752 | At every point after the record of a certificate, recovery finds the lock and committed block that the completed handler would leave |
| `HsDurable.DeliverCut` | internal/hotstuff/node.go:518-532 | A crash inside proposal handling is recovered to one of its stages: before the block, with the block, with its certificate, with the vote height |
| `HsDurable.DeliverTracks` | internal/hotstuff/node.go:518-532 | After proposal handling the durable log describes the replica |
| `HsDurable.DeliverVotes` | internal/hotstuff/node.go:519-532 | No cut of proposal handling lets a vote leave that is not above all before it and at or below the durable vote height |
| `HsDurable.FoldIsRaise` | internal/hotstuff/persist.go:236-269 | Handler and recovery follow the same lock and commit rules |
| `HsDurable.RecoverFinds` | internal/hotstuff/persist.go:236-292 | Recovery from a log that describes a replica finds that replica's tree, certificate, lock, committed block and vote height |
| `HsRecovery.Recovering.ApplyRecord` | internal/hotstuff/persist.go:176-222 | Rebuilds from one record as specified: skips blocks with a wrong identity, an unknown parent or a known identity, takes the highest vote height |
| `HsRecovery.Recovering.ReplayLog` | internal/hotstuff/persist.go:176-222 | The loop over the log equals the replay function |
| `HsRecovery.Recovering.FinishRecovery` | internal/hotstuff/persist.go:236-292 | Pointers equal the fold over the recovered certificates, with the watermark and the defensive return to the root |
| `HsReplica.CheckQC` | internal/hotstuff/auth.go:151-194 | The loop over the votes accepts exactly the valid certificates |
| `HsReplica.ExtendsLock` | internal/hotstuff/node.go:616-629 | The walk finds the lock exactly when it is on the branch |
| `HsReplica.HighestBlock` | internal/hotstuff/node.go:303-311 | The loop finds the greatest height of the tree |
| `HsReplica.CollectSpan` | internal/hotstuff/node.go:731-738 | The walk collects the blocks above the committed one, newest first |
| `HsReplica.LiveReplica.constructor` | internal/hotstuff/node.go:147-240 | A new replica knows the root only, certified, locked and committed |
| `HsReplica.LiveReplica.ExecuteSpan` | internal/hotstuff/node.go:739-750 | Executes a span from the oldest to the newest block and moves the committed block along |
| `HsReplica.LiveReplica.CommitUpTo` | internal/hotstuff/node.go:730-752 | Equals the specification: executes in chain order, then records the watermark |
| `HsReplica.LiveReplica.FoldChain` | internal/hotstuff/node.go:707-724 | Equals the specification: lock on a chain of two, commit on a chain of three |
| `HsReplica.LiveReplica.TakeCertificate` | internal/hotstuff/node.go:698-724 | Equals the specification: only valid certificates above the highest, recorded before they take effect |
| `HsReplica.LiveReplica.AddBlock` | internal/hotstuff/node.go:571-595 | Equals the specification: recorded, and head if higher |
| `HsReplica.LiveReplica.IsAcceptable` | internal/hotstuff/node.go:440-512 | Accepts exactly the proposals with matching identity, unknown, above the committed block, on a known parent that they certify, at a greater height, signed by the leader, and safe |
| `HsReplica.LiveReplica.Deliver` | internal/hotstuff/node.go:440-532 | State and vote equal the specification: insert, fold the certificate, vote above the vote height once that is durable |
| `HsReplica.LiveReplica.CountVote` | internal/hotstuff/node.go:653-692 | Equals the specification: one valid vote per member and block at its height, certificate once at the quorum; that a quorum suffices is `VotesCertify` |
| `HsReplica.LiveReplica.BuildNext` | internal/hotstuff/node.go:343-373 | The block is on the head and above every known block |
| `HsReplica.LiveReplica.ProposeBlock` | internal/hotstuff/node.go:322-393 | Proposes exactly as the leader whose head is certified, inserts the block and counts its own vote; else changes nothing |
| `HsStamps.EpochsAgree` | internal/hotstuff/epoch.go:186-217 | Configuration agreement, exactly: followers accept the epoch of every block of a leader's branch and can derive its set if and only if the committed transitions are at least three blocks apart and can all be applied |
| `HsStamps.SoundAccepts` | internal/hotstuff/epoch.go:268-283 | Then the stamped epoch equals the derived one and the derived validator set is the one the leader has activated |
| `HsStamps.AcceptedSpacing` | internal/hotstuff/epoch.go:186-217 | If followers accept all stamps, no transition precedes a committed one within two blocks |
| `HsStamps.LeaderActivates` | internal/hotstuff/node.go:740-750 | After a well spaced sequence of commits the leader's epoch counts the transitions and its current set is their fold |
| `HsStamps.DeriveEpoch` | internal/hotstuff/epoch.go:186-217 | The walk down the ancestry and the fold over the transitions give the number of committed transitions and the set they lead to, none if one cannot be applied; an id is in that set if and only if the last change that names it adds it, or none does and it was in the base set |
| `HsStamps.CollectTransitions` | internal/hotstuff/epoch.go:196-204 | The walk with three trailing blocks finds exactly the transitions under three direct certifying descendants, newest first |
| `HsStamps.EpochKeeper.ActivateTransition` | internal/hotstuff/epoch.go:268-283 | Activates the set after that of the block's own epoch, or nothing if the command or the base set is missing or the change malformed |
| `HsEpoch.ApplyChange` | internal/hotstuff/epoch.go:78-109 | The next set, exactly when every removed id is a member once, every added id is new once with a proper key, and somebody is left; id by id, newcomers are in with their own keys, members stay unless removed, all other keys are as before |
| `HsEpoch.RemoveMembers` | internal/hotstuff/epoch.go:79-88 | Removals succeed exactly when all are members and distinct |
| `HsEpoch.AddMembers` | internal/hotstuff/epoch.go:89-99 | Additions succeed exactly when all are new, distinct and carry a key of the right size |
| `RaftVotes.PrefixIsGranted` | internal/raft/raft.go:463-488 | In every reachable state a node grants its vote to a candidate whose log, taken at any moment of the run, has the voter's log as a prefix, unless the term is behind or its ballot of that term went to somebody else |
| `RaftVotes.OneOfTwoGrants` | internal/raft/raft.go:463-488 | Of any two nodes with free ballots, whatever their logs, one grants the other its vote |
| `RaftCatchUp.PeerCatchesUp` | internal/raft/raft.go:637-689 | From every reachable state, between a leader and a peer whose term is not ahead, a finite exchange of requests and answers ends with `matchIndex` at the end of the leader's log and that log at the front of the peer's |
| `RaftCatchUp.PeerDethrones` | internal/raft/raft.go:637-670 | A peer with a later term makes the leader step down into that term by one answer |
| `RaftProgress.VoterDethrones` | internal/raft/raft.go:374-383 | A voter in a later term refuses, and by its answer takes the candidate into that term as a follower; nothing else changes |
| `RaftProgress.CanBeElected` | internal/raft/raft.go:333-488 | From every reachable state, with any majority up and the other servers silent, a node of it whose log is at least as up to date as the others' can become leader with nobody up ahead of its term |
| `RaftProgress.CommandCanBeApplied` | internal/raft/raft.go:333-728 | From every reachable state, for any majority that is up, such a node and any command: a run after which that node leads and the whole majority has applied the command at one index, while no other server has moved |
| `RaftProgress.BacklogCanBeApplied` | internal/raft/raft.go:408-728 | Entries of earlier terms need no client: a new leader adds only its empty entry, and with it everything in its log can be applied by all of the majority |
| `RaftProgress.AnyoneCanLead` | internal/raft/raft.go:333-728 | For every set of servers, every one of them and every command there is a run after which that node leads and every server has applied the command |
| `RaftProgress.NoDeadEnd` | internal/raft/raft.go:333-728 | No reachable state is a dead end: with any majority up, some node of it can be elected and have any command applied by all of it |
| `WalOrder.BusyOnlyWhenFull` | internal/wal/writer.go:104-134 | Over every sequence of messages to the writer, a mutation is refused only while as many mutations as the limit allows are waiting |
| `WalOrder.NoneIsRefused` | internal/wal/writer.go:104-232 | As long as fewer mutations wait than the limit allows, everything that has arrived is in the log or waiting, in the order of arrival |
| `WalArrivals.RefusedInRun` | internal/wal/writer.go:104-232 | The same over every run of the whole system with crashes and recoveries: whoever is refused found the queue full |
| `WalRotation.RotationCanComplete` | internal/wal/manager.go:140-278 | From every reachable state, also in the middle of a recovery or after an abandoned rotation, the process can go on without a crash until it is up and idle, nothing is held or queued, both logs are empty and the snapshot on disk is the whole memory under the last index, which is what a recovery then finds |
| `WalRotation.Quiesce` | internal/wal/writer.go:55-233 | From every reachable state the writer can work off its channel and everything it holds |
| `WalRotation.StartUp` | internal/wal/recovery.go:32-85 | From every reachable state in a recovery, however often interrupted, the process can come up |
| `Store.LoadedLast` | internal/store/store.go:180-190 | Of several entries for a key the last one counts, with its expiry |
| `StoreSnapshots.SnapshotRoundTrip` | internal/store/store.go:180-239 | Loading a snapshot into an empty store gives exactly the entries that were not expired when it was taken, each with its value and its expiry |
| `StoreSnapshots.LoadedStore` | internal/wal/recovery.go:47-66 | Loading the snapshot file of a disk into a new store gives the contents from which recovery replays, with an exact index |
| `HsEpoch.ApplyTakes` | internal/hotstuff/epoch.go:78-109 | What a well-formed change makes of every single id and its key |
| `HsStamps.FoldedMembers` | internal/hotstuff/epoch.go:186-217 | After any sequence of changes an id is a member if and only if the last change that names it adds it, or none names it and it was a member before |
| `HsDerive.SettledIff` | internal/hotstuff/epoch.go:176-209 | In any tree, a transition is counted in the ancestry of a block if and only if that ancestry holds the block with whose justification the chain rule of the replica commits it |
| `HsDerive.DerivedIsCommitted` | internal/hotstuff/epoch.go:176-217 | In a tree of accepted blocks the changes derived for a block are exactly those of the blocks that the replica commits by the justification of that block |
| `HsCertify.LeaderCounts` | internal/hotstuff/node.go:653-692 | In every reachable state of a correct leader every counted vote verifies, every block with a quorum has had its certificate formed, and `qcHigh` is at least as high as all of these |
| `HsCertify.VotesCertify` | internal/hotstuff/node.go:635-692 | From every reachable state, whatever votes the leader then gets in whatever order: if 2f + 1 distinct members' verifying votes for a block it knows are among them, `qcHigh` is at least as high as that block |
| `HsProgress.CommandsCanCommit` | internal/hotstuff/node.go:343-752 | With 3f + 1 members of which up to f never say a word, and a correct leader: for every sequence of commands there is a run after which every correct replica has committed blocks with exactly these commands first and has run them in order |
| `HsProgress.Round` | internal/hotstuff/node.go:343-752 | One round of that: proposal, votes of all correct followers, certificate |
| `HsWelcome.NeverRefused` | internal/hotstuff/node.go:440-532 | From every reachable state, with crashes anywhere, in which a correct leader may propose: its next proposal passes all checks of every correct follower that knows the parent, the lock rule among them, and gets its vote |
| `HsWelcome.RunServes` | internal/hotstuff/node.go:343-752 | Under a correct leader, crashes included, no follower ever knows a block, holds a certificate or has used up a height beyond what the leader knows, and the leader's highest certificate always verifies |
| `HsHeights.HeightIsSpent` | internal/hotstuff/node.go:505-532 | Once a follower has accepted a block, its later votes up to its next restart are all above that block, even if the vote height could not be made durable and no vote was cast |
| `HsHeights.HeadIsTallest` | internal/hotstuff/node.go:571-600 | Until its first restart, the head of a follower is a tallest block of its tree, whatever it is sent |
| `HsDurable.WatermarkKept` | internal/hotstuff/persist.go:176-292 | Whatever is in the log, recovery does not fall below the recorded watermark of executed blocks, unless the block of the highest certificate is missing; then it goes back to the root |

## Left out

- Widths of integers: terms, indexes, heights and expiries are unbounded, so wrap-around of `uint64` and `int64` is not modelled.
- Raft restarts: term and vote are not durable in the code, so election safety is stated for runs without restarts; log rebuild is treated on its own.
- Raft membership changes: configurations take effect at commit and joining members count towards the quorum, so the theorems are for a fixed voter set.
- Raft read index, leader hints, timers and role observers: bookkeeping without influence on safety. Progress is stated as runs that exist from every reachable state, not as what fair schedules and random timeouts must lead to.
- Raft snapshots in whole runs: compaction is shown to be invisible and installation keeps the positions, but runs of the cluster contain no snapshot transfer, and the contents of the state machine after an installation are not modelled.
- Write-ahead log: failing writes other than files that cannot be opened; fsync is taken to make a line durable.
- Write-ahead log: in whole runs no record expires before the horizon of the run; what recovery makes of expiries that have passed is the subject of `WalClock`, for a log behind a snapshot or from the beginning.
- Raft persistence: a command is persisted as the fields of its decoded operation, so what `DurableLogRebuilds` compares is decoded operations and not the bytes of commands.
- JSON framing, files and directories: parsing is a total decoding into records, a torn tail or a whole record without newline.
- HotStuff view changes, pacemaker, range sync, garbage collection and the buffers for proposals whose parent is missing: a proposal without a known parent is dropped in the model, and `NeverRefused` is about followers that know it.
- HotStuff with changing epochs: agreement is for one epoch; `HsStamps` treats epochs on one branch from the root.
- HotStuff records other than the vote height are always written successfully.
- Leader rotation, set hashes and the order of validators: a validator set is a set of ids with keys.
- SHA-256 and Ed25519: identities are injective and signatures cannot be forged.
- Transports, server, client and command line: input and output only.
- RaftNode.Node.HandleInstallSnapshot: learns index and term of the snapshot only; the entries it stands for are a ghost argument, and installing its data into the store is not modelled.
- RaftNode.Node.MaybeCompact: whether the snapshot can be taken and saved is left open, so that the contract holds either way and does not promise that the base moves.
- Store.CacheyStore.ApplySnapshot: the index may keep entries of overwritten keys, as in the code, so it is promised to be complete and not exact unless all keys are new.
- HsReplica.LiveReplica.AddBlock: inserts one block; the worklist of parked blocks belongs to fetching and is not modelled.
