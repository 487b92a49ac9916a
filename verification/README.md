# Kan, verified

Kan is a key-value store replicated by Raft. This project models the parts of it that carry its promises, in Dafny, and
proves those promises for every input, every run or every reachable state. `dafny verify dfyconfig.toml` checks it all.

## What is modelled

**The cluster.** `RaftNode` holds the fields of one node, in memory and on disk, and one function for each critical
section of the consensus code. `Cluster` makes a transition system of them: timeouts, the handling of any message ever
sent (late, repeated, out of order or never), sends, client appends, queries, the two writes of the apply loop, and a
crash with a restart from disk between any two of these. `RaftCore` and `RaftActions` hold the argument about terms,
votes, acknowledgements and logs on its own; `ClusterInvariant`, `ClusterSteps`, `ClusterReplication` and `ClusterRuns`
show that every step of the code follows it. `Handlers` and `CommitRule` say of each handler, without the function that
computes it, when it acts and what becomes of every field: that it does what it should and not only nothing wrong. The theorems are in `RaftSafety`, `Elections` and
`EpochLives`.

**Where the code falls short.** These promises do not hold of the code as it is. Each has runs of the code that break
it and a theorem that says when it holds.

- *Agreement and what is committed.* Sending entries, sending again after a rejection, and accepting a command do not
  look at the role. A leader that is deposed by an AppendEntries request keeps its `leader_id`, because its term is raised
  before `become_follower` looks at it. One such step is enough, in a run whose other leader-only steps are all the
  leaders': a command accepted by a deposed leader makes two nodes commit different entries at index 1
  (`Unguarded.AgreementIsLost`), and a request sent or sent again by one makes a follower drop a committed entry
  (`Unguarded.CommitIsLostBySend`, `Unguarded.CommitIsLostByResend`). So each of the three conditions is needed, and
  together they suffice: every run of the code that meets them is safe (`Unguarded.CodeIsSafe`). Election safety needs
  none of them.
- *Fresh reads.* A query looks at leadership when it begins and not when it ends, and refused votes count as answers; a
  leader deposed meanwhile can read at an index that was passed before the query began
  (`StaleReads.StaleWithoutLeading`). In every run of the code with leader-only steps taken by leaders, a process that
  still leads when its wait is over reads fresh (`Unguarded.CodeReadsFresh`). This holds in every life of a process, also
  after restarts, although the epoch starts again from 0: replies go out on the connection of the request, so a process
  only gets answers to requests of its own (`EpochLives.Life`).
- *Recovery.* A log that was compacted away entirely is reopened as one that never held anything; every other log is
  reopened as it was (`LogReopen.Restart`, an equivalence). Over whole runs, a log ends before what was committed if
  and only if the process crashed with its log compacted away and the log was not brought back since
  (`SnapshotRuns.ShortIffLost`; `SnapshotRuns.LogIsLost` is such a run). Store, apply index and snapshot survive even
  that crash.
- *Snapshots.* A snapshot taken right after a crash between the two writes of the apply loop holds one entry more than
  its index says (`SnapshotRuns.AheadAfterCrash`). It is exact if and only if, when it was copied, the last write to the
  store had been followed by the write of its index (`SnapshotRuns.SnapshotExactIff`), whatever crashes came before.
  Replaying the kept suffix on it gives the right store either way.
- *Compacted logs.* A leader whose log was compacted sends a peer without entries the entries from the start of its
  window as if they were the first (`Consensus.MisplacedEntries`), and a log that was compacted away entirely shows the
  term 0 to elections. The contracts of `Consensus.RaftConsensus` say exactly where an object with a compacted log
  behaves as the whole log would; towards requests it always does (`Compaction.CompactionDoesNotShow`).

**The objects.** `Consensus.RaftConsensus` updates the fields of the context and the peers in place, over
`LogStore.LevelDBLog`, which keeps the log and the metadata in a map from byte strings. The object stands for the node
whose log is what was compacted away followed by what is left, and each method is tied to the node function that the
cluster runs on, so the theorems about runs are about these methods. `QuorumIndex` sorts the peers' values; `AppendLoop`
is the follower's loop on any window; `BackOff` is the exchange of rejections. `LogReopen` follows the log through any
operations and through reopening. `StateMachine` applies committed entries and writes snapshots out; `SnapshotRuns`
interleaves the apply loop with a snapshot requester move by move. `Scenarios` spells out runs of a cluster of three.

**The wire.** `Wire` is the message format and the byte buffer, `Receiver` the asynchronous receiver, `SyncConnection`
the synchronous client, `SendQueue` the asynchronous sender; its last lemma goes from one end to the other.

## Modelling choices

- One step is one section under the consensus mutex. A request to all peers is one step for each peer.
- The network never loses the record of a message, and no step has to happen; loss, delay and reordering are runs too.
- A step's timing conditions (election timeout, withheld votes, heartbeat) are free choices of the run. In the theorems
  a timeout may come at any node at any time, which allows more than the code does. The runs offered as runs of the code
  do not use that: there only followers and candidates time out, and only while their election timer is scheduled (a
  leader that steps down on a response has none until it votes or follows).
- Replies are matched to requests only where it matters, in the lives of a process: there a response must answer a
  request that this process has sent (source/RPC/RpcInstance.cpp:48-62 replies on the connection of the request). Elsewhere any response may be delivered to its node at any time.
- The limit on the entries of a request is free at every step in the theorems; the runs that break a promise keep one
  limit throughout.
- All nodes agree on the membership, identifiers are positive, and no node is its own peer, as in the example
  configurations. Any set of nodes may have gone through the bootstrap run.
- The documentation of Raft takes a match index as the previous index plus the number of entries, and the code takes the
  follower's last index; the code is followed, and `RaftSafety.MatchIndexSound` is why that is sound.
- Indices and terms are unbounded numbers in the cluster. The objects bound them by 64 bits where they become keys.
- LevelDB is an ordered map with atomic batches whose writes succeed. Serialized entries determine the entry.
  `uint64_to_net` is eight bytes, most significant first.

## Model

| member | source | states |
|---|---|---|
| RaftSafety.StateMachineSafety | source/Raft/RaftConsensus.cpp:614-722 | In every run, any two nodes at any two moments hold the same entries at every index both have committed |
| RaftSafety.EqualStores | source/Raft/StateMachine.cpp:83-126 | Nodes that have applied equally far hold equal key-value maps, at any two moments of any run with crashes |
| RaftSafety.CommittedInLeaders | source/Raft/RaftConsensus.cpp:961-1002 | Leader Completeness: what any node has committed is in the log of every leader of its term or a later one, from then on |
| RaftSafety.LogMatching | source/Raft/RaftConsensus.cpp:652-712 | Entries of equal term at an index mean equal logs up to there, and terms never fall along a log, in every reachable state |
| RaftSafety.MatchIndexSound | source/Raft/RaftConsensus.cpp:946-967 | A match index taken from the follower's last index is right: the follower's whole log is a prefix of the leader's and at least that long |
| RaftSafety.SuccessMeansPrefix | source/Raft/RaftConsensus.cpp:677-712 | The same for every success response still in flight |
| RaftSafety.CommitStands | source/Raft/RaftConsensus.cpp:715-718 | apply index <= commit index <= last index; over a run the commit index never falls and no committed entry is replaced or cut by either truncation |
| ClusterReplication.MeetsInLine | source/Raft/RaftConsensus.cpp:652-671 | A request that passes the check of its previous entry meets a log that is as a whole a prefix of that leader's |
| ClusterReplication.DropNode | source/Raft/RaftConsensus.cpp:660-671 | The entry dropped on a mismatch is never a committed one, and dropping it keeps the invariant |
| ClusterReplication.QuorumIsChosen | source/Raft/RaftConsensus.cpp:972-997 | The middle match index, when its entry is of the present term, is acknowledged by a majority |
| ClusterReplication.SentOk | source/Raft/RaftConsensus.cpp:1151-1212 | Every request of a leader carries its own log from a safe place, and a commit index covered by what it carries |
| Handlers.RequestFor | source/Raft/RaftConsensus.cpp:1151-1212 | A peer is sent nothing if and only if its next index is unset or past the end; else the entry before it and what follows, as much as the limit allows and no less, with the lesser of commit index and what it carries |
| Handlers.RejectedEffect | source/Raft/RaftConsensus.cpp:1004-1018 | A rejection moves the next index back to what the peer has and never forward, and changes nothing else but the epoch |
| Handlers.AcceptedEffect | source/Raft/RaftConsensus.cpp:946-967 | An acceptance sets match and next index from the peer's last index; the commit index never falls and is written to disk |
| CommitRule.CommitsWhatAMajorityHas | source/Raft/RaftConsensus.cpp:961-997 | In every guarded run, after an acceptance every index that holds an entry of the leader's term and that more than half of the cluster is known to have reached is committed, and the commit index moves only to such an index |
| RaftCore.LeaderCompleteness | source/Raft/RaftConsensus.cpp:597-606 | A prefix that a majority acknowledged in its own term is in the starting log of every later leader |
| RaftActions.GrantInv | source/Raft/RaftConsensus.cpp:567-606 | A vote, granted by comparing last entries, keeps every invariant of the core, in particular that voters' acknowledgements are covered |
| RaftActions.ElectInv | source/Raft/RaftConsensus.cpp:839-862 | A win by a majority of votes and its opening entry keep every invariant of the core |
| ClusterRuns.StepSafe | source/Raft/RaftConsensus.cpp:1267-1327 | Every step of the cluster keeps the invariant and only moves terms and commit indices forward |
| ClusterRuns.InitialSafe | source/Raft/RaftConsensus.cpp:141-193 | Fresh nodes, bootstrapped or not, satisfy the invariant |
| Cluster.MayHappen | source/Raft/RaftConsensus.cpp:559-1028 | Nothing is kept from happening: timeouts and crashes at any time, every message ever sent handled at any time, votes withheld or not, what is committed applied |
| Cluster.OnlyOneNode | source/Raft/RaftConsensus.cpp:559-1028 | A step changes the node that takes it and no other, and no message is ever lost |
| Handlers.RestartEffect | source/Raft/RaftConsensus.cpp:141-193 | After a restart every field is said: term, vote and commit index as on disk, log and store as they were, nothing known of peers |
| Handlers.ApplyTurn | source/Raft/StateMachine.cpp:96-118 | One turn of the apply loop puts the next entry into the store and then raises the apply index by one, and is under way in between |
| Elections.ElectionSafety | source/Raft/RaftConsensus.cpp:803-890 | Of the code as it is: over a whole run with crashes, at most one node ever leads in a term |
| Elections.OneVotePerTerm | source/Raft/RaftConsensus.cpp:559-612 | Of the code as it is: all votes that a node ever grants in a term are for one candidate, through restarts, surviving votes and the responder written to disk |
| Elections.FairRun | source/Raft/Context.cpp:34-81 | The voting invariant holds in every state of every run, and wins are never rewritten |
| Handlers.OneLogWillDo | source/Raft/RaftConsensus.cpp:567-569 | Of any two logs one will do for a voter with the other, both only if last terms and lengths are equal, and a later last term wins whatever the lengths |
| Handlers.GrantsIff | source/Raft/RaftConsensus.cpp:559-612 | A vote is granted if and only if it is not withheld, the node is in no later term and has not voted for another in that term, and the candidate's pair of last term and length is not below its own |
| Handlers.GrantedEffect | source/Raft/RaftConsensus.cpp:597-606 | A vote granted anew is recorded in memory and on disk and the timer scheduled; one recorded before changes nothing |
| Handlers.RefusedEffect | source/Raft/RaftConsensus.cpp:581-595 | A node that refuses keeps what it had, or follows into the later term without a vote |
| Handlers.VoteAnswer | source/Raft/RaftConsensus.cpp:604-611 | The answer carries the term that the node then has and repeats the epoch |
| Handlers.TimeoutEffect | source/Raft/Context.cpp:50-63 | A candidacy is in the next term, with the node's own vote in memory and on disk, and asks with the last entry of the log |
| Handlers.MajorityWins | source/Raft/RaftConsensus.cpp:845 | A set of votes wins if and only if it is more than half of the cluster, for any number of peers |
| Handlers.LeadsIff | source/Raft/RaftConsensus.cpp:836-862 | A node comes to lead if and only if it is a candidate, the response is a vote of its term, and more than half of the cluster then stands behind it |
| Handlers.NewLeader | source/Raft/RaftConsensus.cpp:849-862 | A new leader appends an entry of its term, sets every next index past its log and every match index to 0, and changes nothing else |
| Handlers.OtherVoteResponse | source/Raft/RaftConsensus.cpp:826-890 | Any other response of the term has its epoch noted and its vote counted, and changes nothing else |
| Handlers.LaterTerm | source/Raft/RaftConsensus.cpp:808-824 | A response of a later term makes a follower without a vote in memory and with the responder as vote on disk; one of an earlier term changes nothing |
| EpochLives.ReadIsFresh | source/Raft/RaftConsensus.cpp:286-351 | In every life of every process: a query whose wait is over while the node leads, then nobody led a later term before it began, and its index covers every commit made by then |
| EpochLives.ReadSeesCommitted | source/Raft/RaftConsensus.cpp:356-388 | Once the apply index has reached the read index, the map that is read is the replay of a prefix of the log that extends everything any node had committed before the query began |
| EpochLives.AnsweredSince | source/Raft/RaftConsensus.cpp:956-959 | An answer with the query's epoch or a later one was given after the query began, by a node that was no further than the answer's term when it began |
| EpochLives.LatestWithin | source/Raft/RaftConsensus.cpp:908-918 | No epoch that a process has noted of a peer is ahead of its own |
| EpochLives.FirstLife | source/Client/RpcClientImpl.cpp:254-283 | Until its first restart a node gets answers to its own requests only, whatever the network does |
| EpochLives.FreshWithoutRestart | source/Raft/RaftConsensus.cpp:298-351 | Hence every read of a node that has not restarted, and leads when its wait is over, is fresh under any delivery |
| EpochRead.FreshIfAnswered | source/Raft/RaftConsensus.cpp:334-348 | If those a leader counts were no further than its term at some moment, its commit index covers every commit made by then, provided the entry there is of its term |
| EpochRead.WaitOverIff | source/Raft/RaftConsensus.cpp:316-348 | The wait is over if and only if more than half of the cluster has answered in the query's epoch or a later one and the entry at the commit index is of the present term |
| StaleReads.StaleWithoutLeading | source/Raft/RaftConsensus.cpp:293-348 | For every command, a run of the code with the limit 1 throughout, leader-only steps by leaders, no restart and scheduled timeouts only, in which a leader deposed during its wait completes a query at an index that another node had passed before |
| Unguarded.AgreementIsLost | source/Raft/RaftConsensus.cpp:417-434 | For every command and limit, a run of the code in which the only step not taken by a leader is accepting the command, and two nodes commit different entries at index 1 |
| Unguarded.CommitIsLostByResend | source/Raft/RaftConsensus.cpp:1016-1025 | For every limit, a run of the code in which the only step not taken by a leader is the request sent again after a rejection, and a committed entry is dropped |
| Unguarded.CommitIsLostBySend | source/Raft/RaftConsensus.cpp:1284-1316 | The same for a request sent on a heartbeat |
| Unguarded.LeaderOnlyTrace | source/Raft/RaftConsensus.cpp:410-434 | A run of the code in which leader-only steps are taken by leaders is a run of the guarded cluster |
| Unguarded.CodeIsSafe | source/Raft/RaftConsensus.cpp:614-722 | In every run of the code with leader-only steps taken by leaders: any two nodes at any two moments agree on what both have committed, index order holds, and nothing committed is taken back or lost |
| Unguarded.CodeReadsFresh | source/Raft/RaftConsensus.cpp:286-388 | In every such run, a read of a process that led when its wait was over covers, by its index and by the map it reads, all that any node had committed before the query began, in every life of the process |
| Scenarios.PathIsRun | source/Raft/RaftConsensus.cpp:1190-1192 | The runs spelled out are runs of the code, and of the guarded cluster where they say so |
| QuorumIndex.QuorumValue | source/Raft/RaftConsensus.cpp:895-905 | The sorted value at position peers >> 1 is the greatest that a strict majority has reached, for any number of peers |
| QuorumIndex.SortSorts | source/Raft/RaftConsensus.cpp:902 | Sorting gives the same values in order |
| QuorumIndex.QuorumValueIsGreatest | source/Raft/RaftConsensus.cpp:908-918 | A value has a strict majority behind it if and only if it does not exceed the quorum value |
| QuorumIndex.QuorumMeetsVotes | source/Raft/RaftConsensus.cpp:845 | The majority behind a quorum value meets every vote set that passes the count of the election |
| Quorums.QuorumValueIsUnique | source/Raft/RaftConsensus.cpp:895-918 | There is only one such value |
| AppendLoop.TakeAll | source/Raft/RaftConsensus.cpp:677-710 | The loop over a request's entries, run on the log object, does what `Taken` says and leaves the metadata alone |
| AppendLoop.TakenIsKeepAndAppend | source/Raft/RaftConsensus.cpp:680-710 | The loop keeps the log up to the first conflict and appends the rest; with no conflict nothing is cut |
| AppendLoop.PassedIsFirstConflict | source/Raft/RaftConsensus.cpp:684-690 | The entries passed over agree with the log by term or lie before its start, and the next one does not |
| AppendLoop.TakenAgrees | source/Raft/RaftConsensus.cpp:677-712 | Afterwards the log reaches the end of the request and agrees by term with every entry not before its start |
| AppendLoop.TakenKeeps | source/Raft/RaftConsensus.cpp:688-697 | Every entry up to the first conflict stays as it was |
| AppendLoop.TakenTwice | source/Raft/RaftConsensus.cpp:677-710 | The same entries taken twice are taken once |
| AppendLoop.AnswerRequest | source/Raft/RaftConsensus.cpp:652-712 | The checks and the loop together, on any window: the new log, the verdict and the reported last index |
| AppendLoop.AnswerTwice | source/Raft/RaftConsensus.cpp:652-712 | A repeated request that was accepted is accepted again and changes nothing |
| AppendLoop.TakenIsMerge | source/Raft/RaftConsensus.cpp:680-710 | With the compacted entries put back, the loop is the merge that the cluster runs on, for every request that agrees by term with what was compacted |
| AppendLoop.AnswerIsModel | source/Raft/RaftConsensus.cpp:652-712 | With the compacted entries put back, so is the whole answer |
| Handlers.AcceptsIff | source/Raft/RaftConsensus.cpp:626-675 | A request is accepted if and only if it is of no earlier term, begins within the log, and agrees with the entry before it |
| Handlers.AppendEffect | source/Raft/RaftConsensus.cpp:633-650 | Term, role, timer, leader and commit index after a request, and that nothing else changes but log and disk |
| Handlers.AppendOnDisk | source/Raft/RaftConsensus.cpp:633-718 | Term and vote on disk change if the term rises; the commit index on disk is that in memory |
| Handlers.AppendAnswer | source/Raft/RaftConsensus.cpp:619-631 | The answer carries the term and the last index that the node then has; a request of an earlier term changes nothing |
| Handlers.RejectedLog | source/Raft/RaftConsensus.cpp:652-671 | A rejected request leaves the log alone or costs it exactly its last entry, and which of the two |
| BackOff.RejectShrinks | source/Raft/RaftConsensus.cpp:1016-1025 | On each rejection follower's last index plus next index strictly falls, and both sides stay ready |
| BackOff.RejectsAreFew | source/Raft/RaftConsensus.cpp:652-671 | At most one rejection more than the follower had entries, and not even that one more when the next index is within reach |
| BackOff.ExchangeSucceeds | source/Raft/RaftConsensus.cpp:1158-1178 | The exchange ends with an accepted request of the leader, the logs meet there, and nothing both logs shared was lost |
| Compaction.RequestsAgree | source/Raft/RaftConsensus.cpp:614-722 | In every guarded run, a request that a node may have to react to agrees by term with everything the node has committed |
| Compaction.CompactionDoesNotShow | source/Raft/RaftConsensus.cpp:660-712 | Hence, whatever committed part of its log a node has compacted away, it reacts to every request of the run as if the log were whole |
| Consensus.ReactionIsModel | source/Raft/RaftConsensus.cpp:614-722 | The reaction of an object with a compacted log is that of the cluster model for every request that agrees with what was compacted |
| Consensus.MisplacedEntries | source/Raft/RaftConsensus.cpp:1171-1172 | A leader that compacted its first entry sends a peer without entries its second entry as the first, for any two entries, and the peer accepts it |
| Consensus.RaftConsensus.Compact | source/Raft/RaftConsensus.cpp:260-272 | Cutting the log after a snapshot leaves the node that the object stands for as it was |
| Consensus.RaftConsensus.constructor | source/Raft/RaftConsensus.cpp:141-190 | A process starts as the follower that its disk says it is, compacted or not: term, vote and commit index from disk, no leader, no votes, epoch 0, all peer indices 0 |
| Consensus.RaftConsensus.BecomeFollower | source/Raft/Context.cpp:34-46 | Updates fields and metadata as the node function does: vote and leader are forgotten only if the term rises here |
| Consensus.RaftConsensus.BecomeCandidate | source/Raft/Context.cpp:50-63 | Updates fields and metadata as the node function does |
| Consensus.RaftConsensus.OnVoteRequest | source/Raft/RaftConsensus.cpp:559-612 | New fields, disk contents and response are those of the node function for the log that elections see, which is the log unless all of it was compacted away |
| Consensus.RaftConsensus.OnAppendRequest | source/Raft/RaftConsensus.cpp:614-722 | New fields, log, disk contents and response are those of `Reaction` for any window, and of the node function of the cluster if the request agrees with what was compacted |
| Consensus.RaftConsensus.OnVoteResponse | source/Raft/RaftConsensus.cpp:803-890 | Step-down, vote count, win, opening entry and reset of all peers are those of the node function of the cluster |
| Consensus.RaftConsensus.OnAppendResponse | source/Raft/RaftConsensus.cpp:920-1028 | New fields are those of the node function for the quorum value of the match indices; after a rejection the peer is sent what `Sending` says, the snapshot exactly if its previous entry cannot be told, and nothing only if its next index is unset or past the end |
| Consensus.RaftConsensus.AdvanceCommitIndex | source/Raft/RaftConsensus.cpp:895-905 | Returns the quorum value of the match indices and the node's own last index |
| Consensus.RaftConsensus.AdvanceEpoch | source/Raft/RaftConsensus.cpp:908-918 | Returns the quorum value of the latest epochs and the node's own |
| Consensus.RaftConsensus.BeginQuery | source/Raft/RaftConsensus.cpp:293-298 | Raises the epoch by one if and only if the node takes itself for the leader |
| Consensus.RaftConsensus.ReadIndex | source/Raft/RaftConsensus.cpp:316-351 | Gives the commit index if and only if the wait is over in the sense of the freshness theorem and the entry there is in the log or known from a snapshot |
| Consensus.RaftConsensus.SendRequestVote | source/Raft/RaftConsensus.cpp:1116-1139 | The request is that of the node function for the log that elections see |
| Consensus.RaftConsensus.SendAppendEntries | source/Raft/RaftConsensus.cpp:1151-1212 | For any window: what is sent is `Sending`; the snapshot goes exactly to peers whose previous entry cannot be told, and every peer with a usable next index is sent something; with the wrap-around of an unset next index |
| Consensus.RaftConsensus.SendingSays | source/Raft/RaftConsensus.cpp:1158-1178 | The snapshot goes to a peer exactly if its previous entry was compacted away and is not the last of the snapshot; nothing is sent exactly if the next index is unset or past the end; and what a request carries |
| Consensus.RaftConsensus.Modify | source/Raft/RaftConsensus.cpp:410-434 | Appends one entry of the present term if and only if the node takes itself for the leader |
| ByteKeys.ByteOrderIsNumeric | source/Raft/LevelDBLog.cpp:102-108 | On numbers of equal width the order of the keys is the order of the numbers |
| ByteKeys.NumberRoundTrip | source/Raft/LevelDBLog.cpp:260-271 | Every number that fits survives the trip through its bytes |
| ByteKeys.BytesRoundTrip | source/Raft/LevelDBLog.cpp:235-257 | Every byte string survives the trip through the number it spells |
| ByteKeys.IndexKeyHasNoMeta | source/Raft/LevelDBLog.cpp:64-78 | Below 0x4D4554415F no index key contains "META_" |
| ByteKeys.BoundIsTight | source/Raft/LevelDBLog.cpp:75 | At 0x4D4554415F the index key does contain it |
| ByteKeys.IndexKeysComeFirst | source/Raft/LevelDBLog.cpp:61-83 | Every index key below that sorts before every metadata key |
| LogStore.LevelDBLog.Append | source/Raft/LevelDBLog.cpp:97-117 | The window grows by the entries, index keys stay exactly those of the window, metadata unchanged |
| LogStore.LevelDBLog.EntryAt | source/Raft/LevelDBLog.cpp:119-131 | Finds an entry if and only if the window holds the index, and the right one |
| LogStore.LevelDBLog.ReadFrom | source/Raft/LevelDBLog.cpp:133-163 | The contiguous slice from the clamped start, of all that is available or one more than a nonzero limit |
| LogStore.SliceSays | source/Raft/LevelDBLog.cpp:133-163 | What a read gives, without a gap: all that is held from the clamped index on, or one entry more than a nonzero limit as far as there are any |
| LogStore.LevelDBLog.LastTermAndIndex | source/Raft/LevelDBLog.cpp:165-179 | Term and index of the last entry, and term 0 for an empty window wherever it begins |
| LogStore.LevelDBLog.TruncatePrefix | source/Raft/LevelDBLog.cpp:183-205 | Cuts the window, also for cuts outside it, and keeps keys and metadata in order |
| LogStore.LevelDBLog.TruncateSuffix | source/Raft/LevelDBLog.cpp:209-231 | Cuts the window, also for cuts outside it, and keeps keys and metadata in order |
| LogStore.LevelDBLog.SetMeta | source/Raft/LevelDBLog.cpp:260-281 | Term and vote are read back as written; commit index, apply index and entries are untouched |
| LogStore.LevelDBLog.SetCommitIndex | source/Raft/LevelDBLog.cpp:304-312 | The commit index is read back as written and nothing else changes |
| LogStore.LevelDBLog.SetApplyIndex | source/Raft/LevelDBLog.cpp:314-322 | The apply index is read back as written and nothing else changes |
| LogReopen.CutPrefixKeeps | source/Raft/LevelDBLog.cpp:181-205 | After the cut exactly the entries from the given index on are left, unchanged, and start and end are the greater of old and given |
| LogReopen.CutSuffixKeeps | source/Raft/LevelDBLog.cpp:207-231 | After the cut exactly the entries up to the given index are left, unchanged, and the start stays |
| LogReopen.Perform | source/Raft/LevelDBLog.cpp:97-231 | Over any sequence of operations the object is the offset sequence it stands for |
| LogReopen.Reopened | source/Raft/LevelDBLog.cpp:61-90 | The constructor's two searches find start and last index of a log that holds entries, 1 and 0 otherwise, and never refuse |
| LogReopen.Restart | source/Raft/LevelDBLog.cpp:29-91 | The log is recovered if and only if it holds an entry or begins at index 1; the metadata always is |
| LogReopen.FullCompaction | source/Raft/RaftConsensus.cpp:265-271 | One append and one full compaction lead to a log that is not recovered |
| Replays.ApplyTwice | source/Raft/LevelDBStore.cpp:122-150 | Applying an entry twice is applying it once |
| Replays.ReplayResumes | source/Raft/StateMachine.cpp:96-118 | A replay may stop anywhere and be resumed from the store it left |
| Replays.ReplayOverlaps | source/Raft/StateMachine.cpp:40-50 | It may also be resumed one entry early |
| Replays.ApplyByKey | source/Raft/LevelDBStore.cpp:122-150 | A write sets its key, a remove deletes its key, and no entry changes any other key |
| Replays.LastTouchDecides | source/Raft/LevelDBStore.cpp:122-150 | After any entries, the last one that touches a key decides: its value if it is a write, absent if it is a removal |
| Replays.UntouchedIsAbsent | source/Raft/StateMachine.cpp:96-118 | A key that no entry touches is absent |
| Replays.HoldsIff | source/Raft/StateMachine.cpp:96-118 | A key holds a value after n entries if and only if the last entry that touches it writes that value |
| SnapshotRuns.FrozenWhileTaken | source/Raft/StateMachine.cpp:75-81 | Under every interleaving, apply index and store stand still while a snapshot is taken |
| SnapshotRuns.ReachStore | source/Raft/StateMachine.cpp:75-115 | From any state with an unapplied committed entry and no snapshot under way, the loop takes that entry into the store |
| SnapshotRuns.ReachCopy | source/Raft/StateMachine.cpp:182-206 | From any waiting state whose last applied entry is in the log, a request leads to a snapshot of the store |
| SnapshotRuns.ApplySurvivesCrashes | source/Raft/StateMachine.cpp:83-126 | With a crash between any two moves, whatever was compacted: the store is the replay of as many entries as the saved apply index says or one more, the loop never stops on a missing entry or a corrupt index, and every entry not yet applied is in the log |
| SnapshotRuns.SnapshotAndSuffix | source/Raft/RaftConsensus.cpp:248-275 | The snapshot and the entries kept after it replay to the same store as the whole log, at every later index, and at its own index unless the store was one ahead; also after the log has lost its entries |
| SnapshotRuns.AheadIffUnsaved | source/Raft/StateMachine.cpp:96-118 | In every run with crashes, the store is one entry ahead of the saved apply index exactly while its last write has not been followed by the write of its index |
| SnapshotRuns.SnapshotExactIff | source/Raft/StateMachine.cpp:180-210 | In every run with crashes, a snapshot holds exactly the entries it says if and only if the last write to the store before it was copied had been followed by the write of its index; otherwise its content is right at its index if and only if the next entry changes nothing |
| SnapshotRuns.ShortIffLost | source/Raft/LevelDBLog.cpp:61-90 | In every run, the log ends before what was there once if and only if the process crashed with its log compacted away entirely and the log was not brought back since |
| SnapshotRuns.LogIsLost | source/Raft/LevelDBLog.cpp:61-90 | For every entry, a run after which that entry is committed and the log is a new one |
| SnapshotRuns.ExactWithoutCrash | source/Raft/StateMachine.cpp:180-210 | Without a crash the content is exactly the replay up to the included index |
| SnapshotRuns.AheadAfterCrash | source/Raft/StateMachine.cpp:116-118 | For every key and value, a run in which a snapshot of index 1 holds the entry of index 2 |
| SnapshotRuns.MoveKeeps | source/Raft/StateMachine.cpp:56-132 | Every move of the loop, the requester, the consensus code and a crash keeps the invariant |
| StateMachine.Machine.ApplyCommitted | source/Raft/StateMachine.cpp:73-129 | From a store that is exact or one entry ahead, the loop ends with the replay of exactly the committed entries, with the apply index saved and each taken command answered |
| StateMachine.AnsweredIff | source/Raft/StateMachine.cpp:100-108 | Among the applied entries, exactly the writes and the removals are answered |
| StateMachine.LevelDBStore.Update | source/Raft/LevelDBStore.cpp:122-150 | Key by key: after a write its key holds the value, after a remove its key is absent, every other key is as before; anything else is refused and changes nothing |
| StateMachine.LevelDBStore.CreateSnapshot | source/Raft/LevelDBStore.cpp:263-285 | Every pair is written out in the iterator's order, and loading them gives the store back |
| StateMachine.LevelDBStore.ApplySnapshot | source/Raft/LevelDBStore.cpp:333-376 | The store becomes what the pairs say |
| StateMachine.LoadedSays | source/Raft/LevelDBStore.cpp:362-367 | Loading gives each key the value of its last pair, and no other keys |
| Wire.HeaderRoundTrip | source/Core/Message.h:39-50 | Every header survives the conversion to network order and back, in sixteen bytes |
| Wire.WireBytes | source/Core/Message.h:65-87 | What is on the wire, byte by byte: "tk", version 1, the length, eight zero bytes, the payload |
| Wire.Buffer.Append | source/Core/Buffer.h:57-65 | The header in network order and the payload are put at the end |
| Wire.Buffer.Consume | source/Core/Buffer.h:68-87 | What is taken and what is left make up what was there; true exactly if something is taken |
| Wire.Buffer.ConsumeBlock | source/Core/Buffer.h:91-109 | The same for an exact number of bytes that are there |
| Wire.Buffer.FrontErase | source/Core/Buffer.h:111-120 | Erases that many bytes from the front, or all |
| Receiver.PumpEarly | source/Network/TcpConnAsync.cpp:97-137 | Handing on what is complete before more bytes come makes no difference |
| Receiver.ChunkingIsIrrelevant | source/Network/TcpConnAsync.cpp:139-284 | Only the bytes matter, not how reads cut them up |
| Receiver.FramingRoundTrip | source/Network/TcpConnAsync.cpp:62-284 | However the stream is cut, exactly the messages sent are handed on, in order, and the bytes after them are kept |
| Receiver.OversizeCloses | source/Network/TcpConnAsync.cpp:86-91 | A message over the limit closes the connection and is not handed on |
| Receiver.OnlyProperMessages | source/Network/TcpConnAsync.cpp:62-94 | Whatever bytes arrive and however they are cut, every message handed on has the magic number, the version, a length within the limit and a payload of that length |
| Receiver.HeaderDecides | source/Network/TcpConnAsync.cpp:77-93 | A header is taken if and only if it is proper, whatever its reserved bytes |
| Receiver.ForeignHeaderCloses | source/Network/TcpConnAsync.cpp:160-172 | After any messages and however they are cut, a header of another magic number or version or over the limit closes the connection with exactly the messages before it handed on |
| Receiver.ClosedStays | source/Network/TcpConnAsync.cpp:101-104 | A closed connection hands on nothing more |
| Receiver.Connection.ReadHandler | source/Network/TcpConnAsync.cpp:139-173 | The handler and all it calls take out exactly what is complete, and terminate |
| Receiver.Connection.ReadMsgHandler | source/Network/TcpConnAsync.cpp:248-284 | The same while a body is awaited |
| Receiver.Connection.DoRead | source/Network/TcpConnAsync.cpp:97-137 | The same without new bytes |
| Receiver.Connection.DoReadMsg | source/Network/TcpConnAsync.cpp:195-245 | The same without new bytes, for a body that may be empty |
| SyncConnection.Connection.DoRead | source/Client/TcpConnSync.cpp:96-129 | Gives the first message of the bytes ahead, whatever the reads, and keeps the rest, if and only if header and body are complete and the header has the magic number, the version and a length within the limit |
| SyncConnection.FirstMessageSays | source/Client/TcpConnSync.cpp:41-93 | Too few bytes, a refused header, or the message and what follows it: which of the three, for any bytes |
| SyncConnection.Connection.DoReadMsg | source/Client/TcpConnSync.cpp:131-165 | The same for the body of a header |
| SyncConnection.Connection.DoWrite | source/Client/TcpConnSync.cpp:167-197 | Writes the whole buffer in order, in blocks of at most 2048 bytes |
| SyncConnection.ReadAll | source/Client/TcpConnSync.cpp:41-165 | One call after the other gives exactly the messages of a stream, however it arrives |
| SendQueue.Sender.Enqueue | source/Network/TcpConnAsync.cpp:286-298 | A message over the limit is refused; any other is queued whole at the end |
| SendQueue.Sender.Write | source/Network/TcpConnAsync.cpp:306-354 | Leaves a block in flight alone; else, on a working connection, puts the next block of up to 2048 bytes in flight; conservation is kept |
| SendQueue.Sender.WriteHandler | source/Network/TcpConnAsync.cpp:357-374 | The block counts as sent and, on a working connection, the next one is put in flight; conservation is kept |
| SendQueue.Sender.WriteFailed | source/Network/TcpConnAsync.cpp:361-364 | The connection stops working and its block does not count as sent; conservation is kept |
| SendQueue.Sender.Drain | source/Network/TcpConnAsync.cpp:357-374 | When no caller is left, completions alone send everything that was accepted: nothing is stranded |
| SendQueue.Interleave | source/Network/TcpConnAsync.cpp:286-374 | Over any interleaving, failures included, sent, in flight and waiting bytes are together the accepted messages end to end |
| SendQueue.SentIsReceived | source/Core/Message.h:65-87 | Whatever the interleaving at one end and the chunks at the other, exactly the accepted payloads come out, in order |

## Left out

- RaftSafety.StateMachineSafety: stated, like the other theorems of `RaftSafety`, of runs whose leader-only steps are taken by leaders, because the code as it is breaks it.
- RaftSafety.EqualStores: asks that both nodes, or neither, are one entry ahead of their apply index, because between its two writes a node's store is.
- RaftSafety.CommitStands: stated of runs whose leader-only steps are taken by leaders, because the code as it is breaks it.
- EpochLives.ReadIsFresh: is of runs whose leader-only steps are taken by leaders, and asks that the node leads when its wait is over, because the claim fails otherwise; `Unguarded.CodeReadsFresh` states it of the code.
- EpochLives.FreshWithoutRestart: is of runs whose leader-only steps are taken by leaders, and asks that the node leads when its wait is over.
- Consensus.RaftConsensus.ReadIndex: gives nothing where the code would dereference a missing entry, right after a restart on a log compacted up to the commit index.
- Consensus.RaftConsensus.OnVoteResponse: asks that a response of the node's own term comes from a peer, because the code aborts otherwise; the same holds for `OnAppendResponse`.
- LogReopen.Reopened: is for indices below 0x4D4554415F, because from there on the search takes index keys for metadata; the same holds for `Restart`.
- StateMachine.LevelDBStore.ApplySnapshot: takes it that destroying the database empties it, though the handle is still open there.
- The cluster theorems have no snapshot installation, which sets commit and apply index unconditionally; what is sent to a peer out of reach is not followed further.
- Reading the term outside the mutex in a client append, waiting for the applied result, forwarding to the leader, and the timeout path of a query.
- Crashes inside a handler, between two of its writes, other than those of the apply loop; failed database writes.
- Concurrent snapshot requesters, loading a snapshot to send it, and the snapshot file itself.
- Range and search over the store, and reads of single keys: they would only add easy members.
- `do_write` is one step; the race between its status check and its mutex is not modelled, and neither are the fixed arrays that blocks are copied into.
- Sizes of buffers beyond 32 bits.
- Sockets, timers, thread pools, the RPC headers, dispatch, configuration, services and tools.
