# A verified model of the vendored raft library

The repository verifies a copy of the etcd-io/raft library (`raftsubject/`) that its harness
(`raftharness/`) drives. This project models that library in Dafny and proves what it promises: over
every run of a cluster, over every sequence of operations of its parts, for every input of its codec.
A last part models the budget check on type graphs in `tools/nativefrontend/budgets.go`.

**The cluster.** `Node` is the raft node of `raft/raft.go` as a function from a state and a message to
a state, with its peers' progress, reads, leadership transfer, pre-vote, back-off by term and
snapshots. `Cluster` runs any number of such nodes: sent messages form a set of which each may be
delivered never, late, out of order or repeatedly; a node's Ready hands out term, vote, commit index
and log to be written, together with the messages that wait for that; the node goes on while the write
is under way, and once it is on disk the messages leave; nodes crash, which loses the write under way,
restart from disk, take snapshots, compact their logs, and take over the snapshots that leaders send
to peers that are behind the compacted part. The voters are any fixed joint configuration.
`ClusterSafety`, `ClusterAnswers`, `ClusterVotes` and `ClusterWindows` state the theorems, each over every run; `ClusterWitness` and
`ReadWitness` are runs that meet what they assume.

The proof has three layers. `Protocol` and its companions are about one small step of one node: what a
node's disk and its sent messages promise, and the history of elected leaders (their *reigns*),
candidacies and queued reads. An index counts as *choosable* in a term when some quorum could still
acknowledge it, and every later reign holds what is choosable in an earlier one. `NodeView`,
`NodeLeader`, `NodeCommit`, `NodeRoles`, `NodeFollower`, `NodeReads` and `NodeStep` show that every
handler is a sequence of such steps that never panics; `NodeAnswers` follows the answers to reads and
votes. `ClusterInvariant` lifts that to events.

Beside safety, what a node does with each message is written out on its log and fields, over Step
itself: `NodeVotes` and `NodeElections` for votes and elections, `NodeSends`, `NodeReplication`,
`NodeProgress` and `NodeLeading` for a leader, `NodeFollowing` for the others. `Dialogue` is the search
for the place where two logs agree, `NodeShipping`, `NodeWindows` and `ClusterWindows` say what is in
flight, and `ClusterVotes` where granted votes come from.

**The object.** `Raft` (module `RaftObject`) is the node as the program has it: an object whose handlers
assign fields and loop over peers and entries. Each method leaves exactly the state the function of the
same name computes, so the theorems about runs are about the object.

**The log.** `Unstable` and `RaftLog` are the storage, the unstable tail and the log over both, as
objects; their lemmas say that the split is invisible. `SplitLog` keeps such a log beside the raft object,
whose log is one sequence. `RawNode` runs the Ready/Advance cycle on them.
`AsyncLog` is one node with asynchronous writes and a FIFO storage thread.

**Membership and quorums.** `Quorum` computes committed indexes by sorting and votes by counting.
`ConfChange` is the configuration changer on values, `ConfProgress` what it does to the tracked
progress, `Changer` the copy it mutates, `Restore` the way back from a ConfState.

**Flow control.** `Inflights` is the ring buffer, `Progress` the per-peer state machine, `Backoff` how far each
rejection gets a leader that probes.

**The codec.** `Wire` and `Codec` define encoding and decoding once, over each type's list of fields,
for all nine message types; `Schema` and `SchemaJoin` fix the bytes of every field by its name, and
`WireRecords` those of fields no type knows; `CodecBound` bounds what is written by what was read; `WireLoops`,
`MessageLoops` and `UnknownFields` are the program's loops.

**Budgets.** `Budgets` is the memoised walk over a possibly cyclic type graph, and the saturating
footprints it compares.

Where the code and what is said about it differ, the code is followed: `checkInvariants` does not look
at LearnersNext against the incoming voters although such a configuration cannot be left
(`LeaveJointExactly`, `ConsistentButStuck`), and copying a configuration drops its AutoLeave flag, which
the changer then sets itself.

## Model

| member | source | states |
|---|---|---|
| ClusterSafety.StateMachineSafety | raftharness/harness.go:475-506 | Over every run (messages lost, repeated and reordered, nodes crashing and restarting from disk, logs compacted and replaced by snapshots): any two nodes, at any two moments, hold the same entries up to any index both have committed, and hold that many entries |
| ClusterSafety.SnapshotSafety | raftsubject/raft/raft.go:1872-1954 | Over every run: a snapshot that was ever sent covers exactly the entries that any node which commits as far holds up to there, then or ever, so taking it over and applying the entries lead to the same state |
| ClusterSafety.SnapshotStoredFirst | raftsubject/raft/log_unstable.go:176-190 | Over every run: a node lets go of a snapshot it took over only when its storage holds it with all it covers; before that only a later snapshot or a crash takes it away |
| ClusterSafety.LeaderCompleteness | raftsubject/raft/raft.go:1224-1274 | Over every run: what any node has committed is in the log of every leader of a later term, whenever that leader is observed, and of the same term's leader from then on |
| ClusterSafety.ElectionSafety | raftharness/harness.go:458-467 | Over every run, with pre-vote, leadership transfer and ForgetLeader: two nodes that lead in the same term are the same node, even at different moments |
| ClusterSafety.LogMatching | raftsubject/raft/log.go:109-131 | Over every run: two logs with the same term at an index are the same up to that index, at any two moments |
| ClusterSafety.TermsNeverDecrease | raftsubject/raft/log.go:442-445 | Over every run the terms along a log never go down, which the up-to-date comparison relies on |
| ClusterSafety.NoPanicEver | raftsubject/raft/log.go:322-330 | Over every run no node panics: no append conflicts with a committed entry, no commit index (a heartbeat's min(Match, committed) included) leaves the log, no window is overfull, no confirmed read is missing from the queue, no forbidden role change or self-addressed message happens |
| ClusterSafety.FlowControl | raftsubject/tracker/progress.go:121-254 | Over every run: each peer of a leader has Match < Next <= last + 1; while it replicates its in-flight indexes strictly increase and lie strictly between Match and Next, at most as many as the window holds and all but the last below the byte limit; in probe and snapshot mode none is in flight |
| ClusterSafety.ReadsAreLinearizable | raftsubject/raft/raft.go:1366-1384 | Over every run: a read that a leader releases carries an index at least as large as any commit index any node of the cluster had when the read was queued or at any moment before, crashes since then included |
| ClusterSafety.ReadsLeaveInOrder | raftsubject/raft/read_only.go:79-89 | Over every run: the confirmed position only grows and never passes the end of the queue, so the slice taken off is in range; reads leave from the front, each once, and those behind stay |
| ClusterSafety.AnswersAreReleases | raftsubject/raft/raft.go:1612-1622 | In any reachable cluster of several voters, the answers a leader gives in one step, to itself and to other nodes, are exactly the reads that leave its queue in that step: each once, in order, with their indexes |
| ClusterWindows.WindowIsOutstanding | raftsubject/tracker/inflights.go:23-53 | Over every run, with the events that drive it: the in-flight window of a replicating peer is the list of the appends with entries that the leader sent it since it began to replicate and that it has not acknowledged; so never more are outstanding than Config.MaxInflightMsgs, and the last was sent while the bytes of the others were below the byte limit |
| ClusterWindows.EveryRunIsDriven | raftharness/harness.go:248-289 | Every run has events that drive it, so the windows of all runs are meant |
| ClusterVotes.GrantsWereAsked | raftsubject/raft/raft.go:1224-1274 | Over every run: every vote and every pre-vote granted to another node answers that node's request for just that, in the same term, and the log the request tells of reached at least as far as the voter's when it answered |
| ClusterAnswers.AnswersWereReleased | raftsubject/raft/raft.go:2086-2101 | Over every run of several voters: every answer to a read that ever left a node was released by the leader that sent it, for the node it goes to, with the index and the context of that read |
| ClusterAnswers.ReadStatesAreLinearizable | raftsubject/raft/raft.go:1366-1384 | Over every run of several voters, end to end: what a node tells its application about a read is the index some leader released for it, and covers every commit index any node had when that leader queued the read or before |
| NodeAnswers.StepTold | raftsubject/raft/raft.go:1783-1788 | A node that does not lead on after a message answers no read, and tells its application only what the message told it; and no node grants another a vote or a pre-vote but in answer to a request |
| ReadWitness.SomeReadIsReleased | raftsubject/raft/raft.go:2158-2174 | There is a run of two voters in which a leader is elected, an entry committed, and a read queued, confirmed and told to the application |
| ClusterWitness.SomeRunCommits | raftharness/harness.go:248-289 | Such runs exist and get somewhere: one in which a node is elected, writes, and commits |
| ClusterInvariant.WrittenIsStep | raftsubject/raft/raft.go:1209-1215 | Finishing a write does to the node what stepping the append thread's answer does, in whatever term that finds it |
| ClusterInvariant.ApplyGood | raftharness/harness.go:248-289 | Every event of the environment keeps the cluster in order, and the history of elections, candidacies and reads only grows |
| NodeStep.StepGood | raftsubject/raft/raft.go:1101-1283 | One message, of any kind and term (that a write is stored is an event of its own), stepped into a node in order leaves it in order, its disk promises kept, and its reads marked with the indexes they must answer |
| ProtocolReign.Win | raftsubject/raft/raft.go:945-983 | A candidate that a quorum granted may open a reign for its term: nobody else has, its log holds everything that could be chosen in earlier terms |
| ProtocolReign.LeaderCommit | raftsubject/raft/raft.go:787-791 | A leader may commit an index of its own term that a quorum acknowledged: the entry is then in the log of every later leader |
| ProtocolReign.QueueRead | raftsubject/raft/raft.go:2158-2174 | A read queued after the leader committed in its term is marked with the highest commit index every node ever had, which its own index covers unless a quorum's durable term is already past the leader's (and then no quorum can confirm it) |
| ProtocolReign.ReadIsFresh | raftsubject/raft/read_only.go:79-89 | When a quorum confirmed a heartbeat sent after the read was queued, no later leader had committed before that: the read's index covers every commit index of that moment |
| ProtocolSteps.CastVote | raftsubject/raft/raft.go:1267-1271 | A node without another vote in its term may record one and keeps every promise |
| ProtocolSteps.EmitGrant | raftsubject/raft/raft.go:1224-1274 | Sending the grant of a recorded vote to a candidate whose log is up to date with the node's keeps every promise: what may still be chosen is in the candidate's log |
| ProtocolSteps.Retire | raftsubject/raft/raft.go:903-912 | Moving to a higher term gives up the role and the vote and keeps every promise |
| ProtocolSteps.Stand | raftsubject/raft/raft.go:914-927 | Becoming a candidate of the next term keeps every promise |
| ProtocolLeader.Graft | raftsubject/raft/log.go:109-131 | Appending behind a matching entry of the term's leader keeps the log matched with every leader's log |
| ProtocolLeader.Propose | raftsubject/raft/raft.go:824-859 | A leader's own append keeps log matching and everything chosen |
| ProtocolLeader.HeartbeatInRange | raftsubject/raft/raft.go:706-722 | A heartbeat's min(Match, committed) never exceeds what the receiver's log holds |
| ProtocolDurable.Persist | raftharness/harness.go:259-289 | When the write that a Ready handed out has reached the disk, the messages it held back may leave: they are then promises that survive a crash, and what the node did since the Ready keeps its own |
| ProtocolDurable.HandOut | raftsubject/raft/rawnode.go:135-187 | A Ready that hands out the state to write, with the messages waiting for it, leaves everything in order |
| ProtocolDurable.Crash | raftsubject/raft/raft.go:2049-2056 | A restart from disk, with the write under way lost, keeps every promise the node's messages made |
| NodeFollower.AppendEntriesGood | raftsubject/raft/raft.go:1803-1845 | An append of the node's term, matching, stale or conflicting, leaves the follower in order; an accepted one is acknowledged only as far as the log agrees with the leader's, a stale one with the commit index |
| NodeFollower.HeartbeatGood | raftsubject/raft/raft.go:1847-1850 | A heartbeat's commit index is one the follower's log reaches and may commit |
| NodeFollower.HandleSnapshotGood | raftsubject/raft/raft.go:1852-1954 | A snapshot of the node's term, stale, already held or taken over, leaves the follower in order: the log is replaced only when it does not hold the snapshot's last entry, no committed entry is lost, and the acknowledgement goes only as far as the log agrees with the leader's |
| NodeFollower.SnapGrafts | raftsubject/raft/raft.go:1921-1954 | Replacing the log by what a snapshot covers is an append of all of that which conflicts or runs past the end, so every promise is kept |
| NodeFollower.HandleVoteGood | raftsubject/raft/raft.go:1224-1274 | Voting, pre-voting and refusing leave the node in order |
| NodeCommit.MaybeCommitGood | raftsubject/raft/raft.go:787-791 | Committing what a quorum acknowledged in the current term keeps the node in order and never lowers the commit index |
| NodeCommit.AckedGood | raftsubject/raft/raft.go:1539-1583 | An acknowledgement, even one that carries the follower's commit index, moves Match only to an index the follower holds durably |
| NodeRoles.CampaignGood | raftsubject/raft/raft.go:1037-1085 | A campaign or pre-campaign, with the self-vote sent as a response, leaves the node in order |
| NodeRoles.PollGood | raftsubject/raft/raft.go:1704-1722 | Counting a vote and acting on the outcome leaves the node in order |
| NodeLeader.AppendGood | raftsubject/raft/raft.go:630-674 | What is sent to a peer is a slice of the leader's own log behind an entry it names, within flow control |
| NodeLeader.SendMoreGood | raftsubject/raft/raft.go:1571-1577 | Sending until nothing more goes out keeps the leader in order |
| NodeReads.MaybeAdvanceGood | raftsubject/raft/read_only.go:79-89 | The reads taken off the queue are those a quorum confirmed, at the indexes they were marked with |
| NodeReads.ReleaseGood | raftsubject/raft/raft.go:2139-2156 | Postponed reads are queued only once the leader committed in its term, each marked like a new one |
| Node.SendingEnds | raftsubject/raft/raft.go:1571-1577 | Each non-empty send brings the peer closer to pausing or to the end of the log, so the repeated-send loop ends |
| NodeVotes.PreVoteAnswered | raftsubject/raft/raft.go:1224-1274 | A pre-vote stepped in, in any term and role, is ignored exactly in the lease, and otherwise answered and nothing else changes: granted, in the term asked for, if and only if the node may vote and the request's (term, index) is lexicographically at least that of its own last entry; refused, in the node's term, if not |
| NodeVotes.VoteAnswered | raftsubject/raft/raft.go:1224-1274 | A vote of the node's own term: granted and recorded under the same condition, refused otherwise; of an earlier term it is ignored |
| NodeVotes.LaterVoteAnswered | raftsubject/raft/raft.go:1112-1144 | A vote of a later term, unless the lease ignores it, makes the node a follower of nobody in that term, which grants it if and only if the candidate's log reaches as far as its own; log and commit index stay |
| NodeVotes.GrantsAnswer | raftsubject/raft/raft.go:1267-1271 | Whatever a node is sent, a new grant to another node answers the very message, in its term, and the sender's log reached at least as far |
| NodeElections.VoteCounted | raftsubject/raft/raft.go:1704-1722 | A vote that counts decides by quorums of those who said yes and of those who did not say no: the loser follows nobody in its term, the pre-candidate that won asks for votes in the next term, the candidate that won leads with a new entry of its term that every peer is sent, and an open election only records the vote |
| NodeElections.FirstAppends | raftsubject/raft/raft.go:945-983 | What a new leader sends each peer is one append of its first entry, behind what was the end of its log |
| NodeElections.CampaignIs | raftsubject/raft/raft.go:1037-1085 | Standing asks every other voter, in order, in the next term, with the last index and term of the log; a pre-candidate stays in its term with its vote, a candidate votes for itself, and the own vote waits for storage |
| NodeElections.HupAnswered | raftsubject/raft/raft.go:985-1005 | A node stands exactly when it does not lead, is a voting member and has no snapshot to store first |
| NodeElections.TimeoutNowAnswered | raftsubject/raft/raft.go:1770-1775 | So does a follower that a leader hands over to, without pre-vote and past every lease |
| NodeElections.QuorumChecked | raftsubject/raft/raft.go:1293-1305 | A leader stays one if and only if the voting members it heard from form a quorum; if not it follows nobody in its term, with its vote; either way the others count as silent from then on |
| NodeReplication.RejectionAnswered | raftsubject/raft/raft.go:1400-1536 | For every rejection stepped into a leader: one that tells nothing new changes nothing but the peer's liveness; any other sends at once, and only, the append behind the next probed position, with that entry's term and the entries after it that fit, or the snapshot when the entry is compacted, and leaves the peer probed there |
| NodeReplication.FindsBelow | raftsubject/raft/log.go:182-194 | The countdown by term stops at the largest index whose term is not above the given one, or just below what is compacted |
| NodeLeading.AckAnswered | raftsubject/raft/raft.go:1539-1583 | For every acknowledgement stepped into a leader: a stale one changes nothing but the peer's liveness; any other raises Match to it, commits the index the quorums allow, queues the reads that waited for that and tells everyone of it, sends the peer all it can take, and hands over leadership exactly when the chosen peer has all of the log |
| NodeProgress.AckedOutcome | raftsubject/raft/raft.go:1557-1583 | The same for what follows an acknowledgement: after it nothing more can be sent to the peer, and nobody who can be told lacks the commit index |
| NodeLeading.ProposalAnswered | raftsubject/raft/raft.go:1306-1365 | A proposal is dropped exactly during a transfer or over the limit on uncommitted bytes; otherwise the log gains its payloads, in order, in the leader's term, and every peer is sent what it then needs |
| NodeLeading.ReadAnswered | raftsubject/raft/raft.go:1366-1384 | A read is answered at once by a single voter, waits until the leader has committed in its term, and is otherwise queued at the commit index with heartbeats that ask for its confirmation |
| NodeLeading.HeartbeatRespAnswered | raftsubject/raft/raft.go:1591-1622 | A heartbeat's answer resumes the peer, sends it what it lacks, and releases exactly the reads that a quorum's positions now confirm |
| NodeLeading.TransferAnswered | raftsubject/raft/raft.go:1648-1680 | The cases of a transfer: learners and repetitions are ignored, the leader itself calls it off, a successor with all of the log is told to campaign, any other is sent what it needs |
| NodeLeading.ReportAnswered | raftsubject/raft/raft.go:1623-1647 | An unreachable replicating peer is probed behind Match; one whose snapshot arrived, or failed, behind the snapshot, or Match, once it is heard from; no other peer changes |
| NodeLeading.BeatAnswered | raftsubject/raft/raft.go:1290-1292 | Every other peer gets one heartbeat with min(Match, committed) and the last read's position |
| NodeSends.BcastIs | raftsubject/raft/raft.go:726-733 | A broadcast sends each other peer, in order, exactly what it needs: entries behind its next index that fit the limit and the window, a snapshot when they are compacted, nothing while it waits |
| NodeSends.SendsEntries | raftsubject/raft/raft.go:630-674 | What an append carries: the longest run of entries behind the peer's next index within the size limit, at least one |
| NodeFollowing.AppendAnswered | raftsubject/raft/raft.go:1803-1845 | An append stepped into a follower or candidate of its term, or of an earlier one: acknowledged at the commit index, appended, committed and acknowledged at its end, or refused with the hint the leader's search needs; each case with the whole resulting state |
| NodeFollowing.HeartbeatAnswered | raftsubject/raft/raft.go:1847-1850 | A heartbeat moves the commit index to the larger one and is answered with its context |
| NodeFollowing.SnapshotAnswered | raftsubject/raft/raft.go:1852-1954 | A snapshot: ignored, committed up to, or taken over with fresh progress for every member; acknowledged accordingly |
| NodeFollowing.LaterTermAdopted | raftsubject/raft/raft.go:1112-1144 | An answer of a later term makes any node a follower of nobody in that term |
| NodeFollowing.EarlierTermIgnored | raftsubject/raft/raft.go:1145-1198 | A message of an earlier term is ignored, but that deposed leaders are told of the later term and pre-votes are refused |
| NodeFollowing.RequestsForwarded | raftsubject/raft/raft.go:1732-1782 | A follower passes proposals and reads on to its leader in the name of who asked, or drops them |
| NodeFollowing.TransferForwarded | raftsubject/raft/raft.go:1754-1760 | So it does with a request to hand over |
| NodeFollowing.AnswersPassedOn | raftsubject/raft/raft.go:1783-1788 | A read's answer is handed to the application with its index and context |
| NodeFollowing.AppliedReported | raftsubject/raft/raft.go:2128-2137 | What the application reports as applied comes off the uncommitted bytes, down to zero, in any role |
| NodeFollowing.NoUseIgnored | raftsubject/raft/raft.go:1287-1791 | In its own term a node ignores what its role has no use for: a leader the messages of leaders and voters, a follower the answers to leaders and candidates, a candidate all but leaders' messages and its kind of votes |
| RaftObject.Raft.Step | raftsubject/raft/raft.go:1101-1283 | The object's Step, statement by statement, leaves exactly the state Node.Step computes, so every theorem about runs is about this object |
| RaftObject.Raft.constructor | raftsubject/raft/raft.go:451-510 | A new node is the follower that the cluster model restarts from a storage |
| RaftObject.Raft.StepLeader | raftsubject/raft/raft.go:1287-1681 | As above for the leader's handler, in its two switches |
| RaftObject.Raft.LeaderAppResp | raftsubject/raft/raft.go:1400-1583 | As above for acknowledgements and rejections, with the back-off by term; what that state is, message by message, is NodeReplication.RejectionAnswered and NodeLeading.AckAnswered |
| RaftObject.Raft.LeaderAcked | raftsubject/raft/raft.go:1557-1583 | As above for committing, releasing reads and sending more after news from a peer |
| RaftObject.Raft.LeaderHeartbeatResp | raftsubject/raft/raft.go:1584-1622 | As above for heartbeat responses and the reads they confirm |
| RaftObject.Raft.StepCandidate | raftsubject/raft/raft.go:1685-1728 | As above for candidates and pre-candidates |
| RaftObject.Raft.StepFollower | raftsubject/raft/raft.go:1730-1791 | As above for followers |
| RaftObject.Raft.HandleAppendEntries | raftsubject/raft/raft.go:1803-1845 | As above for appends |
| RaftObject.Raft.HandleSnapshot | raftsubject/raft/raft.go:1852-1867 | As above for snapshots |
| RaftObject.Raft.Restore | raftsubject/raft/raft.go:1872-1954 | As above for the four cases of restore, and whether the log was replaced |
| RaftObject.Raft.HandleVote | raftsubject/raft/raft.go:1224-1274 | As above for vote requests; which of them are granted is NodeVotes.PreVoteAnswered, VoteAnswered and LaterVoteAnswered |
| RaftObject.Raft.Send | raftsubject/raft/raft.go:526-613 | As above: responses wait for durability, the rest goes out |
| RaftObject.Raft.MaybeSendAppend | raftsubject/raft/raft.go:630-674 | As above for one append or snapshot to a peer |
| RaftObject.Raft.SendMore | raftsubject/raft/raft.go:1571-1577 | The loop of sends terminates and computes the recursive function |
| RaftObject.Raft.BcastAppend | raftsubject/raft/raft.go:726-733 | The loop over the peers computes the recursive function |
| RaftObject.Raft.Reset | raftsubject/raft/raft.go:793-822 | The loop over the peers resets each of them and the rest of the volatile state |
| RaftObject.Raft.Campaign | raftsubject/raft/raft.go:1037-1085 | The loop over the voters sends each its request, the self-vote among the responses |
| RaftObject.Raft.AppendEntry | raftsubject/raft/raft.go:824-859 | The loop stamps the leader's entries in place; too large a backlog refuses them |
| RaftObject.Raft.MaybeCommit | raftsubject/raft/raft.go:787-791 | Sorting the matches and comparing terms commits exactly what the quorum definition allows |
| RaftObject.Raft.FindConflict | raftsubject/raft/log.go:154-167 | The loop finds the first entry the log does not hold |
| RaftObject.Raft.FindConflictByTerm | raftsubject/raft/log.go:182-194 | The countdown stops at the largest index whose term is not above the given one, or at the first unknown one |
| RaftObject.Raft.MaybeAppend | raftsubject/raft/log.go:109-131 | Checks, truncates, appends and commits as the function does |
| RaftObject.Raft.MaybeAdvance | raftsubject/raft/read_only.go:79-89 | Takes the confirmed reads off the queue |
| RaftObject.Raft.RecvAck | raftsubject/raft/read_only.go:65-69 | Acknowledged positions only grow |
| RaftObject.Raft.ReleaseWaiting | raftsubject/raft/raft.go:2139-2156 | The loop queues every postponed read once the leader committed in its term |
| Backoff.NothingSkipped | raftsubject/raft/raft.go:1425-1528 | For fixed logs with non-decreasing terms: no index between the next probe and the rejected one matches |
| Backoff.RejectionProgress | raftsubject/raft/raft.go:1515-1536 | A rejection lowers the probed term strictly, or the next probe is accepted |
| Backoff.RejectionsBounded | raftsubject/raft/raft.go:1835-1844 | Rejections never exceed the number of distinct terms in the leader's log up to the probe |
| Backoff.FindsLargest | raftsubject/raft/log.go:182-194 | The countdown finds the largest index at or below the given one whose term is not above the given term |
| Dialogue.DialogueEnds | raftsubject/raft/raft.go:1400-1583 | The dialogue over Step itself, each probe delivered to the follower and each answer to the leader: whatever index up to the first probe the logs agree on, in the end Match is at least that and the follower's log is the leader's up to Match, after no more rejections than the leader's log has terms up to the first probe |
| Dialogue.ProbesNext | raftsubject/raft/raft.go:1515-1536 | Each rejection is followed by one message, a probe at a lower position that still is not below any agreement, and of a lower term or one that will be accepted |
| RaftLog.AppendJoins | raftsubject/raft/log_unstable.go:191-213 | Wherever the boundary between storage and tail is, appending replaces the one sequence from the first new entry on |
| RaftLog.StableJoins | raftsubject/raft/log_unstable.go:138-164 | Dropping stored entries from the tail does not change the one sequence |
| RaftLog.WriteJoins | raftsubject/raft/storage.go:293-326 | Writing entries of the tail to storage does not change the one sequence |
| RaftLog.CompactJoins | raftsubject/raft/storage.go:268-288 | Compaction removes a prefix of the one sequence and nothing else |
| RaftLog.LimitAcross | raftsubject/raft/log.go:525-547 | Reading the stored part with the whole budget and the tail with what is left is reading the one sequence |
| RaftLog.RaftLog.constructor | raftsubject/raft/log.go:75-100 | A log over a storage starts with nothing applied past what is compacted |
| RaftLog.RaftLog.Term | raftsubject/raft/log.go:387-413 | Answers as the one sequence would, with the two errors exactly where they belong; a compacted entry that is still in the tail is answered from there |
| RaftLog.RaftLog.Slice | raftsubject/raft/log.go:499-548 | slice(lo, hi, max) is the size limit applied to the one sequence's [lo, hi), wherever the boundary falls |
| RaftLog.RaftLog.Append | raftsubject/raft/log.go:133-142 | Appends replace the log from an uncommitted index on; nothing handed out is touched |
| RaftLog.RaftLog.StableTo | raftsubject/raft/log.go:367 | Stabilising changes what is unstable and nothing a reader sees |
| RaftLog.RaftLog.Compact | raftsubject/raft/storage.go:268-288 | Permitted compaction keeps the rest of the log and the cursor |
| RaftLog.RaftLog.CommitTo | raftsubject/raft/log.go:322-330 | The commit index only grows |
| RaftLog.RaftLog.NextCommittedEnts | raftsubject/raft/log.go:220-244 | What is handed out next is the longest prefix of the committed rest that fits the budget left, and nothing while paused |
| RaftLog.RaftLog.AcceptApplying | raftsubject/raft/log.go:347-365 | All batches ever handed out, put together, stay the log up to the applying index; the budget in use stays the size of what is outstanding; application pauses exactly when it is used up or something that may be handed out was left |
| RaftLog.RaftLog.AppliedTo | raftsubject/raft/log.go:332-345 | Any index from applied to committed is taken, with the budget freed down to zero; acknowledging the oldest batch keeps the cursor, the budget and the batches right |
| SplitLog.MaybeAppend | raftsubject/raft/log.go:109-131 | On the log object: checks, truncates, appends and commits so that its joined sequence and commit index are what the node's become |
| SplitLog.FindConflict | raftsubject/raft/log.go:154-167 | On the log object: the first entry the node's log does not hold |
| SplitLog.Append | raftsubject/raft/log.go:133-142 | On the log object: the node's append |
| SplitLog.CommitTo | raftsubject/raft/log.go:322-330 | On the log object: the node's commit index |
| SplitLog.HandleAppendEntries | raftsubject/raft/raft.go:1803-1845 | The raft object and the log object stay together over an append, whichever way it is answered |
| SplitLog.HandleHeartbeat | raftsubject/raft/raft.go:1847-1850 | The same over a heartbeat |
| SplitLog.AppendEntry | raftsubject/raft/raft.go:824-859 | The same over the leader's own entries |
| SplitLog.MaybeCommit | raftsubject/raft/raft.go:787-791 | The same over the leader's commit |
| SplitLog.StorageAppendResp | raftsubject/raft/raft.go:1209-1215 | The append thread's answer cuts the log object's tail where the term is the node's, and the node sees nothing of it |
| SplitLog.StorageApplyResp | raftsubject/raft/raft.go:1217-1222 | The apply thread's answer moves the log object's cursor and the node's count of uncommitted bytes, and no log |
| SplitLog.Store | raftsubject/raft/storage.go:293-326 | Storing entries of the tail leaves the log object the node's log |
| SplitLog.Compact | raftsubject/raft/storage.go:268-288 | Compacting the storage is moving the node's compacted index |
| RawNode.RawNode.Ready | raftsubject/raft/rawnode.go:131-187 | A Ready hands out all unstable entries and the longest run of committed ones not handed out yet that fits the limit, and prepares exactly the responses Advance needs |
| RawNode.RawNode.Advance | raftsubject/raft/rawnode.go:477-489 | Advance empties the tail and acknowledges the batch, and no reader notices |
| RawNode.RawNode.Append | raftsubject/raft/log.go:133-142 | Appends between cycles leave the node ready for the next one and hand out nothing |
| RawNode.RawNode.CommitTo | raftsubject/raft/log.go:322-330 | So does committing |
| RawNode.RawNode.Compact | raftsubject/raft/storage.go:268-288 | So does permitted compaction |
| RawNode.RawNode.Cycle | raftharness/harness.go:259-289 | One Ready/Advance cycle stores the log, applies what was handed out, and hands out something unless nothing is committed |
| RawNode.RawNode.ApplyAll | raftsubject/raft/log.go:220-273 | Cycles end with everything committed applied, and the batches put together are the log up to the commit index: each entry once, in order |
| Unstable.UnstableLog.TruncateAndAppend | raftsubject/raft/log_unstable.go:191-213 | The tail's three cases, with the in-progress mark, as one function of the old tail |
| Unstable.UnstableLog.StableTo | raftsubject/raft/log_unstable.go:138-164 | Cuts the tail only if it holds the entry with that index and term |
| Unstable.MemoryStorage.Entries | raftsubject/raft/storage.go:145-166 | The stored entries in range, limited in size, or the error that applies |
| Unstable.MemoryStorage.Append | raftsubject/raft/storage.go:293-326 | Stored entries are replaced from the first new index on; compacted ones are skipped |
| Limit.FittingIs | raftsubject/raft/util.go:286-298 | The limit keeps the longest prefix that fits, and at least one entry |
| Limit.LimitSizeLoop | raftsubject/raft/util.go:286-298 | The loop computes that prefix |
| AsyncLog.NoABA | raftsubject/raft/rawnode.go:266-363 | Over every run of one node with a FIFO storage thread: when a response drops entries from the tail, storage holds every one of them, and no queued write starts at or below them |
| AsyncLog.SomeRunDrops | raftsubject/raft/rawnode.go:266-363 | Such runs exist: one in which a stored entry is dropped from the tail |
| AsyncLog.NoGap | raftsubject/raft/storage.go:293-326 | Over such runs the write stored next begins at or before the end of storage, above its dummy entry: 'missing log entry' never fires and no write is lost |
| AsyncLog.OnlyAppendsShow | raftsubject/raft/raft.go:1178-1192 | Over such runs, only appends change the log a reader sees; issuing, storing and handling responses never do, as stale responses are dropped by term |
| AsyncLog.FlushEmpties | raftsubject/raft/rawnode.go:266-363 | From any state of any run: once a write is issued, the storage thread has caught up and that write's answer is handled, the tail is empty and storage holds the whole log |
| Quorum.JointExactly | raftsubject/quorum/joint.go:49-56 | The joint index is the largest one committed in both halves: an index is at or below it exactly when a joint quorum acknowledged it |
| Quorum.CommittedExactly | raftsubject/quorum/majority.go:120-163 | An index is at or below the majority's committed index exactly when a majority acknowledged it |
| Quorum.CommittedMonotone | raftsubject/tracker/tracker.go:179-181 | The committed index never drops when acknowledgements rise |
| Quorum.SortAndPick | raftsubject/quorum/majority.go:120-163 | Filling an array, sorting it in place and picking one position gives the largest index a majority acknowledged |
| Quorum.VoteExactly | raftsubject/quorum/joint.go:61-75 | Votes are won exactly when a joint quorum granted, and lost exactly when no completion of the votes can win |
| Quorum.CountVotes | raftsubject/quorum/majority.go:169-198 | Counting in one pass gives that outcome |
| Quorum.QuorumsMeet | raftsubject/quorum/majority.go:190-197 | Two quorums of a joint configuration share a voter |
| ConfChange.ConfigsOverlap | raftsubject/confchange/confchange.go:51-145 | For every accepted change from a configuration with a voter: a quorum of the old one and a quorum of the new one share a voter |
| ConfChange.AlwaysWellFormed | raftsubject/confchange/confchange.go:276-332 | Over every sequence of accepted changes: tracked peers are exactly voters and learners, LearnersNext stays inside the outgoing and outside the incoming voters, and the final check never rejects |
| ConfChange.SimpleKeeps | raftsubject/confchange/confchange.go:128-145 | Exactly when a simple change is accepted, and what configuration it leads to |
| ConfChange.EnterJointKeeps | raftsubject/confchange/confchange.go:51-78 | Exactly when a joint change is accepted, and what configuration it leads to |
| ConfChange.LeaveJointKeeps | raftsubject/confchange/confchange.go:94-121 | Leaving succeeds exactly on a joint configuration, keeps the incoming voters and promotes LearnersNext |
| ConfProgress.SimpleCarries | raftsubject/confchange/confchange.go:178-270 | After every accepted simple change: each member that is never dropped on the way keeps its progress but for the learner mark its new role says, and any other starts with Match 0, Next max(last index, 1), probed, recently active, with an empty window of the configured limits |
| ConfProgress.EnterJointCarries | raftsubject/confchange/confchange.go:51-78 | The same after every accepted entry into a joint configuration, on which no voter loses its progress |
| ConfProgress.LeaveJointCarries | raftsubject/confchange/confchange.go:94-121 | The same after leaving one: nobody starts afresh |
| ConfProgress.RestoredFresh | raftsubject/confchange/restore.go:119-155 | Whatever ConfState is restored into an empty tracker, every member starts afresh |
| ConfChange.LeaveJointExactly | raftsubject/confchange/confchange.go:276-332 | On any configuration checkInvariants accepts, leaving succeeds if and only if LearnersNext is disjoint from the incoming voters, the conjunct the check omits |
| ConfChange.ConsistentButStuck | raftsubject/confchange/confchange.go:276-332 | A configuration that the check accepts and that cannot be left |
| Changer.CheckInvariants | raftsubject/confchange/confchange.go:276-332 | The loops over the sets decide exactly the conjuncts the code checks |
| Changer.DoSimple | raftsubject/confchange/confchange.go:128-145 | Mutating the copy in place gives the specified result or error: the configuration of ConfChange.SimpleKeeps, the progress of ConfProgress.SimpleCarries |
| Changer.DoEnterJoint | raftsubject/confchange/confchange.go:51-78 | As above, with ConfChange.EnterJointKeeps and ConfProgress.EnterJointCarries |
| Changer.DoLeaveJoint | raftsubject/confchange/confchange.go:94-121 | As above, with ConfChange.LeaveJointKeeps and ConfProgress.LeaveJointCarries |
| Changer.CountSymDiff | raftsubject/confchange/confchange.go:384-398 | The two loops count the symmetric difference |
| Restore.RestoreRoundTrip | raftsubject/confchange/restore.go:119-155 | For every well-formed ConfState, restoring from the empty configuration succeeds and gives the configuration described |
| Restore.RestoreEquivalent | raftsubject/raftpb/confstate.go:26-57 | The ConfState of the result is equivalent to the one restored |
| Restore.DoRestore | raftsubject/confchange/restore.go:119-155 | The chain of changes, one at a time, computes that result |
| Restore.Build | raftsubject/confchange/restore.go:26-97 | The append loops build the two lists of changes |
| Restore.ToConfState | raftsubject/tracker/tracker.go:148-156 | Lists every member once, in order |
| PeerProgress.SendFlows | raftsubject/tracker/progress.go:165-185 | Sending what the log holds to a peer with room keeps its flow control |
| PeerProgress.AckFlows | raftsubject/raft/raft.go:1539-1556 | An acknowledgement keeps flow control and sets Match to the larger index; what exactly it leaves is PeerProgress.AckedIs |
| PeerProgress.AckedIs | raftsubject/raft/raft.go:1539-1556 | What an acknowledgement leaves, mode by mode: a replicating peer keeps exactly the in-flight appends above it, in order; a probed one, and one whose snapshot the log connects to, begins to replicate behind it; a stale one changes nothing |
| PeerProgress.RejectFlows | raftsubject/raft/raft.go:1529-1535 | A rejection keeps flow control and Match |
| PeerProgress.Progress.SentEntries | raftsubject/tracker/progress.go:165-185 | The object's update is the value's |
| PeerProgress.Progress.MaybeUpdate | raftsubject/tracker/progress.go:205-213 | The object's update is the value's |
| PeerProgress.Progress.MaybeDecrTo | raftsubject/tracker/progress.go:226-254 | The object's update is the value's |
| PeerProgress.Progress.BecomeReplicate | raftsubject/tracker/progress.go:146-149 | The object's update is the value's |
| PeerProgress.Progress.BecomeSnapshot | raftsubject/tracker/progress.go:153-158 | The object's update is the value's |
| PeerProgress.Progress.BecomeProbe | raftsubject/tracker/progress.go:130-143 | The object's update is the value's |
| InflightWindow.Inflights.Add | raftsubject/tracker/inflights.go:65-80 | The growing, wrapping buffer gains the element at the end of the queue |
| InflightWindow.Inflights.Grow | raftsubject/tracker/inflights.go:85-95 | Growing loses and aliases no element |
| InflightWindow.Inflights.FreeLE | raftsubject/tracker/inflights.go:98-128 | The longest prefix at or below the argument leaves the queue; bytes stay the sum of what remains |
| InflightWindow.FreedIs | raftsubject/tracker/inflights.go:98-128 | The number freed is that of the longest prefix at or below the argument |
| InflightWindow.ReleasedIs | raftsubject/tracker/inflights.go:98-128 | Freeing leaves exactly what lies above the argument, in order |
| CodecStable.RoundTrip | raftsubject/raftpb/plain_codec.go:681-870 | Decoding the encoding of any valid message gives it back exactly when it is nested at most 10000 deep, and is otherwise refused as too deep |
| CodecStable.Reencode | raftsubject/raftpb/plain_codec.go:681-870 | Whatever byte string decodes, the result is a valid message, its encoding is at most twice as long, and decoding that gives the same message, retained fields included |
| CodecBound.DecodeSize | raftsubject/raftpb/plain_codec.go:548-597 | Decoding adds at most twice the bytes it reads to the size of the message: packed numbers are written one by one, negative enum values in ten bytes, and a submessage's length may take a byte more |
| CodecRoundTrip.DecodeEnc | raftsubject/raftpb/plain_clone.go:253-319 | Decoding the encoding of a message into another one merges it, as mergeMessage does |
| CodecStable.Concatenation | raftsubject/raftpb/plain_codec.go:681-870 | Decoding two buffers joined is decoding the second on top of the first: the last one wins, submessages merge |
| CodecStable.JoinIsMerge | raftsubject/raftpb/plain_clone.go:253-319 | The encodings of two messages, joined, decode to their merge |
| CodecRoundTrip.CloneSame | raftsubject/raftpb/plain_clone.go:236-243 | A clone equals what it was cloned from |
| Codec.SizeIsLength | raftsubject/raftpb/plain_codec.go:548-597 | SizeMessage is the length of what MarshalAppend appends, for every message |
| Codec.EntrySizeIsLength | raftsubject/raftpb/plain_codec.go:51-70 | The entry sizes that the log's limits count are the lengths of the encodings |
| Schema.LogEntryWire | raftsubject/raftpb/plain_codec.go:77-105 | A normal log entry on the wire, byte for byte: 0x10 and its term, 0x18 and its index, and, if it has data, 0x22, the length and the data; and that reads back as the entry |
| Schema.EntryWire | raftsubject/raftpb/plain_codec.go:77-105 | Every field of an entry by name, behind its literal tag, in order, set or not |
| Schema.MetadataWire | raftsubject/raftpb/plain_codec.go:253-279 | The same for a snapshot's metadata |
| Schema.SnapshotWire | raftsubject/raftpb/plain_codec.go:419-441 | The same for a snapshot |
| Schema.MessageWire | raftsubject/raftpb/plain_codec.go:604-672 | The same for all fourteen fields of a message, nested entries, snapshots and responses included |
| Schema.HardStateWire | raftsubject/raftpb/plain_codec.go:930-954 | The same for a hard state |
| Schema.ConfStateWire | raftsubject/raftpb/plain_codec.go:1101-1133 | The same for a configuration state |
| Schema.ConfChangeWire | raftsubject/raftpb/plain_codec.go:1321-1349 | The same for a configuration change |
| Schema.ChangeSingleWire | raftsubject/raftpb/plain_codec.go:1494-1514 | The same for a single change |
| Schema.ConfChangeV2Wire | raftsubject/raftpb/plain_codec.go:1645-1671 | The same for a change of several nodes |
| Schema.EntryReads | raftsubject/raftpb/plain_codec.go:108-195 | Those bytes read back with each value in the field of its name |
| Schema.MetadataReads | raftsubject/raftpb/plain_codec.go:282-364 | The same for metadata |
| Schema.SnapshotReads | raftsubject/raftpb/plain_codec.go:444-513 | The same for snapshots |
| Schema.MessageReads | raftsubject/raftpb/plain_codec.go:681-870 | The same for messages nested at most 10000 deep |
| Schema.HardStateReads | raftsubject/raftpb/plain_codec.go:957-1037 | The same for hard states |
| Schema.ConfStateReads | raftsubject/raftpb/plain_codec.go:1136-1260 | The same for configuration states |
| Schema.ConfChangeReads | raftsubject/raftpb/plain_codec.go:1352-1439 | The same for configuration changes |
| Schema.ChangeSingleReads | raftsubject/raftpb/plain_codec.go:1517-1587 | The same for single changes |
| Schema.ConfChangeV2Reads | raftsubject/raftpb/plain_codec.go:1674-1752 | The same for changes of several nodes |
| SchemaJoin.MessagesRead | raftsubject/raftpb/plain_clone.go:253-319 | Two encodings in one buffer read as one message: the last value of each named field wins, entries and responses follow one another, and snapshots are joined field by field |
| SchemaJoin.EntriesRead | raftsubject/raftpb/plain_clone.go:253-319 | The same for entries |
| SchemaJoin.PackedList | raftsubject/raftpb/plain_wire.go:386-411 | The four lists of a configuration state also read packed, in order, into the list whose tag stands before them |
| SchemaJoin.TruthReads | raftsubject/raftpb/plain_wire.go:162-164 | Any varint but 0 reads as true |
| SchemaJoin.EnumReads | raftsubject/raftpb/plain_codec.go:108-195 | An enum reads as the signed 32-bit number with the varint's low bits |
| Wire.VarintIs | raftsubject/raftpb/plain_wire.go:107-116 | A varint is the base-128 digits of its value, least significant first, none to spare, the top bit set on all but the last |
| WireRecords.SkipValue | raftsubject/raftpb/plain_wire.go:220-264 | How long a field of each wire type is, groups included, and that it is skipped exactly when no more groups stand inside one another than the depth left allows |
| WireRecords.RecordKept | raftsubject/raftpb/plain_codec.go:681-870 | A record of a number no type uses is retained byte for byte, unless more than 10001 groups stand inside one another |
| WireRecords.BadTag | raftsubject/raftpb/plain_codec.go:681-700 | A field number of 0 or above 2 to the 29 minus 1, or an end of group that nothing began, makes the message malformed |
| Wire.VarintRoundTrip | raftsubject/raftpb/plain_wire.go:70-116 | A varint of 64 bits reads back, whatever follows it |
| Wire.SkipPrefix | raftsubject/raftpb/plain_wire.go:220-264 | Skipping a field, nested groups included, depends on the bytes skipped alone |
| WireLoops.ConsumeVarint | raftsubject/raftpb/plain_wire.go:70-91 | The loop, with sums that wrap around at 64 bits, reads what the recursive definition does: the one sum that can wrap is that of a tenth byte that is refused |
| WireLoops.FastVarint | raftsubject/raftpb/plain_wire.go:346-365 | The one-byte and two-byte fast paths agree with it |
| WireLoops.AppendVarint | raftsubject/raftpb/plain_wire.go:107-116 | The loop appends the encoding |
| WireLoops.SizeVarint | raftsubject/raftpb/plain_wire.go:94-104 | The loop counts its bytes |
| WireLoops.ConsumeFieldValue | raftsubject/raftpb/plain_wire.go:220-264 | The loop over a group's fields skips what the recursive definition does |
| WireLoops.ConsumePacked | raftsubject/raftpb/plain_wire.go:386-411 | The loop appends the packed numbers, and nothing on an error |
| WireLoops.UnmarshalMessage | raftsubject/raftpb/plain_codec.go:681-870 | The loop over the buffer terminates and decodes as the function does, errors included; which bytes stand for which field is fixed by name in module Schema |
| MessageLoops.SizeMessage | raftsubject/raftpb/plain_codec.go:548-597 | The loop adds up exactly the encoded length |
| MessageLoops.MarshalAppend | raftsubject/raftpb/plain_codec.go:604-672 | The loops append exactly the encoding, whose bytes module Schema writes out field by field |
| MessageLoops.EqualMessage | raftsubject/raftpb/plain_clone.go:325-434 | Decides equality of valid messages |
| MessageLoops.EqualLaws | raftsubject/raftpb/plain_clone.go:325-434 | Equality of valid messages is reflexive, symmetric and transitive |
| MessageLoops.EqualIsSame | raftsubject/raftpb/plain_clone.go:325-434 | On messages without retained bytes it is equality of every field, submessages included |
| UnknownFields.EqualUnknown | raftsubject/raftpb/plain_wire.go:315-339 | Two runs of retained records are equal exactly when, number by number, the records are the same in the same order |
| UnknownFields.UnknownFieldRecords | raftsubject/raftpb/plain_wire.go:300-310 | The loop collects the records of one number |
| UnknownFields.SameLength | raftsubject/raftpb/plain_wire.go:315-339 | Runs with the same records have the same length, so the length test rejects nothing equal |
| Budgets.Walker.TypeBudgetViolation | tools/nativefrontend/budgets.go:256-264 | With a right memo, on a type graph that the depth cap does not truncate, a violation is reported exactly when one is reachable; the memo stays right for whatever is asked next; on a graph shallow enough the cap is never reached |
| Budgets.Walker.Walk | tools/nativefrontend/budgets.go:271-365 | While types are open on the stack: a violation reported is reachable, and if none is reported every path to one goes through an open type at or above the cut mark |
| Budgets.Walker.WalkNamed | tools/nativefrontend/budgets.go:313-342 | An answer is memoised only when it is complete |
| Budgets.NamedCut | tools/nativefrontend/budgets.go:313-342 | Paths from a named type that are cut only at itself hide nothing: the last stretch of such a path does not come back |
| Budgets.FootprintCompares | tools/nativefrontend/budgets.go:215-242 | On values that nest no deeper than the cap, comparing the saturating footprint with a budget is comparing the true one |
| Budgets.ChainFootprint | tools/nativefrontend/budgets.go:215-242 | Nesting is looked into exactly 64 deep: what nests deeper counts as too large for any budget |
| Budgets.SatMulIs | tools/nativefrontend/budgets.go:156-164 | Saturating products of saturated factors are the true product, saturated |

## Left out

- Ready in the cluster model hands out the whole state and all messages waiting for it, and a second event, with anything in between, makes it durable and sends them. Until then the messages stay in the node's outbox, from which those sent are removed by value; one write is under way at a time. Messages a node sends to itself go through the network like any other, which allows more than the program does.
- Snapshots: the data of a snapshot is the entries it covers, and its ConfState is the fixed configuration of the node that takes it over (module Restore has the way back from a ConfState). The log objects (Unstable, RaftLog, RawNode, AsyncLog) and the codec's types carry no received snapshot, and a storage that is temporarily out of snapshots is not modelled.
- Membership change in the cluster: the voters are fixed, and configuration entries, pendingConfIndex, AutoLeave proposals and the check for unapplied changes before a campaign are not modelled.
- Lease-based reads, and the single-voter read path in the linearizability theorem.
- Time: ticks, election jitter and lease expiry are nondeterministic; a vote request comes with a Boolean that says whether a leader was heard from recently.
- Errors returned to the caller of Step (dropped proposals), the filters of RawNode.Step, soft state, MustSync and HasReady.
- RaftObject.Raft.Step: the object holds its log as one sequence and its peers' progress as values in a map; what a storage thread's answer moves inside the log is on the log object, which module SplitLog keeps beside the raft object for appends, heartbeats, proposals, commits and these answers. Snapshots apart, the other handlers do not touch the log; the progress object, updated in place, is in module PeerProgress.
- RaftObject.Raft.Restore: the snapshot's ConfState is the fixed configuration, so whether the node is in it, and the switch to it, are looked up there.
- RaftLog.RaftLog.Term: a received snapshot that is not stored yet, whose term the program knows, is not in the log object.
- RaftLog.RaftLog.NextCommittedEnts: for the same reason it does not wait for such a snapshot.
- RaftObject.Raft.StepLeader: the checks made on a proposed configuration change are not modelled.
- RaftObject.Raft.constructor: the configuration is given, not rebuilt from the ConfState (module Restore does that), and Config.Applied is not modelled.
- RawNode.RawNode.Ready: messages, HardState, SoftState and read states of a Ready are not modelled there; the first two are in module Cluster.
- NodeLeading.AckAnswered: an acknowledgement past the end of the leader's log, which no run has, is not described.
- NodeFollowing.AppendAnswered: the entries of an append stand at consecutive indexes, as the program's logSlice has them.
- NodeFollowing.HeartbeatAnswered: a commit index past the end of the log, at which the program panics, is left to ClusterSafety.NoPanicEver.
- NodeSends.BcastIs: the list of peers has no repetitions, as the program's sorted list of ids has none.
- Codec.EntrySizeIsLength: the log's entries are normal ones without unknown bytes; Codec.SizeIsLength covers every message.
- Limits of zero: a maximum size above zero is assumed for handing out entries and for in-flight windows.
- Wrap-around of 64-bit integers outside the codec and the footprints: indexes, terms and sizes are natural numbers there.
- AsyncLog.NoABA: one node that does not crash and does not compact; appends come as slices of one leader log a term.
- Codec: a nil element of a repeated message field, nil against empty slices, and the allocation of buffers; encodings shorter than 2 to the 64 are assumed, as lengths in the program are.
- CodecStable.RoundTrip: unknown bytes are those decoding can have retained: whole records with canonical tags of fields the type does not take.
- Budgets.Walker.TypeBudgetViolation: the text of the reported violation is not modelled, and types are taken with aliases resolved.
- Logging, tracing, rendering of states and errors, goroutines and file access.
- The rest of tools/, the interpreter, the proto dispatch layer and the generated accessors: thin layers over libraries, or not part of the library under study.
