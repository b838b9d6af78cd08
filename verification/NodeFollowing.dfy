/** What a node does with the messages of a leader and of other terms (raft/raft.go, Step, stepFollower,
    stepCandidate), over Step itself and written out on its log and fields. */
module NodeFollowing {
  import opened Types
  import opened Messages
  import opened InflightWindow
  import opened PeerProgress
  import opened Node
  import opened Protocol
  import PL = ProtocolLeader
  import opened NodeFollower
  import opened NodeStep
  import opened NodeReplication
  import opened NodeElections

  // ---------------------------------------------------------------------------------------------
  // Following a leader
  // ---------------------------------------------------------------------------------------------

  /** A message of the node's own term or a later one, which a leader of the same term does not get from
      another. */
  predicate Current(nd: Node, m: Message)
    requires FromLeader(m)
  {
    m.term > 0 && m.term >= nd.term && (m.term == nd.term ==> !nd.state.StateLeader?)
  }

  /** The node as a follower of the sender: in its own term it keeps its vote, in a later one it has none; a
      follower of the term only notes the leader. */
  function Following(nd: Node, m: Message): Node
    requires FromLeader(m)
  {
    if m.term == nd.term && nd.state.StateFollower? then nd.(lead := m.from)
    else Cleared(nd, m.term, if m.term == nd.term then nd.vote else NONE, m.from, StateFollower)
  }

  lemma FollowIs(nd: Node, term: nat, lead: Id)
    ensures BecomeFollower(nd, term, lead) == Cleared(nd, term, if nd.term == term then nd.vote else NONE, lead, StateFollower)
  {
    hide Reset, FreshPeers;
    ResetIs(nd, term);
  }

  lemma FollowingSame(nd: Node, m: Message)
    requires FromLeader(m)
    ensures var f := Following(nd, m);
            f.opt == nd.opt && f.log == nd.log && f.committed == nd.committed && f.compacted == nd.compacted && f.state.StateFollower?
            && f.term == m.term && f.lead == m.from && f.msgs == nd.msgs && f.afterAppend == nd.afterAppend && f.panicked == nd.panicked
            && f.snapshot == nd.snapshot && f.restoring == nd.restoring && (m.term > nd.term ==> f.(lead := m.from) == f)
  {
    hide FreshPeers;
  }

  lemma LeaderMessage(nd: Node, m: Message, recent: bool)
    requires FromLeader(m) && Current(nd, m)
    ensures Step(nd, m, recent) == if m.App? then HandleAppendEntries(Following(nd, m), m)
                                   else if m.Heartbeat? then HandleHeartbeat(Following(nd, m), m)
                                   else HandleSnapshot(Following(nd, m), m)
  {
    hide HandleAppendEntries, HandleHeartbeat, HandleSnapshot, BecomeFollower, Cleared;
    FollowIs(nd, m.term, m.from);
    FollowingSame(nd, m);
  }

  /** The index up to which an append commits. */
  function CommitOf(nd: Node, m: Message): nat
    requires m.App?
  {
    Max(nd.committed, Min(m.commit, m.prevIndex + |m.ents|))
  }

  /** An append is answered in one of three ways. One that starts below the commit index is acknowledged up to
      it, and changes nothing. One behind an entry the log holds replaces what conflicts, commits what the
      leader says of it, and is acknowledged up to its last entry. Any other is refused, with the last index
      not after it where the log has no higher term than the entry it should stand behind. */
  lemma AppendAnswered(nd: Node, m: Message, recent: bool) returns (hint: nat)
    requires m.App? && Current(nd, m) && nd.compacted <= nd.committed <= |nd.log| && Contiguous(m.prevIndex, m.ents)
    ensures var f := Following(nd, m);
            Step(nd, m, recent) ==
              if m.prevIndex < nd.committed then
                f.(afterAppend := nd.afterAppend + [AppResp(nd.opt.id, m.from, m.term, nd.committed, false, 0, 0)])
              else if m.prevIndex <= |nd.log| && TermAt(nd.log, m.prevIndex) == m.prevTerm then
                f.(log := PL.Grafted(nd.log, m.prevIndex, m.ents), committed := CommitOf(nd, m),
                   afterAppend := nd.afterAppend + [AppResp(nd.opt.id, m.from, m.term, m.prevIndex + |m.ents|, false, 0, 0)])
              else
                f.(afterAppend := nd.afterAppend
                     + [AppResp(nd.opt.id, m.from, m.term, m.prevIndex, true, hint,
                                if nd.compacted <= hint <= |nd.log| then TermAt(nd.log, hint) else 0)])
    ensures m.prevIndex >= nd.committed && !(m.prevIndex <= |nd.log| && TermAt(nd.log, m.prevIndex) == m.prevTerm) ==>
              FoundBelow(nd.log, nd.compacted, Min(m.prevIndex, |nd.log|), m.prevTerm, hint)
  {
    hide Step, Following, Contiguous, FindConflictByTerm, MaybeAppend, FoundBelow, PL.Grafted;
    var f := Following(nd, m);
    LeaderMessage(nd, m, recent);
    FollowingSame(nd, m);
    hint := FindConflictByTerm(f, Min(m.prevIndex, |nd.log|), m.prevTerm).0;
    if m.prevIndex < nd.committed {
    } else if m.prevIndex <= |nd.log| && TermAt(nd.log, m.prevIndex) == m.prevTerm {
      AppendIs(f, m.prevIndex, m.prevTerm, m.ents, m.commit);
    } else {
      Unmatched(f, m);
      FindsBelow(f, Min(m.prevIndex, |nd.log|), m.prevTerm);
      BelowInLog(nd.log, nd.compacted, Min(m.prevIndex, |nd.log|), m.prevTerm, hint);
    }
  }

  lemma Unmatched(nd: Node, m: Message)
    requires m.App? && !(m.prevIndex <= |nd.log| && TermAt(nd.log, m.prevIndex) == m.prevTerm)
    ensures MaybeAppend(nd, m.prevIndex, m.prevTerm, m.ents, m.commit) == (nd, None)
  {
  }

  lemma BelowInLog(log: seq<Entry>, compacted: nat, from: nat, term: nat, k: nat)
    requires FoundBelow(log, compacted, from, term, k)
    ensures k <= |log|
  {
  }

  /** A heartbeat commits what it tells of, and is answered with its context. */
  lemma HeartbeatAnswered(nd: Node, m: Message, recent: bool)
    requires m.Heartbeat? && Current(nd, m) && m.commit <= |nd.log| && m.from != nd.opt.id
    ensures Step(nd, m, recent) ==
              Following(nd, m).(committed := Max(nd.committed, m.commit),
                                msgs := nd.msgs + [HeartbeatResp(nd.opt.id, m.from, m.term, m.ctx)])
  {
    hide Step, Following;
    LeaderMessage(nd, m, recent);
    FollowingSame(nd, m);
  }

  /** The progress that is restored with a snapshot: nothing is known of any member of the configuration. */
  function SnapshotPeers(opt: Options, index: nat): map<Id, Peer> {
    map x | x in opt.peers ::
      Peer(0, if index < 1 then 1 else index, 0, Probe, 0, true, false,
           Window(opt.maxInflight, opt.maxInflightBytes, []), x in opt.learners)
  }

  /** A snapshot that reaches no further than the commit index, or that does not know the node, is ignored; one
      that ends with an entry the log holds only commits; any other replaces the log. It is acknowledged up to
      what is committed then, or up to its end. */
  lemma SnapshotAnswered(nd: Node, m: Message, recent: bool)
    requires m.Snap? && Current(nd, m)
    ensures var f := Following(nd, m);
            Step(nd, m, recent) ==
              if m.index <= nd.committed || nd.opt.id !in nd.opt.peers then
                f.(afterAppend := nd.afterAppend + [AppResp(nd.opt.id, m.from, m.term, nd.committed, false, 0, 0)])
              else if nd.compacted <= m.index <= |nd.log| && TermAt(nd.log, m.index) == m.snapTerm then
                f.(committed := m.index, afterAppend := nd.afterAppend + [AppResp(nd.opt.id, m.from, m.term, m.index, false, 0, 0)])
              else
                f.(log := m.covered, committed := m.index, compacted := m.index, snapshot := m.index, restoring := m.index,
                   prs := SnapshotPeers(nd.opt, m.index), votes := map[],
                   afterAppend := nd.afterAppend + [AppResp(nd.opt.id, m.from, m.term, |m.covered|, false, 0, 0)])
  {
    hide Step, Following, RestoredPeers, SnapshotPeers;
    LeaderMessage(nd, m, recent);
    FollowingSame(nd, m);
    SnapshotPeersAre(nd.opt, m.index);
  }

  lemma SnapshotPeersAre(opt: Options, index: nat)
    ensures RestoredPeers(opt, index) == SnapshotPeers(opt, index)
  {
  }

  // ---------------------------------------------------------------------------------------------
  // Requests of applications
  // ---------------------------------------------------------------------------------------------

  /** A follower passes proposals and reads on to the leader it knows, in the name of who asked, and hands the
      application what it is told; it drops them when it knows no leader, or forwarding is off. */
  lemma RequestsForwarded(nd: Node, m: Message, recent: bool)
    requires nd.state.StateFollower? && nd.lead != nd.opt.id && (m.Prop? || m.ReadIndex? || m.ForgetLeader?)
    ensures var asker := if m.from == NONE then nd.opt.id else m.from;
            Step(nd, m, recent) ==
              if m.ForgetLeader? then nd.(lead := NONE)
              else if nd.lead == NONE || (m.Prop? && nd.opt.disableForwarding) then nd
              else nd.(msgs := nd.msgs + [if m.Prop? then Prop(asker, nd.lead, m.payloads) else ReadIndex(asker, nd.lead, m.data)])
  {
  }

  lemma AnswersPassedOn(nd: Node, m: Message, recent: bool)
    requires nd.state.StateFollower? && m.ReadIndexResp? && m.term == nd.term
    ensures Step(nd, m, recent) == nd.(readStates := nd.readStates + [ReadState(m.index, m.data)])
  {
  }

  /** A follower asks the leader it knows to hand over to who asked. */
  lemma TransferForwarded(nd: Node, m: Message, recent: bool)
    requires nd.state.StateFollower? && nd.lead != nd.opt.id && m.TransferLeader? && m.term == 0
    ensures Step(nd, m, recent) ==
              if nd.lead == NONE then nd
              else nd.(msgs := nd.msgs + [TransferLeader(if m.from == NONE then nd.opt.id else m.from, nd.lead, nd.term)])
  {
  }

  // ---------------------------------------------------------------------------------------------
  // Other terms
  // ---------------------------------------------------------------------------------------------

  /** An answer of a later term makes any node a follower of nobody in it, but for a granted pre-vote, which is
      answered with the term it was asked about. */
  lemma LaterTermAdopted(nd: Node, m: Message, recent: bool)
    requires m.AppResp? || m.HeartbeatResp? || m.VoteResp? || (m.PreVoteResp? && m.reject)
    requires m.term > nd.term
    ensures Step(nd, m, recent) == Cleared(nd, m.term, NONE, NONE, StateFollower)
  {
    hide Cleared, BecomeFollower, Send, StartCampaign, HandleAppendEntries, HandleHeartbeat, HandleSnapshot;
    FollowIs(nd, m.term, NONE);
    FollowerState(nd, m.term);
  }

  lemma FollowerState(nd: Node, term: nat)
    ensures Cleared(nd, term, NONE, NONE, StateFollower).state.StateFollower?
  {
  }

  /** A message of an earlier term is ignored, but for three kinds: the appends and heartbeats of a leader that
      was deposed without noticing are answered so that it learns of the later term, if the node may itself
      be stuck otherwise; pre-votes are refused; and what was stored is stored in any term. */
  lemma EarlierTermIgnored(nd: Node, m: Message, recent: bool)
    requires 0 < TermOf(m) < nd.term && !m.StorageAppendResp?
    ensures Step(nd, m, recent) ==
              if (m.App? || m.Heartbeat?) && (nd.opt.checkQuorum || nd.opt.preVote) then
                nd.(afterAppend := nd.afterAppend + [AppResp(nd.opt.id, m.from, nd.term, 0, false, 0, 0)])
              else if m.PreVote? then nd.(afterAppend := nd.afterAppend + [PreVoteResp(nd.opt.id, m.from, nd.term, true)])
              else nd
  {
  }

  /** What the application reports as applied no longer counts as uncommitted; more than was counted leaves
      nothing. */
  lemma AppliedReported(nd: Node, m: Message, recent: bool)
    requires m.StorageApplyResp?
    ensures Step(nd, m, recent) == nd.(uncommitted := if m.size < nd.uncommitted then nd.uncommitted - m.size else 0)
  {
  }

  /** What each role has no use for: a leader the messages of leaders and voters, a follower the answers to what
      only leaders and candidates send, a candidate all but the messages of leaders and the votes of its kind. */
  predicate NoUse(nd: Node, m: Message) {
    match nd.state
    case StateLeader =>
      m.App? || m.Heartbeat? || m.Snap? || m.VoteResp? || m.PreVoteResp? || m.TimeoutNow? || m.ForgetLeader? || m.ReadIndexResp?
    case StateFollower =>
      m.Beat? || m.CheckQuorum? || m.AppResp? || m.HeartbeatResp? || m.VoteResp? || m.PreVoteResp? || m.SnapStatus? || m.Unreachable?
    case _ =>
      m.Beat? || m.CheckQuorum? || m.AppResp? || m.HeartbeatResp? || m.SnapStatus? || m.Unreachable? || m.Prop? || m.ReadIndex?
      || m.ReadIndexResp? || m.TransferLeader? || m.TimeoutNow? || m.ForgetLeader?
      || (if nd.state.StatePreCandidate? then m.VoteResp? else m.PreVoteResp?)
  }

  /** In the node's own term, a message its role has no use for changes nothing; nor does one that a leader gets
      about a node it does not track. */
  lemma NoUseIgnored(nd: Node, m: Message, recent: bool)
    requires TermOf(m) == 0 || TermOf(m) == nd.term
    requires NoUse(nd, m) || (nd.state.StateLeader? && (m.AppResp? || m.HeartbeatResp? || m.TransferLeader?) && m.from !in nd.prs)
    ensures Step(nd, m, recent) == nd
  {
    hide HandleAppendEntries, HandleHeartbeat, HandleSnapshot, BecomeFollower, Poll, StartCampaign, BcastHeartbeat, Respond, QueueRead,
         AppendEntry, BcastAppend, LeaderAppResp, LeaderHeartbeatResp, LeaderTransfer, Quiet, Probing, Send, HandleVote;
  }
}
