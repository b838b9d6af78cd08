/** One step of a node on any message keeps the cluster in order, never panics, and treats reads as
    linearizability demands. */
module NodeStep {
  import opened Types
  import opened Messages
  import opened PeerProgress
  import opened Node
  import opened Protocol
  import opened ProtocolFrame
  import opened ProtocolSteps
  import PR = ProtocolReign
  import opened NodeView
  import opened NodeLeader
  import opened NodeCommit
  import opened NodeReads
  import opened NodeRoles
  import opened NodeFollower

  /** Messages the application steps in locally. */
  predicate FromApp(m: Message) {
    match m
    case Hup(_, _) => true
    case Beat(_, _) => true
    case CheckQuorum(_, _) => true
    case ForgetLeader(_, _) => true
    case Unreachable(_, _) => true
    case SnapStatus(_, _, _) => true
    case Prop(_, _, payloads) => payloads != []
    case ReadIndex(_, _, _) => true
    case TransferLeader(_, _, term) => term == 0
    case StorageApplyResp(_, _, _) => true
    case _ => false
  }

  /** What may be stepped: what was sent to the node, and what its application asks for. That a write
      is stored is an event of its own. */
  predicate Steppable(s: Stable, nd: Node, m: Message) {
    !m.StorageAppendResp? && ((m in s.net && m.to == nd.opt.id) || FromApp(m))
  }

  /** The highest commit indexes seen of every node, once the node has moved. */
  function After(commits: map<Id, nat>, nd: Node): map<Id, nat> {
    commits[nd.opt.id := if nd.opt.id in commits then Max(commits[nd.opt.id], nd.committed) else nd.committed]
  }

  predicate StillLeads(nd: Node, nd': Node) {
    nd.state.StateLeader? && nd'.state.StateLeader? && nd'.term == nd.term
  }

  /** What a step does to a leader's reads: those it queues are marked with these commit indexes and
      the node's own; those that leave the queue leave in order, each once, and are fresh. */
  ghost predicate ReadsStep(h: History, nd: Node, nd': Node, commits: map<Id, nat>) {
    && (nd'.state.StateLeader? ==>
          MarkedWith(h, nd'.term, if StillLeads(nd, nd') then Total(nd) else 0, Total(nd'), After(commits, nd')))
    && (StillLeads(nd, nd') ==>
          && nd.confirmed <= nd'.confirmed <= Total(nd)
          && nd.queue[nd'.confirmed - nd.confirmed..] <= nd'.queue
          && AllFresh(h, nd, nd'.confirmed))
  }

  /** Unless it is the only voter, a leader answers exactly the reads that leave its queue. */
  predicate AnswersStep(nd: Node, nd': Node) {
    StillLeads(nd, nd') && !IsSingleton(nd) && nd.confirmed <= nd'.confirmed <= Total(nd) ==>
      Answered(nd, nd', nd.queue[..nd'.confirmed - nd.confirmed])
  }

  ghost predicate AllFresh(h: History, nd: Node, k: nat) {
    forall p: nat :: nd.confirmed < p <= k && p <= Total(nd) ==>
      PR.Fresh(h, Read(nd.term, p), nd.queue[p - nd.confirmed - 1].index)
  }

  /** A node that leads after the step led before it, and no read was queued, confirmed or
      answered. */
  predicate ReadsAlone(nd: Node, nd': Node) {
    nd'.state.StateLeader? ==>
      && nd.state.StateLeader? && nd'.term == nd.term
      && nd'.queue == nd.queue && nd'.confirmed == nd.confirmed
      && (IsSingleton(nd) || (nd'.readStates == nd.readStates && Replies(nd') == Replies(nd)))
  }

  /** Steps that leave reads alone. */
  lemma NoReads(h: History, nd: Node, nd': Node, commits: map<Id, nat>)
    requires ReadsAlone(nd, nd')
    ensures ReadsStep(h, nd, nd', commits) && AnswersStep(nd, nd')
  {
    hide Replies, LocalAnswers, RemoteAnswers;
    NoAnswers(nd);
    SameQueue(h, nd, nd', commits);
  }

  lemma SameQueue(h: History, nd: Node, nd': Node, commits: map<Id, nat>)
    requires nd'.state.StateLeader? ==> nd.state.StateLeader? && nd'.term == nd.term
                                        && nd'.queue == nd.queue && nd'.confirmed == nd.confirmed
    ensures ReadsStep(h, nd, nd', commits)
  {
  }

  /** What one step ensures. */
  ghost predicate Stepped(s: Stable, h: History, h': History, nd: Node, nd': Node, commits: map<Id, nat>) {
    NodeGood(s, h', nd') && Later(s, h, h', nd.opt.id) && ReadsStep(h', nd, nd', commits) && AnswersStep(nd, nd')
    && (SameBase(nd, nd') || Installed(nd, nd')) && nd'.term >= nd.term && nd'.committed >= nd.committed
  }

  lemma Quietly(s: Stable, h: History, nd: Node, nd': Node, commits: map<Id, nat>)
    requires NodeGood(s, h, nd') && (SameBase(nd, nd') || Installed(nd, nd')) && nd'.term >= nd.term && nd'.committed >= nd.committed
    requires ReadsAlone(nd, nd')
    ensures Stepped(s, h, h, nd, nd', commits)
  {
    hide NodeGood, Later;
    LaterSelf(s, h, nd.opt.id);
    NoReads(h, nd, nd', commits);
  }

  lemma CommitSeen(s: Stable, h: History, nd: Node, commits: map<Id, nat>)
    requires NodeGood(s, h, nd) && commits.Keys == s.disks.Keys && PR.AllSeen(h, commits)
    ensures After(commits, nd).Keys == s.disks.Keys && PR.AllSeen(h, After(commits, nd))
  {
    hide GlobalOK, AcksOK, GrantsOK, LeaderOK, CandidateOK, Matched;
    if nd.committed != 0 {
      var t0: nat :| t0 in h.reigns && nd.committed <= h.reigns[t0].commit && Holds(nd.log, h.reigns[t0].log, nd.committed);
    }
  }

  // ---------------------------------------------------------------------------------------------
  // Leaders
  // ---------------------------------------------------------------------------------------------

  lemma QuietGood(s: Stable, h: History, nd: Node)
    requires NodeGood(s, h, nd)
    ensures NodeGood(s, h, Quiet(nd))
  {
    hide Good;
    var nd' := Quiet(nd);
    assert Matches(nd') == Matches(nd) && Out(nd') == Out(nd);
    assert V(nd') == V(nd);
    assert QueueOK(h, nd') && LeadOK(h, nd') && Fits(s, nd') && Flowing(nd');
  }

  lemma CheckQuorumGood(s: Stable, h: History, nd: Node, commits: map<Id, nat>)
    requires NodeGood(s, h, nd) && nd.state.StateLeader?
    ensures Stepped(s, h, h, nd, Quiet(if QuorumActive(nd) then nd else BecomeFollower(nd, nd.term, NONE)), commits)
  {
    hide GlobalOK, NodeGood, QuorumActive, Stepped;
    var nd1 := if QuorumActive(nd) then nd else BecomeFollower(nd, nd.term, NONE);
    if !QuorumActive(nd) { FollowGood(s, h, nd, nd.term, NONE); }
    QuietGood(s, h, nd1);
    Quietly(s, h, nd, Quiet(nd1), commits);
  }

  lemma PropGood(s: Stable, h: History, nd: Node, payloads: seq<Bytes>, commits: map<Id, nat>) returns (h': History)
    requires NodeGood(s, h, nd) && nd.state.StateLeader?
    ensures var (nd1, ok) := AppendEntry(nd, payloads);
            Stepped(s, h, h', nd, if ok then BcastAppend(nd1, nd.opt.peers) else nd, commits)
  {
    hide GlobalOK, NodeGood, AppendEntry, Later, Sending, Tracked, ReadsStep, BcastAppend;
    var (nd1, ok) := AppendEntry(nd, payloads);
    LaterSelf(s, h, nd.opt.id);
    if ok {
      h' := AppendEntryGood(s, h, nd, payloads);
      ClusterFacts(s, h', nd1);
      BcastGood(s, h', nd1, nd.opt.peers);
      var nd2 := BcastAppend(nd1, nd.opt.peers);
      SendingFacts(nd1, nd2);
      NoReads(h', nd, nd2, commits);
    } else {
      h' := h;
      NoReads(h', nd, nd, commits);
    }
  }

  lemma ReadIndexGood(s: Stable, h: History, nd: Node, m: Message, commits: map<Id, nat>) returns (h': History)
    requires NodeGood(s, h, nd) && nd.state.StateLeader? && m.ReadIndex?
    requires commits.Keys == s.disks.Keys && PR.AllSeen(h, commits)
    ensures Stepped(s, h, h', nd, StepLeader(nd, m), commits)
  {
    hide GlobalOK, NodeGood, Stepped, QueueRead, CommittedInTerm, Respond, PR.AllSeen;
    h' := h;
    var req := Request(m.from, m.data);
    if IsSingleton(nd) {
      RespondGood(s, h, nd, Queued(req, nd.committed));
      Quietly(s, h, nd, StepLeader(nd, m), commits);
    } else if !CommittedInTerm(nd) {
      WaitingGood(s, h, nd, nd.waiting + [req]);
      Quietly(s, h, nd, StepLeader(nd, m), commits);
    } else {
      h' := QueueSteps(s, h, nd, req, commits);
    }
  }

  lemma QueueSteps(s: Stable, h: History, nd: Node, req: Request, commits: map<Id, nat>) returns (h': History)
    requires NodeGood(s, h, nd) && nd.state.StateLeader? && CommittedInTerm(nd)
    requires commits.Keys == s.disks.Keys && PR.AllSeen(h, commits)
    ensures Stepped(s, h, h', nd, QueueRead(nd, req), commits)
  {
    hide GlobalOK, NodeGood, Later, QueueRead, CommittedInTerm, PR.AllSeen, WasMarked, PR.Fresh;
    CommitSeen(s, h, nd, commits);
    h' := QueueReadGood(s, h, nd, req, After(commits, nd));
    assert AllFresh(h', nd, nd.confirmed);
  }

  /** After an acknowledgement moved a peer forward. */
  lemma LeaderAckedGood(s: Stable, h: History, nd: Node, x: Id, commits: map<Id, nat>) returns (h': History)
    requires NodeGood(s, h, nd) && nd.state.StateLeader? && x in nd.prs
    requires commits.Keys == s.disks.Keys && PR.AllSeen(h, commits)
    ensures Stepped(s, h, h', nd, LeaderAcked(nd, x), commits)
  {
    hide GlobalOK, NodeGood, Later, MaybeCommit, BcastAppend, ReleaseWaiting, SendMore, MaybeSendAppend, Sending, Tracked,
         PR.AllSeen, ReadsStep, Bumpable, Send, Queueing;
    var (nd1, committed) := MaybeCommit(nd);
    if committed {
      h' := AdvanceGood(s, h, nd, commits);
      var nd2 := BcastAppend(ReleaseWaiting(nd1), nd.opt.peers);
      AckedRest(s, h', nd2, x);
      AckedReads(h', nd, nd2, LeaderAcked(nd, x), commits);
    } else {
      h' := h;
      LaterSelf(s, h, nd.opt.id);
      NotCommitted(nd);
      var nd2 := if x != nd.opt.id && Bumpable(nd.prs[x], nd.committed) then SendAppend(nd, x) else nd;
      SendingSelf(nd);
      if x != nd.opt.id && Bumpable(nd.prs[x], nd.committed) { AppendGood(s, h, nd, x, true); }
      SendingFacts(nd, nd2);
      AckedRest(s, h, nd2, x);
      NoReads(h, nd, LeaderAcked(nd, x), commits);
    }
  }

  lemma NotCommitted(nd: Node)
    requires !MaybeCommit(nd).1
    ensures MaybeCommit(nd).0 == nd
  {
  }

  /** Reads only depend on these fields. */
  lemma AckedReads(h: History, nd: Node, nd1: Node, nd2: Node, commits: map<Id, nat>)
    requires ReadsStep(h, nd, nd1, commits)
    requires nd2.state == nd1.state && nd2.term == nd1.term && nd2.queue == nd1.queue && nd2.confirmed == nd1.confirmed
    requires nd2.committed == nd1.committed && SameBase(nd1, nd2)
    requires nd2.readStates == nd1.readStates && Replies(nd2) == Replies(nd1) && AnswersStep(nd, nd1)
    ensures ReadsStep(h, nd, nd2, commits) && AnswersStep(nd, nd2)
  {
    hide MarkedWith, AllFresh;
    assert After(commits, nd2) == After(commits, nd1);
  }

  /** A leader's commit index moved: waiting reads are queued at it and everyone is told. */
  lemma AdvanceGood(s: Stable, h: History, nd: Node, commits: map<Id, nat>) returns (h': History)
    requires NodeGood(s, h, nd) && nd.state.StateLeader? && MaybeCommit(nd).1
    requires commits.Keys == s.disks.Keys && PR.AllSeen(h, commits)
    ensures var nd2 := BcastAppend(ReleaseWaiting(MaybeCommit(nd).0), nd.opt.peers);
            NodeGood(s, h', nd2) && Later(s, h, h', nd.opt.id) && ReadsStep(h', nd, nd2, commits) && AnswersStep(nd, nd2)
            && SameBase(nd, nd2) && nd2.state.StateLeader? && nd2.term == nd.term && nd2.committed >= nd.committed
            && nd2.prs.Keys == nd.prs.Keys
  {
    hide GlobalOK, NodeGood, Later, MaybeCommit, BcastAppend, ReleaseWaiting, Sending, Tracked, PR.AllSeen, WasMarked, PR.Fresh,
         CommittedInTerm;
    var nd1 := MaybeCommit(nd).0;
    var h1 := MaybeCommitGood(s, h, nd);
    SeenGrows(s, h, h1, nd.opt.id, commits);
    CommitSeen(s, h1, nd1, commits);
    h' := ReleaseGood(s, h1, nd1, After(commits, nd1));
    var nd2 := ReleaseWaiting(nd1);
    LaterTrans(s, h, h1, h', nd.opt.id);
    ClusterFacts(s, h', nd2);
    BcastGood(s, h', nd2, nd.opt.peers);
    SendingFacts(nd2, BcastAppend(nd2, nd.opt.peers));
  }

  /** The sends that end the handling of an acknowledgement. */
  lemma AckedRest(s: Stable, h: History, nd: Node, x: Id)
    requires NodeGood(s, h, nd) && nd.state.StateLeader? && x in nd.prs
    ensures var nd3 := if x != nd.opt.id then SendMore(nd, x) else nd;
            var nd4 := if x == nd3.transferee && x in nd3.prs && nd3.prs[x].matched == |nd3.log|
                       then Send(nd3, TimeoutNow(nd.opt.id, x, nd.term)) else nd3;
            NodeGood(s, h, nd4) && SameBase(nd, nd4) && nd4.state == nd.state && nd4.term == nd.term
            && nd4.committed == nd.committed && nd4.queue == nd.queue && nd4.confirmed == nd.confirmed
            && nd4.readStates == nd.readStates && Replies(nd4) == Replies(nd)
  {
    hide GlobalOK, NodeGood, SendMore, Sending;
    var nd3 := if x != nd.opt.id then SendMore(nd, x) else nd;
    SendingSelf(nd);
    if x != nd.opt.id { SendMoreGood(s, h, nd, x); }
    SendingFacts(nd, nd3);
    Transferee(s, h, nd3);
    if x == nd3.transferee { SendPlain(s, h, nd3, TimeoutNow(nd.opt.id, x, nd.term)); }
  }

  lemma Transferee(s: Stable, h: History, nd: Node)
    requires NodeGood(s, h, nd) && nd.state.StateLeader?
    ensures nd.transferee != nd.opt.id
  {
    hide Good;
  }

  lemma ActiveGood(s: Stable, h: History, nd: Node, x: Id, p: Peer)
    requires NodeGood(s, h, nd) && nd.state.StateLeader? && x in nd.prs
    requires p == nd.prs[x].(recentActive := p.recentActive, paused := p.paused)
    ensures NodeGood(s, h, WithPeer(nd, x, p)) && Sending(nd, WithPeer(nd, x, p)) && Flow(p, |nd.log|)
  {
    hide NodeGood;
    PeerFacts(s, h, nd, x);
    PeerGood(s, h, nd, x, p);
  }

  lemma AppRespGood(s: Stable, h: History, nd0: Node, m: Message, commits: map<Id, nat>) returns (h': History)
    requires NodeGood(s, h, nd0) && nd0.state.StateLeader? && m.AppResp? && m.from in nd0.prs
    requires m in s.net && m.to == nd0.opt.id && m.term == nd0.term
    requires commits.Keys == s.disks.Keys && PR.AllSeen(h, commits)
    ensures Stepped(s, h, h', nd0, LeaderAppResp(nd0, m), commits)
  {
    hide GlobalOK, NodeGood, Later, Flow, Acked, Rejected, MaybeSendAppend, Sending, PR.AllSeen, ReadsStep, LeaderAcked,
         FindConflictByTerm;
    var x := m.from;
    var nd := WithPeer(nd0, x, nd0.prs[x].(recentActive := true));
    ActiveGood(s, h, nd0, x, nd.prs[x]);
    NextInRange(nd.prs[x], |nd.log|);
    h' := h;
    if m.reject {
      RejectGood(s, h, nd, m);
      SendingFacts(nd, LeaderAppResp(nd0, m));
      Quietly(s, h, nd0, LeaderAppResp(nd0, m), commits);
    } else {
      AckedGood(s, h, nd, m);
      var (pr, news) := Acked(nd.prs[x], m.index, nd.compacted + 1);
      if news {
        h' := LeaderAckedGood(s, h, WithPeer(nd, x, pr), x, commits);
        SteppedFrom(s, h, h', nd0, WithPeer(nd, x, pr), LeaderAcked(WithPeer(nd, x, pr), x), commits);
      } else {
        Quietly(s, h, nd0, nd, commits);
      }
    }
  }

  lemma SteppedFrom(s: Stable, h: History, h': History, nd0: Node, nd1: Node, nd2: Node, commits: map<Id, nat>)
    requires nd1 == nd0.(prs := nd1.prs) && Stepped(s, h, h', nd1, nd2, commits)
    ensures Stepped(s, h, h', nd0, nd2, commits)
  {
    hide NodeGood, Later, MarkedWith, PR.Fresh;
  }

  /** A rejection lowers what is sent next, never what is known to match. */
  lemma RejectGood(s: Stable, h: History, nd: Node, m: Message)
    requires NodeGood(s, h, nd) && nd.state.StateLeader? && m.AppResp? && m.from in nd.prs
    requires m in s.net && m.to == nd.opt.id && m.reject && nd.prs[m.from].next > 0
    ensures var (pr, lowered) := Rejected(nd.prs[m.from], m.index, NextProbe(nd, m));
            var nd' := if lowered then SendAppend(WithPeer(nd, m.from, pr), m.from) else nd;
            NodeGood(s, h, nd') && Sending(nd, nd')
  {
    hide GlobalOK, NodeGood, Flow, Rejected, MaybeSendAppend, Sending, NextProbe;
    var x := m.from;
    var (pr, lowered) := Rejected(nd.prs[x], m.index, NextProbe(nd, m));
    SendingSelf(nd);
    if lowered {
      ClusterFacts(s, h, nd);
      RejectFacts(s, h, m);
      PeerFacts(s, h, nd, x);
      RejectFlows(nd.prs[x], |nd.log|, m.index, NextProbe(nd, m));
      PeerGood(s, h, nd, x, pr);
      var nd1 := WithPeer(nd, x, pr);
      AppendGood(s, h, nd1, x, true);
      SendingTrans(nd, nd1, SendAppend(nd1, x));
    }
  }

  lemma RejectFacts(s: Stable, h: History, m: Message)
    requires GlobalOK(s, h) && m in s.net && ((m.AppResp? && m.reject) || m.HeartbeatResp?)
    ensures m.from != m.to
  {
    hide NodeOK, Complete, MarkOK, BidOK, ReignOK;
    NetFacts(s, h, m);
  }

  lemma HeartbeatRespGood(s: Stable, h: History, nd0: Node, m: Message, commits: map<Id, nat>)
    requires NodeGood(s, h, nd0) && nd0.state.StateLeader? && m.HeartbeatResp? && m.from in nd0.prs
    requires m in s.net && m.to == nd0.opt.id && m.term == nd0.term
    ensures Stepped(s, h, h, nd0, LeaderHeartbeatResp(nd0, m), commits)
  {
    hide GlobalOK, NodeGood, Later, Flow, MaybeSendAppend, Sending, RecvAck, MaybeAdvance, RespondAll, Unblocked, PR.Fresh;
    var x := m.from;
    var nd := WithPeer(nd0, x, nd0.prs[x].(recentActive := true, paused := false));
    ActiveGood(s, h, nd0, x, nd.prs[x]);
    ClusterFacts(s, h, nd);
    RejectFacts(s, h, m);
    AppendGood(s, h, nd, x, true);
    SendingSelf(nd);
    var nd1 := if nd.prs[x].matched < |nd.log| || nd.prs[x].mode.Probe? then SendAppend(nd, x) else nd;
    SendingFacts(nd, nd1);
    if m.ctx == 0 {
      Quietly(s, h, nd0, nd1, commits);
    } else {
      ConfirmInRange(s, h, nd1, m);
      RecvAckGood(s, h, nd1, x, m.ctx);
      ConfirmGood(s, h, nd0, RecvAck(nd1, x, m.ctx), commits);
    }
  }

  lemma ConfirmInRange(s: Stable, h: History, nd: Node, m: Message)
    requires NodeGood(s, h, nd) && nd.state.StateLeader? && m.HeartbeatResp? && m in s.net && m.term == nd.term && m.ctx > 0
    ensures m.ctx <= Total(nd) && Unblocked(h, m.from, nd.term, m.ctx)
  {
    hide GlobalOK, Good, V, Sane, Unblocked;
    ViewCore(nd);
    PR.ReadRespInRange(s, h, nd.opt.id, V(nd), m);
  }

  /** Confirming and answering reads. */
  lemma ConfirmGood(s: Stable, h: History, nd0: Node, nd: Node, commits: map<Id, nat>)
    requires NodeGood(s, h, nd) && nd.state.StateLeader? && nd0.state.StateLeader? && SameBase(nd0, nd) && nd.term == nd0.term
    requires nd.queue == nd0.queue && nd.confirmed == nd0.confirmed && nd.committed == nd0.committed
    requires nd.readStates == nd0.readStates && Replies(nd) == Replies(nd0)
    ensures var (nd2, qs) := MaybeAdvance(nd);
            Stepped(s, h, h, nd0, RespondAll(nd2, qs), commits)
  {
    hide GlobalOK, NodeGood, Later, MaybeAdvance, RespondAll, PR.Fresh;
    var (nd2, qs) := MaybeAdvance(nd);
    MaybeAdvanceGood(s, h, nd);
    RespondAllGood(s, h, nd2, qs);
    LaterSelf(s, h, nd.opt.id);
    var nd3 := RespondAll(nd2, qs);
    RespondAllIs(nd2, qs);
    assert MarkedWith(h, nd.term, Total(nd0), Total(nd3), After(commits, nd3));
  }

  lemma TransferGood(s: Stable, h: History, nd: Node, x: Id, commits: map<Id, nat>)
    requires NodeGood(s, h, nd) && nd.state.StateLeader? && x in nd.prs
    ensures Stepped(s, h, h, nd, LeaderTransfer(nd, x), commits)
  {
    hide GlobalOK, NodeGood, MaybeSendAppend, Sending, Stepped;
    if nd.prs[x].learner || nd.transferee == x {
      Quietly(s, h, nd, nd, commits);
    } else if x == nd.opt.id {
      ClusterFacts(s, h, nd);
      TransfereeGood(s, h, nd, NONE);
      Quietly(s, h, nd, nd.(transferee := NONE), commits);
    } else {
      TransfereeGood(s, h, nd, x);
      var nd1 := nd.(transferee := x);
      if nd.prs[x].matched == |nd.log| {
        SendPlain(s, h, nd1, TimeoutNow(nd.opt.id, x, nd.term));
        Quietly(s, h, nd, Send(nd1, TimeoutNow(nd.opt.id, x, nd.term)), commits);
      } else {
        AppendGood(s, h, nd1, x, true);
        SendingFacts(nd1, SendAppend(nd1, x));
        Quietly(s, h, nd, SendAppend(nd1, x), commits);
      }
    }
  }

  lemma TransfereeGood(s: Stable, h: History, nd: Node, x: Id)
    requires NodeGood(s, h, nd) && x != nd.opt.id
    ensures NodeGood(s, h, nd.(transferee := x))
  {
    hide Good;
    var nd' := nd.(transferee := x);
    assert Matches(nd') == Matches(nd) && Out(nd') == Out(nd);
    assert V(nd') == V(nd);
    assert QueueOK(h, nd') && LeadOK(h, nd') && Fits(s, nd') && Flowing(nd');
  }

  lemma PeerSteps(s: Stable, h: History, nd: Node, x: Id, p: Peer, commits: map<Id, nat>)
    requires NodeGood(s, h, nd) && nd.state.StateLeader? && x in nd.prs
    requires p.matched == nd.prs[x].matched && Flow(p, |nd.log|)
    ensures Stepped(s, h, h, nd, WithPeer(nd, x, p), commits)
  {
    hide GlobalOK, NodeGood, Flow, Stepped;
    PeerGood(s, h, nd, x, p);
    Quietly(s, h, nd, WithPeer(nd, x, p), commits);
  }

  lemma SnapStatusGood(s: Stable, h: History, nd: Node, m: Message, commits: map<Id, nat>)
    requires NodeGood(s, h, nd) && nd.state.StateLeader? && (m.SnapStatus? || m.Unreachable?)
    ensures Stepped(s, h, h, nd, StepLeader(nd, m), commits)
  {
    hide GlobalOK, NodeGood, Stepped;
    Quietly(s, h, nd, nd, commits);
    var x := m.from;
    if x in nd.prs {
      PeerFacts(s, h, nd, x);
      var pr := if m.SnapStatus? && m.failed then nd.prs[x].(pendingSnapshot := 0) else nd.prs[x];
      ProbeFlows(pr, |nd.log|);
      PeerSteps(s, h, nd, x, Probing(pr), commits);
      PeerSteps(s, h, nd, x, Probing(pr).(paused := true), commits);
    }
  }

  /** Responses speak of the leader's own term. */
  predicate InTerm(nd: Node, m: Message) {
    Firm(m) || m.Snap? ==> m.term == nd.term
  }

  lemma StepLeaderGood(s: Stable, h: History, nd: Node, m: Message, commits: map<Id, nat>) returns (h': History)
    requires NodeGood(s, h, nd) && nd.state.StateLeader? && Steppable(s, nd, m) && InTerm(nd, m)
    requires commits.Keys == s.disks.Keys && PR.AllSeen(h, commits)
    ensures Stepped(s, h, h', nd, StepLeader(nd, m), commits)
  {
    hide GlobalOK, NodeGood, Stepped, LeaderAppResp, LeaderHeartbeatResp, LeaderTransfer, AppendEntry, BcastHeartbeat,
         Quiet, QuorumActive, PR.AllSeen, Tracked, Sending, QueueRead, BcastAppend, MsgOK;
    h' := h;
    match m
    case Beat(_, _) =>
      ClusterFacts(s, h, nd);
      BcastHeartbeatGood(s, h, nd, nd.opt.peers, HeartbeatCtx(nd));
      SendingFacts(nd, StepLeader(nd, m));
      Quietly(s, h, nd, StepLeader(nd, m), commits);
    case CheckQuorum(_, _) => CheckQuorumGood(s, h, nd, commits);
    case Prop(_, _, payloads) =>
      PropFacts(s, h, nd, m);
      Quietly(s, h, nd, nd, commits);
      ClusterFacts(s, h, nd);
      if nd.transferee == NONE { h' := PropGood(s, h, nd, payloads, commits); }
    case ReadIndex(_, _, _) => h' := ReadIndexGood(s, h, nd, m, commits);
    case AppResp(from, _, _, _, _, _, _) =>
      if from in nd.prs { h' := AppRespGood(s, h, nd, m, commits); } else { Quietly(s, h, nd, nd, commits); }
    case HeartbeatResp(from, _, _, _) =>
      if from in nd.prs { HeartbeatRespGood(s, h, nd, m, commits); } else { Quietly(s, h, nd, nd, commits); }
    case SnapStatus(_, _, _) => SnapStatusGood(s, h, nd, m, commits);
    case Unreachable(_, _) => SnapStatusGood(s, h, nd, m, commits);
    case TransferLeader(from, _, _) =>
      if from in nd.prs { TransferGood(s, h, nd, from, commits); } else { Quietly(s, h, nd, nd, commits); }
    case _ => Quietly(s, h, nd, nd, commits);
  }

  lemma PropFacts(s: Stable, h: History, nd: Node, m: Message)
    requires NodeGood(s, h, nd) && m.Prop? && Steppable(s, nd, m)
    ensures m.payloads != []
  {
    hide NodeOK, ReignOK, Complete, MarkOK, BidOK, Sane;
    if m in s.net { NetFacts(s, h, m); }
  }

  // ---------------------------------------------------------------------------------------------
  // Candidates and followers
  // ---------------------------------------------------------------------------------------------

  /** The messages only a leader sends. */
  predicate FromLeader(m: Message) {
    m.App? || m.Heartbeat? || m.Snap?
  }

  /** What a follower of the sender does with them. */
  function Follow(nd: Node, m: Message): Node
    requires FromLeader(m)
  {
    if m.App? then HandleAppendEntries(nd, m)
    else if m.Heartbeat? then HandleHeartbeat(nd, m)
    else HandleSnapshot(nd, m)
  }

  lemma FromLeaderFacts(s: Stable, h: History, m: Message)
    requires GlobalOK(s, h) && m in s.net && FromLeader(m)
    ensures m.term in h.reigns && h.reigns[m.term].leader == m.from && m.from != m.to && m.term > 0
  {
    hide GlobalOK, SliceOf, Contiguous, Holds;
    if m.App? { AppFacts(s, h, m); } else if m.Heartbeat? { HeartbeatFacts(s, h, m); } else { SnapFacts(s, h, m); }
    LeaderTermPositive(s, h, m.term);
  }

  lemma FollowsGood(s: Stable, h: History, nd: Node, m: Message)
    requires NodeGood(s, h, nd) && nd.state.StateFollower? && FromLeader(m) && m in s.net
    requires m.to == nd.opt.id && m.term == nd.term && m.from != nd.opt.id
    ensures NodeGood(s, h, Follow(nd, m)) && Rebased(nd, Follow(nd, m))
  {
    hide NodeGood, HandleAppendEntries, HandleHeartbeat, HandleSnapshot;
    if m.App? {
      AppendEntriesGood(s, h, nd, m);
    } else if m.Heartbeat? {
      HeartbeatGood(s, h, nd, m);
    } else {
      HandleSnapshotGood(s, h, nd, m);
    }
  }

  lemma CandidateAppGood(s: Stable, h: History, nd: Node, m: Message, commits: map<Id, nat>)
    requires NodeGood(s, h, nd) && !nd.state.StateLeader? && FromLeader(m)
    requires m in s.net && m.to == nd.opt.id && m.term == nd.term
    ensures Stepped(s, h, h, nd, Follow(BecomeFollower(nd, m.term, m.from), m), commits)
  {
    hide GlobalOK, NodeGood, Stepped, HandleAppendEntries, HandleHeartbeat, HandleSnapshot, BecomeFollower;
    ClusterFacts(s, h, nd);
    FromLeaderFacts(s, h, m);
    FollowGood(s, h, nd, m.term, m.from);
    var nd1 := BecomeFollower(nd, m.term, m.from);
    FollowCore(nd, m.term, m.from);
    FollowsGood(s, h, nd1, m);
    Quietly(s, h, nd, Follow(nd1, m), commits);
  }

  lemma StepCandidateGood(s: Stable, h: History, nd: Node, m: Message, commits: map<Id, nat>) returns (h': History)
    requires NodeGood(s, h, nd) && (nd.state.StateCandidate? || nd.state.StatePreCandidate?)
    requires Steppable(s, nd, m) && InTerm(nd, m)
    ensures Stepped(s, h, h', nd, StepCandidate(nd, m), commits)
  {
    hide GlobalOK, NodeGood, Later, ReadsStep, HandleAppendEntries, HandleHeartbeat, HandleSnapshot, BecomeFollower, Poll;
    h' := h;
    match m
    case App(_, _, _, _, _, _, _) => CandidateAppGood(s, h, nd, m, commits);
    case Heartbeat(_, _, _, _, _) => CandidateAppGood(s, h, nd, m, commits);
    case Snap(_, _, _, _, _, _) => CandidateAppGood(s, h, nd, m, commits);
    case PreVoteResp(from, _, _, reject) =>
      if nd.state.StatePreCandidate? {
        h' := PollSteps(s, h, nd, from, !reject, commits);
      } else {
        Quietly(s, h, nd, nd, commits);
      }
    case VoteResp(from, _, _, reject) =>
      if nd.state.StatePreCandidate? {
        Quietly(s, h, nd, nd, commits);
      } else {
        assert reject || m == VoteResp(from, nd.opt.id, nd.term, false);
        h' := PollSteps(s, h, nd, from, !reject, commits);
      }
    case _ => Quietly(s, h, nd, nd, commits);
  }

  lemma PollSteps(s: Stable, h: History, nd: Node, x: Id, granted: bool, commits: map<Id, nat>) returns (h': History)
    requires NodeGood(s, h, nd) && (nd.state.StateCandidate? || nd.state.StatePreCandidate?)
    requires nd.state.StateCandidate? && granted ==> VoteResp(x, nd.opt.id, nd.term, false) in s.net
    ensures Stepped(s, h, h', nd, Poll(nd, x, granted), commits)
  {
    hide GlobalOK, NodeGood, Later, Poll;
    h' := PollGood(s, h, nd, x, granted);
  }

  lemma LeadGood(s: Stable, h: History, nd: Node, lead: Id)
    requires NodeGood(s, h, nd) && nd.state.StateFollower?
    requires lead == NONE || (lead != nd.opt.id && nd.term in h.reigns && h.reigns[nd.term].leader == lead)
    ensures NodeGood(s, h, nd.(lead := lead))
  {
    hide Good;
    var nd' := nd.(lead := lead);
    assert Out(nd') == Out(nd);
    assert V(nd') == V(nd);
    assert QueueOK(h, nd') && LeadOK(h, nd') && Fits(s, nd') && Flowing(nd');
  }

  lemma FollowerAppGood(s: Stable, h: History, nd: Node, m: Message, commits: map<Id, nat>)
    requires NodeGood(s, h, nd) && nd.state.StateFollower? && FromLeader(m)
    requires m in s.net && m.to == nd.opt.id && m.term == nd.term
    ensures Stepped(s, h, h, nd, StepFollower(nd, m), commits)
  {
    hide GlobalOK, NodeGood, Stepped, HandleAppendEntries, HandleHeartbeat, HandleSnapshot;
    ClusterFacts(s, h, nd);
    FromLeaderFacts(s, h, m);
    LeadGood(s, h, nd, m.from);
    var nd1 := nd.(lead := m.from);
    FollowsGood(s, h, nd1, m);
    Quietly(s, h, nd, Follow(nd1, m), commits);
  }

  lemma LeadFacts(s: Stable, h: History, nd: Node)
    requires NodeGood(s, h, nd) && nd.state.StateFollower? && nd.lead != NONE
    ensures nd.lead != nd.opt.id && nd.term in h.reigns && h.reigns[nd.term].leader == nd.lead
  {
    hide Good;
  }

  /** A transfer request that was forwarded once goes to the leader of its term; the node it reaches
      either leads or knows no leader, so it is never forwarded again. */
  lemma ForwardedOnce(s: Stable, h: History, nd: Node, m: Message)
    requires NodeGood(s, h, nd) && nd.state.StateFollower? && nd.lead != NONE
    requires m.TransferLeader? && Steppable(s, nd, m) && (m.term == 0 || m.term == nd.term)
    ensures m.term == 0
  {
    hide NodeOK, ReignOK, Complete, MarkOK, BidOK, Sane;
    LeadFacts(s, h, nd);
    if m in s.net { NetFacts(s, h, m); }
  }

  lemma CampaignSteps(s: Stable, h: History, nd: Node, t: CampaignType, commits: map<Id, nat>) returns (h': History)
    requires NodeGood(s, h, nd)
    ensures Stepped(s, h, h', nd, StartCampaign(nd, t), commits)
  {
    hide GlobalOK, NodeGood, Later, Campaign;
    if nd.state.StateLeader? || !Promotable(nd) {
      Quietly(s, h, nd, nd, commits);
      h' := h;
    } else {
      h' := CampaignGood(s, h, nd, t);
    }
  }

  lemma StepFollowerGood(s: Stable, h: History, nd: Node, m: Message, commits: map<Id, nat>) returns (h': History)
    requires NodeGood(s, h, nd) && nd.state.StateFollower? && Steppable(s, nd, m) && InTerm(nd, m)
    requires m.TransferLeader? ==> m.term == 0 || m.term == nd.term
    ensures Stepped(s, h, h', nd, StepFollower(nd, m), commits)
  {
    hide GlobalOK, NodeGood, Stepped, HandleAppendEntries, HandleHeartbeat, HandleSnapshot, StartCampaign;
    h' := h;
    ClusterFacts(s, h, nd);
    Quietly(s, h, nd, nd, commits);
    match m
    case App(_, _, _, _, _, _, _) => FollowerAppGood(s, h, nd, m, commits);
    case Heartbeat(_, _, _, _, _) => FollowerAppGood(s, h, nd, m, commits);
    case Snap(_, _, _, _, _, _) => FollowerAppGood(s, h, nd, m, commits);
    case Prop(_, _, _) =>
      PropFacts(s, h, nd, m);
      ForwardGood(s, h, nd, Prop(if m.from == NONE then nd.opt.id else m.from, nd.lead, m.payloads), commits);
    case TransferLeader(from, _, _) =>
      if nd.lead != NONE { ForwardedOnce(s, h, nd, m); }
      ForwardGood(s, h, nd, TransferLeader(if from == NONE then nd.opt.id else from, nd.lead, nd.term), commits);
    case ForgetLeader(_, _) =>
      LeadGood(s, h, nd, NONE);
      Quietly(s, h, nd, nd.(lead := NONE), commits);
    case TimeoutNow(_, _, _) => h' := CampaignSteps(s, h, nd, Transfer, commits);
    case ReadIndex(from, _, data) =>
      ForwardGood(s, h, nd, ReadIndex(if from == NONE then nd.opt.id else from, nd.lead, data), commits);
    case ReadIndexResp(_, _, _, index, data) =>
      ReadStatesGood(s, h, nd, nd.readStates + [ReadState(index, data)]);
      Quietly(s, h, nd, nd.(readStates := nd.readStates + [ReadState(index, data)]), commits);
    case _ =>
  }

  /** Passing a request on to the leader. */
  lemma ForwardGood(s: Stable, h: History, nd: Node, m: Message, commits: map<Id, nat>)
    requires NodeGood(s, h, nd) && nd.state.StateFollower? && m.to == nd.lead
    requires (m.Prop? && m.payloads != []) || (m.TransferLeader? && m.term == nd.term) || m.ReadIndex?
    ensures nd.lead != NONE ==> Stepped(s, h, h, nd, Send(nd, m), commits)
  {
    hide GlobalOK, NodeGood, Stepped;
    if nd.lead != NONE {
      LeadFacts(s, h, nd);
      SendPlain(s, h, nd, m);
      Quietly(s, h, nd, Send(nd, m), commits);
    }
  }

  // ---------------------------------------------------------------------------------------------
  // Any message
  // ---------------------------------------------------------------------------------------------

  /** The terms with which messages reach their handlers. */
  predicate TermFits(nd: Node, m: Message) {
    InTerm(nd, m) && (m.TransferLeader? ==> m.term == 0 || m.term == nd.term) && (m.PreVote? ==> m.term >= nd.term)
  }

  lemma HandleGood(s: Stable, h: History, nd: Node, m: Message, commits: map<Id, nat>) returns (h': History)
    requires NodeGood(s, h, nd) && Steppable(s, nd, m) && TermFits(nd, m)
    requires commits.Keys == s.disks.Keys && PR.AllSeen(h, commits)
    ensures Stepped(s, h, h', nd, Handle(nd, m), commits)
  {
    hide GlobalOK, NodeGood, Stepped, HandleVote, StartCampaign, StepLeader, StepFollower, StepCandidate, PR.AllSeen;
    h' := h;
    match m
    case Hup(_, _) => h' := CampaignSteps(s, h, nd, if nd.opt.preVote then PreElection else Election, commits);
    case Vote(_, _, _, _, _, _) => VoteSteps(s, h, nd, m, commits);
    case PreVote(_, _, _, _, _) => VoteSteps(s, h, nd, m, commits);
    case StorageApplyResp(_, _, size) => ReduceGood(s, h, nd, size, commits);
    case _ =>
      if nd.state.StateLeader? {
        h' := StepLeaderGood(s, h, nd, m, commits);
      } else if nd.state.StateFollower? {
        h' := StepFollowerGood(s, h, nd, m, commits);
      } else {
        h' := StepCandidateGood(s, h, nd, m, commits);
      }
  }

  lemma ReduceGood(s: Stable, h: History, nd: Node, size: nat, commits: map<Id, nat>)
    requires NodeGood(s, h, nd)
    ensures Stepped(s, h, h, nd, ReduceUncommitted(nd, size), commits)
  {
    hide Good;
    var nd' := ReduceUncommitted(nd, size);
    assert Matches(nd') == Matches(nd) && Out(nd') == Out(nd);
    assert V(nd') == V(nd);
    assert QueueOK(h, nd') && LeadOK(h, nd') && Fits(s, nd') && Flowing(nd');
    hide NodeGood, Stepped;
    Quietly(s, h, nd, nd', commits);
  }

  lemma VoteSteps(s: Stable, h: History, nd: Node, m: Message, commits: map<Id, nat>)
    requires NodeGood(s, h, nd) && (m.Vote? || m.PreVote?) && m in s.net && TermFits(nd, m)
    ensures Stepped(s, h, h, nd, HandleVote(nd, m), commits)
  {
    hide GlobalOK, NodeGood, Stepped, IsUpToDate;
    ClusterFacts(s, h, nd);
    VoteTerm(s, h, m);
    HandleVoteGood(s, h, nd, m);
    Quietly(s, h, nd, HandleVote(nd, m), commits);
  }

  lemma VoteTerm(s: Stable, h: History, m: Message)
    requires GlobalOK(s, h) && m in s.net && (Firm(m) || m.PreVote?)
    ensures m.term > 0
  {
    hide NodeOK, ReignOK, Complete, MarkOK, BidOK;
    NetFacts(s, h, m);
  }

  /** Entering the term of a message. */
  lemma CatchGood(s: Stable, h: History, nd: Node, m: Message)
    requires NodeGood(s, h, nd) && Steppable(s, nd, m) && TermOf(m) > nd.term
    ensures NodeGood(s, h, Catch(nd, m)) && Steppable(s, Catch(nd, m), m) && TermFits(Catch(nd, m), m)
    ensures Catch(nd, m) == nd || (Catch(nd, m).term == TermOf(m) && Catch(nd, m).state.StateFollower?)
    ensures SameBase(nd, Catch(nd, m)) && Catch(nd, m).committed == nd.committed
  {
    hide GlobalOK, NodeGood, BecomeFollower;
    ClusterFacts(s, h, nd);
    if FromLeader(m) { FromLeaderFacts(s, h, m); }
    if m.PreVote? || (m.PreVoteResp? && !m.reject) {
    } else if FromLeader(m) {
      FollowGood(s, h, nd, m.term, m.from);
      FollowCore(nd, m.term, m.from);
    } else {
      FollowGood(s, h, nd, m.term, NONE);
      FollowCore(nd, m.term, NONE);
    }
  }

  lemma LowTermGood(s: Stable, h: History, nd: Node, m: Message, commits: map<Id, nat>)
    requires NodeGood(s, h, nd) && Steppable(s, nd, m) && 0 < TermOf(m) < nd.term
    ensures Stepped(s, h, h, nd, LowTerm(nd, m), commits)
  {
    hide GlobalOK, NodeGood, Stepped;
    Quietly(s, h, nd, nd, commits);
    var ack := AppResp(nd.opt.id, m.from, nd.term, 0, false, 0, 0);
    SendPlain(s, h, nd, ack);
    Quietly(s, h, nd, Send(nd, ack), commits);
    var no := PreVoteResp(nd.opt.id, m.from, nd.term, true);
    SendPlain(s, h, nd, no);
    Quietly(s, h, nd, Send(nd, no), commits);
  }

  /** One step of a node, whatever the message. */
  lemma StepGood(s: Stable, h: History, nd: Node, m: Message, recent: bool, commits: map<Id, nat>) returns (h': History)
    requires NodeGood(s, h, nd) && Steppable(s, nd, m)
    requires commits.Keys == s.disks.Keys && PR.AllSeen(h, commits)
    ensures Stepped(s, h, h', nd, Step(nd, m, recent), commits)
  {
    hide GlobalOK, NodeGood, Stepped, Handle, Catch, LowTerm, InLease, PR.AllSeen;
    h' := h;
    var t := TermOf(m);
    if t > nd.term {
      if InLease(nd, m, recent) {
        Quietly(s, h, nd, nd, commits);
      } else {
        CatchGood(s, h, nd, m);
        var nd1 := Catch(nd, m);
        h' := HandleGood(s, h, nd1, m, commits);
        CaughtUp(s, h, h', nd, nd1, Handle(nd1, m), commits);
      }
    } else if 0 < t < nd.term {
      LowTermGood(s, h, nd, m, commits);
    } else {
      Stamped(s, h, nd, m);
      h' := HandleGood(s, h, nd, m, commits);
    }
  }

  lemma Stamped(s: Stable, h: History, nd: Node, m: Message)
    requires NodeGood(s, h, nd) && Steppable(s, nd, m) && (TermOf(m) == 0 || TermOf(m) == nd.term)
    ensures TermFits(nd, m)
  {
    hide GlobalOK, NodeGood;
    ClusterFacts(s, h, nd);
    if Firm(m) || m.PreVote? { VoteTerm(s, h, m); }
    if m.Snap? { FromLeaderFacts(s, h, m); }
  }

  lemma CaughtUp(s: Stable, h: History, h': History, nd: Node, nd1: Node, nd2: Node, commits: map<Id, nat>)
    requires Stepped(s, h, h', nd1, nd2, commits) && SameBase(nd, nd1) && nd1.committed == nd.committed
    requires nd1 == nd || (nd1.term > nd.term && nd1.state.StateFollower?)
    ensures Stepped(s, h, h', nd, nd2, commits)
  {
    hide NodeGood, Later, MarkedWith, PR.Fresh;
  }
}
