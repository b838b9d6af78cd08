/** A leader taking acknowledgements, committing, proposing and answering reads keeps the cluster in
    order and never panics. */
module NodeCommit {
  import opened Types
  import opened Quorum
  import opened Messages
  import opened Limit
  import opened PeerProgress
  import opened Node
  import opened Protocol
  import opened ProtocolFrame
  import opened ProtocolSteps
  import opened ProtocolLeader
  import opened ProtocolReign
  import opened NodeView
  import opened NodeLeader

  lemma ClusterFacts(s: Stable, h: History, nd: Node)
    requires NodeGood(s, h, nd)
    ensures s.cfg.incoming != {} && nd.opt.voters == s.cfg && nd.opt.id in s.disks && GlobalOK(s, h)
    ensures nd.opt.id in nd.prs && nd.opt.id != NONE && NONE !in nd.prs && Tracked(nd, nd.opt.peers)
  {
    hide NodeOK, NetOK, ReignOK, Complete, MarkOK, BidOK;
  }

  // ---------------------------------------------------------------------------------------------
  // Acknowledgements
  // ---------------------------------------------------------------------------------------------

  lemma AckView(nd: Node, x: Id, p: Peer)
    requires nd.state.StateLeader? && x in nd.prs
    ensures V(WithPeer(nd, x, p)) == V(nd).(acked := V(nd).acked[x := p.matched])
  {
    assert Out(WithPeer(nd, x, p)) == Out(nd);
    assert Matches(WithPeer(nd, x, p)) == Matches(nd)[x := p.matched];
  }

  lemma AckGood(s: Stable, h: History, nd: Node, x: Id, p: Peer)
    requires NodeGood(s, h, nd) && nd.state.StateLeader? && x in nd.prs && x in s.disks
    requires AckSent(s, h, x, nd.term, p.matched) && Flow(p, |nd.log|)
    ensures NodeGood(s, h, WithPeer(nd, x, p))
  {
    hide GlobalOK, Good, V, Flow, AckSent;
    AckView(nd, x, p);
    ViewCore(nd);
    CountAck(s, h, nd.opt.id, V(nd), x, p.matched);
    var nd' := WithPeer(nd, x, p);
    FlowWindow(p, |nd.log|);
    assert QueueOK(h, nd') && LeadOK(h, nd') && Fits(s, nd') && Flowing(nd');
  }

  lemma FlowWindow(p: Peer, last: nat)
    requires Flow(p, last)
    ensures p.window.size > 0
  {
  }

  lemma ViewCore(nd: Node)
    ensures V(nd).term == nd.term && V(nd).log == nd.log && V(nd).commit == nd.committed && V(nd).vote == nd.vote
    ensures V(nd).role == RoleOf(nd.state)
    ensures nd.state.StateLeader? ==> V(nd).queued == Total(nd) && V(nd).readAcks == nd.acks
  {
  }

  /** An accepted acknowledgement in the leader's own term. */
  lemma AckedGood(s: Stable, h: History, nd: Node, m: Message)
    requires NodeGood(s, h, nd) && nd.state.StateLeader? && m.AppResp? && m.from in nd.prs
    requires m in s.net && m.term == nd.term && !m.reject
    ensures NodeGood(s, h, WithPeer(nd, m.from, Acked(nd.prs[m.from], m.index, nd.compacted + 1).0))
  {
    hide GlobalOK, NodeGood, Flow, Acked, AckSent, Matches;
    var x := m.from;
    var p := Acked(nd.prs[x], m.index, nd.compacted + 1).0;
    PeerFacts(s, h, nd, x);
    ClusterFacts(s, h, nd);
    AckInNet(s, h, m);
    AckInRange(s, h, nd, x, m.index);
    AckFlows(nd.prs[x], |nd.log|, m.index, nd.compacted + 1);
    if m.index <= nd.prs[x].matched {
      PeerGood(s, h, nd, x, p);
    } else {
      AckGood(s, h, nd, x, p);
    }
  }

  lemma AckInNet(s: Stable, h: History, m: Message)
    requires GlobalOK(s, h) && m in s.net && m.AppResp? && !m.reject
    ensures m.from in s.disks && AckSent(s, h, m.from, m.term, m.index)
  {
    hide MsgOK, NodeOK, ReignOK, Complete, MarkOK, BidOK;
    NetFacts(s, h, m);
    assert IsAck(m, m.from, m.term, m.index);
  }

  lemma AckInRange(s: Stable, h: History, nd: Node, x: Id, k: nat)
    requires NodeGood(s, h, nd) && nd.state.StateLeader? && AckSent(s, h, x, nd.term, k)
    ensures k <= |nd.log|
  {
    hide GlobalOK, NodeOK, Sane, AckSent, Matches, Out;
    AckBounded(s, h, nd.opt.id, V(nd), x, k);
  }

  // ---------------------------------------------------------------------------------------------
  // Committing
  // ---------------------------------------------------------------------------------------------

  lemma QuorumAcked(nd: Node, k: nat)
    requires nd.state.StateLeader? && nd.opt.voters.incoming != {} && 0 < k == JointCommitted(nd.opt.voters, Matches(nd))
    ensures IsQuorum(nd.opt.voters, AckedUpTo(V(nd), k))
  {
    var acked := Matches(nd);
    JointExactly(nd.opt.voters, acked, k);
    assert AckedBy(Voters(nd.opt.voters), acked, k) <= AckedUpTo(V(nd), k);
    QuorumGrows(nd.opt.voters, AckedBy(Voters(nd.opt.voters), acked, k), AckedUpTo(V(nd), k));
  }

  lemma CommitView(nd: Node, k: nat)
    ensures V(nd.(committed := k)) == V(nd).(commit := k)
  {
    assert Matches(nd.(committed := k)) == Matches(nd);
    assert Out(nd.(committed := k)) == Out(nd);
  }

  lemma MaybeCommitGood(s: Stable, h: History, nd: Node) returns (h': History)
    requires NodeGood(s, h, nd) && nd.state.StateLeader?
    ensures NodeGood(s, h', MaybeCommit(nd).0) && Later(s, h, h', nd.opt.id) && h'.marks == h.marks
    ensures MaybeCommit(nd).0 == nd.(committed := MaybeCommit(nd).0.committed)
    ensures MaybeCommit(nd).0.committed >= nd.committed
    ensures MaybeCommit(nd).1 ==> CommittedInTerm(MaybeCommit(nd).0)
  {
    hide GlobalOK, NodeGood, Matches, JointCommitted, Later;
    var k := JointCommitted(nd.opt.voters, Matches(nd));
    LaterSelf(s, h, nd.opt.id);
    if nd.term != 0 && k > nd.committed && MatchTerm(nd, k, nd.term) {
      ClusterFacts(s, h, nd);
      QuorumAcked(nd, k);
      CommitView(nd, k);
      h' := CommitGood(s, h, nd, k);
    } else {
      h' := h;
    }
  }

  lemma CommitGood(s: Stable, h: History, nd: Node, k: nat) returns (h': History)
    requires NodeGood(s, h, nd) && nd.state.StateLeader? && nd.committed < k && MatchTerm(nd, k, nd.term)
    requires IsQuorum(nd.opt.voters, AckedUpTo(V(nd), k))
    ensures NodeGood(s, h', nd.(committed := k)) && Later(s, h, h', nd.opt.id) && h'.marks == h.marks
  {
    hide GlobalOK, Good, V, Later, IsQuorum;
    ViewCore(nd);
    h' := LeaderCommit(s, h, nd.opt.id, V(nd), k);
    CommitView(nd, k);
    var nd' := nd.(committed := k);
    assert Sane(s, h', nd') by { CommitSane(s, h, h', nd, k); }
  }

  lemma CommitSane(s: Stable, h: History, h': History, nd: Node, k: nat)
    requires Sane(s, h, nd) && Later(s, h, h', nd.opt.id) && nd.committed < k
    ensures Sane(s, h', nd.(committed := k))
  {
    hide NodeOK;
    var nd' := nd.(committed := k);
    SaneStays(s, h, h', nd);
    assert QueueOK(h', nd') && LeadOK(h', nd') && Fits(s, nd') && Flowing(nd');
  }

  // ---------------------------------------------------------------------------------------------
  // Proposing
  // ---------------------------------------------------------------------------------------------

  lemma AppendView(nd: Node, ents: seq<Entry>, size: nat)
    ensures V(nd.(uncommitted := size, log := nd.log + ents)) == V(nd).(log := nd.log + ents)
  {
    var nd' := nd.(uncommitted := size, log := nd.log + ents);
    assert Matches(nd') == Matches(nd) && Out(nd') == Out(nd);
  }

  lemma AppendsAtEnd(nd: Node, payloads: seq<Bytes>, size: nat)
    requires nd.committed <= |nd.log|
    ensures AppendLog(nd.(uncommitted := size), NewEntries(nd, payloads))
            == nd.(uncommitted := size, log := nd.log + NewEntries(nd, payloads))
  {
    assert nd.log[..|nd.log|] == nd.log;
    assert nd.log + [] == nd.log;
  }

  lemma LongerSane(s: Stable, h: History, h': History, nd: Node, ents: seq<Entry>, size: nat)
    requires Sane(s, h, nd) && Later(s, h, h', nd.opt.id)
    ensures Sane(s, h', nd.(uncommitted := size, log := nd.log + ents))
  {
    hide NodeOK;
    var nd' := nd.(uncommitted := size, log := nd.log + ents);
    SaneStays(s, h, h', nd);
    assert QueueOK(h', nd') && LeadOK(h', nd') && Fits(s, nd') && Flowing(nd');
  }

  lemma ProposeGood(s: Stable, h: History, nd: Node, payloads: seq<Bytes>, size: nat) returns (h': History)
    requires NodeGood(s, h, nd) && nd.state.StateLeader?
    ensures NodeGood(s, h', nd.(uncommitted := size, log := nd.log + NewEntries(nd, payloads)))
    ensures Later(s, h, h', nd.opt.id) && h'.marks == h.marks
  {
    hide GlobalOK, Good, V, Later, Sane;
    var ents := NewEntries(nd, payloads);
    ViewCore(nd);
    h' := Propose(s, h, nd.opt.id, V(nd), ents);
    AppendView(nd, ents, size);
    LongerSane(s, h, h', nd, ents, size);
  }

  lemma SelfAcked(s: Stable, h: History, nd: Node)
    requires NodeGood(s, h, nd) && nd.state.StateLeader?
    ensures nd.term in h.reigns && Holds(nd.log, h.reigns[nd.term].log, |nd.log|)
  {
    hide GlobalOK, NodeGood, LeaderOK;
    Leads(s, h, nd);
    LeaderReign(s, h, nd.opt.id, V(nd));
  }

  /** The leader's proposal and the acknowledgement it owes itself. */
  lemma AppendEntryGood(s: Stable, h: History, nd: Node, payloads: seq<Bytes>) returns (h': History)
    requires NodeGood(s, h, nd) && nd.state.StateLeader?
    ensures NodeGood(s, h', AppendEntry(nd, payloads).0) && Later(s, h, h', nd.opt.id) && h'.marks == h.marks
    ensures AppendEntry(nd, payloads).0 == nd.(uncommitted := AppendEntry(nd, payloads).0.uncommitted,
              log := AppendEntry(nd, payloads).0.log, afterAppend := AppendEntry(nd, payloads).0.afterAppend)
  {
    hide GlobalOK, NodeGood, Later, NewEntries;
    var size := PayloadsSize(payloads);
    LaterSelf(s, h, nd.opt.id);
    if nd.uncommitted > 0 && size > 0 && nd.uncommitted + size > nd.opt.maxUncommitted {
      h' := h;
    } else {
      h' := ProposeGood(s, h, nd, payloads, nd.uncommitted + size);
      Bounds(s, h, nd);
      AppendsAtEnd(nd, payloads, nd.uncommitted + size);
      var nd1 := nd.(uncommitted := nd.uncommitted + size, log := nd.log + NewEntries(nd, payloads));
      SelfAcked(s, h', nd1);
      SendAck(s, h', nd1, AppResp(nd.opt.id, nd.opt.id, nd.term, |nd1.log|, false, 0, 0));
    }
  }
}
