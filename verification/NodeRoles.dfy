/** Changing roles: following, campaigning, winning. */
module NodeRoles {
  import opened Types
  import opened Quorum
  import opened Messages
  import opened Limit
  import opened PeerProgress
  import opened Node
  import opened Protocol
  import opened ProtocolFrame
  import opened ProtocolSteps
  import opened ProtocolLeader
  import PR = ProtocolReign
  import opened NodeView
  import opened NodeLeader
  import opened NodeCommit

  // ---------------------------------------------------------------------------------------------
  // Following
  // ---------------------------------------------------------------------------------------------

  lemma FollowView(nd: Node, t: nat, lead: Id)
    ensures V(BecomeFollower(nd, t, lead)) == Retired(V(nd), t)
  {
    assert Out(BecomeFollower(nd, t, lead)) == Out(nd);
  }

  lemma ResetFits(s: Stable, nd: Node, t: nat)
    requires Fits(s, nd)
    ensures Fits(s, Reset(nd, t)) && Reset(nd, t).prs.Keys == nd.prs.Keys
  {
  }

  /** Following in term t, under its leader if one is known. */
  lemma FollowGood(s: Stable, h: History, nd: Node, t: nat, lead: Id)
    requires NodeGood(s, h, nd) && nd.term <= t
    requires lead == NONE || (lead != nd.opt.id && t in h.reigns && h.reigns[t].leader == lead)
    ensures NodeGood(s, h, BecomeFollower(nd, t, lead))
    ensures BecomeFollower(nd, t, lead).prs.Keys == nd.prs.Keys
  {
    hide GlobalOK, Good, V, Fits;
    FollowView(nd, t, lead);
    ViewCore(nd);
    Retire(s, h, nd.opt.id, V(nd), t);
    ResetFits(s, nd, t);
    var nd' := BecomeFollower(nd, t, lead);
    FitsCore(s, Reset(nd, t), nd');
    assert QueueOK(h, nd') && LeadOK(h, nd') && Flowing(nd');
  }

  /** Only these fields matter for belonging to the cluster. */
  lemma FitsCore(s: Stable, nd: Node, nd': Node)
    requires Fits(s, nd) && nd'.panicked == nd.panicked && nd'.opt == nd.opt && nd'.prs == nd.prs
    requires nd'.compacted == nd.compacted && nd'.snapshot == nd.snapshot && nd'.restoring == nd.restoring
    requires nd'.committed == nd.committed
    ensures Fits(s, nd')
  {
  }

  lemma PreCandidateGood(s: Stable, h: History, nd: Node)
    requires NodeGood(s, h, nd) && !nd.state.StateLeader?
    ensures NodeGood(s, h, BecomePreCandidate(nd))
  {
    hide GlobalOK, Good, Fits;
    var nd' := BecomePreCandidate(nd);
    assert Out(nd') == Out(nd);
    assert V(nd') == Retired(V(nd), nd.term);
    Retire(s, h, nd.opt.id, V(nd), nd.term);
    FitsCore(s, nd, nd');
    assert QueueOK(h, nd') && LeadOK(h, nd') && Flowing(nd');
  }

  // ---------------------------------------------------------------------------------------------
  // Campaigning
  // ---------------------------------------------------------------------------------------------

  /** The node's bid for its term is recorded with its current log. */
  ghost predicate HasBid(h: History, nd: Node) {
    Bid(nd.opt.id, nd.term) in h.bids && h.bids[Bid(nd.opt.id, nd.term)] == nd.log
  }

  lemma CandidateGood(s: Stable, h: History, nd: Node) returns (h': History)
    requires NodeGood(s, h, nd) && !nd.state.StateLeader?
    ensures NodeGood(s, h', BecomeCandidate(nd)) && Later(s, h, h', nd.opt.id) && h'.marks == h.marks
    ensures HasBid(h', BecomeCandidate(nd))
  {
    hide GlobalOK, Good, Fits, Later;
    var nd' := BecomeCandidate(nd);
    assert Out(nd') == Out(nd);
    assert V(nd') == Standing(V(nd), nd.opt.id);
    h' := Stand(s, h, nd.opt.id, V(nd));
    ResetFits(s, nd, nd.term + 1);
    FitsCore(s, Reset(nd, nd.term + 1), nd');
    assert QueueOK(h', nd') && LeadOK(h', nd') && Flowing(nd');
  }

  /** What asking for votes changes. */
  predicate Asking(nd: Node, nd': Node) {
    nd' == nd.(msgs := nd'.msgs, afterAppend := nd'.afterAppend)
  }

  lemma GrantSelf(s: Stable, h: History, nd: Node)
    requires NodeGood(s, h, nd) && nd.state.StateCandidate? && HasBid(h, nd) && nd.term > 0
    ensures NodeGood(s, h, Send(nd, VoteResp(nd.opt.id, nd.opt.id, nd.term, false)))
  {
    hide GlobalOK, Good, V, Sane;
    var m := VoteResp(nd.opt.id, nd.opt.id, nd.term, false);
    CandidateVote(s, h, nd);
    ViewCore(nd);
    SendView(nd, m);
    SendSane(s, h, nd, m);
    EmitGrant(s, h, nd.opt.id, V(nd), nd.opt.id);
  }

  lemma CandidateVote(s: Stable, h: History, nd: Node)
    requires NodeGood(s, h, nd) && nd.state.StateCandidate?
    ensures nd.vote == nd.opt.id
  {
    hide GlobalOK, StateOK, AcksOK, GrantsOK, Sane;
  }

  lemma AskGood(s: Stable, h: History, nd: Node, x: Id, transfer: bool)
    requires NodeGood(s, h, nd) && nd.state.StateCandidate? && HasBid(h, nd) && nd.term > 0 && x != nd.opt.id
    ensures NodeGood(s, h, Send(nd, Vote(nd.opt.id, x, nd.term, |nd.log|, ZeroTerm(nd, |nd.log|), transfer)))
  {
    hide GlobalOK, NodeGood;
    LastTermKnown(s, h, nd);
    SendPlain(s, h, nd, Vote(nd.opt.id, x, nd.term, |nd.log|, ZeroTerm(nd, |nd.log|), transfer));
  }

  /** What one voter is sent. */
  function AskOne(nd: Node, x: Id, t: CampaignType, term: nat): Node {
    if x !in Voters(nd.opt.voters) then nd
    else if x == nd.opt.id then
      Send(nd, if t.PreElection? then PreVoteResp(x, x, term, false) else VoteResp(x, x, term, false))
    else
      Send(nd, if t.PreElection? then PreVote(nd.opt.id, x, term, |nd.log|, ZeroTerm(nd, |nd.log|))
               else Vote(nd.opt.id, x, term, |nd.log|, ZeroTerm(nd, |nd.log|), t.Transfer?))
  }

  lemma AskNext(nd: Node, ids: seq<Id>, t: CampaignType, term: nat)
    ensures SendVotes(nd, [], t, term) == nd
    ensures ids != [] ==> SendVotes(nd, ids, t, term) == SendVotes(AskOne(nd, ids[0], t, term), ids[1..], t, term)
  {
    hide Send, ZeroTerm, Voters;
  }

  lemma AskOneGood(s: Stable, h: History, nd: Node, x: Id, t: CampaignType, term: nat)
    requires NodeGood(s, h, nd) && term > 0
    requires !t.PreElection? ==> nd.state.StateCandidate? && HasBid(h, nd) && term == nd.term
    ensures NodeGood(s, h, AskOne(nd, x, t, term)) && Asking(nd, AskOne(nd, x, t, term))
  {
    hide GlobalOK, NodeGood, ZeroTerm, Voters;
    if x in Voters(nd.opt.voters) {
      if t.PreElection? {
        SendPlain(s, h, nd, if x == nd.opt.id then PreVoteResp(x, x, term, false)
                            else PreVote(nd.opt.id, x, term, |nd.log|, ZeroTerm(nd, |nd.log|)));
      } else if x == nd.opt.id {
        GrantSelf(s, h, nd);
      } else {
        AskGood(s, h, nd, x, t.Transfer?);
      }
    }
  }

  lemma {:induction false} SendVotesGood(s: Stable, h: History, nd: Node, ids: seq<Id>, t: CampaignType, term: nat)
    requires NodeGood(s, h, nd) && term > 0
    requires !t.PreElection? ==> nd.state.StateCandidate? && HasBid(h, nd) && term == nd.term
    ensures NodeGood(s, h, SendVotes(nd, ids, t, term)) && Asking(nd, SendVotes(nd, ids, t, term))
    decreases |ids|
  {
    hide NodeGood, SendVotes, AskOne;
    AskNext(nd, ids, t, term);
    if ids != [] {
      AskOneGood(s, h, nd, ids[0], t, term);
      SendVotesGood(s, h, AskOne(nd, ids[0], t, term), ids[1..], t, term);
    }
  }

  lemma {:induction false} AskTerm(nd: Node, ids: seq<Id>, t: CampaignType, term: nat)
    ensures SendVotes(nd, ids, t, term).term == nd.term
    decreases |ids|
  {
    hide ZeroTerm, Voters;
    if ids != [] {
      var x := ids[0];
      var nd1 :=
        if x !in Voters(nd.opt.voters) then nd
        else if x == nd.opt.id then
          Send(nd, if t.PreElection? then PreVoteResp(x, x, term, false) else VoteResp(x, x, term, false))
        else
          Send(nd, if t.PreElection? then PreVote(nd.opt.id, x, term, |nd.log|, ZeroTerm(nd, |nd.log|))
                   else Vote(nd.opt.id, x, term, |nd.log|, ZeroTerm(nd, |nd.log|), t.Transfer?));
      AskTerm(nd1, ids[1..], t, term);
    }
  }

  lemma CampaignTerm(nd: Node, t: CampaignType)
    ensures Campaign(nd, t).term >= nd.term
  {
    hide SendVotes;
    AskTerm(BecomePreCandidate(nd), nd.opt.peers, t, BecomePreCandidate(nd).term + 1);
    AskTerm(BecomeCandidate(nd), nd.opt.peers, t, BecomeCandidate(nd).term);
  }

  lemma CampaignGood(s: Stable, h: History, nd: Node, t: CampaignType) returns (h': History)
    requires NodeGood(s, h, nd) && !nd.state.StateLeader?
    ensures NodeGood(s, h', Campaign(nd, t)) && Later(s, h, h', nd.opt.id) && h'.marks == h.marks
    ensures Campaign(nd, t).log == nd.log && Campaign(nd, t).committed == nd.committed
    ensures !Campaign(nd, t).state.StateLeader? && Campaign(nd, t).readStates == nd.readStates
    ensures SameBase(nd, Campaign(nd, t)) && Campaign(nd, t).term >= nd.term
  {
    hide GlobalOK, NodeGood, Later, SendVotes, HasBid;
    CampaignTerm(nd, t);
    LaterSelf(s, h, nd.opt.id);
    if t.PreElection? {
      h' := h;
      PreCandidateGood(s, h, nd);
      SendVotesGood(s, h, BecomePreCandidate(nd), nd.opt.peers, t, nd.term + 1);
    } else {
      h' := CandidateGood(s, h, nd);
      SendVotesGood(s, h', BecomeCandidate(nd), nd.opt.peers, t, nd.term + 1);
    }
  }

  // ---------------------------------------------------------------------------------------------
  // Winning
  // ---------------------------------------------------------------------------------------------

  /** What a candidate becomes with its first entry appended, before it acknowledges that entry to
      itself. */
  function Elevated(nd: Node): Node
    requires nd.opt.id in nd.prs
  {
    var nd1 := Reset(nd, nd.term).(lead := nd.opt.id, state := StateLeader);
    var self := Replicating(nd1.prs[nd.opt.id]).(recentActive := true);
    WithPeer(nd1, nd.opt.id, self).(log := nd.log + [FirstEntry(nd)])
  }

  /** The empty entry a leader starts its term with. */
  function FirstEntry(nd: Node): Entry {
    Entry(|nd.log| + 1, nd.term, [])
  }

  lemma BecomeLeaderIs(nd: Node)
    requires !nd.state.StateFollower? && nd.opt.id in nd.prs && nd.committed <= |nd.log|
    ensures BecomeLeader(nd) == Send(Elevated(nd), AppResp(nd.opt.id, nd.opt.id, nd.term, |nd.log| + 1, false, 0, 0))
  {
    hide Replicating, FreshPeer;
    var nd1 := Reset(nd, nd.term).(lead := nd.opt.id, state := StateLeader);
    var self := Replicating(nd1.prs[nd.opt.id]).(recentActive := true);
    var nd2 := WithPeer(nd1, nd.opt.id, self);
    assert NewEntries(nd2, [[]]) == [FirstEntry(nd)];
    AppendsAtEnd(nd2, [[]], 0);
    assert PayloadsSize([[]]) == 0;
  }

  lemma ElevatedView(nd: Node)
    requires nd.opt.id in nd.prs && nd.state.StateCandidate?
    ensures V(Elevated(nd)) == PR.Winning(V(nd), nd.opt.id, FirstEntry(nd)).(acked := Matches(Elevated(nd)))
    ensures Matches(Elevated(nd)).Keys == nd.prs.Keys
    ensures forall x :: x in nd.prs ==> Matches(Elevated(nd))[x] == if x == nd.opt.id then |nd.log| else 0
  {
    assert Out(Elevated(nd)) == Out(nd);
  }

  lemma ElevatedSane(s: Stable, h: History, nd: Node)
    requires Sane(s, h, nd) && nd.state.StateCandidate?
    ensures Sane(s, h, Elevated(nd))
  {
    hide V;
    ResetFits(s, nd, nd.term);
    var nd' := Elevated(nd);
    forall x | x in nd'.prs ensures Flow(nd'.prs[x], |nd'.log|) {
      FreshFlows(nd.prs[x], if x == nd.opt.id then |nd.log| else 0, |nd.log|);
    }
    assert QueueOK(h, nd') && LeadOK(h, nd') && Flowing(nd');
  }

  /** Peers that acknowledged nothing may be listed with index 0. */
  lemma ListPeers(s: Stable, h: History, n: Id, v: View, acked: map<Id, nat>)
    requires Good(s, h, n, v) && v.role.Leader?
    requires forall x :: x in acked && acked[x] > 0 ==> x in v.acked && v.acked[x] == acked[x]
    ensures Good(s, h, n, v.(acked := acked))
  {
    hide GlobalOK, StateOK, AcksOK, GrantsOK, OutOK, AckSent;
    LeaderFacts(s, h, n, v);
    Recount(s, h, n, v, v.(acked := acked));
  }

  lemma ElevateGood(s: Stable, h: History, nd: Node) returns (h': History)
    requires NodeGood(s, h, nd) && nd.state.StateCandidate? && IsQuorum(nd.opt.voters, V(nd).granted)
    ensures NodeGood(s, h', Elevated(nd)) && Later(s, h, h', nd.opt.id) && h'.marks == h.marks
  {
    hide GlobalOK, Good, V, Sane, Later, IsQuorum, Elevated, Matches;
    ClusterFacts(s, h, nd);
    ViewCore(nd);
    h' := PR.Win(s, h, nd.opt.id, V(nd), FirstEntry(nd));
    ElevatedView(nd);
    ListPeers(s, h', nd.opt.id, PR.Winning(V(nd), nd.opt.id, FirstEntry(nd)), Matches(Elevated(nd)));
    SaneLater(s, h, h', nd);
    ElevatedSane(s, h', nd);
    ElevatedId(nd);
  }

  lemma ElevatedId(nd: Node)
    requires nd.opt.id in nd.prs
    ensures SameBase(nd, Elevated(nd)) && Elevated(nd).state.StateLeader? && Elevated(nd).term == nd.term
    ensures |Elevated(nd).log| == |nd.log| + 1 && Elevated(nd).committed == nd.committed
    ensures Elevated(nd).prs.Keys == nd.prs.Keys && Elevated(nd).queue == [] && Elevated(nd).confirmed == 0
    ensures Elevated(nd).readStates == nd.readStates
  {
  }

  lemma SaneLater(s: Stable, h: History, h': History, nd: Node)
    requires Sane(s, h, nd) && Later(s, h, h', nd.opt.id)
    ensures Sane(s, h', nd)
  {
    hide NodeOK, Sane;
    SaneStays(s, h, h', nd);
  }

  lemma BecomeLeaderGood(s: Stable, h: History, nd: Node) returns (h': History)
    requires NodeGood(s, h, nd) && nd.state.StateCandidate? && IsQuorum(nd.opt.voters, V(nd).granted)
    ensures NodeGood(s, h', BecomeLeader(nd)) && Later(s, h, h', nd.opt.id) && h'.marks == h.marks
    ensures BecomeLeader(nd).state.StateLeader? && BecomeLeader(nd).prs.Keys == nd.prs.Keys
    ensures BecomeLeader(nd).queue == [] && BecomeLeader(nd).confirmed == 0 && SameBase(nd, BecomeLeader(nd))
    ensures BecomeLeader(nd).readStates == nd.readStates && BecomeLeader(nd).committed == nd.committed
    ensures BecomeLeader(nd).term == nd.term
  {
    hide GlobalOK, NodeGood, V, Later, IsQuorum, Elevated;
    h' := ElevateGood(s, h, nd);
    ClusterFacts(s, h, nd);
    Bounds(s, h, nd);
    BecomeLeaderIs(nd);
    ElevatedId(nd);
    SelfAcked(s, h', Elevated(nd));
    SendAck(s, h', Elevated(nd), AppResp(nd.opt.id, nd.opt.id, nd.term, |nd.log| + 1, false, 0, 0));
  }

  // ---------------------------------------------------------------------------------------------
  // Counting votes
  // ---------------------------------------------------------------------------------------------

  lemma RecordView(nd: Node, x: Id, granted: bool)
    ensures var nd' := RecordVote(nd, x, granted);
            V(nd') == V(nd)
            || (nd.state.StateCandidate? && granted && V(nd') == V(nd).(granted := V(nd).granted + {x}))
  {
    var nd' := RecordVote(nd, x, granted);
    assert Matches(nd') == Matches(nd) && Out(nd') == Out(nd);
    if x !in nd.votes {
      assert Granted(nd.votes[x := granted]) == Granted(nd.votes) + if granted then {x} else {};
    }
  }

  lemma RecordGood(s: Stable, h: History, nd: Node, x: Id, granted: bool)
    requires NodeGood(s, h, nd) && !nd.state.StateLeader?
    requires nd.state.StateCandidate? && granted ==> VoteResp(x, nd.opt.id, nd.term, false) in s.net
    ensures NodeGood(s, h, RecordVote(nd, x, granted))
  {
    hide GlobalOK, Good, V;
    RecordView(nd, x, granted);
    ViewCore(nd);
    if nd.state.StateCandidate? && granted { CountVote(s, h, nd.opt.id, V(nd), x); }
    var nd' := RecordVote(nd, x, granted);
    assert QueueOK(h, nd') && LeadOK(h, nd') && Fits(s, nd') && Flowing(nd');
  }

  lemma WonQuorum(nd: Node)
    requires nd.state.StateCandidate? && JointVote(nd.opt.voters, nd.votes).VoteWon?
    ensures IsQuorum(nd.opt.voters, V(nd).granted)
  {
    VoteExactly(nd.opt.voters, nd.votes);
    assert Granting(Voters(nd.opt.voters), nd.votes) <= Granted(nd.votes);
    QuorumGrows(nd.opt.voters, Granting(Voters(nd.opt.voters), nd.votes), Granted(nd.votes));
  }

  /** A poll never confirms reads or loses a log entry. */
  lemma PollGood(s: Stable, h: History, nd: Node, x: Id, granted: bool) returns (h': History)
    requires NodeGood(s, h, nd) && (nd.state.StateCandidate? || nd.state.StatePreCandidate?)
    requires nd.state.StateCandidate? && granted ==> VoteResp(x, nd.opt.id, nd.term, false) in s.net
    ensures NodeGood(s, h', Poll(nd, x, granted)) && Later(s, h, h', nd.opt.id) && h'.marks == h.marks
    ensures Poll(nd, x, granted).state.StateLeader? ==> Total(Poll(nd, x, granted)) == 0
    ensures Poll(nd, x, granted).readStates == nd.readStates && Poll(nd, x, granted).committed == nd.committed
    ensures SameBase(nd, Poll(nd, x, granted)) && Poll(nd, x, granted).term >= nd.term
  {
    hide GlobalOK, NodeGood, V, Later, Campaign, BecomeLeader, BcastAppend, JointVote, Tracked, Reset;
    var nd1 := RecordVote(nd, x, granted);
    RecordGood(s, h, nd, x, granted);
    LaterSelf(s, h, nd.opt.id);
    h' := h;
    match JointVote(nd.opt.voters, nd1.votes)
    case VoteWon =>
      if nd.state.StatePreCandidate? {
        h' := CampaignGood(s, h, nd1, Election);
      } else {
        WonQuorum(nd1);
        h' := BecomeLeaderGood(s, h, nd1);
        ClusterFacts(s, h', BecomeLeader(nd1));
        BcastGood(s, h', BecomeLeader(nd1), nd.opt.peers);
        SendingFacts(BecomeLeader(nd1), BcastAppend(BecomeLeader(nd1), nd.opt.peers));
      }
    case VoteLost =>
      FollowGood(s, h, nd1, nd.term, NONE);
      FollowCore(nd1, nd.term, NONE);
    case VotePending =>
  }

  lemma FollowCore(nd: Node, t: nat, lead: Id)
    ensures BecomeFollower(nd, t, lead).readStates == nd.readStates && BecomeFollower(nd, t, lead).committed == nd.committed
    ensures SameBase(nd, BecomeFollower(nd, t, lead)) && BecomeFollower(nd, t, lead).state.StateFollower?
    ensures BecomeFollower(nd, t, lead).term == t && BecomeFollower(nd, t, lead).lead == lead
  {
  }
}
