/** Standing for election, counting votes and losing the quorum (raft/raft.go), over Step itself: which messages
    leave, and what the node is afterwards. */
module NodeElections {
  import opened Types
  import opened Quorum
  import opened Messages
  import opened Limit
  import opened InflightWindow
  import opened PeerProgress
  import opened Node
  import opened Protocol
  import opened NodeSends

  // ---------------------------------------------------------------------------------------------
  // Standing
  // ---------------------------------------------------------------------------------------------

  /** The request for a vote, or a pre-vote, in a term: with the last index and term of the node's log. */
  function VoteRequest(nd: Node, to: Id, t: CampaignType, term: nat): Message {
    if t.PreElection? then PreVote(nd.opt.id, to, term, |nd.log|, LastTerm(nd.log))
    else Vote(nd.opt.id, to, term, |nd.log|, LastTerm(nd.log), t.Transfer?)
  }

  /** The requests to the other voters among some nodes, in their order. */
  function Requests(nd: Node, ids: seq<Id>, t: CampaignType, term: nat): seq<Message> {
    if ids == [] then []
    else (if ids[0] in Voters(nd.opt.voters) && ids[0] != nd.opt.id then [VoteRequest(nd, ids[0], t, term)] else [])
         + Requests(nd, ids[1..], t, term)
  }

  /** The node's own vote, if it is one of the voters. */
  function OwnVote(nd: Node, ids: seq<Id>, t: CampaignType, term: nat): seq<Message> {
    var id := nd.opt.id;
    if ids == [] then []
    else (if ids[0] in Voters(nd.opt.voters) && ids[0] == id
          then [if t.PreElection? then PreVoteResp(id, id, term, false) else VoteResp(id, id, term, false)] else [])
         + OwnVote(nd, ids[1..], t, term)
  }

  lemma {:induction false} RequestsSame(nd: Node, nd': Node, ids: seq<Id>, t: CampaignType, term: nat)
    requires nd'.opt == nd.opt && nd'.log == nd.log
    ensures Requests(nd', ids, t, term) == Requests(nd, ids, t, term) && OwnVote(nd', ids, t, term) == OwnVote(nd, ids, t, term)
    decreases |ids|
  {
    if ids != [] { RequestsSame(nd, nd', ids[1..], t, term); }
  }

  lemma {:induction false} SendVotesIs(nd: Node, ids: seq<Id>, t: CampaignType, term: nat)
    requires term > 0 && nd.compacted <= |nd.log|
    ensures SendVotes(nd, ids, t, term) ==
              nd.(msgs := nd.msgs + Requests(nd, ids, t, term), afterAppend := nd.afterAppend + OwnVote(nd, ids, t, term))
    decreases |ids|
  {
    hide VoteRequest, Requests, OwnVote, SendVotes;
    VotesFirst(nd, ids, t, term);
    if ids == [] {
      assert nd.msgs + [] == nd.msgs && nd.afterAppend + [] == nd.afterAppend;
    } else {
      var nd1 := Asked(nd, ids[0], t, term);
      AskedIs(nd, ids[0], t, term);
      SendVotesIs(nd1, ids[1..], t, term);
      RequestsSame(nd, nd1, ids[1..], t, term);
      RequestsFirst(nd, ids, t, term);
      assert nd1.msgs + Requests(nd, ids[1..], t, term) == nd.msgs + Requests(nd, ids, t, term);
      assert nd1.afterAppend + OwnVote(nd, ids[1..], t, term) == nd.afterAppend + OwnVote(nd, ids, t, term);
    }
  }

  function Ask(nd: Node, x: Id, t: CampaignType, term: nat): seq<Message> {
    if x in Voters(nd.opt.voters) && x != nd.opt.id then [VoteRequest(nd, x, t, term)] else []
  }

  function Own(nd: Node, x: Id, t: CampaignType, term: nat): seq<Message> {
    if x in Voters(nd.opt.voters) && x == nd.opt.id
    then [if t.PreElection? then PreVoteResp(x, x, term, false) else VoteResp(x, x, term, false)] else []
  }

  /** One node asked. */
  function Asked(nd: Node, x: Id, t: CampaignType, term: nat): Node {
    nd.(msgs := nd.msgs + Ask(nd, x, t, term), afterAppend := nd.afterAppend + Own(nd, x, t, term))
  }

  lemma AskedIs(nd: Node, x: Id, t: CampaignType, term: nat)
    ensures var nd1 := Asked(nd, x, t, term); nd1.opt == nd.opt && nd1.log == nd.log && nd1.compacted == nd.compacted
  {
  }

  lemma RequestsFirst(nd: Node, ids: seq<Id>, t: CampaignType, term: nat)
    requires ids != []
    ensures Requests(nd, ids, t, term) == Ask(nd, ids[0], t, term) + Requests(nd, ids[1..], t, term)
    ensures OwnVote(nd, ids, t, term) == Own(nd, ids[0], t, term) + OwnVote(nd, ids[1..], t, term)
  {
  }

  lemma VotesFirst(nd: Node, ids: seq<Id>, t: CampaignType, term: nat)
    requires term > 0 && nd.compacted <= |nd.log|
    ensures ids == [] ==> SendVotes(nd, ids, t, term) == nd && Requests(nd, ids, t, term) == [] && OwnVote(nd, ids, t, term) == []
    ensures ids != [] ==> SendVotes(nd, ids, t, term) == SendVotes(Asked(nd, ids[0], t, term), ids[1..], t, term)
  {
    assert nd.msgs + [] == nd.msgs && nd.afterAppend + [] == nd.afterAppend;
    if ids != [] { assert ZeroTerm(nd, |nd.log|) == LastTerm(nd.log); }
  }

  /** The progress every term begins with: the node itself holds its log, nothing is known of the others, who are
      probed at its end. */
  function FreshPeers(nd: Node): map<Id, Peer> {
    map x | x in nd.prs ::
      Peer(if x == nd.opt.id then |nd.log| else 0, |nd.log| + 1, 0, Probe, 0, false, false,
           Window(nd.prs[x].window.size, nd.prs[x].window.maxBytes, []), nd.prs[x].learner)
  }

  /** The node in a term, without role, leader, votes or reads. */
  function Cleared(nd: Node, term: nat, vote: Id, lead: Id, state: StateType): Node {
    nd.(term := term, vote := vote, lead := lead, transferee := NONE, state := state, prs := FreshPeers(nd), votes := map[],
        uncommitted := 0, acks := map[], queue := [], confirmed := 0)
  }

  lemma ResetIs(nd: Node, term: nat)
    ensures Reset(nd, term) == Cleared(nd, term, if nd.term != term then NONE else nd.vote, NONE, nd.state)
  {
    assert Reset(nd, term).prs == FreshPeers(nd);
  }

  /** What standing makes of the node: a pre-candidate in its term, or a candidate in the next one that votes for
      itself. */
  function Standing(nd: Node, t: CampaignType): Node {
    if t.PreElection? then nd.(votes := map[], lead := NONE, state := StatePreCandidate)
    else Cleared(nd, nd.term + 1, nd.opt.id, NONE, StateCandidate)
  }

  /** Every other voter is asked, in the order of the peers, for a vote in the next term; the node's own vote
      waits with its state to be stored. */
  lemma CampaignIs(nd: Node, t: CampaignType)
    requires !nd.state.StateLeader? && nd.compacted <= |nd.log|
    ensures Campaign(nd, t) ==
              Standing(nd, t).(msgs := nd.msgs + Requests(nd, nd.opt.peers, t, nd.term + 1),
                               afterAppend := nd.afterAppend + OwnVote(nd, nd.opt.peers, t, nd.term + 1))
  {
    hide SendVotes, BecomeCandidate, Cleared, Requests, OwnVote;
    CandidateIs(nd);
    ClearedSame(nd, nd.term + 1, nd.opt.id, NONE, StateCandidate);
    var nd1 := Standing(nd, t);
    SendVotesIs(nd1, nd.opt.peers, t, nd.term + 1);
    RequestsSame(nd, nd1, nd.opt.peers, t, nd.term + 1);
  }

  lemma ClearedSame(nd: Node, term: nat, vote: Id, lead: Id, state: StateType)
    ensures var nd1 := Cleared(nd, term, vote, lead, state);
            nd1.opt == nd.opt && nd1.log == nd.log && nd1.compacted == nd.compacted && nd1.msgs == nd.msgs
            && nd1.afterAppend == nd.afterAppend && nd1.term == term
  {
  }

  lemma CandidateIs(nd: Node)
    requires !nd.state.StateLeader?
    ensures BecomeCandidate(nd) == Cleared(nd, nd.term + 1, nd.opt.id, NONE, StateCandidate)
  {
    hide Reset, FreshPeers;
    ResetIs(nd, nd.term + 1);
  }

  /** A node stands when its election timeout passes, or a leader hands over to it, unless it leads already, is no
      voting member, or has a snapshot to store first. */
  lemma HupAnswered(nd: Node, m: Message, recent: bool)
    requires m.Hup? && nd.compacted <= |nd.log|
    ensures var t := if nd.opt.preVote then PreElection else Election;
            Step(nd, m, recent) ==
              if nd.state.StateLeader? || nd.opt.id !in nd.prs || nd.prs[nd.opt.id].learner || nd.restoring != 0 then nd
              else Standing(nd, t).(msgs := nd.msgs + Requests(nd, nd.opt.peers, t, nd.term + 1),
                                    afterAppend := nd.afterAppend + OwnVote(nd, nd.opt.peers, t, nd.term + 1))
  {
    hide Step, Campaign, Standing, Requests, OwnVote;
    HupIs(nd, m, recent);
    if !nd.state.StateLeader? { CampaignIs(nd, if nd.opt.preVote then PreElection else Election); }
  }

  lemma HupIs(nd: Node, m: Message, recent: bool)
    requires m.Hup?
    ensures Step(nd, m, recent) == StartCampaign(nd, if nd.opt.preVote then PreElection else Election)
  {
    hide StartCampaign;
  }

  lemma TimeoutNowAnswered(nd: Node, m: Message, recent: bool)
    requires m.TimeoutNow? && nd.state.StateFollower? && m.term == nd.term && nd.compacted <= |nd.log|
    ensures Step(nd, m, recent) ==
              if nd.opt.id !in nd.prs || nd.prs[nd.opt.id].learner || nd.restoring != 0 then nd
              else Standing(nd, Transfer).(msgs := nd.msgs + Requests(nd, nd.opt.peers, Transfer, nd.term + 1),
                                           afterAppend := nd.afterAppend + OwnVote(nd, nd.opt.peers, Transfer, nd.term + 1))
  {
    hide Step, Campaign, Standing, Requests, OwnVote;
    TimeoutNowIs(nd, m, recent);
    CampaignIs(nd, Transfer);
  }

  lemma TimeoutNowIs(nd: Node, m: Message, recent: bool)
    requires m.TimeoutNow? && nd.state.StateFollower? && m.term == nd.term
    ensures Step(nd, m, recent) == StartCampaign(nd, Transfer)
  {
    hide StartCampaign;
  }

  // ---------------------------------------------------------------------------------------------
  // Counting
  // ---------------------------------------------------------------------------------------------

  function Yes(votes: map<Id, bool>): set<Id> {
    set y | y in votes && votes[y]
  }

  function No(votes: map<Id, bool>): set<Id> {
    set y | y in votes && !votes[y]
  }

  /** An election is won once those who said yes are a quorum, and lost once those who did not say no are
      none. */
  lemma OutcomeIs(c: JointConfig, votes: map<Id, bool>)
    ensures JointVote(c, votes).VoteWon? <==> IsQuorum(c, Yes(votes))
    ensures JointVote(c, votes).VoteLost? <==> !IsQuorum(c, Voters(c) - No(votes))
  {
    hide IsMajority;
    HalfOutcome(c.incoming, Voters(c), votes);
    HalfOutcome(c.outgoing, Voters(c), votes);
  }

  lemma HalfOutcome(c: set<Id>, all: set<Id>, votes: map<Id, bool>)
    requires c <= all
    ensures MajorityVote(c, votes).VoteWon? <==> IsMajority(c, Yes(votes))
    ensures MajorityVote(c, votes).VoteLost? <==> !IsMajority(c, all - No(votes))
  {
    assert c * Yes(votes) == c * Granting(c, votes);
    assert c * (all - No(votes)) == c * (Granting(c, votes) + Missing(c, votes));
    MajorityGrows2(c, Granting(c, votes), Granting(c, votes) + Missing(c, votes));
  }

  /** The votes once x answered; only its first answer counts. */
  function Counted(votes: map<Id, bool>, x: Id, granted: bool): map<Id, bool> {
    if x in votes then votes else votes[x := granted]
  }

  /** A vote is counted by a candidate in its term, and a pre-vote by a pre-candidate in its own or, if it is
      granted, in the one it asked about. */
  predicate CountsVote(nd: Node, m: Message) {
    (nd.state.StateCandidate? && m.VoteResp? && m.term == nd.term)
    || (nd.state.StatePreCandidate? && m.PreVoteResp? && (m.term == nd.term || (m.term > nd.term && !m.reject)))
  }

  /** A new leader: it holds its own log, replicates to itself, and appends an entry without data in its term. */
  function Leading(nd: Node): Node
    requires nd.opt.id in nd.prs
  {
    var id, last := nd.opt.id, |nd.log|;
    var c := Cleared(nd, nd.term, nd.vote, id, StateLeader);
    c.(prs := c.prs[id := c.prs[id].(next := last + 1, mode := Replicate, recentActive := true)],
       log := nd.log + [Entry(last + 1, nd.term, [])],
       afterAppend := nd.afterAppend + [AppResp(id, id, nd.term, last + 1, false, 0, 0)])
  }

  lemma BecomeLeaderLeads(nd: Node)
    requires !nd.state.StateFollower? && nd.opt.id in nd.prs && nd.committed <= |nd.log|
    ensures BecomeLeader(nd) == Leading(nd)
  {
    hide Reset, FreshPeers;
    ResetIs(nd, nd.term);
    FreshSelf(nd);
    var nd1 := Cleared(nd, nd.term, nd.vote, nd.opt.id, StateLeader);
    var nd2 := nd1.(prs := nd1.prs[nd.opt.id := nd1.prs[nd.opt.id].(next := |nd.log| + 1, mode := Replicate, recentActive := true)]);
    NoopAppended(nd2);
  }

  lemma FreshSelf(nd: Node)
    requires nd.opt.id in nd.prs
    ensures var id := nd.opt.id;
            id in FreshPeers(nd)
            && Replicating(FreshPeers(nd)[id]).(recentActive := true)
               == FreshPeers(nd)[id].(next := |nd.log| + 1, mode := Replicate, recentActive := true)
  {
  }

  lemma NoopAppended(nd: Node)
    requires nd.uncommitted == 0 && nd.committed <= |nd.log|
    ensures AppendEntry(nd, [[]]) ==
              (nd.(log := nd.log + [Entry(|nd.log| + 1, nd.term, [])],
                   afterAppend := nd.afterAppend + [AppResp(nd.opt.id, nd.opt.id, nd.term, |nd.log| + 1, false, 0, 0)]), true)
  {
    assert PayloadsSize([[]]) == 0;
    assert NewEntries(nd, [[]]) == [Entry(|nd.log| + 1, nd.term, [])];
    assert nd.log[..|nd.log|] == nd.log;
  }

  lemma PollIs(nd: Node, m: Message, recent: bool)
    requires CountsVote(nd, m) && nd.term > 0
    ensures Step(nd, m, recent) == Poll(nd, m.from, !m.reject)
  {
    hide Poll;
  }

  lemma LostIs(nd: Node, votes: map<Id, bool>)
    ensures BecomeFollower(nd.(votes := votes), nd.term, NONE) == Cleared(nd, nd.term, nd.vote, NONE, StateFollower)
  {
    hide Reset, FreshPeers;
    ResetIs(nd.(votes := votes), nd.term);
    assert FreshPeers(nd.(votes := votes)) == FreshPeers(nd) by { SamePeers(nd, nd.(votes := votes)); }
  }

  lemma SamePeers(nd: Node, nd': Node)
    requires nd'.opt == nd.opt && nd'.prs == nd.prs && nd'.log == nd.log
    ensures FreshPeers(nd') == FreshPeers(nd)
  {
  }

  lemma LeadingSame(nd: Node, votes: map<Id, bool>)
    requires nd.opt.id in nd.prs
    ensures Leading(nd.(votes := votes)) == Leading(nd)
  {
    hide FreshPeers;
    SamePeers(nd, nd.(votes := votes));
    assert nd.opt.id in FreshPeers(nd) by { FreshSelf(nd); }
  }

  lemma StandingSame(nd: Node, votes: map<Id, bool>)
    ensures Standing(nd.(votes := votes), Election) == Standing(nd, Election)
  {
    hide FreshPeers;
    SamePeers(nd, nd.(votes := votes));
  }

  /** A vote that is counted decides the election when those who said yes are a quorum, or those who did not say
      no are none; otherwise it is only recorded. The loser follows nobody, in its term and with its vote. A
      pre-candidate that won stands for election. A candidate that won leads, and every peer is sent its
      first entry. */
  lemma VoteCounted(nd: Node, m: Message, recent: bool)
    requires CountsVote(nd, m) && nd.term > 0 && nd.compacted <= nd.snapshot <= nd.committed <= |nd.log|
    requires nd.opt.id in nd.prs && Distinct(nd.opt.peers) && forall y :: y in nd.opt.peers ==> y in nd.prs
    ensures var votes := Counted(nd.votes, m.from, !m.reject);
            var nd' := Step(nd, m, recent);
            if IsQuorum(nd.opt.voters, Yes(votes)) then
              if nd.state.StatePreCandidate? then
                nd' == Standing(nd, Election).(msgs := nd.msgs + Requests(nd, nd.opt.peers, Election, nd.term + 1),
                                               afterAppend := nd.afterAppend + OwnVote(nd, nd.opt.peers, Election, nd.term + 1))
              else
                AllInReach(Leading(nd), nd.opt.peers)
                && nd' == Leading(nd).(msgs := nd.msgs + ForAll(Leading(nd), nd.opt.peers), prs := AfterAll(Leading(nd), nd.opt.peers))
            else if !IsQuorum(nd.opt.voters, Voters(nd.opt.voters) - No(votes)) then
              nd' == Cleared(nd, nd.term, nd.vote, NONE, StateFollower)
            else nd' == nd.(votes := votes)
  {
    hide Step, Poll, Campaign, BecomeLeader, BecomeFollower, BcastAppend, Leading, Standing, Cleared, Requests, OwnVote, ForAll, AfterAll,
         IsQuorum, JointVote, AllInReach;
    var votes := Counted(nd.votes, m.from, !m.reject);
    var nd1 := nd.(votes := votes);
    PollIs(nd, m, recent);
    PollCases(nd, m.from, !m.reject);
    OutcomeIs(nd.opt.voters, votes);
    LostIs(nd, votes);
    CampaignIs(nd1, Election);
    StandingSame(nd, votes);
    RequestsSame(nd, nd1, nd.opt.peers, Election, nd.term + 1);
    if nd.state.StateCandidate? {
      BecomeLeaderLeads(nd1);
      LeadingSame(nd, votes);
      LeadingReaches(nd);
      BcastIs(Leading(nd), nd.opt.peers);
    }
  }

  lemma PollCases(nd: Node, x: Id, granted: bool)
    ensures var nd1 := nd.(votes := Counted(nd.votes, x, granted));
            var r := JointVote(nd.opt.voters, nd1.votes);
            Poll(nd, x, granted) ==
              if r.VoteWon? then
                if nd.state.StatePreCandidate? then Campaign(nd1, Election) else BcastAppend(BecomeLeader(nd1), nd.opt.peers)
              else if r.VoteLost? then BecomeFollower(nd1, nd.term, NONE)
              else nd1
  {
    hide JointVote, Campaign, BecomeLeader, BcastAppend, BecomeFollower;
  }

  lemma LeadingReaches(nd: Node)
    requires nd.opt.id in nd.prs && nd.compacted <= nd.snapshot <= |nd.log| && forall y :: y in nd.opt.peers ==> y in nd.prs
    ensures AllInReach(Leading(nd), nd.opt.peers) && Leading(nd).opt == nd.opt && Leading(nd).msgs == nd.msgs
  {
  }

  /** What a new leader sends each other peer: its first entry, behind what was the end of its log. */
  lemma FirstAppends(nd: Node, y: Id)
    requires nd.opt.id in nd.prs && nd.compacted <= nd.snapshot <= |nd.log| && y in nd.prs && y != nd.opt.id
    ensures InReach(Leading(nd), y)
    ensures NextFor(Leading(nd), y).0 ==
              [App(nd.opt.id, y, nd.term, |nd.log|, LastTerm(nd.log), [Entry(|nd.log| + 1, nd.term, [])], nd.committed)]
  {
    var nd1 := Leading(nd);
    assert nd1.log[|nd.log|..] == [Entry(|nd.log| + 1, nd.term, [])];
    assert LimitSize([Entry(|nd.log| + 1, nd.term, [])], nd.opt.maxMsgSize) == [Entry(|nd.log| + 1, nd.term, [])];
    assert TermAt(nd1.log, |nd.log|) == LastTerm(nd.log);
  }

  // ---------------------------------------------------------------------------------------------
  // Keeping the quorum
  // ---------------------------------------------------------------------------------------------

  /** The voting members the leader heard from. */
  function Active(nd: Node): set<Id> {
    set y | y in nd.prs && !nd.prs[y].learner && nd.prs[y].recentActive
  }

  lemma ActiveIs(nd: Node)
    ensures QuorumActive(nd) <==> IsQuorum(nd.opt.voters, Active(nd))
  {
    hide IsQuorum, JointVote;
    var active := map x | x in nd.prs && !nd.prs[x].learner :: nd.prs[x].recentActive;
    OutcomeIs(nd.opt.voters, active);
    assert Yes(active) == Active(nd);
  }

  /** A leader that heard from no quorum since the last check follows nobody from then on, in its term and with
      its vote; either way all others have to be heard from again until the next check. */
  lemma QuorumChecked(nd: Node, m: Message, recent: bool)
    requires nd.state.StateLeader? && m.CheckQuorum?
    ensures Step(nd, m, recent) ==
              if IsQuorum(nd.opt.voters, Active(nd))
              then nd.(prs := map y | y in nd.prs :: nd.prs[y].(recentActive := y == nd.opt.id && nd.prs[y].recentActive))
              else Cleared(nd, nd.term, nd.vote, NONE, StateFollower)
  {
    hide IsQuorum, QuorumActive, Reset, Active;
    ActiveIs(nd);
    CheckIs(nd, m, recent);
    QuietIs(nd);
    LostIs(nd, nd.votes);
    QuietFresh(nd);
  }

  lemma CheckIs(nd: Node, m: Message, recent: bool)
    requires nd.state.StateLeader? && m.CheckQuorum?
    ensures Step(nd, m, recent) == Quiet(if QuorumActive(nd) then nd else BecomeFollower(nd.(votes := nd.votes), nd.term, NONE))
  {
    hide QuorumActive, BecomeFollower, Quiet;
  }

  lemma QuietIs(nd: Node)
    ensures Quiet(nd) == nd.(prs := map y | y in nd.prs :: nd.prs[y].(recentActive := y == nd.opt.id && nd.prs[y].recentActive))
  {
  }

  lemma QuietFresh(nd: Node)
    ensures var c := Cleared(nd, nd.term, nd.vote, NONE, StateFollower); Quiet(c) == c
  {
    var c := Cleared(nd, nd.term, nd.vote, NONE, StateFollower);
    assert Quiet(c).prs == c.prs;
  }
}
