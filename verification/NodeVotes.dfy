/** Who a node votes for, what it answers, and what the count of votes decides (raft/raft.go, Step,
    stepCandidate), written out on the node's own log and fields. */
module NodeVotes {
  import opened Types
  import opened Messages
  import opened Node
  import opened ProtocolSteps
  import opened NodeAnswers

  /** The term of the last entry is known, and a node in term 0 has none. */
  predicate Sound(nd: Node) {
    nd.compacted <= |nd.log| && (nd.term == 0 ==> nd.log == [])
  }

  lemma UpToDateIs(nd: Node, lastIndex: nat, lastTerm: nat)
    requires nd.compacted <= |nd.log|
    ensures IsUpToDate(nd, lastIndex, lastTerm) <==> UpToDate(nd.log, lastIndex, lastTerm)
  {
  }

  /** The request is ignored: the node heard from a leader within the election timeout and checks for
      quorums, and no leadership is being transferred; or a real vote is asked for in a term gone by. */
  predicate Ignored(nd: Node, m: Message, recent: bool)
    requires m.Vote? || m.PreVote?
  {
    (m.term > nd.term && nd.opt.checkQuorum && nd.lead != NONE && recent && (m.PreVote? || !m.transfer))
    || (m.term < nd.term && m.Vote?)
  }

  /** The node may vote for the sender, whose log reaches at least as far as its own. In its own term it may
      if it voted for it before, or neither voted nor knows a leader. */
  predicate MayGrant(nd: Node, m: Message)
    requires m.Vote? || m.PreVote?
  {
    (m.term > nd.term || (m.term == nd.term && (nd.vote == m.from || (nd.vote == NONE && nd.lead == NONE))))
    && UpToDate(nd.log, m.lastIndex, m.lastTerm)
  }

  /** The one answer: granted in the term that was asked for, or refused in the node's own. */
  function Answer(nd: Node, m: Message): Message
    requires m.Vote? || m.PreVote?
  {
    var granted := MayGrant(nd, m);
    if m.PreVote? then PreVoteResp(nd.opt.id, m.from, if granted then m.term else nd.term, !granted)
    else VoteResp(nd.opt.id, m.from, m.term, !granted)
  }

  /** A request for a pre-vote is answered and changes nothing else, whatever its term. */
  lemma PreVoteAnswered(nd: Node, m: Message, recent: bool)
    requires Sound(nd) && m.PreVote? && m.term > 0
    ensures Step(nd, m, recent) == if Ignored(nd, m, recent) then nd else nd.(afterAppend := nd.afterAppend + [Answer(nd, m)])
  {
    UpToDateIs(nd, m.lastIndex, m.lastTerm);
    hide IsUpToDate;
  }

  /** A request for a vote in the node's term is answered, and the vote recorded if it is granted. */
  lemma VoteAnswered(nd: Node, m: Message, recent: bool)
    requires Sound(nd) && m.Vote? && 0 < m.term <= nd.term
    ensures Step(nd, m, recent) ==
              if m.term < nd.term then nd
              else nd.(afterAppend := nd.afterAppend + [Answer(nd, m)], vote := if MayGrant(nd, m) then m.from else nd.vote)
  {
    UpToDateIs(nd, m.lastIndex, m.lastTerm);
    hide IsUpToDate;
  }

  /** A request for a vote in a later term, unless it is ignored, makes the node a follower of nobody in that
      term, which then grants its vote or refuses it; its log and what it sent stay. */
  lemma LaterVoteAnswered(nd: Node, m: Message, recent: bool)
    requires Sound(nd) && m.Vote? && m.term > nd.term
    ensures var nd' := Step(nd, m, recent);
            if Ignored(nd, m, recent) then nd' == nd
            else
              && nd'.state.StateFollower? && nd'.term == m.term && nd'.lead == NONE && nd'.transferee == NONE
              && nd'.vote == (if MayGrant(nd, m) then m.from else NONE)
              && nd'.afterAppend == nd.afterAppend + [Answer(nd, m)] && nd'.msgs == nd.msgs && nd'.readStates == nd.readStates
              && nd'.log == nd.log && nd'.committed == nd.committed && nd'.compacted == nd.compacted && nd'.snapshot == nd.snapshot
              && nd'.restoring == nd.restoring && nd'.opt == nd.opt && nd'.panicked == nd.panicked
              && nd'.votes == map[] && nd'.uncommitted == 0 && nd'.queue == [] && nd'.confirmed == 0 && nd'.acks == map[]
              && nd'.waiting == nd.waiting
  {
    var nd1 := BecomeFollower(nd, m.term, NONE);
    UpToDateIs(nd1, m.lastIndex, m.lastTerm);
    hide IsUpToDate;
  }

  /** Whatever a node is sent, it grants another node a vote or a pre-vote only in answer to that node's
      request, in the term it asked for, and when the log the request tells of reaches at least as far as
      the node's own. */
  lemma GrantsAnswer(nd: Node, m: Message, recent: bool, r: Message)
    requires nd.compacted <= |nd.log| && r in Grants(Step(nd, m, recent)) && r !in Grants(nd)
    ensures (m.Vote? && r.VoteResp?) || (m.PreVote? && r.PreVoteResp?)
    ensures r.from == nd.opt.id && r.to == m.from && r.term == m.term && UpToDate(nd.log, m.lastIndex, m.lastTerm)
  {
    hide Handle, InLease, Grants, Catch, LowTerm;
    StepTold(nd, m, recent);
    if m.Vote? || m.PreVote? {
      var t := TermOf(m);
      if t == 0 || t == nd.term {
        HandleGrants(nd, m, r);
      } else if t < nd.term {
        LowGrants(nd, m);
      } else if !InLease(nd, m, recent) {
        CatchGrants(nd, m);
        HandleGrants(Catch(nd, m), m, r);
      }
    }
  }

  lemma CatchGrants(nd: Node, m: Message)
    requires m.Vote? || m.PreVote?
    ensures var nd1 := Catch(nd, m); Grants(nd1) == Grants(nd) && nd1.log == nd.log && nd1.compacted == nd.compacted && nd1.opt == nd.opt
  {
    hide Grants;
    GrantsSame(nd, Catch(nd, m));
  }

  lemma LowGrants(nd: Node, m: Message)
    requires m.Vote? || m.PreVote?
    ensures Grants(LowTerm(nd, m)) <= Grants(nd)
  {
    hide Grants, Send;
    GrantsNext(nd, PreVoteResp(nd.opt.id, m.from, nd.term, true));
  }

  lemma HandleGrants(nd: Node, m: Message, r: Message)
    requires (m.Vote? || m.PreVote?) && nd.compacted <= |nd.log| && r in Grants(Handle(nd, m)) && r !in Grants(nd)
    ensures r == if m.Vote? then VoteResp(nd.opt.id, m.from, m.term, false) else PreVoteResp(nd.opt.id, m.from, m.term, false)
    ensures UpToDate(nd.log, m.lastIndex, m.lastTerm)
  {
    hide Grants, Send, IsUpToDate, UpToDate;
    UpToDateIs(nd, m.lastIndex, m.lastTerm);
    var yes := if m.Vote? then VoteResp(nd.opt.id, m.from, m.term, false) else PreVoteResp(nd.opt.id, m.from, m.term, false);
    var no := if m.Vote? then VoteResp(nd.opt.id, m.from, nd.term, true) else PreVoteResp(nd.opt.id, m.from, nd.term, true);
    GrantsNext(nd, yes);
    GrantsNext(nd, no);
    GrantsSame(Send(nd, yes), Send(nd, yes).(vote := m.from));
  }
}
