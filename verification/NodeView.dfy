/** How the concrete node (module Node) relates to the safety argument (module Protocol): the view a
    node has there, and what else is true of a node in every reachable cluster. */
module NodeView {
  import opened Types
  import opened Messages
  import opened PeerProgress
  import opened Node
  import opened Protocol
  import opened ProtocolFrame
  import opened ProtocolSteps
  import opened ProtocolLeader
  import opened ProtocolReign

  /** A pre-candidate has not entered a new term: for safety it is a follower. */
  function RoleOf(st: StateType): Role {
    match st
    case StateLeader => Leader
    case StateCandidate => Candidate
    case _ => Follower
  }

  function Granted(votes: map<Id, bool>): set<Id> {
    set x | x in votes && votes[x]
  }

  function Out(nd: Node): set<Message> {
    (set m | m in nd.msgs) + (set m | m in nd.afterAppend)
  }

  /** The answers to other nodes' reads among some messages, in order. */
  function RepliesIn(ms: seq<Message>): seq<Message> {
    if ms == [] then []
    else RepliesIn(ms[..|ms| - 1]) + if ms[|ms| - 1].ReadIndexResp? then [ms[|ms| - 1]] else []
  }

  lemma RepliesNext(ms: seq<Message>, m: Message)
    ensures RepliesIn(ms + [m]) == RepliesIn(ms) + if m.ReadIndexResp? then [m] else []
  {
    assert (ms + [m])[..|ms|] == ms;
  }

  /** The answers to other nodes' reads that are on their way. */
  function Replies(nd: Node): seq<Message> {
    RepliesIn(nd.msgs)
  }

  /** Reads a leader queued since it was elected. */
  function Total(nd: Node): nat {
    nd.confirmed + |nd.queue|
  }

  function V(nd: Node): View {
    var leads := nd.state.StateLeader?;
    View(nd.term, nd.vote, RoleOf(nd.state), nd.log, nd.committed,
         if leads then Matches(nd) else map[],
         if nd.state.StateCandidate? then Granted(nd.votes) else {},
         if leads then Total(nd) else 0,
         if leads then nd.acks else map[],
         Out(nd))
  }

  /** The node belongs to the cluster, has not panicked and has compacted only committed entries. */
  predicate Fits(s: Stable, nd: Node) {
    && !nd.panicked
    && nd.opt.voters == s.cfg
    && nd.opt.id in s.disks && nd.opt.id != NONE && nd.opt.id in nd.prs && NONE !in nd.prs
    && (forall x :: x in nd.opt.peers ==> x in nd.prs)
    && (forall x :: x in nd.prs ==> nd.prs[x].window.size > 0)
    && NONE !in nd.opt.peers && nd.opt.maxInflight > 0
    && nd.compacted <= nd.snapshot <= nd.committed
    && (nd.restoring != 0 ==> nd.compacted == nd.snapshot == nd.restoring)
  }

  /** A node knows at most one leader: itself when it leads, the leader of its term when it
      follows. */
  ghost predicate LeadOK(h: History, nd: Node) {
    match nd.state
    case StateLeader => nd.lead == nd.opt.id && nd.transferee != nd.opt.id
    case StateFollower =>
      nd.lead != NONE ==> nd.lead != nd.opt.id && nd.term in h.reigns && h.reigns[nd.term].leader == nd.lead
    case _ => nd.lead == NONE
  }

  predicate Flowing(nd: Node) {
    nd.state.StateLeader? ==> forall x :: x in nd.prs ==> Flow(nd.prs[x], |nd.log|)
  }

  /** A leader's queue holds the reads it has not confirmed, at the indexes they were marked with. */
  ghost predicate QueueOK(h: History, nd: Node) {
    nd.state.StateLeader? ==>
      forall k: nat :: k < |nd.queue| ==> MarkedAt(h, Read(nd.term, nd.confirmed + k + 1), nd.queue[k].index)
  }

  ghost predicate Sane(s: Stable, h: History, nd: Node) {
    Fits(s, nd) && LeadOK(h, nd) && Flowing(nd) && QueueOK(h, nd)
  }

  ghost predicate NodeGood(s: Stable, h: History, nd: Node) {
    Good(s, h, nd.opt.id, V(nd)) && Sane(s, h, nd)
  }

  /** What no message but a snapshot changes: the options and how far the log is compacted. */
  predicate SameBase(nd: Node, nd': Node) {
    nd'.opt == nd.opt && nd'.compacted == nd.compacted && nd'.snapshot == nd.snapshot && nd'.restoring == nd.restoring
  }

  /** A snapshot moves the compacted index past what was committed. */
  predicate Installed(nd: Node, nd': Node) {
    nd'.opt == nd.opt && nd.committed < nd'.restoring == nd'.snapshot == nd'.compacted <= nd'.committed
  }

  lemma LaterTrans(s: Stable, h: History, h1: History, h2: History, n: Id)
    requires Later(s, h, h1, n) && Later(s, h1, h2, n)
    ensures Later(s, h, h2, n)
  {
    hide NodeOK;
    GrowsTrans(h, h1, h2);
  }

  lemma GrowsTrans(h: History, h1: History, h2: History)
    requires Grows(h, h1) && Grows(h1, h2)
    ensures Grows(h, h2)
  {
    forall t | t in h.reigns ensures ReignGrows(h.reigns[t], h2.reigns[t]) {
      assert ReignGrows(h.reigns[t], h1.reigns[t]) && ReignGrows(h1.reigns[t], h2.reigns[t]);
    }
  }

  lemma LaterSelf(s: Stable, h: History, n: Id)
    ensures Later(s, h, h, n)
  {
    hide NodeOK;
  }

  lemma SaneStays(s: Stable, h: History, h': History, nd: Node)
    requires Sane(s, h, nd) && Grows(h, h')
    ensures Sane(s, h', nd)
  {
    hide Fits, Flowing;
    assert forall rd, i :: MarkedAt(h, rd, i) ==> MarkedAt(h', rd, i);
    assert LeadOK(h', nd);
  }

  // ---------------------------------------------------------------------------------------------
  // Facts about a node in order
  // ---------------------------------------------------------------------------------------------

  lemma Bounds(s: Stable, h: History, nd: Node)
    requires NodeGood(s, h, nd)
    ensures nd.committed <= |nd.log|
    ensures s.disks[nd.opt.id].term <= nd.term
  {
    hide GlobalOK, AcksOK, GrantsOK, LeaderOK, CandidateOK, Matched, CommitOK;
  }

  lemma TermKnown(s: Stable, h: History, nd: Node, i: nat)
    requires NodeGood(s, h, nd) && nd.compacted <= i <= |nd.log|
    ensures Term(nd, i) == Some(TermAt(nd.log, i))
  {
  }

  lemma LastTermKnown(s: Stable, h: History, nd: Node)
    requires NodeGood(s, h, nd)
    ensures ZeroTerm(nd, |nd.log|) == LastTerm(nd.log)
  {
    hide NodeGood, Term;
    Bounds(s, h, nd);
    LastBeyond(s, h, nd);
    TermKnown(s, h, nd, |nd.log|);
  }

  lemma LastBeyond(s: Stable, h: History, nd: Node)
    requires NodeGood(s, h, nd) && nd.committed <= |nd.log|
    ensures nd.compacted <= |nd.log|
  {
    hide Good;
  }

  /** A node that has seen no term has no entries. */
  lemma FreshIsEmpty(s: Stable, h: History, nd: Node)
    requires NodeGood(s, h, nd) && nd.term == 0
    ensures nd.log == []
  {
    hide GlobalOK, AcksOK, GrantsOK, LeaderOK, CandidateOK, CommitOK;
    if nd.log != [] { LeaderTermPositive(s, h, nd.log[0].term); }
  }

  lemma Leads(s: Stable, h: History, nd: Node)
    requires NodeGood(s, h, nd) && nd.state.StateLeader?
    ensures LeaderOK(s, h, nd.opt.id, V(nd)) && nd.term > 0
  {
    hide GlobalOK, StateOK, AcksOK, GrantsOK, CandidateOK, LeaderOK, Sane;
    LeaderFacts(s, h, nd.opt.id, V(nd));
    LeaderReign(s, h, nd.opt.id, V(nd));
    LeaderTermPositive(s, h, nd.term);
  }

  lemma LeaderReign(s: Stable, h: History, n: Id, v: View)
    requires LeaderOK(s, h, n, v)
    ensures v.term in h.reigns && h.reigns[v.term].leader == n
    ensures h.reigns[v.term].log == v.log && h.reigns[v.term].commit == v.commit
  {
  }

  // ---------------------------------------------------------------------------------------------
  // Sending
  // ---------------------------------------------------------------------------------------------

  /** m may be sent by n: responses may go to n itself, votes carry a term. */
  predicate Sendable(nd: Node, m: Message) {
    && (IsVoteKind(m) ==> m.term > 0)
    && (m.AppResp? || m.VoteResp? || m.PreVoteResp? || m.to != nd.opt.id)
  }

  lemma SendView(nd: Node, m: Message)
    requires Sendable(nd, m)
    ensures V(Send(nd, m)) == Emitted(V(nd), m)
    ensures Send(nd, m) == nd.(msgs := Send(nd, m).msgs, afterAppend := Send(nd, m).afterAppend)
  {
    var nd' := Send(nd, m);
    assert Out(nd') == Out(nd) + {m};
    assert Matches(nd') == Matches(nd);
  }

  lemma SendSane(s: Stable, h: History, nd: Node, m: Message)
    requires Sane(s, h, nd) && Sendable(nd, m)
    ensures Sane(s, h, Send(nd, m))
  {
    SendView(nd, m);
    var nd' := Send(nd, m);
    assert QueueOK(h, nd') && LeadOK(h, nd') && Fits(s, nd') && Flowing(nd');
  }

  lemma SendPlain(s: Stable, h: History, nd: Node, m: Message)
    requires NodeGood(s, h, nd) && Sendable(nd, m) && MsgOK(s, h, m) && !IsGrant(m) && !IsAccept(m)
    requires Firm(m) ==> m.from == nd.opt.id && m.term == nd.term && nd.term > 0
    ensures NodeGood(s, h, Send(nd, m))
  {
    hide Good, Sane, MsgOK;
    SendView(nd, m);
    SendSane(s, h, nd, m);
    EmitPlain(s, h, nd.opt.id, V(nd), m);
  }

  lemma SendAck(s: Stable, h: History, nd: Node, m: Message)
    requires NodeGood(s, h, nd) && m.AppResp? && !m.reject && m.from == nd.opt.id && m.term == nd.term
    requires nd.term in h.reigns && Holds(nd.log, h.reigns[nd.term].log, m.index)
    ensures NodeGood(s, h, Send(nd, m))
  {
    hide Good, Sane, MsgOK;
    SendView(nd, m);
    SendSane(s, h, nd, m);
    EmitAck(s, h, nd.opt.id, V(nd), m);
  }
}
