/** Queueing, confirming and answering linearizable reads (raft/read_only.go and its callers). */
module NodeReads {
  import opened Types
  import opened Quorum
  import opened Messages
  import opened Node
  import opened Protocol
  import opened ProtocolFrame
  import opened ProtocolSteps
  import PR = ProtocolReign
  import opened NodeView
  import opened NodeLeader
  import opened NodeCommit

  /** The reads a leader of `term` queued after the first `a` and up to the first `b` were marked
      with these commit indexes. */
  ghost predicate MarkedWith(h: History, term: nat, a: nat, b: nat, commits: map<Id, nat>) {
    forall p: nat :: a < p <= b ==> WasMarked(h, Read(term, p), commits)
  }

  ghost predicate WasMarked(h: History, rd: Read, commits: map<Id, nat>) {
    rd in h.marks && h.marks[rd].commits == commits
  }

  lemma MarkedStays(h: History, h': History, term: nat, a: nat, b: nat, commits: map<Id, nat>)
    requires MarkedWith(h, term, a, b, commits) && Grows(h, h')
    ensures MarkedWith(h', term, a, b, commits)
  {
    assert forall rd :: WasMarked(h, rd, commits) ==> WasMarked(h', rd, commits);
  }

  // ---------------------------------------------------------------------------------------------
  // Queueing
  // ---------------------------------------------------------------------------------------------

  lemma QueueView(nd: Node, q: Queued)
    requires nd.state.StateLeader?
    ensures V(nd.(queue := nd.queue + [q])) == V(nd).(queued := V(nd).queued + 1)
  {
    var nd' := nd.(queue := nd.queue + [q]);
    assert Matches(nd') == Matches(nd) && Out(nd') == Out(nd);
  }

  lemma CommitsOwn(s: Stable, h: History, nd: Node)
    requires NodeGood(s, h, nd) && nd.state.StateLeader? && CommittedInTerm(nd)
    ensures PR.CommitsOwnTerm(V(nd))
  {
    hide GlobalOK, NodeGood, LeaderOK;
    Leads(s, h, nd);
    Bounds(s, h, nd);
    ViewCore(nd);
  }

  lemma AddToQueue(s: Stable, h: History, nd: Node, q: Queued, commits: map<Id, nat>) returns (h': History)
    requires NodeGood(s, h, nd) && nd.state.StateLeader? && CommittedInTerm(nd) && q.index == nd.committed
    requires commits.Keys == s.disks.Keys && PR.AllSeen(h, commits)
    ensures NodeGood(s, h', nd.(queue := nd.queue + [q])) && Later(s, h, h', nd.opt.id)
    ensures WasMarked(h', Read(nd.term, Total(nd) + 1), commits)
    ensures h'.reigns == h.reigns
  {
    hide GlobalOK, Good, V, Later, Sane, PR.AllSeen, PR.CommitsOwnTerm;
    CommitsOwn(s, h, nd);
    ViewCore(nd);
    h' := PR.QueueRead(s, h, nd.opt.id, V(nd), commits);
    QueueView(nd, q);
    var nd' := nd.(queue := nd.queue + [q]);
    QueueSane(s, h, h', nd, q);
  }

  lemma QueueSane(s: Stable, h: History, h': History, nd: Node, q: Queued)
    requires Sane(s, h, nd) && Later(s, h, h', nd.opt.id)
    requires PR.MarkedAt(h', Read(nd.term, Total(nd) + 1), q.index)
    ensures Sane(s, h', nd.(queue := nd.queue + [q]))
  {
    hide NodeOK, PR.MarkedAt;
    var nd' := nd.(queue := nd.queue + [q]);
    SaneStays(s, h, h', nd);
    assert QueueOK(h', nd') && LeadOK(h', nd') && Fits(s, nd') && Flowing(nd');
  }

  lemma AcksView(nd: Node, acks: map<Id, nat>)
    requires nd.state.StateLeader?
    ensures V(nd.(acks := acks)) == V(nd).(readAcks := acks)
  {
    assert Matches(nd.(acks := acks)) == Matches(nd) && Out(nd.(acks := acks)) == Out(nd);
  }

  lemma AcksSane(s: Stable, h: History, nd: Node, acks: map<Id, nat>)
    requires Sane(s, h, nd)
    ensures Sane(s, h, nd.(acks := acks))
  {
    var nd' := nd.(acks := acks);
    assert QueueOK(h, nd') && LeadOK(h, nd') && Fits(s, nd') && Flowing(nd');
  }

  /** Recording that x confirmed the reads up to ctx. */
  lemma RecvAckGood(s: Stable, h: History, nd: Node, x: Id, ctx: nat)
    requires NodeGood(s, h, nd) && nd.state.StateLeader? && ctx <= Total(nd)
    requires ctx > 0 ==> Unblocked(h, x, nd.term, ctx)
    ensures NodeGood(s, h, RecvAck(nd, x, ctx))
    ensures RecvAck(nd, x, ctx) == nd.(acks := RecvAck(nd, x, ctx).acks)
  {
    hide GlobalOK, Good, V, Sane, Unblocked;
    if ctx > 0 {
      ViewCore(nd);
      var pos := Max(Ack(nd.acks, x), ctx);
      if x in nd.acks { AckedReads(s, h, nd, x); }
      CountRead(s, h, nd, x, pos);
    }
  }

  lemma AckedReads(s: Stable, h: History, nd: Node, x: Id)
    requires NodeGood(s, h, nd) && nd.state.StateLeader? && x in nd.acks
    ensures nd.acks[x] <= Total(nd) && Unblocked(h, x, nd.term, nd.acks[x])
  {
    hide GlobalOK, NodeGood, Unblocked, Matches, Out;
    Leads(s, h, nd);
    ViewCore(nd);
  }

  lemma CountRead(s: Stable, h: History, nd: Node, x: Id, pos: nat)
    requires NodeGood(s, h, nd) && nd.state.StateLeader? && pos <= Total(nd) && Unblocked(h, x, nd.term, pos)
    ensures NodeGood(s, h, nd.(acks := nd.acks[x := pos]))
  {
    hide GlobalOK, Good, V, Sane, Unblocked;
    ViewCore(nd);
    PR.CountRead(s, h, nd.opt.id, V(nd), x, pos);
    AcksView(nd, nd.acks[x := pos]);
    AcksSane(s, h, nd, nd.acks[x := pos]);
  }

  lemma QueueReadGood(s: Stable, h: History, nd: Node, req: Request, commits: map<Id, nat>) returns (h': History)
    requires NodeGood(s, h, nd) && nd.state.StateLeader? && CommittedInTerm(nd)
    requires commits.Keys == s.disks.Keys && PR.AllSeen(h, commits)
    ensures NodeGood(s, h', QueueRead(nd, req)) && Later(s, h, h', nd.opt.id) && h'.reigns == h.reigns
    ensures WasMarked(h', Read(nd.term, Total(nd) + 1), commits)
    ensures Queueing(nd, QueueRead(nd, req)) && QueueRead(nd, req).queue == nd.queue + [Queued(req, nd.committed)]
  {
    hide GlobalOK, NodeGood, Later, Sending, PR.AllSeen, WasMarked, CommittedInTerm, RecvAck, BcastHeartbeat, Queueing;
    var q := Queued(req, nd.committed);
    var nd1 := nd.(queue := nd.queue + [q]);
    h' := AddToQueue(s, h, nd, q, commits);
    QueueReadSends(s, h', nd1);
    Broadcasts(nd, q, QueueRead(nd, req));
  }

  lemma QueueReadSends(s: Stable, h: History, nd: Node)
    requires NodeGood(s, h, nd) && nd.state.StateLeader?
    ensures var nd2 := RecvAck(nd, nd.opt.id, HeartbeatCtx(nd));
            var nd3 := BcastHeartbeat(nd2, nd.opt.peers, HeartbeatCtx(nd2));
            NodeGood(s, h, nd3) && Sending(nd.(acks := nd2.acks), nd3)
  {
    hide GlobalOK, NodeGood, Sending, RecvAck, BcastHeartbeat;
    OwnUnblocked(s, h, nd);
    RecvAckGood(s, h, nd, nd.opt.id, HeartbeatCtx(nd));
    var nd2 := RecvAck(nd, nd.opt.id, HeartbeatCtx(nd));
    ClusterFacts(s, h, nd2);
    BcastHeartbeatGood(s, h, nd2, nd.opt.peers, HeartbeatCtx(nd2));
  }

  lemma Broadcasts(nd: Node, q: Queued, nd': Node)
    requires exists acks :: Sending(nd.(queue := nd.queue + [q], acks := acks), nd')
    ensures Queueing(nd, nd') && nd'.queue == nd.queue + [q]
  {
  }

  /** What queueing reads leaves alone. */
  predicate Queueing(nd: Node, nd': Node) {
    && SameBase(nd, nd') && nd'.state == nd.state && nd'.term == nd.term && nd'.log == nd.log
    && nd'.committed == nd.committed && nd'.compacted == nd.compacted && nd'.confirmed == nd.confirmed
    && nd'.readStates == nd.readStates && Replies(nd') == Replies(nd) && nd.queue <= nd'.queue && nd'.prs.Keys == nd.prs.Keys
  }

  lemma OwnUnblocked(s: Stable, h: History, nd: Node)
    requires NodeGood(s, h, nd) && nd.state.StateLeader?
    ensures Unblocked(h, nd.opt.id, nd.term, Total(nd))
  {
    hide GlobalOK, Good, V, Sane, Unblocked;
    ViewCore(nd);
    PR.OwnReads(s, h, nd.opt.id, V(nd));
  }

  lemma {:induction false} QueueReadsGood(s: Stable, h: History, nd: Node, reqs: seq<Request>, commits: map<Id, nat>)
    returns (h': History)
    requires NodeGood(s, h, nd) && nd.state.StateLeader? && CommittedInTerm(nd)
    requires commits.Keys == s.disks.Keys && PR.AllSeen(h, commits)
    ensures NodeGood(s, h', QueueReads(nd, reqs)) && Later(s, h, h', nd.opt.id) && h'.reigns == h.reigns
    ensures Total(nd) <= Total(QueueReads(nd, reqs))
    ensures MarkedWith(h', nd.term, Total(nd), Total(QueueReads(nd, reqs)), commits)
    ensures Queueing(nd, QueueReads(nd, reqs))
    decreases |reqs|
  {
    hide GlobalOK, NodeGood, Later, QueueRead, PR.Seen, Grows, Others, WasMarked;
    LaterSelf(s, h, nd.opt.id);
    h' := h;
    if reqs != [] {
      var nd1 := QueueRead(nd, reqs[0]);
      var h1 := QueueReadGood(s, h, nd, reqs[0], commits);
      SeenStays(h, h1, commits);
      h' := QueueReadsGood(s, h1, nd1, reqs[1..], commits);
      LaterTrans(s, h, h1, h', nd.opt.id);
      LaterMark(s, h1, h', nd.opt.id, Read(nd.term, Total(nd) + 1), commits);
    }
  }

  lemma LaterMark(s: Stable, h: History, h': History, n: Id, rd: Read, commits: map<Id, nat>)
    requires Later(s, h, h', n) && WasMarked(h, rd, commits)
    ensures WasMarked(h', rd, commits)
  {
    hide NodeOK;
  }

  lemma SeenStays(h: History, h': History, commits: map<Id, nat>)
    requires PR.AllSeen(h, commits) && h'.reigns == h.reigns
    ensures PR.AllSeen(h', commits)
  {
  }

  lemma SeenGrows(s: Stable, h: History, h': History, n: Id, commits: map<Id, nat>)
    requires PR.AllSeen(h, commits) && Later(s, h, h', n)
    ensures PR.AllSeen(h', commits)
  {
    hide NodeOK;
    forall x | x in commits ensures PR.Seen(h', commits[x]) {
      if commits[x] != 0 {
        var t: nat :| t in h.reigns && commits[x] <= h.reigns[t].commit;
        assert t in h'.reigns && commits[x] <= h'.reigns[t].commit;
      }
    }
  }

  lemma ReleaseGood(s: Stable, h: History, nd: Node, commits: map<Id, nat>) returns (h': History)
    requires NodeGood(s, h, nd) && nd.state.StateLeader?
    requires commits.Keys == s.disks.Keys && PR.AllSeen(h, commits)
    ensures NodeGood(s, h', ReleaseWaiting(nd)) && Later(s, h, h', nd.opt.id)
    ensures Total(nd) <= Total(ReleaseWaiting(nd))
    ensures MarkedWith(h', nd.term, Total(nd), Total(ReleaseWaiting(nd)), commits)
    ensures Queueing(nd, ReleaseWaiting(nd))
  {
    hide GlobalOK, NodeGood, Later, PR.AllSeen, WasMarked, QueueReads;
    LaterSelf(s, h, nd.opt.id);
    h' := h;
    if nd.waiting != [] && CommittedInTerm(nd) {
      WaitingGood(s, h, nd, []);
      h' := QueueReadsGood(s, h, nd.(waiting := []), nd.waiting, commits);
    }
  }

  lemma WaitingGood(s: Stable, h: History, nd: Node, waiting: seq<Request>)
    requires NodeGood(s, h, nd)
    ensures NodeGood(s, h, nd.(waiting := waiting))
  {
    hide Good;
    var nd' := nd.(waiting := waiting);
    assert Matches(nd') == Matches(nd) && Out(nd') == Out(nd);
    assert V(nd') == V(nd);
    assert QueueOK(h, nd') && LeadOK(h, nd') && Fits(s, nd') && Flowing(nd');
  }

  // ---------------------------------------------------------------------------------------------
  // Confirming and answering
  // ---------------------------------------------------------------------------------------------

  lemma ConfirmView(nd: Node, k: nat)
    requires nd.state.StateLeader? && nd.confirmed <= k <= Total(nd)
    ensures V(nd.(queue := nd.queue[k - nd.confirmed..], confirmed := k)) == V(nd)
  {
    var nd' := nd.(queue := nd.queue[k - nd.confirmed..], confirmed := k);
    assert Matches(nd') == Matches(nd) && Out(nd') == Out(nd);
  }

  lemma ConfirmSane(s: Stable, h: History, nd: Node, k: nat)
    requires Sane(s, h, nd) && nd.confirmed <= k <= Total(nd)
    ensures Sane(s, h, nd.(queue := nd.queue[k - nd.confirmed..], confirmed := k))
  {
    hide PR.MarkedAt;
    var nd' := nd.(queue := nd.queue[k - nd.confirmed..], confirmed := k);
    assert LeadOK(h, nd') && Fits(s, nd') && Flowing(nd');
    if nd.state.StateLeader? {
      forall i: nat | i < |nd'.queue| ensures PR.MarkedAt(h, Read(nd.term, nd'.confirmed + i + 1), nd'.queue[i].index) {
        assert nd'.queue[i] == nd.queue[i + k - nd.confirmed];
      }
    }
  }

  /** The nodes that confirmed the reads up to k. */
  function Confirming(acks: map<Id, nat>, k: nat): set<Id> {
    set x | x in acks && acks[x] >= k
  }

  lemma QuorumConfirms(nd: Node, k: nat)
    requires nd.opt.voters.incoming != {} && 0 < k == JointCommitted(nd.opt.voters, nd.acks)
    ensures IsQuorum(nd.opt.voters, Confirming(nd.acks, k))
  {
    JointExactly(nd.opt.voters, nd.acks, k);
    assert AckedBy(Voters(nd.opt.voters), nd.acks, k) <= Confirming(nd.acks, k);
    QuorumGrows(nd.opt.voters, AckedBy(Voters(nd.opt.voters), nd.acks, k), Confirming(nd.acks, k));
  }

  /** Confirmed reads were queued, so the slice taken off the queue is in range. */
  lemma ConfirmedInRange(s: Stable, h: History, nd: Node, k: nat)
    requires NodeGood(s, h, nd) && nd.state.StateLeader? && 0 < k && IsQuorum(nd.opt.voters, Confirming(nd.acks, k))
    ensures k <= Total(nd)
  {
    hide GlobalOK, NodeGood, Unblocked, IsQuorum;
    ClusterFacts(s, h, nd);
    QuorumsMeet(nd.opt.voters, Confirming(nd.acks, k), Confirming(nd.acks, k));
    var x :| x in Confirming(nd.acks, k);
    AckedReads(s, h, nd, x);
  }

  lemma ConfirmedFresh(s: Stable, h: History, nd: Node, k: nat, p: nat)
    requires NodeGood(s, h, nd) && nd.state.StateLeader? && nd.confirmed < p <= k <= Total(nd)
    requires IsQuorum(nd.opt.voters, Confirming(nd.acks, k))
    ensures PR.Fresh(h, Read(nd.term, p), nd.queue[p - nd.confirmed - 1].index)
  {
    hide GlobalOK, Good, Sane, IsQuorum, V, Confirming, PR.Fresh, PR.MarkedAt;
    var i := p - nd.confirmed - 1;
    assert nd.confirmed + i + 1 == p;
    QueueIndex(s, h, nd, i);
    ConfirmedMark(s, h, nd, k, p, nd.queue[i].index);
  }

  lemma ConfirmedMark(s: Stable, h: History, nd: Node, k: nat, p: nat, index: nat)
    requires NodeGood(s, h, nd) && nd.state.StateLeader? && 0 < p <= k <= Total(nd)
    requires IsQuorum(nd.opt.voters, Confirming(nd.acks, k)) && PR.MarkedAt(h, Read(nd.term, p), index)
    ensures PR.Fresh(h, Read(nd.term, p), index)
  {
    hide GlobalOK, Good, Sane, IsQuorum, V, Confirming, PR.ConfirmedUpTo, PR.MarkedAt, PR.Fresh;
    ClusterFacts(s, h, nd);
    ViewCore(nd);
    ConfirmingView(nd, k, p);
    PR.ReadIsFresh(s, h, nd.opt.id, V(nd), Confirming(nd.acks, k), p, index);
  }

  lemma ConfirmingView(nd: Node, k: nat, p: nat)
    requires nd.state.StateLeader? && p <= k
    ensures PR.ConfirmedUpTo(V(nd), Confirming(nd.acks, k), p)
  {
  }

  lemma QueueIndex(s: Stable, h: History, nd: Node, i: nat)
    requires NodeGood(s, h, nd) && nd.state.StateLeader? && i < |nd.queue|
    ensures PR.MarkedAt(h, Read(nd.term, nd.confirmed + i + 1), nd.queue[i].index)
  {
    hide GlobalOK, Good, PR.MarkedAt, Fits, LeadOK, Flowing;
  }

  /** Reads leave the queue in order, each once, and fresh. */
  ghost predicate Answerable(h: History, nd: Node, nd': Node, qs: seq<Queued>) {
    && |qs| <= |nd.queue| && nd'.queue == nd.queue[|qs|..] && qs == nd.queue[..|qs|]
    && nd'.confirmed == nd.confirmed + |qs|
    && forall p: nat :: nd.confirmed < p <= nd'.confirmed ==>
         PR.Fresh(h, Read(nd.term, p), nd.queue[p - nd.confirmed - 1].index)
  }

  lemma MaybeAdvanceGood(s: Stable, h: History, nd: Node)
    requires NodeGood(s, h, nd) && nd.state.StateLeader?
    ensures NodeGood(s, h, MaybeAdvance(nd).0)
    ensures MaybeAdvance(nd).0 == nd.(queue := MaybeAdvance(nd).0.queue, confirmed := MaybeAdvance(nd).0.confirmed)
    ensures Answerable(h, nd, MaybeAdvance(nd).0, MaybeAdvance(nd).1)
  {
    hide GlobalOK, Good, V, Sane, JointCommitted, PR.Fresh, Confirming, IsQuorum;
    var k := JointCommitted(nd.opt.voters, nd.acks);
    if k > nd.confirmed {
      ClusterFacts(s, h, nd);
      QuorumConfirms(nd, k);
      ConfirmedInRange(s, h, nd, k);
      ConfirmView(nd, k);
      ConfirmSane(s, h, nd, k);
      forall p: nat | nd.confirmed < p <= k ensures PR.Fresh(h, Read(nd.term, p), nd.queue[p - nd.confirmed - 1].index) {
        ConfirmedFresh(s, h, nd, k, p);
      }
    }
  }

  lemma ReadStatesGood(s: Stable, h: History, nd: Node, states: seq<ReadState>)
    requires NodeGood(s, h, nd)
    ensures NodeGood(s, h, nd.(readStates := states))
  {
    hide Good;
    var nd' := nd.(readStates := states);
    assert Matches(nd') == Matches(nd) && Out(nd') == Out(nd);
    assert V(nd') == V(nd);
    assert QueueOK(h, nd') && LeadOK(h, nd') && Fits(s, nd') && Flowing(nd');
  }

  /** What answering changes. */
  predicate Answering(nd: Node, nd': Node) {
    nd' == nd.(readStates := nd'.readStates, msgs := nd'.msgs)
  }

  /** The reads answered here, and the answers sent to other nodes. */
  function LocalAnswers(id: Id, qs: seq<Queued>): seq<ReadState> {
    if qs == [] then []
    else
      var q := qs[|qs| - 1];
      LocalAnswers(id, qs[..|qs| - 1]) + if q.req.from == NONE || q.req.from == id then [ReadState(q.index, q.req.data)] else []
  }

  function RemoteAnswers(id: Id, term: nat, qs: seq<Queued>): seq<Message> {
    if qs == [] then []
    else
      var q := qs[|qs| - 1];
      RemoteAnswers(id, term, qs[..|qs| - 1])
      + if q.req.from != NONE && q.req.from != id then [ReadIndexResp(id, q.req.from, term, q.index, q.req.data)] else []
  }

  /** Every read of qs was answered, once, in order, with its own index, and nothing else was. */
  predicate Answered(nd: Node, nd': Node, qs: seq<Queued>) {
    nd'.readStates == nd.readStates + LocalAnswers(nd.opt.id, qs)
    && Replies(nd') == Replies(nd) + RemoteAnswers(nd.opt.id, nd.term, qs)
  }

  lemma {:induction false} LocalFrom(id: Id, q: Queued, qs: seq<Queued>)
    ensures LocalAnswers(id, [q] + qs) == LocalAnswers(id, [q]) + LocalAnswers(id, qs)
  {
    if qs == [] {
      assert [q] + qs == [q];
    } else {
      var last := qs[|qs| - 1];
      assert ([q] + qs)[..|qs|] == [q] + qs[..|qs| - 1];
      LocalFrom(id, q, qs[..|qs| - 1]);
      assert LocalAnswers(id, qs) == LocalAnswers(id, qs[..|qs| - 1])
        + if last.req.from == NONE || last.req.from == id then [ReadState(last.index, last.req.data)] else [];
    }
  }

  lemma RespondIs(nd: Node, q: Queued)
    ensures Answering(nd, Respond(nd, q)) && Answered(nd, Respond(nd, q), [q])
  {
    hide LocalAnswers, RemoteAnswers, RepliesIn;
    OneAnswer(nd.opt.id, nd.term, q);
    if !(q.req.from == NONE || q.req.from == nd.opt.id) {
      RepliesNext(nd.msgs, ReadIndexResp(nd.opt.id, q.req.from, nd.term, q.index, q.req.data));
    }
  }

  /** A read is answered either to the node itself or to another one. */
  lemma OneAnswer(id: Id, term: nat, q: Queued)
    ensures var own := q.req.from == NONE || q.req.from == id;
            LocalAnswers(id, [q]) == (if own then [ReadState(q.index, q.req.data)] else [])
            && RemoteAnswers(id, term, [q]) == if own then [] else [ReadIndexResp(id, q.req.from, term, q.index, q.req.data)]
  {
    assert [q][..0] == [];
  }

  lemma {:induction false} RespondAllIs(nd: Node, qs: seq<Queued>)
    ensures Answering(nd, RespondAll(nd, qs)) && Answered(nd, RespondAll(nd, qs), qs)
    decreases |qs|
  {
    hide Respond, LocalAnswers, RemoteAnswers, Replies;
    if qs == [] {
      NoAnswers(nd);
    } else {
      var nd1 := Respond(nd, qs[0]);
      RespondIs(nd, qs[0]);
      RespondAllIs(nd1, qs[1..]);
      LocalFrom(nd.opt.id, qs[0], qs[1..]);
      RemoteFrom(nd.opt.id, nd.term, qs[0], qs[1..]);
      assert [qs[0]] + qs[1..] == qs;
    }
  }

  lemma NoAnswers(nd: Node)
    ensures Answered(nd, nd, [])
  {
  }

  lemma {:induction false} RemoteFrom(id: Id, term: nat, q: Queued, qs: seq<Queued>)
    ensures RemoteAnswers(id, term, [q] + qs) == RemoteAnswers(id, term, [q]) + RemoteAnswers(id, term, qs)
  {
    if qs == [] {
      assert [q] + qs == [q];
    } else {
      var last := qs[|qs| - 1];
      assert ([q] + qs)[..|qs|] == [q] + qs[..|qs| - 1];
      RemoteFrom(id, term, q, qs[..|qs| - 1]);
      assert RemoteAnswers(id, term, qs) == RemoteAnswers(id, term, qs[..|qs| - 1])
        + if last.req.from != NONE && last.req.from != id
          then [ReadIndexResp(id, last.req.from, term, last.index, last.req.data)] else [];
    }
  }

  lemma RespondGood(s: Stable, h: History, nd: Node, q: Queued)
    requires NodeGood(s, h, nd)
    ensures NodeGood(s, h, Respond(nd, q)) && Answering(nd, Respond(nd, q))
  {
    hide GlobalOK, NodeGood;
    if q.req.from == NONE || q.req.from == nd.opt.id {
      ReadStatesGood(s, h, nd, nd.readStates + [ReadState(q.index, q.req.data)]);
    } else {
      var m := ReadIndexResp(nd.opt.id, q.req.from, nd.term, q.index, q.req.data);
      SendPlain(s, h, nd, m);
    }
  }

  lemma {:induction false} RespondAllGood(s: Stable, h: History, nd: Node, qs: seq<Queued>)
    requires NodeGood(s, h, nd)
    ensures NodeGood(s, h, RespondAll(nd, qs)) && Answering(nd, RespondAll(nd, qs))
    decreases |qs|
  {
    hide GlobalOK, NodeGood, Respond;
    if qs != [] {
      RespondGood(s, h, nd, qs[0]);
      RespondAllGood(s, h, Respond(nd, qs[0]), qs[1..]);
    }
  }
}
