/** What a leader does once it knows more of a peer's log (raft/raft.go, stepLeader): it commits what a quorum
    holds, tells everyone, sends the peer whatever more it can take, and hands over its leadership once the
    chosen successor has all of the log. */
module NodeProgress {
  import opened Types
  import opened Quorum
  import opened Messages
  import opened InflightWindow
  import opened PeerProgress
  import opened Node
  import opened Protocol
  import opened NodeSends

  /** The peer knows the commit index, or waits, or cannot be told before it is heard from. */
  predicate Knows(nd: Node, y: Id)
    requires y in nd.prs
  {
    var pr := nd.prs[y];
    Waits(pr) || pr.sentCommit == nd.committed || (pr.next <= nd.compacted && !pr.recentActive)
  }

  /** The peer knows as much of the commit index as it has entries for. */
  predicate Caught(nd: Node, y: Id)
    requires y in nd.prs
  {
    Knows(nd, y) || nd.prs[y].sentCommit >= nd.committed || nd.prs[y].sentCommit + 1 >= nd.prs[y].next
  }

  /** A node that can send to all its peers. */
  predicate Able(nd: Node) {
    && !nd.panicked && nd.compacted <= nd.snapshot <= |nd.log|
    && (forall y :: y in nd.opt.peers ==> y in nd.prs)
    && forall y :: y in nd.prs ==> 0 < nd.prs[y].next <= |nd.log| + 1
  }

  /** What sending keeps. The only messages that hand over leadership are those that were there. */
  predicate Kept(nd: Node, nd': Node) {
    && nd'.opt == nd.opt && nd'.state == nd.state && nd'.term == nd.term && nd'.lead == nd.lead && nd'.transferee == nd.transferee
    && nd'.log == nd.log && nd'.committed == nd.committed && nd'.compacted == nd.compacted && nd'.snapshot == nd.snapshot
    && nd'.afterAppend == nd.afterAppend && nd'.queue == nd.queue && nd'.waiting == nd.waiting && nd'.confirmed == nd.confirmed
    && nd'.prs.Keys == nd.prs.Keys && (forall y :: y in nd.prs ==> nd'.prs[y].matched == nd.prs[y].matched)
    && (forall m :: m in nd'.msgs && m.TimeoutNow? ==> m in nd.msgs)
    && Able(nd')
  }

  /** What peers know is not lost. */
  predicate Informed(nd: Node, nd': Node) {
    nd'.prs.Keys == nd.prs.Keys
    && forall y :: y in nd.prs ==> (Knows(nd, y) ==> Knows(nd', y)) && (Caught(nd, y) ==> Caught(nd', y))
  }

  lemma KeptTrans(nd: Node, nd1: Node, nd2: Node)
    requires Kept(nd, nd1) && Kept(nd1, nd2)
    ensures Kept(nd, nd2)
  {
    hide Able;
  }

  lemma InformedTrans(nd: Node, nd1: Node, nd2: Node)
    requires Informed(nd, nd1) && Informed(nd1, nd2)
    ensures Informed(nd, nd2)
  {
    hide Knows, Caught;
  }

  lemma Same(nd: Node)
    requires Able(nd)
    ensures Kept(nd, nd) && Informed(nd, nd)
  {
  }

  /** One message sent to one peer, which knows as much as before. */
  lemma OneKept(nd: Node, to: Id, p: Peer, ms: seq<Message>)
    requires Able(nd) && to in nd.prs && p.matched == nd.prs[to].matched && 0 < p.next <= |nd.log| + 1
    requires forall m :: m in ms ==> !m.TimeoutNow?
    requires var nd' := nd.(msgs := nd.msgs + ms, prs := nd.prs[to := p]);
             (Knows(nd, to) ==> Knows(nd', to)) && (Caught(nd, to) ==> Caught(nd', to))
    ensures var nd' := nd.(msgs := nd.msgs + ms, prs := nd.prs[to := p]); Kept(nd, nd') && Informed(nd, nd')
  {
  }

  lemma SendsKept(nd: Node, to: Id, ifEmpty: bool)
    requires Able(nd) && to in nd.prs && to != nd.opt.id
    ensures var nd' := MaybeSendAppend(nd, to, ifEmpty).0;
            Kept(nd, nd') && Informed(nd, nd') && (ifEmpty ==> Knows(nd', to))
  {
    hide MaybeSendAppend, NoRoom, Batch, Kept, Informed;
    var pr := nd.prs[to];
    Same(nd);
    if Waits(pr) {
      SendsNothing(nd, to, ifEmpty);
    } else if pr.next <= nd.compacted {
      SendsSnapshot(nd, to, ifEmpty);
      var p := Peer(pr.matched, nd.snapshot + 1, nd.snapshot, Snapshot, nd.snapshot, pr.recentActive, false,
                    Window(pr.window.size, pr.window.maxBytes, []), pr.learner);
      OneKept(nd, to, p, [Snap(nd.opt.id, to, nd.term, nd.snapshot, TermAt(nd.log, nd.snapshot), nd.log[..nd.snapshot])]);
    } else if pr.next == |nd.log| + 1 || (pr.mode.Replicate? && NoRoom(pr.window)) {
      SendsEmpty(nd, to, ifEmpty);
      OneKept(nd, to, SentEnts(pr, [], nd.committed), [AppFrom(nd, to, pr.next - 1, [])]);
    } else {
      var ents := SendsEntries(nd, to, ifEmpty);
      BatchEnds(nd.log, pr.next - 1, nd.opt.maxMsgSize, ents);
      OneKept(nd, to, SentEnts(pr, ents, nd.committed), [AppFrom(nd, to, pr.next - 1, ents)]);
    }
  }

  lemma {:induction false} BcastKept(nd: Node, ids: seq<Id>)
    requires Able(nd) && forall y :: y in ids ==> y in nd.prs
    ensures var nd' := BcastAppend(nd, ids);
            Kept(nd, nd') && Informed(nd, nd') && forall y :: y in ids && y != nd.opt.id ==> Knows(nd', y)
    decreases |ids|
  {
    hide MaybeSendAppend, Able, Informed, Knows;
    Same(nd);
    if ids != [] {
      var x := ids[0];
      var nd1 := if x == nd.opt.id then nd else SendAppend(nd, x);
      if x != nd.opt.id { SendsKept(nd, x, true); }
      BcastKept(nd1, ids[1..]);
      var nd' := BcastAppend(nd, ids);
      KeptTrans(nd, nd1, nd');
      InformedTrans(nd, nd1, nd');
      forall y | y in ids && y != nd.opt.id ensures Knows(nd', y) {
        if y == x { StillKnows(nd1, nd', y); }
      }
    }
  }

  lemma StillKnows(nd: Node, nd': Node, y: Id)
    requires Informed(nd, nd') && y in nd.prs
    ensures y in nd'.prs && (Knows(nd, y) ==> Knows(nd', y)) && (Caught(nd, y) ==> Caught(nd', y))
  {
  }

  lemma AllStillKnow(nd: Node, nd': Node)
    requires Informed(nd, nd')
    ensures forall y :: y in nd.prs ==> y in nd'.prs && (Knows(nd, y) ==> Knows(nd', y)) && (Caught(nd, y) ==> Caught(nd', y))
  {
    hide Knows, Caught;
  }

  lemma {:induction false} MoreKept(nd: Node, to: Id)
    requires Able(nd) && to in nd.prs && to != nd.opt.id
    ensures var nd' := SendMore(nd, to); Kept(nd, nd') && Informed(nd, nd') && Drained(nd', to)
    decreases ToSend(nd, to)
  {
    hide MaybeSendAppend, ToSend, Informed, NoRoom;
    SendsKept(nd, to, false);
    OneMore(nd, to);
    Same(nd);
    var (nd1, sent) := MaybeSendAppend(nd, to, false);
    if sent {
      SendingEnds(nd, to);
      MoreKept(nd1, to);
      KeptTrans(nd, nd1, SendMore(nd, to));
      InformedTrans(nd, nd1, SendMore(nd, to));
    }
  }

  lemma BeatsKept(nd: Node, ids: seq<Id>, ctx: nat)
    requires Able(nd) && forall y :: y in ids ==> y in nd.prs
    ensures Kept(nd, BcastHeartbeat(nd, ids, ctx))
  {
    BeatsAre(nd, ids, ctx);
    NoTimeouts(nd, ids, ctx);
    hide BcastHeartbeat, Heartbeats;
  }

  lemma {:induction false} NoTimeouts(nd: Node, ids: seq<Id>, ctx: nat)
    requires forall y :: y in ids ==> y in nd.prs
    ensures forall m :: m in Heartbeats(nd, ids, ctx) ==> !m.TimeoutNow?
    decreases |ids|
  {
    if ids != [] { NoTimeouts(nd, ids[1..], ctx); }
  }

  /** Reads queued one after another at the commit index. */
  function QueuedAt(reqs: seq<Request>, commit: nat): seq<Queued> {
    seq(|reqs|, i requires 0 <= i < |reqs| => Queued(reqs[i], commit))
  }

  lemma AcksKept(nd: Node, acks: map<Id, nat>)
    requires Able(nd)
    ensures Kept(nd, nd.(acks := acks))
  {
  }

  lemma QueueLonger(nd: Node, nd': Node, qs: seq<Queued>)
    requires Kept(nd, nd')
    ensures Kept(nd.(queue := nd.queue + qs), nd'.(queue := nd'.queue + qs))
  {
  }

  lemma OneRead(nd: Node, req: Request)
    requires Able(nd)
    ensures Kept(nd.(queue := nd.queue + [Queued(req, nd.committed)]), QueueRead(nd, req))
  {
    hide BcastHeartbeat, HeartbeatCtx;
    var nd1 := nd.(queue := nd.queue + [Queued(req, nd.committed)]);
    var nd2 := RecvAck(nd1, nd.opt.id, HeartbeatCtx(nd1));
    AcksKept(nd1, nd2.acks);
    BeatsKept(nd2, nd.opt.peers, HeartbeatCtx(nd2));
    hide Able;
    KeptTrans(nd1, nd2, QueueRead(nd, req));
  }

  lemma {:induction false} QueueKept(nd: Node, reqs: seq<Request>)
    requires Able(nd)
    ensures Kept(nd.(queue := nd.queue + QueuedAt(reqs, nd.committed)), QueueReads(nd, reqs))
    decreases |reqs|
  {
    hide QueueRead, Able;
    if reqs == [] {
      Same(nd);
      assert nd.queue + QueuedAt(reqs, nd.committed) == nd.queue;
    } else {
      var nd1 := nd.(queue := nd.queue + [Queued(reqs[0], nd.committed)]);
      var nd2 := QueueRead(nd, reqs[0]);
      var rest := QueuedAt(reqs[1..], nd.committed);
      OneRead(nd, reqs[0]);
      QueueKept(nd2, reqs[1..]);
      QueueLonger(nd1, nd2, rest);
      assert nd1.queue + rest == nd.queue + QueuedAt(reqs, nd.committed);
      KeptTrans(nd1.(queue := nd1.queue + rest), nd2.(queue := nd2.queue + rest), QueueReads(nd, reqs));
    }
  }

  lemma WaitingAble(nd: Node)
    ensures Able(nd.(waiting := [])) == Able(nd)
  {
  }

  /** The reads that waited for a commit in the term are queued at it, in their order. */
  lemma ReleaseKept(nd: Node)
    requires Able(nd) && nd.compacted <= nd.committed <= |nd.log| && TermAt(nd.log, nd.committed) == nd.term
    ensures Kept(nd.(waiting := [], queue := nd.queue + QueuedAt(nd.waiting, nd.committed)), ReleaseWaiting(nd))
  {
    hide QueueReads, Able;
    Same(nd);
    WaitingAble(nd);
    QueueKept(nd.(waiting := []), nd.waiting);
    if nd.waiting == [] { assert nd.queue + QueuedAt(nd.waiting, nd.committed) == nd.queue; }
  }

  /** The commit index a leader moves to: the index a joint quorum acknowledged, if that is higher and of its own
      term. */
  ghost function NewCommit(nd: Node): nat {
    var k := JointCommitted(nd.opt.voters, Matches(nd));
    if k > nd.committed && nd.compacted <= k <= |nd.log| && TermAt(nd.log, k) == nd.term then k else nd.committed
  }

  lemma CommitIs(nd: Node)
    requires nd.term > 0
    ensures MaybeCommit(nd) == (nd.(committed := NewCommit(nd)), NewCommit(nd) > nd.committed)
  {
    hide JointCommitted, Matches;
  }

  lemma CommittedAble(nd: Node, k: nat)
    requires Able(nd)
    ensures Able(nd.(committed := k)) && forall y :: y in nd.opt.peers ==> y in nd.prs
  {
  }

  lemma NewCommitRises(nd: Node)
    ensures NewCommit(nd) >= nd.committed
  {
    hide JointCommitted, Matches;
  }

  lemma NewCommitOwn(nd: Node)
    ensures NewCommit(nd) > nd.committed ==>
              nd.compacted <= NewCommit(nd) <= |nd.log| && TermAt(nd.log, NewCommit(nd)) == nd.term
  {
    hide JointCommitted, Matches;
  }

  /** The node with its new commit index; if it moved, the reads that waited are queued at it. */
  ghost function Committing(nd: Node): Node {
    if NewCommit(nd) > nd.committed
    then nd.(committed := NewCommit(nd), waiting := [], queue := nd.queue + QueuedAt(nd.waiting, NewCommit(nd)))
    else nd
  }

  /** The node after the commit index moved and peers were told, before x is sent more. */
  ghost function TellPeers(nd: Node, x: Id): Node
    requires x in nd.prs
  {
    if NewCommit(nd) > nd.committed then BcastAppend(ReleaseWaiting(nd.(committed := NewCommit(nd))), nd.opt.peers)
    else if x != nd.opt.id && Bumpable(nd.prs[x], nd.committed) then SendAppend(nd, x)
    else nd
  }

  lemma LeaderAckedIs(nd: Node, x: Id)
    requires nd.term > 0 && x in nd.prs
    ensures var nd2 := TellPeers(nd, x);
            var nd3 := if x != nd.opt.id then SendMore(nd2, x) else nd2;
            LeaderAcked(nd, x) == if x == nd3.transferee && x in nd3.prs && nd3.prs[x].matched == |nd3.log|
                                  then Send(nd3, TimeoutNow(nd.opt.id, x, nd.term))
                                  else nd3
  {
    hide MaybeCommit, ReleaseWaiting, BcastAppend, MaybeSendAppend, SendMore, NewCommit, Send;
    CommitIs(nd);
    NewCommitRises(nd);
  }

  lemma TellsPeers(nd: Node, x: Id)
    requires Able(nd) && x in nd.opt.peers && x in nd.prs
    ensures var nd2 := TellPeers(nd, x);
            && Kept(Committing(nd), nd2)
            && (NewCommit(nd) > nd.committed ==> forall y :: y in nd.opt.peers && y != nd.opt.id ==> y in nd2.prs && Knows(nd2, y))
            && x in nd2.prs && (x != nd.opt.id ==> Caught(nd2, x))
  {
    hide Able, Informed, ReleaseWaiting, BcastAppend, MaybeSendAppend, NewCommit, Knows;
    NewCommitRises(nd);
    CommittedAble(nd, NewCommit(nd));
    if NewCommit(nd) > nd.committed {
      var nd1 := nd.(committed := NewCommit(nd));
      NewCommitOwn(nd);
      ReleaseKept(nd1);
      var released := ReleaseWaiting(nd1);
      BcastKept(released, nd.opt.peers);
      KeptTrans(Committing(nd), released, BcastAppend(released, nd.opt.peers));
    } else {
      assert Committing(nd) == nd;
      Same(nd);
      if x != nd.opt.id { SendsKept(nd, x, true); }
    }
  }

  /** A message more changes nothing that is known of the peers. */
  lemma SameFacts(nd: Node, ms: seq<Message>)
    ensures var r := nd.(msgs := nd.msgs + ms);
            forall y :: y in nd.prs ==> Knows(r, y) == Knows(nd, y) && Caught(r, y) == Caught(nd, y) && Drained(r, y) == Drained(nd, y)
  {
    hide NoRoom;
  }

  lemma AbleRuns(nd: Node)
    ensures Able(nd) ==> !nd.panicked
  {
  }

  /** After news of the peer x the commit index is the one the quorums allow; if it moved, the reads that waited
      for that are queued, and all peers that do not wait know it; x itself was sent everything it can take and
      knows as much of the commit index as it has entries for; and leadership is handed to x exactly when x was
      chosen and has all of the log. */
  lemma AckedOutcome(nd: Node, x: Id)
    requires Able(nd) && nd.term > 0 && x in nd.opt.peers && x in nd.prs && nd.transferee != nd.opt.id
    ensures var r := LeaderAcked(nd, x);
            && !r.panicked && r.state == nd.state && r.term == nd.term && r.log == nd.log && r.afterAppend == nd.afterAppend
            && r.committed == NewCommit(nd) && r.waiting == Committing(nd).waiting && r.queue == Committing(nd).queue
            && r.prs.Keys == nd.prs.Keys && (forall y :: y in nd.prs ==> r.prs[y].matched == nd.prs[y].matched)
            && (NewCommit(nd) > nd.committed ==> forall y :: y in nd.opt.peers && y != nd.opt.id ==> y in r.prs && Knows(r, y))
            && (x != nd.opt.id ==> Drained(r, x) && Caught(r, x))
            && (if x == nd.transferee && nd.prs[x].matched == |nd.log|
                then r.msgs != [] && r.msgs[|r.msgs| - 1] == TimeoutNow(nd.opt.id, x, nd.term)
                else forall m :: m in r.msgs && m.TimeoutNow? ==> m in nd.msgs)
  {
    hide TellPeers, LeaderAcked, SendMore, NewCommit, Drained, Knows, Caught, Informed, Able;
    AbleRuns(nd);
    LeaderAckedIs(nd, x);
    TellsPeers(nd, x);
    NewCommitRises(nd);
    var nd1, nd2 := Committing(nd), TellPeers(nd, x);
    var nd3 := if x != nd.opt.id then SendMore(nd2, x) else nd2;
    if x != nd.opt.id {
      MoreKept(nd2, x);
      KeptTrans(nd1, nd2, nd3);
      AllStillKnow(nd2, nd3);
    }
    AbleRuns(nd3);
    var r := LeaderAcked(nd, x);
    SameFacts(nd3, [TimeoutNow(nd.opt.id, x, nd.term)]);
    assert r == nd3 || r == nd3.(msgs := nd3.msgs + [TimeoutNow(nd.opt.id, x, nd.term)]);
  }
}
