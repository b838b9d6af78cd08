/** What a leader answers to each message, over Step itself and written out on its log and fields
    (raft/raft.go, stepLeader): acknowledgements, heartbeats and their answers, proposals, reads, and
    transfers. */
module NodeLeading {
  import opened Types
  import opened Quorum
  import opened Messages
  import opened Limit
  import opened InflightWindow
  import opened PeerProgress
  import opened Node
  import opened Protocol
  import opened NodeReads
  import opened NodeLeader
  import opened NodeSends
  import opened NodeReplication
  import opened NodeProgress

  /** The acknowledgement shows no more than was known. */
  predicate Stale(pr: Peer, n: nat) {
    n < pr.matched || (n == pr.matched && !pr.mode.Probe?)
  }

  /** A stale acknowledgement only shows that the peer is alive. Any other raises its Match to the index; the
      leader then commits what a quorum holds, queues the reads that waited for that, and tells everyone; it
      sends the peer all it can take, and hands over its leadership if the peer was chosen and has all of the
      log. */
  lemma AckAnswered(nd: Node, m: Message, recent: bool)
    requires m.AppResp? && !m.reject && LeaderOf(nd, m) && nd.term > 0 && Able(nd) && m.index <= |nd.log| && nd.transferee != nd.opt.id
    requires m.from in nd.prs && m.from in nd.opt.peers && Flow(nd.prs[m.from], |nd.log|)
    ensures var x, pr := m.from, nd.prs[m.from].(recentActive := true);
            var nd' := Step(nd, m, recent);
            if Stale(pr, m.index) then nd' == WithPeer(nd, x, pr)
            else
              var nd1 := WithPeer(nd, x, Acked(pr, m.index, nd.compacted + 1).0);
              && !nd'.panicked && nd'.state == nd.state && nd'.term == nd.term && nd'.log == nd.log && nd'.afterAppend == nd.afterAppend
              && nd'.prs.Keys == nd.prs.Keys && nd'.prs[x].matched == m.index
              && (forall y :: y in nd.prs && y != x ==> nd'.prs[y].matched == nd.prs[y].matched)
              && nd'.committed == NewCommit(nd1)
              && (if NewCommit(nd1) > nd.committed
                  then nd'.waiting == [] && nd'.queue == nd.queue + QueuedAt(nd.waiting, NewCommit(nd1))
                  else nd'.waiting == nd.waiting && nd'.queue == nd.queue)
              && (NewCommit(nd1) > nd.committed ==> forall y :: y in nd.opt.peers && y != nd.opt.id ==> y in nd'.prs && Knows(nd', y))
              && (x != nd.opt.id ==> Drained(nd', x) && Caught(nd', x))
              && (if x == nd.transferee && m.index == |nd.log|
                  then nd'.msgs != [] && nd'.msgs[|nd'.msgs| - 1] == TimeoutNow(nd.opt.id, x, nd.term)
                  else forall t :: t in nd'.msgs && t.TimeoutNow? ==> t in nd.msgs)
  {
    hide Flow, Step, LeaderAcked, Acked, NewCommit, Knows, Drained, Caught, LeaderOf;
    var x, pr := m.from, nd.prs[m.from].(recentActive := true);
    AckIs(nd, m, recent);
    if !Stale(pr, m.index) {
      var q := Acked(pr, m.index, nd.compacted + 1).0;
      var nd1 := WithPeer(nd, x, q);
      AckedAble(nd, x, m.index, nd.compacted + 1);
      AckedOutcome(nd1, x);
      hide Able;
    }
  }

  lemma AckIs(nd: Node, m: Message, recent: bool)
    requires m.AppResp? && !m.reject && LeaderOf(nd, m) && m.from in nd.prs && Flow(nd.prs[m.from], |nd.log|)
    ensures var x, pr := m.from, nd.prs[m.from].(recentActive := true);
            Step(nd, m, recent) == if Stale(pr, m.index) then WithPeer(nd, x, pr)
                                   else LeaderAcked(WithPeer(nd, x, Acked(pr, m.index, nd.compacted + 1).0), x)
  {
    hide Flow, Step, LeaderAcked, Acked;
    var x, pr := m.from, nd.prs[m.from].(recentActive := true);
    HandledByLeader(nd, m, recent);
    NextInRange(nd.prs[x], |nd.log|);
    FlowSorted(nd.prs[x], |nd.log|);
    AckedIs(pr, m.index, nd.compacted + 1);
    var q := Acked(pr, m.index, nd.compacted + 1).0;
    assert WithPeer(WithPeer(nd, x, pr), x, q) == WithPeer(nd, x, q);
  }

  lemma AckedAble(nd: Node, x: Id, n: nat, first: nat)
    requires Able(nd) && x in nd.prs && n <= |nd.log| && Flow(nd.prs[x], |nd.log|)
    requires !Stale(nd.prs[x], n)
    ensures var q := Acked(nd.prs[x].(recentActive := true), n, first).0; Able(WithPeer(nd, x, q)) && q.matched == n
  {
    hide Acked;
    FlowSorted(nd.prs[x], |nd.log|);
    AckedIs(nd.prs[x].(recentActive := true), n, first);
  }

  lemma FlowSorted(p: Peer, last: nat)
    requires Flow(p, last)
    ensures p.mode.Replicate? ==> Increasing(p.window.flights)
  {
  }

  /** Ticks: a heartbeat for every other peer, with the position of the last read that waits for
      confirmation. */
  lemma BeatAnswered(nd: Node, m: Message, recent: bool)
    requires nd.state.StateLeader? && m.Beat? && forall y :: y in nd.opt.peers ==> y in nd.prs
    ensures Step(nd, m, recent) ==
              nd.(msgs := nd.msgs + Heartbeats(nd, nd.opt.peers, if nd.queue == [] then 0 else nd.confirmed + |nd.queue|),
                  prs := AfterBeats(nd, nd.opt.peers))
  {
    hide BcastHeartbeat, Heartbeats, AfterBeats, Step;
    BeatIs(nd, m, recent);
    BeatsAre(nd, nd.opt.peers, HeartbeatCtx(nd));
  }

  lemma BeatIs(nd: Node, m: Message, recent: bool)
    requires nd.state.StateLeader? && m.Beat?
    ensures Step(nd, m, recent) == BcastHeartbeat(nd, nd.opt.peers, HeartbeatCtx(nd))
  {
    hide BcastHeartbeat, HeartbeatCtx;
  }

  /** The entries of a proposal, behind the leader's log and in its term. */
  predicate ProposedEntries(nd: Node, payloads: seq<Bytes>, ents: seq<Entry>) {
    |ents| == |payloads| && forall i :: 0 <= i < |ents| ==> ents[i] == Entry(|nd.log| + 1 + i, nd.term, payloads[i])
  }

  /** The leader with these entries: it acknowledges them itself once they are stored. */
  function Extended(nd: Node, ents: seq<Entry>, size: nat): Node {
    nd.(log := nd.log + ents, uncommitted := nd.uncommitted + size,
        afterAppend := nd.afterAppend + [AppResp(nd.opt.id, nd.opt.id, nd.term, |nd.log| + |ents|, false, 0, 0)])
  }

  /** A proposal is dropped while leadership is being transferred, and when too much is uncommitted already;
      otherwise it is appended and sent to every peer. */
  lemma ProposalAnswered(nd: Node, m: Message, recent: bool) returns (ents: seq<Entry>)
    requires nd.state.StateLeader? && m.Prop? && m.payloads != []
    requires Able(nd) && nd.committed <= |nd.log| && nd.opt.id in nd.prs && Distinct(nd.opt.peers)
    ensures ProposedEntries(nd, m.payloads, ents)
    ensures var size := PayloadsSize(m.payloads);
            var nd1 := Extended(nd, ents, size);
            if nd.transferee != NONE || (nd.uncommitted > 0 && size > 0 && nd.uncommitted + size > nd.opt.maxUncommitted)
            then Step(nd, m, recent) == nd
            else AllInReach(nd1, nd.opt.peers)
                 && Step(nd, m, recent) == nd1.(msgs := nd.msgs + ForAll(nd1, nd.opt.peers), prs := AfterAll(nd1, nd.opt.peers))
  {
    hide PayloadsSize, BcastAppend, ForAll, AfterAll;
    ents := NewEntries(nd, m.payloads);
    var nd1 := Extended(nd, ents, PayloadsSize(m.payloads));
    LongerReach(nd, nd1);
    BcastIs(nd1, nd.opt.peers);
    EntryAppended(nd, m.payloads);
    hide AppendEntry, AllInReach, Distinct, Able;
    PropIs(nd, m, recent);
  }

  lemma LongerReach(nd: Node, nd1: Node)
    requires Able(nd) && nd1.prs == nd.prs && nd1.opt == nd.opt && nd1.snapshot == nd.snapshot && nd1.compacted == nd.compacted
    requires |nd1.log| >= |nd.log|
    ensures AllInReach(nd1, nd.opt.peers)
  {
  }

  lemma EntryAppended(nd: Node, payloads: seq<Bytes>)
    requires payloads != [] && nd.committed <= |nd.log|
    ensures var size := PayloadsSize(payloads);
            AppendEntry(nd, payloads) ==
              if nd.uncommitted > 0 && size > 0 && nd.uncommitted + size > nd.opt.maxUncommitted then (nd, false)
              else (Extended(nd, NewEntries(nd, payloads), size), true)
  {
    hide PayloadsSize;
    assert nd.log[..|nd.log|] == nd.log;
  }

  lemma PropIs(nd: Node, m: Message, recent: bool)
    requires nd.state.StateLeader? && m.Prop? && m.payloads != [] && nd.opt.id in nd.prs
    ensures Step(nd, m, recent) ==
              if nd.transferee != NONE || !AppendEntry(nd, m.payloads).1 then nd
              else BcastAppend(AppendEntry(nd, m.payloads).0, nd.opt.peers)
  {
    hide AppendEntry, BcastAppend;
  }

  /** A read is answered at once by a leader that is the only voter; it waits while the leader committed nothing
      in its term; otherwise it is queued at the commit index and every peer is asked to confirm. */
  lemma ReadAnswered(nd: Node, m: Message, recent: bool)
    requires nd.state.StateLeader? && m.ReadIndex? && nd.compacted <= nd.committed <= |nd.log|
    requires forall y :: y in nd.opt.peers ==> y in nd.prs
    ensures var nd' := Step(nd, m, recent);
            if |nd.opt.voters.incoming| == 1 && nd.opt.voters.outgoing == {} then
              Answered(nd, nd', [Queued(Request(m.from, m.data), nd.committed)])
            else if TermAt(nd.log, nd.committed) != nd.term then nd' == nd.(waiting := nd.waiting + [Request(m.from, m.data)])
            else
              var pos := nd.confirmed + |nd.queue| + 1;
              nd' == WithRead(nd, Request(m.from, m.data)).(msgs := nd.msgs + Heartbeats(nd, nd.opt.peers, pos),
                                                            prs := AfterBeats(nd, nd.opt.peers))
  {
    hide BcastHeartbeat, Heartbeats, AfterBeats, Answered, Step, Respond, QueueRead, HeartbeatCtx, WithRead;
    var req := Request(m.from, m.data);
    ReadIs(nd, m, recent);
    RespondIs(nd, Queued(req, nd.committed));
    QueueReadIs(nd, req);
  }

  lemma ReadIs(nd: Node, m: Message, recent: bool)
    requires nd.state.StateLeader? && m.ReadIndex? && nd.compacted <= nd.committed <= |nd.log|
    ensures Step(nd, m, recent) ==
              if |nd.opt.voters.incoming| == 1 && nd.opt.voters.outgoing == {}
              then Respond(nd, Queued(Request(m.from, m.data), nd.committed))
              else if TermAt(nd.log, nd.committed) != nd.term then nd.(waiting := nd.waiting + [Request(m.from, m.data)])
              else QueueRead(nd, Request(m.from, m.data))
  {
    hide QueueRead, Respond;
  }

  /** The read at the end of the queue, confirmed by the leader itself. */
  function WithRead(nd: Node, req: Request): Node {
    var pos := nd.confirmed + |nd.queue| + 1;
    nd.(queue := nd.queue + [Queued(req, nd.committed)],
        acks := nd.acks[nd.opt.id := Max(if nd.opt.id in nd.acks then nd.acks[nd.opt.id] else 0, pos)])
  }

  lemma QueueReadIs(nd: Node, req: Request)
    requires forall y :: y in nd.opt.peers ==> y in nd.prs
    ensures var pos := nd.confirmed + |nd.queue| + 1;
            QueueRead(nd, req)
            == WithRead(nd, req).(msgs := nd.msgs + Heartbeats(nd, nd.opt.peers, pos), prs := AfterBeats(nd, nd.opt.peers))
  {
    hide BcastHeartbeat, Heartbeats, AfterBeats, WithRead, QueueRead;
    QueueReadSends(nd, req);
    WithReadSame(nd, req);
    var nd2, pos := WithRead(nd, req), nd.confirmed + |nd.queue| + 1;
    BeatsAre(nd2, nd.opt.peers, pos);
    SameBeats(nd, nd2, nd.opt.peers, pos);
  }

  lemma WithReadSame(nd: Node, req: Request)
    ensures var nd2 := WithRead(nd, req);
            nd2.opt == nd.opt && nd2.term == nd.term && nd2.prs == nd.prs && nd2.committed == nd.committed && nd2.msgs == nd.msgs
  {
  }

  lemma QueueReadSends(nd: Node, req: Request)
    ensures QueueRead(nd, req) == BcastHeartbeat(WithRead(nd, req), nd.opt.peers, nd.confirmed + |nd.queue| + 1)
  {
    hide BcastHeartbeat;
  }

  /** Heartbeats look at the peers and the commit index alone. */
  lemma {:induction false} SameBeats(nd: Node, nd': Node, ids: seq<Id>, ctx: nat)
    requires nd'.opt == nd.opt && nd'.term == nd.term && nd'.prs == nd.prs && nd'.committed == nd.committed
    requires forall y :: y in ids ==> y in nd.prs
    ensures Heartbeats(nd', ids, ctx) == Heartbeats(nd, ids, ctx) && AfterBeats(nd', ids) == AfterBeats(nd, ids)
    decreases |ids|
  {
    if ids != [] { SameBeats(nd, nd', ids[1..], ctx); }
  }

  /** Leadership is not handed to a learner; asking again for the same successor changes nothing, and asking for
      the leader itself calls the transfer off. A successor that has all of the log is told to campaign at
      once, any other is sent what it needs first. */
  lemma TransferAnswered(nd: Node, m: Message, recent: bool)
    requires m.TransferLeader? && nd.state.StateLeader? && (m.term == 0 || m.term == nd.term)
    requires m.from in nd.prs && (m.from != nd.opt.id ==> InReach(nd, m.from))
    ensures var x := m.from;
            Step(nd, m, recent) ==
              if nd.prs[x].learner || nd.transferee == x then nd
              else if x == nd.opt.id then nd.(transferee := NONE)
              else if nd.prs[x].matched == |nd.log| then nd.(transferee := x, msgs := nd.msgs + [TimeoutNow(nd.opt.id, x, nd.term)])
              else nd.(transferee := x, msgs := nd.msgs + NextFor(nd, x).0, prs := nd.prs[x := NextFor(nd, x).1])
  {
    var x := m.from;
    if x != nd.opt.id {
      var nd1 := nd.(transferee := x);
      SendAppendIs(nd1, x);
      SameNext(nd, nd1, x);
    }
    hide NextFor, MaybeSendAppend;
  }

  lemma SameNext(nd: Node, nd1: Node, x: Id)
    requires InReach(nd, x) && nd1.opt == nd.opt && nd1.prs == nd.prs && nd1.log == nd.log && nd1.term == nd.term
    requires nd1.committed == nd.committed && nd1.compacted == nd.compacted && nd1.snapshot == nd.snapshot
    ensures InReach(nd1, x) && NextFor(nd1, x) == NextFor(nd, x)
  {
    hide NoRoom, LimitSize, SentEnts;
  }

  /** A peer that could not be reached is probed again behind what it matched; one whose snapshot was delivered,
      or got lost, is probed behind the snapshot, or behind what it matched, once it is heard from. Other
      modes ignore both. */
  lemma ReportAnswered(nd: Node, m: Message, recent: bool)
    requires nd.state.StateLeader? && (m.Unreachable? || m.SnapStatus?)
    ensures var x := m.from;
            var nd' := Step(nd, m, recent);
            if x !in nd.prs || nd.prs[x].mode != (if m.Unreachable? then Replicate else Snapshot) then nd' == nd
            else
              var pr := nd.prs[x];
              var prev := if m.Unreachable? || m.failed then pr.matched else Max(pr.matched, pr.pendingSnapshot);
              nd' == WithPeer(nd, x, Peer(pr.matched, prev + 1, Min(pr.sentCommit, prev), Probe, 0, pr.recentActive, m.SnapStatus?,
                                          Window(pr.window.size, pr.window.maxBytes, []), pr.learner))
  {
  }

  /** The answer to a heartbeat shows that the peer is alive and lets it be sent more; it is, if it lacks entries
      or is being probed. Its position counts as the peer's confirmation of the reads up to it, and those a
      quorum confirmed leave the queue and are answered. */
  lemma HeartbeatRespAnswered(nd: Node, m: Message, recent: bool)
    requires m.HeartbeatResp? && LeaderOf(nd, m) && m.from in nd.prs && InReach(nd, m.from) && !nd.panicked
    ensures var x, pr := m.from, nd.prs[m.from].(recentActive := true, paused := false);
            var nd1 := WithPeer(nd, x, pr);
            var nd2 := if pr.matched < |nd.log| || pr.mode.Probe?
                       then nd1.(msgs := nd1.msgs + NextFor(nd1, x).0, prs := nd1.prs[x := NextFor(nd1, x).1])
                       else nd1;
            var acks := nd.acks[x := Max(if x in nd.acks then nd.acks[x] else 0, m.ctx)];
            var k := JointCommitted(nd.opt.voters, acks);
            var nd' := Step(nd, m, recent);
            if m.ctx == 0 then nd' == nd2
            else if k <= nd.confirmed then nd' == nd2.(acks := acks)
            else k - nd.confirmed <= |nd.queue| ==>
              nd'.queue == nd.queue[k - nd.confirmed..] && nd'.confirmed == k
              && Answered(nd2, nd', nd.queue[..k - nd.confirmed]) && nd'.prs == nd2.prs
  {
    hide Step, NextFor, JointCommitted, RespondAll, Answered;
    var x, pr := m.from, nd.prs[m.from].(recentActive := true, paused := false);
    var nd1 := WithPeer(nd, x, pr);
    var nd2 := if pr.matched < |nd.log| || pr.mode.Probe?
               then nd1.(msgs := nd1.msgs + NextFor(nd1, x).0, prs := nd1.prs[x := NextFor(nd1, x).1])
               else nd1;
    BeatRespIs(nd, m, recent);
    var (nd3, qs) := MaybeAdvance(RecvAck(nd2, x, m.ctx));
    RespondAllIs(nd3, qs);
    RespondNone(nd3);
    AnsweredFrom(nd2, nd3, RespondAll(nd3, qs), qs);
  }

  lemma BeatRespIs(nd: Node, m: Message, recent: bool)
    requires m.HeartbeatResp? && LeaderOf(nd, m) && m.from in nd.prs && InReach(nd, m.from)
    ensures var x, pr := m.from, nd.prs[m.from].(recentActive := true, paused := false);
            var nd1 := WithPeer(nd, x, pr);
            var nd2 := if pr.matched < |nd.log| || pr.mode.Probe?
                       then nd1.(msgs := nd1.msgs + NextFor(nd1, x).0, prs := nd1.prs[x := NextFor(nd1, x).1])
                       else nd1;
            var (nd3, qs) := MaybeAdvance(RecvAck(nd2, x, m.ctx));
            Step(nd, m, recent) == if m.ctx == 0 then nd2 else RespondAll(nd3, qs)
  {
    hide MaybeSendAppend, NextFor, MaybeAdvance, RespondAll;
    var x, pr := m.from, nd.prs[m.from].(recentActive := true, paused := false);
    SendAppendIs(WithPeer(nd, x, pr), x);
  }

  lemma RespondNone(nd: Node)
    ensures RespondAll(nd, []) == nd
  {
  }

  lemma AnsweredFrom(nd: Node, nd1: Node, nd': Node, qs: seq<Queued>)
    requires nd1.opt == nd.opt && nd1.term == nd.term && nd1.msgs == nd.msgs && nd1.readStates == nd.readStates
    requires Answered(nd1, nd', qs)
    ensures Answered(nd, nd', qs)
  {
  }
}
