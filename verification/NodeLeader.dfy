/** What a leader sends keeps the cluster in order, never panics and respects flow control. */
module NodeLeader {
  import opened Types
  import opened Messages
  import opened Limit
  import opened InflightWindow
  import opened PeerProgress
  import opened Node
  import opened Protocol
  import opened ProtocolSteps
  import opened ProtocolReign
  import opened NodeView

  /** Only messages and flow control changed. */
  predicate Sending(nd: Node, nd': Node) {
    && nd' == nd.(prs := nd'.prs, msgs := nd'.msgs)
    && nd'.prs.Keys == nd.prs.Keys && Replies(nd') == Replies(nd)
    && forall x :: x in nd.prs ==> nd'.prs[x].matched == nd.prs[x].matched
  }

  lemma PeerView(nd: Node, x: Id, p: Peer)
    requires x in nd.prs && p.matched == nd.prs[x].matched
    ensures V(WithPeer(nd, x, p)) == V(nd) && Sending(nd, WithPeer(nd, x, p))
  {
    assert Matches(WithPeer(nd, x, p)) == Matches(nd);
    assert Out(WithPeer(nd, x, p)) == Out(nd) && Replies(WithPeer(nd, x, p)) == Replies(nd);
  }

  lemma PeerGood(s: Stable, h: History, nd: Node, x: Id, p: Peer)
    requires NodeGood(s, h, nd) && nd.state.StateLeader? && x in nd.prs
    requires p.matched == nd.prs[x].matched && Flow(p, |nd.log|)
    ensures NodeGood(s, h, WithPeer(nd, x, p)) && Sending(nd, WithPeer(nd, x, p))
  {
    hide Good, V;
    PeerView(nd, x, p);
    var nd' := WithPeer(nd, x, p);
    assert QueueOK(h, nd') && LeadOK(h, nd') && Fits(s, nd') && Flowing(nd');
  }

  lemma SendingTrans(nd: Node, nd1: Node, nd2: Node)
    requires Sending(nd, nd1) && Sending(nd1, nd2)
    ensures Sending(nd, nd2)
  {
  }

  /** A leader's append: a slice of its log, in its own term. */
  lemma AppOK(s: Stable, h: History, nd: Node, to: Id, prev: nat, ents: seq<Entry>)
    requires NodeGood(s, h, nd) && nd.state.StateLeader? && to != nd.opt.id
    requires prev <= |nd.log| && ents <= nd.log[prev..]
    ensures MsgOK(s, h, App(nd.opt.id, to, nd.term, prev, TermAt(nd.log, prev), ents, nd.committed))
    ensures nd.term > 0
  {
    hide NodeGood, LeaderOK;
    Leads(s, h, nd);
    LeaderReign(s, h, nd.opt.id, V(nd));
    assert forall i :: 0 <= i < |ents| ==> ents[i] == nd.log[prev..][i];
  }

  lemma SendSent(nd: Node, m: Message)
    requires Sendable(nd, m) && !m.AppResp? && !m.VoteResp? && !m.PreVoteResp? && !m.ReadIndexResp?
    ensures Sending(nd, Send(nd, m)) && Send(nd, m).prs == nd.prs
  {
    RepliesNext(nd.msgs, m);
  }

  /** What an append to one peer needs to know about the peer. */
  lemma PeerFacts(s: Stable, h: History, nd: Node, x: Id)
    requires NodeGood(s, h, nd) && nd.state.StateLeader? && x in nd.prs
    ensures Flow(nd.prs[x], |nd.log|) && nd.compacted <= nd.snapshot <= nd.committed <= |nd.log|
  {
    Bounds(s, h, nd);
    hide Good;
  }

  lemma AppendGood(s: Stable, h: History, nd: Node, to: Id, sendIfEmpty: bool)
    requires NodeGood(s, h, nd) && nd.state.StateLeader? && to in nd.prs && to != nd.opt.id
    ensures NodeGood(s, h, MaybeSendAppend(nd, to, sendIfEmpty).0)
    ensures Sending(nd, MaybeSendAppend(nd, to, sendIfEmpty).0)
  {
    hide NodeGood, Flow, AfterSend, Sending;
    SendingSelf(nd);
    var pr := nd.prs[to];
    PeerFacts(s, h, nd, to);
    NextInRange(pr, |nd.log|);
    if Paused(pr) {
    } else if Term(nd, pr.next - 1).None? {
      SnapshotGood(s, h, nd, to);
    } else {
      var ents := if pr.mode.Replicate? && Full(pr.window) then Some([]) else EntriesFrom(nd, pr.next);
      if ents.Some? && (ents.value != [] || sendIfEmpty) {
        AppendSent(s, h, nd, to, ents.value);
      }
    }
  }

  lemma SendingSelf(nd: Node)
    ensures Sending(nd, nd)
  {
  }

  lemma NextInRange(p: Peer, last: nat)
    requires Flow(p, last)
    ensures 0 < p.next <= last + 1
  {
  }

  lemma AppendSent(s: Stable, h: History, nd: Node, to: Id, ents: seq<Entry>)
    requires NodeGood(s, h, nd) && nd.state.StateLeader? && to in nd.prs && to != nd.opt.id
    requires !Paused(nd.prs[to]) && nd.prs[to].next > 0 && Term(nd, nd.prs[to].next - 1).Some?
    requires ents <= nd.log[nd.prs[to].next - 1..]
    requires nd.prs[to].mode.Replicate? && Full(nd.prs[to].window) ==> ents == []
    ensures !SendPanics(nd.prs[to], |ents|)
    ensures var pr := nd.prs[to];
            var m := App(nd.opt.id, to, nd.term, pr.next - 1, Term(nd, pr.next - 1).value, ents, nd.committed);
            var nd' := WithPeer(Send(nd, m), to, AfterSend(pr, |ents|, PayloadsSize(Payloads(ents))).(sentCommit := nd.committed));
            NodeGood(s, h, nd') && Sending(nd, nd')
  {
    hide NodeGood, Flow, AfterSend, Sending, MsgOK, Payloads;
    var pr := nd.prs[to];
    var m := App(nd.opt.id, to, nd.term, pr.next - 1, Term(nd, pr.next - 1).value, ents, nd.committed);
    var bytes := PayloadsSize(Payloads(ents));
    AppOK(s, h, nd, to, pr.next - 1, ents);
    SendPlain(s, h, nd, m);
    SendSent(nd, m);
    PeerFacts(s, h, nd, to);
    SendFlows(pr, |nd.log|, |ents|, bytes);
    SentFlow(pr, |nd.log|, |ents|, bytes, nd.committed);
    var pr' := AfterSend(pr, |ents|, bytes).(sentCommit := nd.committed);
    SendCore(nd, m);
    PeerGood(s, h, Send(nd, m), to, pr');
    SendingTrans(nd, Send(nd, m), WithPeer(Send(nd, m), to, pr'));
  }

  lemma SendCore(nd: Node, m: Message)
    requires Sendable(nd, m)
    ensures Send(nd, m).log == nd.log && Send(nd, m).state == nd.state
  {
  }

  lemma SentFlow(p: Peer, last: nat, entries: nat, bytes: nat, commit: nat)
    requires !SendPanics(p, entries) && Flow(AfterSend(p, entries, bytes), last)
    ensures Flow(AfterSend(p, entries, bytes).(sentCommit := commit), last)
    ensures AfterSend(p, entries, bytes).matched == p.matched
  {
  }

  /** A snapshot is sent only when entries are compacted, so there is one. */
  lemma SnapshotGood(s: Stable, h: History, nd: Node, to: Id)
    requires NodeGood(s, h, nd) && nd.state.StateLeader? && to in nd.prs && to != nd.opt.id
    requires nd.prs[to].next > 0 && Term(nd, nd.prs[to].next - 1).None?
    ensures NodeGood(s, h, MaybeSendSnapshot(nd, to, nd.prs[to]).0)
    ensures Sending(nd, MaybeSendSnapshot(nd, to, nd.prs[to]).0)
  {
    hide NodeGood, Sending;
    SendingSelf(nd);
    var pr := nd.prs[to];
    PeerFacts(s, h, nd, to);
    if pr.recentActive {
      var nd1 := WithPeer(nd, to, Snapshotting(pr, nd.snapshot));
      SnapshotFlows(pr, |nd.log|, nd.snapshot);
      PeerGood(s, h, nd, to, Snapshotting(pr, nd.snapshot));
      var m := Snap(nd.opt.id, to, nd.term, nd.snapshot, ZeroTerm(nd, nd.snapshot), Covered(nd));
      CoveredOK(s, h, nd, m);
      SendPlain(s, h, nd1, m);
      SendSent(nd1, m);
      SendingTrans(nd, nd1, Send(nd1, m));
    }
  }

  /** A leader's snapshot is a committed prefix of its log. */
  lemma CoveredOK(s: Stable, h: History, nd: Node, m: Message)
    requires NodeGood(s, h, nd) && nd.state.StateLeader? && m.Snap? && m.from == nd.opt.id != m.to && m.term == nd.term
    requires m.index == nd.snapshot && m.snapTerm == ZeroTerm(nd, nd.snapshot) && m.covered == Covered(nd)
    ensures MsgOK(s, h, m)
  {
    hide Good;
    Leads(s, h, nd);
    Bounds(s, h, nd);
    LeaderReign(s, h, nd.opt.id, V(nd));
  }

  /** Peers a leader sends to are all tracked. */
  predicate Tracked(nd: Node, ids: seq<Id>) {
    forall x :: x in ids ==> x in nd.prs
  }

  lemma SendingFacts(nd: Node, nd': Node)
    requires Sending(nd, nd')
    ensures nd'.prs.Keys == nd.prs.Keys && SameBase(nd, nd') && nd'.state == nd.state && nd'.term == nd.term
    ensures nd'.log == nd.log && nd'.committed == nd.committed && nd'.queue == nd.queue && nd'.confirmed == nd.confirmed
    ensures nd'.readStates == nd.readStates && nd'.acks == nd.acks && nd'.waiting == nd.waiting
    ensures Replies(nd') == Replies(nd)
    ensures forall ids :: Tracked(nd, ids) ==> Tracked(nd', ids)
  {
  }

  lemma {:induction false} BcastGood(s: Stable, h: History, nd: Node, ids: seq<Id>)
    requires NodeGood(s, h, nd) && nd.state.StateLeader? && Tracked(nd, ids)
    ensures NodeGood(s, h, BcastAppend(nd, ids)) && Sending(nd, BcastAppend(nd, ids))
    decreases |ids|
  {
    hide NodeGood, Sending, MaybeSendAppend;
    SendingSelf(nd);
    if ids != [] {
      var nd1 := if ids[0] == nd.opt.id then nd else SendAppend(nd, ids[0]);
      if ids[0] != nd.opt.id { AppendGood(s, h, nd, ids[0], true); }
      SendingFacts(nd, nd1);
      BcastGood(s, h, nd1, ids[1..]);
      SendingTrans(nd, nd1, BcastAppend(nd1, ids[1..]));
    }
  }

  lemma {:induction false} SendMoreGood(s: Stable, h: History, nd: Node, to: Id)
    requires NodeGood(s, h, nd) && nd.state.StateLeader? && to in nd.prs && to != nd.opt.id
    ensures NodeGood(s, h, SendMore(nd, to)) && Sending(nd, SendMore(nd, to))
    decreases !nd.panicked, ToSend(nd, to)
  {
    hide NodeGood, Sending, MaybeSendAppend, ToSend;
    NoPanic(s, h, nd);
    AppendGood(s, h, nd, to, false);
    var (nd1, sent) := MaybeSendAppend(nd, to, false);
    SendingFacts(nd, nd1);
    NoPanic(s, h, nd1);
    if sent {
      SendingEnds(nd, to);
      SendMoreGood(s, h, nd1, to);
      SendingTrans(nd, nd1, SendMore(nd1, to));
    }
  }

  lemma NoPanic(s: Stable, h: History, nd: Node)
    requires NodeGood(s, h, nd)
    ensures !nd.panicked
  {
    hide Good;
  }

  // ---------------------------------------------------------------------------------------------
  // Heartbeats
  // ---------------------------------------------------------------------------------------------

  /** A heartbeat's commit index is one the peer acknowledged. */
  lemma HeartbeatOK(s: Stable, h: History, nd: Node, to: Id, ctx: nat)
    requires NodeGood(s, h, nd) && nd.state.StateLeader? && to in nd.prs && to != nd.opt.id && ctx <= Total(nd)
    ensures MsgOK(s, h, Heartbeat(nd.opt.id, to, nd.term, Min(nd.prs[to].matched, nd.committed), ctx)) && nd.term > 0
  {
    hide NodeGood, AckSent;
    Leads(s, h, nd);
    var commit := Min(nd.prs[to].matched, nd.committed);
    if commit > 0 {
      assert Matches(nd)[to] == nd.prs[to].matched;
      AckLess(s, h, to, nd.term, nd.prs[to].matched, commit);
    }
  }

  lemma SendHeartbeatGood(s: Stable, h: History, nd: Node, to: Id, ctx: nat)
    requires NodeGood(s, h, nd) && nd.state.StateLeader? && to in nd.prs && to != nd.opt.id && ctx <= Total(nd)
    ensures NodeGood(s, h, SendHeartbeat(nd, to, ctx)) && Sending(nd, SendHeartbeat(nd, to, ctx))
  {
    hide NodeGood, Sending, MsgOK, Flow;
    var commit := Min(nd.prs[to].matched, nd.committed);
    var m := Heartbeat(nd.opt.id, to, nd.term, commit, ctx);
    HeartbeatOK(s, h, nd, to, ctx);
    SendPlain(s, h, nd, m);
    SendSent(nd, m);
    PeerFacts(s, h, nd, to);
    CommitFlow(nd.prs[to], |nd.log|, commit);
    SendCore(nd, m);
    PeerGood(s, h, Send(nd, m), to, nd.prs[to].(sentCommit := commit));
    SendingTrans(nd, Send(nd, m), SendHeartbeat(nd, to, ctx));
  }

  lemma CommitFlow(p: Peer, last: nat, commit: nat)
    requires Flow(p, last)
    ensures Flow(p.(sentCommit := commit), last)
  {
  }

  lemma {:induction false} BcastHeartbeatGood(s: Stable, h: History, nd: Node, ids: seq<Id>, ctx: nat)
    requires NodeGood(s, h, nd) && nd.state.StateLeader? && Tracked(nd, ids) && ctx <= Total(nd)
    ensures NodeGood(s, h, BcastHeartbeat(nd, ids, ctx)) && Sending(nd, BcastHeartbeat(nd, ids, ctx))
    decreases |ids|
  {
    hide NodeGood, Sending, SendHeartbeat;
    SendingSelf(nd);
    if ids != [] {
      var nd1 := if ids[0] == nd.opt.id then nd else SendHeartbeat(nd, ids[0], ctx);
      if ids[0] != nd.opt.id { SendHeartbeatGood(s, h, nd, ids[0], ctx); }
      SendingFacts(nd, nd1);
      BcastHeartbeatGood(s, h, nd1, ids[1..], ctx);
      SendingTrans(nd, nd1, BcastHeartbeat(nd1, ids[1..], ctx));
    }
  }
}
