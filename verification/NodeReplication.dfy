/** What a leader makes of the answers to its appends (raft/raft.go, stepLeader), over Step itself and written
    out on its log and the peers' progress: which messages leave, and what is known of the peers after. */
module NodeReplication {
  import opened Types
  import opened Messages
  import opened InflightWindow
  import opened PeerProgress
  import opened Node
  import opened Protocol
  import opened NodeLeader
  import opened NodeSends

  /** k is the largest index at or below `from` whose term is at most `term`, or just below what is compacted
      when there is none above. */
  predicate FoundBelow(log: seq<Entry>, compacted: nat, from: nat, term: nat, k: nat) {
    && k <= from <= |log| && compacted <= k + 1
    && (forall i :: k < i <= from ==> TermAt(log, i) > term)
    && (compacted <= k ==> TermAt(log, k) <= term)
  }

  lemma {:induction false} FindsBelow(nd: Node, from: nat, term: nat)
    requires nd.compacted <= from <= |nd.log|
    ensures var (k, t) := FindConflictByTerm(nd, from, term);
            FoundBelow(nd.log, nd.compacted, from, term, k) && t == if nd.compacted <= k then TermAt(nd.log, k) else 0
    decreases from
  {
    if nd.compacted < from && nd.log[from - 1].term > term { FindsBelow(nd, from - 1, term); }
  }

  /** Where a rejection's hint leads on the leader's log. */
  predicate HintLeads(log: seq<Entry>, compacted: nat, hint: nat, hintTerm: nat, to: nat) {
    if hintTerm == 0 || hint > |log| || hint < compacted then to == hint
    else FoundBelow(log, compacted, hint, hintTerm, to)
  }

  predicate LeaderOf(nd: Node, m: Message) {
    && nd.state.StateLeader? && TermOf(m) == nd.term
    && nd.compacted <= nd.snapshot <= nd.committed <= |nd.log|
  }

  predicate PeerOf(nd: Node, x: Id) {
    x in nd.prs && x != nd.opt.id && Flow(nd.prs[x], |nd.log|)
  }

  /** The rejection tells the leader something new: of a peer that replicates, that it lacks what was sent
      above what it matched; of any other, that it refused the probe that is out. */
  predicate TellsNew(pr: Peer, rejected: nat) {
    if pr.mode.Replicate? then rejected > pr.matched else pr.next == rejected + 1
  }

  /** The position the peer is probed behind next. */
  function ProbeBehind(pr: Peer, rejected: nat, hint: nat): nat {
    if pr.mode.Replicate? || rejected == 0 then pr.matched else Max(Min(rejected - 1, hint), pr.matched)
  }

  /** The peer as it is probed behind prev. */
  function ProbedAt(pr: Peer, prev: nat): Peer {
    Peer(pr.matched, prev + 1, Min(pr.sentCommit, prev), Probe, if pr.mode.Replicate? then 0 else pr.pendingSnapshot, true, false,
         Window(pr.window.size, pr.window.maxBytes, []), pr.learner)
  }

  /** The node once the snapshot left, and the progress it leaves. */
  function ShippedSnapshot(nd: Node, to: Id): Node
    requires to in nd.prs && nd.snapshot <= |nd.log|
  {
    var pr := nd.prs[to];
    nd.(msgs := nd.msgs + [Snap(nd.opt.id, to, nd.term, nd.snapshot, TermAt(nd.log, nd.snapshot), nd.log[..nd.snapshot])],
        prs := nd.prs[to := Peer(pr.matched, nd.snapshot + 1, nd.snapshot, Snapshot, nd.snapshot, pr.recentActive, false,
                                 Window(pr.window.size, pr.window.maxBytes, []), pr.learner)])
  }

  lemma HandledByLeader(nd: Node, m: Message, recent: bool)
    requires nd.state.StateLeader? && TermOf(m) == nd.term && m.AppResp? && m.from in nd.prs
    ensures Step(nd, m, recent) == LeaderAppResp(nd, m)
  {
    hide LeaderAppResp;
  }

  /** The progress a rejection leaves. */
  lemma RejectionIs(pr: Peer, last: nat, rejected: nat, hint: nat)
    requires Flow(pr, last)
    ensures var p := pr.(recentActive := true);
            var prev := ProbeBehind(pr, rejected, hint);
            Rejected(p, rejected, hint) ==
              if !TellsNew(pr, rejected) then (p, false)
              else if pr.mode.Snapshot? then (p.(next := prev + 1, sentCommit := Min(pr.sentCommit, prev), paused := false), true)
              else (ProbedAt(pr, prev), true)
    ensures TellsNew(pr, rejected) ==> ProbeBehind(pr, rejected, hint) <= last
  {
    RejectedIs(pr.(recentActive := true), rejected, hint);
  }

  /** A rejection that tells the leader nothing new only shows that the peer is alive. One that does moves the
      probe back, to where the hint leads but not below what the peer matched, and the next probe leaves at
      once: the one append behind that position, with the entry's term and the entries that follow, or the
      snapshot when that entry is compacted. A peer that waits for a snapshot is sent nothing. */
  lemma RejectionAnswered(nd: Node, m: Message, recent: bool) returns (hint: nat, ents: seq<Entry>)
    requires m.AppResp? && m.reject && LeaderOf(nd, m) && PeerOf(nd, m.from)
    ensures if m.hintTerm == 0 then hint == m.hint else HintLeads(nd.log, nd.compacted, m.hint, m.hintTerm, hint)
    ensures var x, pr := m.from, nd.prs[m.from];
            var prev := ProbeBehind(pr, m.index, hint);
            var nd' := Step(nd, m, recent);
            if !TellsNew(pr, m.index) then nd' == WithPeer(nd, x, pr.(recentActive := true))
            else if pr.mode.Snapshot? then
              nd' == WithPeer(nd, x, pr.(recentActive := true, next := prev + 1, sentCommit := Min(pr.sentCommit, prev), paused := false))
            else
              prev <= |nd.log|
              && if prev < nd.compacted then nd' == ShippedSnapshot(WithPeer(nd, x, ProbedAt(pr, prev)), x)
                 else
                   Batch(nd.log, prev, nd.opt.maxMsgSize, ents)
                   && nd' == nd.(msgs := nd.msgs + [AppFrom(nd, x, prev, ents)],
                                 prs := nd.prs[x := SentEnts(ProbedAt(pr, prev), ents, nd.committed)])
  {
    hide Flow, Step, MaybeSendAppend, Rejected, NextProbe, ProbeBehind, TellsNew, Batch, SentEnts, FindConflictByTerm, HintLeads;
    var x, pr := m.from, nd.prs[m.from];
    HandledByLeader(nd, m, recent);
    var nd0 := WithPeer(nd, x, pr.(recentActive := true));
    hint := HintOf(nd, m, nd0);
    ents := [];
    NextInRange(pr, |nd.log|);
    RejectionIs(pr, |nd.log|, m.index, hint);
    if TellsNew(pr, m.index) {
      ents := Probes(nd, x, pr, ProbeBehind(pr, m.index, hint), nd0, Rejected(nd0.prs[x], m.index, hint).0);
    }
  }

  lemma HintOf(nd: Node, m: Message, nd0: Node) returns (hint: nat)
    requires m.AppResp? && nd0.log == nd.log && nd0.compacted == nd.compacted
    ensures hint == NextProbe(nd0, m)
    ensures if m.hintTerm == 0 then hint == m.hint else HintLeads(nd.log, nd.compacted, m.hint, m.hintTerm, hint)
  {
    hint := NextProbe(nd0, m);
    if m.hintTerm > 0 && nd.compacted <= m.hint <= |nd.log| { FindsBelow(nd0, m.hint, m.hintTerm); }
  }

  /** What leaves once the probe was moved back to prev. */
  lemma Probes(nd: Node, x: Id, pr: Peer, prev: nat, nd0: Node, q: Peer) returns (ents: seq<Entry>)
    requires x in nd.prs && x != nd.opt.id && pr == nd.prs[x] && prev <= |nd.log| && nd.compacted <= nd.snapshot <= |nd.log|
    requires nd0 == WithPeer(nd, x, pr.(recentActive := true))
    requires q == if pr.mode.Snapshot?
                  then pr.(recentActive := true, next := prev + 1, sentCommit := Min(pr.sentCommit, prev), paused := false)
                  else ProbedAt(pr, prev)
    ensures var nd' := SendAppend(WithPeer(nd0, x, q), x);
            if pr.mode.Snapshot? then nd' == WithPeer(nd, x, q)
            else if prev < nd.compacted then nd' == ShippedSnapshot(WithPeer(nd, x, ProbedAt(pr, prev)), x)
            else
              Batch(nd.log, prev, nd.opt.maxMsgSize, ents)
              && nd' == nd.(msgs := nd.msgs + [AppFrom(nd, x, prev, ents)],
                            prs := nd.prs[x := SentEnts(ProbedAt(pr, prev), ents, nd.committed)])
  {
    hide MaybeSendAppend, SentEnts, Batch, TermAt;
    var nd1 := WithPeer(nd0, x, q);
    assert nd1 == WithPeer(nd, x, q);
    ents := [];
    if pr.mode.Snapshot? {
      SendsNothing(nd1, x, true);
    } else if prev < nd.compacted {
      SendsSnapshot(nd1, x, true);
    } else if prev < |nd.log| {
      ents := SendsEntries(nd1, x, true);
      assert nd1.prs[x := SentEnts(q, ents, nd.committed)] == nd.prs[x := SentEnts(q, ents, nd.committed)];
    } else {
      SendsEmpty(nd1, x, true);
      EmptyBatch(nd.log, nd.opt.maxMsgSize);
      assert nd1.prs[x := SentEnts(q, ents, nd.committed)] == nd.prs[x := SentEnts(q, ents, nd.committed)];
    }
  }

  lemma EmptyBatch(log: seq<Entry>, limit: nat)
    ensures Batch(log, |log|, limit, [])
  {
  }
}
