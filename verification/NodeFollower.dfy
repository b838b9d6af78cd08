/** Handling appends, heartbeats and vote requests. */
module NodeFollower {
  import opened Types
  import opened Messages
  import opened Node
  import opened Protocol
  import opened ProtocolSteps
  import PL = ProtocolLeader
  import opened ProtocolSafety
  import opened NodeView
  import opened NodeCommit

  // ---------------------------------------------------------------------------------------------
  // The append itself
  // ---------------------------------------------------------------------------------------------

  /** Entries at consecutive positions after prev. */
  predicate Contiguous(prev: nat, ents: seq<Entry>) {
    forall i :: 0 <= i < |ents| ==> ents[i].index == prev + i + 1
  }

  /** findConflict looks entries up by index; this is the position where the log and the entries
      first differ. */
  lemma {:induction false} ConflictAt(nd: Node, prev: nat, ents: seq<Entry>, from: nat)
    requires nd.compacted <= prev && from <= |ents| && prev + from <= |nd.log| && Contiguous(prev, ents)
    ensures var i := PL.FirstConflict(nd.log, prev, ents, from);
            FindConflict(nd, ents[from..]) == if i == |ents| then 0 else prev + i + 1
    decreases |ents| - from
  {
    if from < |ents| {
      assert ents[from..][0] == ents[from];
      assert ents[from..][1..] == ents[from + 1..];
      if prev + from < |nd.log| && nd.log[prev + from].term == ents[from].term {
        ConflictAt(nd, prev, ents, from + 1);
      }
    }
  }

  lemma AppendFrom(nd: Node, prev: nat, ents: seq<Entry>, i: nat)
    requires nd.committed <= prev && prev + i <= |nd.log| && i < |ents| && Contiguous(prev, ents)
    ensures AppendLog(nd, ents[i..]) == nd.(log := nd.log[..prev + i] + ents[i..])
  {
    assert ents[i..][0] == ents[i];
  }

  /** An append that matches at prev never panics: the first conflict is above the commit index. */
  lemma AppendIs(nd: Node, prev: nat, prevTerm: nat, ents: seq<Entry>, commit: nat)
    requires nd.compacted <= nd.committed <= prev <= |nd.log| && MatchTerm(nd, prev, prevTerm) && Contiguous(prev, ents)
    ensures |PL.Grafted(nd.log, prev, ents)| >= prev + |ents|
    ensures MaybeAppend(nd, prev, prevTerm, ents, commit)
            == (CommitTo(nd.(log := PL.Grafted(nd.log, prev, ents)), Min(commit, prev + |ents|)), Some(prev + |ents|))
  {
    hide AppendLog, MatchTerm, FindConflict, CommitTo, Contiguous;
    ConflictAt(nd, prev, ents, 0);
    assert ents[0..] == ents;
    var i := PL.FirstConflict(nd.log, prev, ents, 0);
    if i < |ents| { AppendFrom(nd, prev, ents, i); }
  }

  lemma Mismatch(nd: Node, prev: nat, prevTerm: nat)
    requires nd.compacted <= prev
    ensures MatchTerm(nd, prev, prevTerm) <==> prev <= |nd.log| && TermAt(nd.log, prev) == prevTerm
  {
  }

  // ---------------------------------------------------------------------------------------------
  // Keeping the cluster in order
  // ---------------------------------------------------------------------------------------------

  lemma LogView(nd: Node, log: seq<Entry>)
    requires !nd.state.StateLeader?
    ensures V(nd.(log := log)) == V(nd).(log := log)
  {
    assert Out(nd.(log := log)) == Out(nd);
  }

  lemma LogSane(s: Stable, h: History, nd: Node, log: seq<Entry>)
    requires Sane(s, h, nd) && nd.state.StateFollower?
    ensures Sane(s, h, nd.(log := log))
  {
    var nd' := nd.(log := log);
    assert QueueOK(h, nd') && LeadOK(h, nd') && Fits(s, nd') && Flowing(nd');
  }

  lemma CommitSane(s: Stable, h: History, nd: Node, k: nat)
    requires Sane(s, h, nd) && nd.state.StateFollower? && nd.committed <= k
    ensures Sane(s, h, nd.(committed := k))
  {
    var nd' := nd.(committed := k);
    assert QueueOK(h, nd') && LeadOK(h, nd') && Fits(s, nd') && Flowing(nd');
  }

  /** Moving a follower's commit index to a position known to be committed and in its log. */
  lemma CommitToGood(s: Stable, h: History, nd: Node, k: nat)
    requires NodeGood(s, h, nd) && nd.state.StateFollower? && k <= |nd.log|
    requires nd.committed < k ==> CommitOK(h, nd.log, k, nd.term)
    ensures NodeGood(s, h, CommitTo(nd, k)) && CommitTo(nd, k) == nd.(committed := Max(nd.committed, k))
  {
    hide GlobalOK, Good, V, Sane, CommitOK;
    if nd.committed < k {
      ViewCore(nd);
      PL.CommitTo(s, h, nd.opt.id, V(nd), k);
      CommitView(nd, k);
      CommitSane(s, h, nd, k);
    }
  }

  /** The entries of an append are a slice of the log of the sender's term. */
  lemma AppFacts(s: Stable, h: History, m: Message)
    requires GlobalOK(s, h) && m in s.net && m.App?
    ensures m.term in h.reigns && h.reigns[m.term].leader == m.from && m.from != m.to && m.from in s.disks
    ensures SliceOf(h.reigns[m.term], m.prevIndex, m.prevTerm, m.ents) && m.commit <= h.reigns[m.term].commit
    ensures Contiguous(m.prevIndex, m.ents)
  {
    hide NodeOK, Complete, MarkOK, BidOK, Elected, ReignSafe, Matched;
    NetFacts(s, h, m);
    ReignFacts(s, h, m.term);
    forall i | 0 <= i < |m.ents| ensures m.ents[i].index == m.prevIndex + i + 1 {
      assert m.ents[i] == h.reigns[m.term].log[m.prevIndex + i];
    }
  }

  lemma GraftGood(s: Stable, h: History, nd: Node, m: Message)
    requires NodeGood(s, h, nd) && nd.state.StateFollower? && m in s.net && m.App? && m.term == nd.term
    requires nd.committed <= m.prevIndex <= |nd.log| && TermAt(nd.log, m.prevIndex) == m.prevTerm
    ensures NodeGood(s, h, nd.(log := PL.Grafted(nd.log, m.prevIndex, m.ents)))
    ensures nd.term in h.reigns && Holds(PL.Grafted(nd.log, m.prevIndex, m.ents), h.reigns[nd.term].log, m.prevIndex + |m.ents|)
  {
    hide GlobalOK, Good, V, Sane, Holds, PL.Grafted, SliceOf, Contiguous;
    ClusterFacts(s, h, nd);
    AppFacts(s, h, m);
    ViewCore(nd);
    PL.Graft(s, h, nd.opt.id, V(nd), m.prevIndex, m.prevTerm, m.ents);
    LogView(nd, PL.Grafted(nd.log, m.prevIndex, m.ents));
    LogSane(s, h, nd, PL.Grafted(nd.log, m.prevIndex, m.ents));
  }

  lemma AcceptGood(s: Stable, h: History, nd: Node, m: Message, nd': Node)
    requires NodeGood(s, h, nd) && nd.state.StateFollower? && m in s.net && m.App? && m.term == nd.term
    requires nd.committed <= m.prevIndex && MatchTerm(nd, m.prevIndex, m.prevTerm)
    requires nd' == MaybeAppend(nd, m.prevIndex, m.prevTerm, m.ents, m.commit).0
    ensures MaybeAppend(nd, m.prevIndex, m.prevTerm, m.ents, m.commit).1 == Some(m.prevIndex + |m.ents|)
    ensures NodeGood(s, h, nd') && Kept(nd, nd')
    ensures nd'.term in h.reigns && Holds(nd'.log, h.reigns[nd'.term].log, m.prevIndex + |m.ents|)
  {
    hide GlobalOK, NodeGood, MaybeAppend, Holds, PL.Grafted, SliceOf, MatchTerm, CommitTo, CommitOK;
    ClusterFacts(s, h, nd);
    AppFacts(s, h, m);
    CompactedBelow(s, h, nd);
    Mismatch(nd, m.prevIndex, m.prevTerm);
    AppendIs(nd, m.prevIndex, m.prevTerm, m.ents, m.commit);
    GraftGood(s, h, nd, m);
    var nd1 := nd.(log := PL.Grafted(nd.log, m.prevIndex, m.ents));
    var k := Min(m.commit, m.prevIndex + |m.ents|);
    HoldsLess(nd1.log, h.reigns[nd.term].log, m.prevIndex + |m.ents|, k);
    ViewCore(nd1);
    PL.CommitFromLeader(h, V(nd1), k);
    CommitToGood(s, h, nd1, k);
  }

  lemma HoldsLess(a: seq<Entry>, b: seq<Entry>, n: nat, k: nat)
    requires Holds(a, b, n) && k <= n
    ensures Holds(a, b, k)
  {
  }

  lemma CompactedBelow(s: Stable, h: History, nd: Node)
    requires NodeGood(s, h, nd)
    ensures nd.compacted <= nd.committed
  {
    hide Good;
  }

  /** What handling an append or a heartbeat keeps. */
  predicate Kept(nd: Node, nd': Node) {
    && SameBase(nd, nd') && nd'.state == nd.state && nd'.term == nd.term && nd'.readStates == nd.readStates
    && nd'.committed >= nd.committed
  }

  /** A node's committed entries are its leader's. */
  lemma CommittedAcked(s: Stable, h: History, nd: Node)
    requires NodeGood(s, h, nd) && nd.term in h.reigns
    ensures Holds(nd.log, h.reigns[nd.term].log, nd.committed)
  {
    hide GlobalOK, AcksOK, GrantsOK, LeaderOK, CandidateOK, Holds, Sane, Matched, CommitOK;
    LeaderHolds(s, h, nd.log, nd.committed, nd.term, nd.term);
  }

  lemma AppendEntriesGood(s: Stable, h: History, nd: Node, m: Message)
    requires NodeGood(s, h, nd) && nd.state.StateFollower? && m in s.net && m.App? && m.term == nd.term && m.from != nd.opt.id
    ensures NodeGood(s, h, HandleAppendEntries(nd, m)) && Kept(nd, HandleAppendEntries(nd, m))
  {
    hide GlobalOK, NodeGood, MaybeAppend, Holds, MatchTerm, FindConflictByTerm, SliceOf, Contiguous;
    ClusterFacts(s, h, nd);
    AppFacts(s, h, m);
    LeaderTermPositive(s, h, m.term);
    if m.prevIndex < nd.committed {
      CommittedAcked(s, h, nd);
      SendAck(s, h, nd, AppResp(nd.opt.id, m.from, nd.term, nd.committed, false, 0, 0));
    } else if MatchTerm(nd, m.prevIndex, m.prevTerm) {
      var nd1 := MaybeAppend(nd, m.prevIndex, m.prevTerm, m.ents, m.commit).0;
      AcceptGood(s, h, nd, m, nd1);
      SendAck(s, h, nd1, AppResp(nd.opt.id, m.from, nd.term, m.prevIndex + |m.ents|, false, 0, 0));
    } else {
      Refused(nd, m.prevIndex, m.prevTerm, m.ents, m.commit);
      var (hint, hintTerm) := FindConflictByTerm(nd, Min(m.prevIndex, |nd.log|), m.prevTerm);
      SendPlain(s, h, nd, AppResp(nd.opt.id, m.from, nd.term, m.prevIndex, true, hint, hintTerm));
    }
  }

  lemma Refused(nd: Node, prev: nat, prevTerm: nat, ents: seq<Entry>, commit: nat)
    requires !MatchTerm(nd, prev, prevTerm)
    ensures MaybeAppend(nd, prev, prevTerm, ents, commit) == (nd, None)
  {
  }

  // ---------------------------------------------------------------------------------------------
  // Heartbeats
  // ---------------------------------------------------------------------------------------------

  lemma HeartbeatFacts(s: Stable, h: History, m: Message)
    requires GlobalOK(s, h) && m in s.net && m.Heartbeat?
    ensures m.term in h.reigns && h.reigns[m.term].leader == m.from && m.from != m.to && m.from in s.disks
    ensures m.ctx > 0 ==> Read(m.term, m.ctx) in h.marks
  {
    hide NodeOK, Complete, MarkOK, BidOK, ReignOK;
    NetFacts(s, h, m);
  }

  /** A node that is still in a leader's term does not block that leader's reads. */
  lemma NotBlocked(s: Stable, h: History, n: Id, t: nat, pos: nat)
    requires GlobalOK(s, h) && n in s.disks && s.disks[n].term <= t
    ensures Unblocked(h, n, t, pos)
  {
    hide NodeOK, Complete, BidOK, ReignOK, NetOK;
    forall p: nat | p <= pos && Read(t, p) in h.marks ensures n !in h.marks[Read(t, p)].blocked {
      assert MarkOK(s, h, Read(t, p));
    }
  }

  lemma HeartbeatGood(s: Stable, h: History, nd: Node, m: Message)
    requires NodeGood(s, h, nd) && nd.state.StateFollower? && m in s.net && m.Heartbeat? && m.term == nd.term
    requires m.to == nd.opt.id && m.from != nd.opt.id
    ensures NodeGood(s, h, HandleHeartbeat(nd, m)) && Kept(nd, HandleHeartbeat(nd, m))
  {
    hide GlobalOK, NodeGood, V, Unblocked, CommitOK, CommitTo;
    ClusterFacts(s, h, nd);
    Bounds(s, h, nd);
    HeartbeatFacts(s, h, m);
    LeaderTermPositive(s, h, m.term);
    HeartbeatCommits(s, h, nd, m);
    CommitToGood(s, h, nd, m.commit);
    NotBlocked(s, h, nd.opt.id, nd.term, m.ctx);
    SendPlain(s, h, CommitTo(nd, m.commit), HeartbeatResp(nd.opt.id, m.from, nd.term, m.ctx));
  }

  /** A heartbeat's commit index is in range: 'tocommit out of range' cannot fire. */
  lemma HeartbeatCommits(s: Stable, h: History, nd: Node, m: Message)
    requires NodeGood(s, h, nd) && m in s.net && m.Heartbeat? && m.to == nd.opt.id && m.term == nd.term
    ensures m.commit <= |nd.log| && CommitOK(h, nd.log, m.commit, nd.term)
  {
    hide GlobalOK, Good, V, Sane, CommitOK;
    ViewCore(nd);
    PL.HeartbeatInRange(s, h, nd.opt.id, V(nd), m);
  }

  // ---------------------------------------------------------------------------------------------
  // Snapshots
  // ---------------------------------------------------------------------------------------------

  /** A snapshot is a committed prefix of the log of the sender's term. */
  lemma SnapFacts(s: Stable, h: History, m: Message)
    requires GlobalOK(s, h) && m in s.net && m.Snap?
    ensures m.term in h.reigns && h.reigns[m.term].leader == m.from && m.from != m.to && m.term > 0
    ensures m.index == |m.covered| <= h.reigns[m.term].commit && m.snapTerm == LastTerm(m.covered)
    ensures Holds(m.covered, h.reigns[m.term].log, m.index)
  {
    hide NodeOK, Complete, MarkOK, BidOK, ReignOK, Holds;
    NetFacts(s, h, m);
    LeaderTermPositive(s, h, m.term);
  }

  /** A log that holds the snapshot's last entry holds all it covers. */
  lemma SnapHeld(s: Stable, h: History, nd: Node, m: Message)
    requires NodeGood(s, h, nd) && nd.state.StateFollower? && m in s.net && m.Snap? && m.term == nd.term
    requires nd.committed < m.index && MatchTerm(nd, m.index, m.snapTerm)
    ensures nd.term in h.reigns && m.index <= |nd.log| && Holds(nd.log, h.reigns[nd.term].log, m.index)
    ensures CommitOK(h, nd.log, m.index, nd.term)
  {
    hide GlobalOK, Good, V, Sane, CommitOK;
    ClusterFacts(s, h, nd);
    SnapFacts(s, h, m);
    CompactedBelow(s, h, nd);
    Mismatch(nd, m.index, m.snapTerm);
    ViewCore(nd);
    PL.Graft(s, h, nd.opt.id, V(nd), m.index, m.snapTerm, []);
    PL.CommitFromLeader(h, V(nd), m.index);
  }

  /** Taking a snapshot over is an append of all it covers that meets a conflict or runs past the end. */
  lemma SnapGrafts(s: Stable, h: History, nd: Node, m: Message)
    requires NodeGood(s, h, nd) && nd.state.StateFollower? && m in s.net && m.Snap? && m.term == nd.term
    requires nd.committed < m.index && !MatchTerm(nd, m.index, m.snapTerm)
    ensures Good(s, h, nd.opt.id, V(nd).(log := m.covered, commit := m.index))
    ensures nd.term in h.reigns && m.index == |m.covered| && Holds(m.covered, h.reigns[nd.term].log, m.index)
  {
    hide GlobalOK, Good, V, Sane, CommitOK, Holds, SliceOf, PL.Grafted;
    ClusterFacts(s, h, nd);
    SnapFacts(s, h, m);
    CompactedBelow(s, h, nd);
    Bounds(s, h, nd);
    Mismatch(nd, m.index, m.snapTerm);
    CommittedAcked(s, h, nd);
    ViewCore(nd);
    var k, ents := nd.committed, m.covered[nd.committed..];
    GraftEnds(nd.log, m.covered, k);
    SliceCovered(h.reigns[nd.term], nd.log, m.covered, k);
    PL.Graft(s, h, nd.opt.id, V(nd), k, TermAt(nd.log, k), ents);
    HoldSame(PL.Grafted(nd.log, k, ents), m.covered, h.reigns[nd.term].log);
    var v := V(nd).(log := m.covered);
    PL.CommitFromLeader(h, v, m.index);
    PL.CommitTo(s, h, nd.opt.id, v, m.index);
  }

  /** If the entries meet a conflict or run past the end, the log ends with them. */
  lemma GraftEnds(log: seq<Entry>, other: seq<Entry>, k: nat)
    requires k < |other| && k <= |log| && (|log| < |other| || log[|other| - 1].term != LastTerm(other))
    ensures |PL.Grafted(log, k, other[k..])| == |other|
  {
    var ents := other[k..];
    assert ents[|ents| - 1] == other[|other| - 1];
  }

  /** What a prefix of a leader's log has past the first k entries is a slice of it. */
  lemma SliceCovered(r: Reign, log: seq<Entry>, covered: seq<Entry>, k: nat)
    requires k <= |covered| && Holds(covered, r.log, |covered|) && Holds(log, r.log, k)
    ensures SliceOf(r, k, TermAt(log, k), covered[k..])
  {
  }

  lemma HoldSame(a: seq<Entry>, b: seq<Entry>, full: seq<Entry>)
    requires |a| == |b| && Holds(a, full, |a|) && Holds(b, full, |b|)
    ensures a == b
  {
  }

  lemma RestoredSane(s: Stable, h: History, nd: Node, m: Message)
    requires Sane(s, h, nd) && nd.state.StateFollower? && m.Snap? && m.index == |m.covered|
    requires Restore(nd, m).1
    ensures Sane(s, h, Restore(nd, m).0) && Installed(nd, Restore(nd, m).0)
    ensures V(Restore(nd, m).0) == V(nd).(log := m.covered, commit := m.index)
  {
    var nd' := Restore(nd, m).0;
    assert Out(nd') == Out(nd);
    assert QueueOK(h, nd') && LeadOK(h, nd') && Fits(s, nd') && Flowing(nd');
  }

  /** What handling a snapshot keeps. */
  predicate Rebased(nd: Node, nd': Node) {
    (SameBase(nd, nd') || Installed(nd, nd'))
    && nd'.state == nd.state && nd'.term == nd.term && nd'.committed >= nd.committed
  }

  lemma HandleSnapshotGood(s: Stable, h: History, nd: Node, m: Message)
    requires NodeGood(s, h, nd) && nd.state.StateFollower? && m in s.net && m.Snap? && m.term == nd.term && m.from != nd.opt.id
    ensures NodeGood(s, h, HandleSnapshot(nd, m)) && Rebased(nd, HandleSnapshot(nd, m))
  {
    hide GlobalOK, Good, V, Sane, Holds, MatchTerm, CommitTo, CommitOK;
    ClusterFacts(s, h, nd);
    SnapFacts(s, h, m);
    CommittedAcked(s, h, nd);
    var (nd1, restored) := Restore(nd, m);
    if restored {
      SnapGrafts(s, h, nd, m);
      RestoredSane(s, h, nd, m);
    } else if nd.committed < m.index && nd.opt.id in nd.opt.peers {
      SnapHeld(s, h, nd, m);
      CommitToGood(s, h, nd, m.index);
    }
    SendAck(s, h, nd1, AppResp(nd.opt.id, m.from, nd.term, if restored then |nd1.log| else nd1.committed, false, 0, 0));
  }

  // ---------------------------------------------------------------------------------------------
  // Votes
  // ---------------------------------------------------------------------------------------------

  lemma VoteFacts(s: Stable, h: History, m: Message)
    requires GlobalOK(s, h) && m in s.net && m.Vote?
    ensures m.term > 0 && m.from in s.disks && m.from != NONE && Launched(s, m.from, m.term)
    ensures Bid(m.from, m.term) in h.bids
    ensures m.lastIndex == |h.bids[Bid(m.from, m.term)]| && m.lastTerm == LastTerm(h.bids[Bid(m.from, m.term)])
  {
    hide NodeOK, Complete, MarkOK, BidOK, ReignOK;
    NetFacts(s, h, m);
  }

  lemma VoteView(nd: Node, x: Id)
    ensures V(nd.(vote := x)) == V(nd).(vote := x)
  {
    assert Matches(nd.(vote := x)) == Matches(nd) && Out(nd.(vote := x)) == Out(nd);
  }

  lemma VoteSane(s: Stable, h: History, nd: Node, x: Id)
    requires Sane(s, h, nd)
    ensures Sane(s, h, nd.(vote := x))
  {
    var nd' := nd.(vote := x);
    assert QueueOK(h, nd') && LeadOK(h, nd') && Fits(s, nd') && Flowing(nd');
  }

  /** Granting a vote: recorded, and answered once durable. */
  lemma GrantGood(s: Stable, h: History, nd: Node, m: Message)
    requires NodeGood(s, h, nd) && m in s.net && m.Vote? && m.term == nd.term
    requires nd.vote == NONE || nd.vote == m.from
    requires IsUpToDate(nd, m.lastIndex, m.lastTerm)
    ensures NodeGood(s, h, Send(nd, VoteResp(nd.opt.id, m.from, m.term, false)).(vote := m.from))
  {
    hide GlobalOK, Good, V, Sane, Launched;
    ClusterFacts(s, h, nd);
    VoteFacts(s, h, m);
    LastTermKnown(s, h, nd);
    ViewCore(nd);
    var resp := VoteResp(nd.opt.id, m.from, m.term, false);
    CastVote(s, h, nd.opt.id, V(nd), m.from);
    VoteView(nd, m.from);
    VoteSane(s, h, nd, m.from);
    var nd1 := nd.(vote := m.from);
    ViewCore(nd1);
    EmitGrant(s, h, nd.opt.id, V(nd1), m.from);
    SendView(nd1, resp);
    SendSane(s, h, nd1, resp);
    assert Send(nd1, resp) == Send(nd, resp).(vote := m.from);
  }

  lemma HandleVoteGood(s: Stable, h: History, nd: Node, m: Message)
    requires NodeGood(s, h, nd) && m in s.net && (m.Vote? || m.PreVote?) && m.term > 0
    requires m.Vote? ==> m.term == nd.term
    requires m.term >= nd.term
    ensures NodeGood(s, h, HandleVote(nd, m))
  {
    hide GlobalOK, NodeGood, IsUpToDate;
    if m.Vote? {
      if (nd.vote == m.from || (nd.vote == NONE && nd.lead == NONE)) && IsUpToDate(nd, m.lastIndex, m.lastTerm) {
        GrantGood(s, h, nd, m);
      } else {
        SendPlain(s, h, nd, VoteResp(nd.opt.id, m.from, nd.term, true));
      }
    } else {
      if nd.term == 0 { FreshIsEmpty(s, h, nd); EmptyUpToDate(nd, m.lastIndex, m.lastTerm); }
      SendPlain(s, h, nd, PreVoteResp(nd.opt.id, m.from, m.term, false));
      if nd.term > 0 { SendPlain(s, h, nd, PreVoteResp(nd.opt.id, m.from, nd.term, true)); }
    }
  }

  lemma EmptyUpToDate(nd: Node, lastIndex: nat, lastTerm: nat)
    requires nd.log == []
    ensures IsUpToDate(nd, lastIndex, lastTerm)
  {
  }
}
