/** Winning an election, advancing a leader's commit index, and queueing and confirming reads. */
module ProtocolReign {
  import opened Types
  import opened Quorum
  import opened Messages
  import opened Protocol
  import opened ProtocolFrame
  import opened ProtocolSteps
  import opened ProtocolLeader

  // ---------------------------------------------------------------------------------------------
  // Winning
  // ---------------------------------------------------------------------------------------------

  /** Election safety: whoever has a quorum of votes in a term is its leader. */
  lemma OneLeader(s: Stable, h: History, x: Id, t: nat, p: set<Id>)
    requires GlobalOK(s, h) && t in h.reigns && IsQuorum(s.cfg, p) && AllGranted(s, p, x, t)
    ensures h.reigns[t].leader == x
  {
    hide ReignOK, NetOK, NodeOK, MarkOK, BidOK, Complete, IsQuorum;
    var y := h.reigns[t].leader;
    ReignElected(s, h, t);
    var q :| IsQuorum(s.cfg, q) && AllGranted(s, q, y, t);
    QuorumsMeet(s.cfg, q, p);
    var z :| z in q && z in p;
    OneVote(s, h, z, x, y, t);
  }

  lemma ReignElected(s: Stable, h: History, t: nat)
    requires GlobalOK(s, h) && t in h.reigns
    ensures Elected(s, h.reigns[t].leader, t) && s.cfg.incoming != {}
  {
    hide Elected, Matched, ReignSafe, NetOK, NodeOK, MarkOK, BidOK, Complete;
    ReignFacts(s, h, t);
  }

  lemma OneVote(s: Stable, h: History, z: Id, x: Id, y: Id, t: nat)
    requires GlobalOK(s, h) && z in s.disks
    requires VoteResp(z, x, t, false) in s.net && VoteResp(z, y, t, false) in s.net
    ensures x == y
  {
    hide GlobalOK, StateOK, AcksOK, OutOK;
    RestartFacts(s, h, z);
    var w := Restarted(s.disks[z]);
    assert HasGranted(s, z, w, x, t) && HasGranted(s, z, w, y, t);
  }

  /** A term that n wins with a quorum of votes has no leader yet. */
  lemma TermIsFree(s: Stable, h: History, n: Id, v: View)
    requires Good(s, h, n, v) && v.role.Candidate? && AllGranted(s, v.granted, n, v.term) && IsQuorum(s.cfg, v.granted)
    ensures v.term !in h.reigns
  {
    hide GlobalOK, StateOK, AcksOK, GrantsOK, OutOK;
    if v.term in h.reigns { OneLeader(s, h, n, v.term, v.granted); }
  }

  /** A winner's log was durable before it won. */
  lemma WinnerDurable(s: Stable, h: History, n: Id, v: View)
    requires Good(s, h, n, v) && v.role.Candidate? && IsQuorum(s.cfg, v.granted)
    ensures s.disks[n].log == v.log && s.disks[n].term == v.term
    ensures AllGranted(s, v.granted, n, v.term)
  {
    hide Matched, StateOK, AcksOK, GrantsOK, OutOK, GlobalOK, Ahead, IsQuorum;
    SomeVoters(s, h);
    QuorumsMeet(s.cfg, v.granted, v.granted);
    var z :| z in v.granted;
    NetFacts(s, h, VoteResp(z, n, v.term, false));
    assert Launched(s, n, v.term);
    LaunchedDurable(s, h, n, v.term);
    assert AllGranted(s, v.granted, n, v.term) by {
      forall x | x in v.granted ensures x in s.disks {
        NetFacts(s, h, VoteResp(x, n, v.term, false));
      }
    }
    TermOrder(s, h, n, v);
  }

  function Crowned(h: History, n: Id, v: View, e: Entry): History {
    h.(reigns := h.reigns[v.term := Reign(n, |v.log|, v.log + [e], v.commit)])
  }

  function Winning(v: View, n: Id, e: Entry): View {
    v.(role := Leader, log := v.log + [e], acked := map[n := |v.log|], granted := {}, queued := 0, readAcks := map[])
  }

  lemma Win(s: Stable, h: History, n: Id, v: View, e: Entry) returns (h': History)
    requires Good(s, h, n, v) && v.role.Candidate? && IsQuorum(s.cfg, v.granted)
    requires e.term == v.term && e.index == |v.log| + 1
    ensures Good(s, h', n, Winning(v, n, e)) && Later(s, h, h', n) && h'.marks == h.marks
  {
    h' := Crowned(h, n, v, e);
    WinnerDurable(s, h, n, v);
    TermIsFree(s, h, n, v);
    WinExtends(s, h, n, v, e);
    WinReign(s, h, n, v, e);
    WinComplete(s, h, n, v, e);
    WinPrepared(s, h, n, v, e);
    hide GlobalOK, NodeOK, ReignOK, MarkOK, BidOK, Complete, Extends, AllGranted, Prepared, Ahead, Later, Matched;
    assert n in s.disks && n in s.writes by { TermOrder(s, h, n, v); WriteFacts(s, h, n); }
    GlobalStays(s, h, h', n, v.term);
    AllFacts(s, h);
    WinNode(s, h, h', n, v, e);
    WinAhead(s, n, v, e);
  }

  lemma AllFacts(s: Stable, h: History)
    requires GlobalOK(s, h)
    ensures (forall m :: m in s.net ==> NetOK(s, h, m)) && forall rd :: rd in h.marks ==> MarkOK(s, h, rd)
  {
    hide NetOK, MarkOK, ReignOK, NodeOK, BidOK, Complete;
  }

  /** The log a winner starts with is on disk, and on its way there if it is being written again. */
  lemma WinPrepared(s: Stable, h: History, n: Id, v: View, e: Entry)
    requires Good(s, h, n, v) && v.role.Candidate? && s.disks[n].log == v.log
    ensures n in s.disks && Prepared(h, Crowned(h, n, v, e), v.term, s.disks[n])
    ensures n in s.writes && Prepared(h, Crowned(h, n, v, e), v.term, s.writes[n].disk)
  {
    hide GlobalOK, AcksOK, GrantsOK, CandidateOK, Matched, CommitOK, OutOK;
  }

  lemma WinAhead(s: Stable, n: Id, v: View, e: Entry)
    requires Ahead(s, n, v)
    ensures Ahead(s, n, Winning(v, n, e))
  {
  }

  lemma WinExtends(s: Stable, h: History, n: Id, v: View, e: Entry)
    requires Good(s, h, n, v) && v.role.Candidate? && v.term !in h.reigns
    ensures Extends(s, h, Crowned(h, n, v, e), n, v.term)
    ensures GoodBid(Crowned(h, n, v, e), Bid(n, v.term))
  {
    hide Matched, NodeOK, Ahead, GlobalOK;
    var h' := Crowned(h, n, v, e);
    assert Grows(h, h');
    if Bid(n, v.term) in h.bids {
      BidFacts(s, h, Bid(n, v.term));
      MatchedStays(h, h', h.bids[Bid(n, v.term)]);
    }
  }

  lemma WinReign(s: Stable, h: History, n: Id, v: View, e: Entry)
    requires Good(s, h, n, v) && v.role.Candidate? && v.term !in h.reigns
    requires e.term == v.term && e.index == |v.log| + 1
    requires Extends(s, h, Crowned(h, n, v, e), n, v.term)
    requires IsQuorum(s.cfg, v.granted) && AllGranted(s, v.granted, n, v.term)
    ensures ReignOK(s, Crowned(h, n, v, e), v.term)
    ensures Matched(Crowned(h, n, v, e), v.log + [e])
    ensures Matched(Crowned(h, n, v, e), v.log)
  {
    hide Matched, AcksOK, GrantsOK, OutOK, AllGranted, ReignSafe, Extends, GlobalOK, CommitOK, IsQuorum, Grows, LeaderOK;
    var h' := Crowned(h, n, v, e);
    GrowsOf(s, h, h', n, v.term);
    MatchedStays(h, h', v.log);
    MatchedOwn(h', v.log, [e], v.term);
    BidFacts(s, h, Bid(n, v.term));
    WinSafe(s, h, n, v, e);
    assert Elected(s, n, v.term);
  }

  /** The commit index a new leader starts with is backed by an earlier term. */
  lemma WinSafe(s: Stable, h: History, n: Id, v: View, e: Entry)
    requires GlobalOK(s, h) && CommitOK(h, v.log, v.commit, v.term)
    requires v.term !in h.reigns && Grows(h, Crowned(h, n, v, e))
    ensures ReignSafe(s, Crowned(h, n, v, e), v.term)
  {
    hide Chosen, GlobalOK, Grows;
    var h' := Crowned(h, n, v, e);
    if v.commit != 0 {
      var t0: nat :| t0 in h.reigns && t0 <= v.term && v.commit <= h.reigns[t0].commit
        && Holds(v.log, h.reigns[t0].log, v.commit);
      ReignSafeOf(s, h, t0);
      InheritedCommit(s, h, h', t0, v.term, v.commit, v.log, v.log + [e]);
    }
  }

  lemma ReignSafeOf(s: Stable, h: History, t: nat)
    requires GlobalOK(s, h) && t in h.reigns
    ensures ReignSafe(s, h, t)
  {
    hide ReignSafe, Matched, Elected, NetOK, NodeOK, MarkOK, BidOK, Complete;
    ReignFacts(s, h, t);
  }

  lemma InheritedCommit(s: Stable, h: History, h': History, t0: nat, t: nat, k: nat, log: seq<Entry>, log': seq<Entry>)
    requires Grows(h, h') && t0 in h.reigns && t0 <= t && ReignSafe(s, h, t0) && 0 < k <= h.reigns[t0].commit
    requires Holds(log, h.reigns[t0].log, k) && |log| <= |log'| && Holds(log, log', |log|)
    requires t in h'.reigns && h'.reigns[t].commit == k && h'.reigns[t].log == log'
    ensures ReignSafe(s, h', t)
  {
    hide Chosen;
    var r0 := h.reigns[t0];
    var t1: nat, j: nat :| t1 <= t0 && Own(h, t1, j) && r0.commit <= j && Chosen(s, h, t1, j)
      && Holds(r0.log, h.reigns[t1].log, r0.commit);
    ChosenStays(s, h, h', t1, j);
    assert Own(h', t1, j) && Holds(h'.reigns[t].log, h'.reigns[t1].log, k);
  }

  /** Leader completeness for the new leader: a quorum backed it, and whoever acknowledged what can
      still be chosen only backed a candidate holding it. */
  lemma WinComplete(s: Stable, h: History, n: Id, v: View, e: Entry)
    requires Good(s, h, n, v) && v.role.Candidate? && v.term !in h.reigns
    requires IsQuorum(s.cfg, v.granted) && AllGranted(s, v.granted, n, v.term)
    requires Grows(h, Crowned(h, n, v, e))
    ensures Complete(s, Crowned(h, n, v, e))
  {
    hide Matched, MsgOK, StateOK, AcksOK, GrantsOK, MarkOK, BidOK, ReignOK, OutOK, NetOK, Choosable, AllGranted, AckSent;
    var h' := Crowned(h, n, v, e);
    forall t0: nat, t1: nat, i: nat | t0 < t1 && t1 in h'.reigns && Own(h', t0, i) && Choosable(s, h', t0, i)
      ensures Holds(h'.reigns[t1].log, h'.reigns[t0].log, i)
    {
      if t1 in h.reigns {
        CompleteStays(s, h, h', t0, t1, i);
      } else {
        WinCompletePoint(s, h, h', n, v, t0, i);
        HoldsOn(v.log, [e], h.reigns[t0].log, i);
      }
    }
  }

  lemma HoldsOn(a: seq<Entry>, more: seq<Entry>, b: seq<Entry>, k: nat)
    requires Holds(a, b, k)
    ensures Holds(a + more, b, k)
  {
  }

  lemma WinCompletePoint(s: Stable, h: History, h': History, n: Id, v: View, t0: nat, i: nat)
    requires Good(s, h, n, v) && v.role.Candidate? && Grows(h, h') && t0 < v.term
    requires IsQuorum(s.cfg, v.granted) && AllGranted(s, v.granted, n, v.term)
    requires Own(h', t0, i) && Choosable(s, h', t0, i) && (t0 in h'.reigns ==> t0 in h.reigns)
    ensures t0 in h.reigns && Holds(v.log, h.reigns[t0].log, i)
  {
    hide Matched, MsgOK, StateOK, AcksOK, MarkOK, BidOK, ReignOK, OutOK, NetOK, Choosable, Complete, AckSent;
    var y := Witness'(s, h, h', t0, v.term, i, n, v.granted);
    var w := Restarted(s.disks[y]);
    assert NodeOK(s, h, y, w);
    ChoosableStays(s, h, h', t0, i);
    OwnAck(s, h, h', y, w, t0, i);
    assert HasGranted(s, y, w, n, v.term);
    assert GrantsOK(s, h, y, w);
  }

  lemma WinNode(s: Stable, h: History, h': History, n: Id, v: View, e: Entry)
    requires NodeOK(s, h, n, v) && v.role.Candidate? && h' == Crowned(h, n, v, e) && v.term !in h.reigns
    requires e.term == v.term && e.index == |v.log| + 1
    requires Extends(s, h, h', n, v.term) && (forall m :: m in s.net ==> NetOK(s, h, m))
    requires (forall rd :: rd in h.marks ==> MarkOK(s, h, rd))
    requires Matched(h', v.log + [e])
    ensures NodeOK(s, h', n, Winning(v, n, e))
  {
    hide MsgOK, Matched, CommitOK, AcksOK, GrantsOK, NetOK, Extends, Unblocked;
    var v' := Winning(v, n, e);
    HoldsOwn(v.log, [e]);
    AcksStay(s, h, h', n, v.term, n, v);
    GrantsStay(s, h, h', n, v.term, n, v);
    LongerLog(s, h', n, v, [e], v');
    WinCommit(h, h', v, e, n);
    OutStays(s, h, h', n, v.term, v, v');
    assert AckSent(s, h', n, v.term, |v.log|);
    assert forall p: nat :: Read(v.term, p) in h.marks ==> MarkOK(s, h, Read(v.term, p));
    assert LeaderOK(s, h', n, v');
    assert StateOK(s, h', n, v');
  }

  lemma HoldsOwn(a: seq<Entry>, more: seq<Entry>)
    ensures Holds(a, a + more, |a|)
  {
  }

  lemma WinCommit(h: History, h': History, v: View, e: Entry, n: Id)
    requires CommitOK(h, v.log, v.commit, v.term) && Grows(h, h')
    ensures CommitOK(h', v.log + [e], v.commit, v.term)
  {
    CommitStays(h, h', v.log, v.commit, v.term);
    LongerCommit(h', v.log, [e], v.commit, v.term);
  }

  // ---------------------------------------------------------------------------------------------
  // Committing
  // ---------------------------------------------------------------------------------------------

  function Committed(h: History, t: nat, k: nat): History
    requires t in h.reigns
  {
    h.(reigns := h.reigns[t := h.reigns[t].(commit := k)])
  }

  /** The peers whose recorded match index reaches k. */
  function AckedUpTo(v: View, k: nat): set<Id> {
    set x | x in v.acked && v.acked[x] >= k
  }

  lemma LeaderCommit(s: Stable, h: History, n: Id, v: View, k: nat) returns (h': History)
    requires Good(s, h, n, v) && v.role.Leader? && v.commit < k <= |v.log| && v.log[k - 1].term == v.term
    requires IsQuorum(s.cfg, AckedUpTo(v, k))
    ensures Good(s, h', n, v.(commit := k)) && Later(s, h, h', n) && h'.marks == h.marks
  {
    LeaderFacts(s, h, n, v);
    h' := Committed(h, v.term, k);
    CommitReign(s, h, n, v, k);
    hide Matched, MsgOK, CommitOK, AcksOK, GrantsOK, ReignOK, MarkOK, BidOK, Choosable, NetOK, Own, Holds, Extends;
    assert Complete(s, h') by {
      forall t0: nat, t1: nat, i: nat | t0 < t1 && t1 in h'.reigns && Own(h', t0, i) && Choosable(s, h', t0, i)
        ensures Holds(h'.reigns[t1].log, h'.reigns[t0].log, i)
      { CompleteStays(s, h, h', t0, t1, i); }
    }
    hide Complete, GlobalOK, NodeOK, LeaderOK, Ahead, Later;
    LeaderReady(s, h, n, v);
    AllFacts(s, h);
    GlobalStays(s, h, h', n, v.term);
    CommitNode(s, h, h', n, v, k);
    StaysAhead(s, n, v, v.(commit := k));
  }

  lemma CommitReign(s: Stable, h: History, n: Id, v: View, k: nat)
    requires Good(s, h, n, v) && v.role.Leader? && v.commit < k <= |v.log| && v.log[k - 1].term == v.term
    requires IsQuorum(s.cfg, AckedUpTo(v, k)) && LeaderOK(s, h, n, v)
    ensures Extends(s, h, Committed(h, v.term, k), n, v.term) && Grows(h, Committed(h, v.term, k))
    ensures ReignOK(s, Committed(h, v.term, k), v.term)
    ensures GoodBid(Committed(h, v.term, k), Bid(n, v.term))
    ensures Matched(Committed(h, v.term, k), v.log)
  {
    hide Matched, MsgOK, NodeOK, MarkOK, Complete, NetOK, Elected, Choosable, AckSent, ReignSafe, GlobalOK, Ahead;
    var h' := Committed(h, v.term, k);
    ReignFacts(s, h, v.term);
    assert Grows(h, h');
    LogMatched(s, h, n, v);
    MatchedStays(h, h', v.log);
    MatchedStays(h, h', h.reigns[v.term].log);
    CommitSafe(s, h, n, v, k);
    if Bid(n, v.term) in h.bids {
      BidFacts(s, h, Bid(n, v.term));
      MatchedStays(h, h', h.bids[Bid(n, v.term)]);
    }
  }

  lemma CommitSafe(s: Stable, h: History, n: Id, v: View, k: nat)
    requires LeaderOK(s, h, n, v) && v.commit < k <= |v.log| && v.log[k - 1].term == v.term
    requires IsQuorum(s.cfg, AckedUpTo(v, k)) && Grows(h, Committed(h, v.term, k))
    requires forall i :: 0 <= i < h.reigns[v.term].base && i < |v.log| ==> v.log[i].term < v.term
    ensures ReignSafe(s, Committed(h, v.term, k), v.term)
  {
    hide AckSent;
    var h' := Committed(h, v.term, k);
    var q := AckedUpTo(v, k);
    forall x | x in q ensures x in s.disks && AckSent(s, h', x, v.term, k) {
      AckLess(s, h, x, v.term, v.acked[x], k);
      AckStays(s, h, h', x, v.term, k);
    }
    assert AllAcked(s, h', q, v.term, k);
    assert Own(h', v.term, k) && Chosen(s, h', v.term, k);
    assert Holds(h'.reigns[v.term].log, h'.reigns[v.term].log, k);
  }

  lemma AckLess(s: Stable, h: History, x: Id, t: nat, j: nat, k: nat)
    requires AckSent(s, h, x, t, j) && k <= j
    ensures AckSent(s, h, x, t, k)
  {
    if !SelfAck(h, x, t, j) {
      var m :| m in s.net && IsAck(m, x, t, j);
      assert IsAck(m, x, t, k);
    }
  }

  lemma CommitNode(s: Stable, h: History, h': History, n: Id, v: View, k: nat)
    requires NodeOK(s, h, n, v) && v.role.Leader? && k <= |v.log| && LeaderOK(s, h, n, v)
    requires h' == Committed(h, v.term, k) && Grows(h, h')
    requires Extends(s, h, h', n, v.term) && (forall m :: m in s.net ==> NetOK(s, h, m))
    requires Matched(h', v.log)
    ensures NodeOK(s, h', n, v.(commit := k))
  {
    hide MsgOK, Matched, AcksOK, GrantsOK, NetOK, Extends, Unblocked, HasGranted;
    var v' := v.(commit := k);
    AcksStay(s, h, h', n, v.term, n, v);
    GrantsStay(s, h, h', n, v.term, n, v);
    SameAcks(s, h', n, v, v');
    OutStays(s, h, h', n, v.term, v, v');
    assert CommitOK(h', v'.log, k, v.term);
    assert LeaderOK(s, h', n, v') by {
      forall y | y in v.acked && v.acked[y] > 0 ensures AckSent(s, h', y, v.term, v.acked[y]) {
        AckStays(s, h, h', y, v.term, v.acked[y]);
      }
      SameMarks(h, h');
    }
  }

  // ---------------------------------------------------------------------------------------------
  // Reads
  // ---------------------------------------------------------------------------------------------

  /** Some leader term has committed k. */
  ghost predicate Seen(h: History, k: nat) {
    k == 0 || exists t: nat :: t in h.reigns && k <= h.reigns[t].commit
  }

  ghost predicate AllSeen(h: History, commits: map<Id, nat>) {
    forall x :: x in commits ==> Seen(h, commits[x])
  }

  /** The committed prefix ends in an entry of the node's own term. */
  predicate CommitsOwnTerm(v: View) {
    0 < v.commit <= |v.log| && v.log[v.commit - 1].term == v.term
  }

  function MovedOn(s: Stable, t: nat): set<Id> {
    set x | x in s.disks && s.disks[x].term > t
  }

  function Marked(s: Stable, h: History, v: View, commits: map<Id, nat>): History {
    h.(marks := h.marks[Read(v.term, v.queued + 1) := Mark(v.commit, commits, MovedOn(s, v.term))])
  }

  /** A leader that has committed an entry of its own term queues a read at its commit index. */
  lemma QueueRead(s: Stable, h: History, n: Id, v: View, commits: map<Id, nat>) returns (h': History)
    requires CommitsOwnTerm(v) && Good(s, h, n, v) && v.role.Leader?
    requires commits.Keys == s.disks.Keys && AllSeen(h, commits)
    ensures Good(s, h', n, v.(queued := v.queued + 1)) && Later(s, h, h', n)
    ensures h' == Marked(s, h, v, commits)
  {
    hide MarkOK, BidOK, NetOK, Extends, AllSeen, NodeOK, ReignOK, Complete, Grows, LeaderOK, IsQuorum;
    h' := Marked(s, h, v, commits);
    QueueMark(s, h, n, v, commits);
    SameReignsComplete(s, h, h');
    QueueGrows(s, h, v, commits);
    if v.term in h.reigns { assert ReignOK(s, h, v.term); SameReign(s, h, h', v.term); }
    if Bid(n, v.term) in h.bids { BidStays(h, h', Bid(n, v.term)); }
    TermOrder(s, h, n, v);
    GlobalStays(s, h, h', n, v.term);
    QueueNode(s, h, h', n, v, commits);
  }

  lemma BidStays(h: History, h': History, b: Bid)
    requires Grows(h, h') && b in h.bids && b in h'.bids && h'.bids[b] == h.bids[b] && BidOK(h, b)
    ensures BidOK(h', b)
  {
    hide Matched;
    MatchedStays(h, h', h.bids[b]);
  }

  ghost predicate HasMark(s: Stable, h: History, rd: Read) {
    rd in h.marks && MarkOK(s, h, rd)
  }

  lemma QueueGrows(s: Stable, h: History, v: View, commits: map<Id, nat>)
    requires Read(v.term, v.queued + 1) !in h.marks
    ensures Grows(h, Marked(s, h, v, commits))
  {
  }

  lemma QueueMark(s: Stable, h: History, n: Id, v: View, commits: map<Id, nat>)
    requires CommitsOwnTerm(v) && v.role.Leader?
    requires Good(s, h, n, v)
    requires commits.Keys == s.disks.Keys && AllSeen(h, commits)
    ensures LeaderOK(s, h, n, v) && Read(v.term, v.queued + 1) !in h.marks
    ensures Extends(s, h, Marked(s, h, v, commits), n, v.term)
    ensures HasMark(s, Marked(s, h, v, commits), Read(v.term, v.queued + 1))
  {
    hide NodeOK, GlobalOK, HasMark, AllSeen, IsQuorum, Extends, LeaderOK, MovedOn;
    LeaderFacts(s, h, n, v);
    LeaderMarks(s, h, n, v);
    var h' := Marked(s, h, v, commits);
    QueueExtends(s, h, n, v, commits);
    QueueCovers(s, h, n, v, commits);
    TermOrder(s, h, n, v);
    NewMark(s, h', v, n, commits);
  }

  lemma LeaderMarks(s: Stable, h: History, n: Id, v: View)
    requires LeaderOK(s, h, n, v)
    ensures v.term in h.reigns && h.reigns[v.term].leader == n
    ensures forall p: nat :: Read(v.term, p) in h.marks ==> p <= v.queued
  {
  }

  lemma QueueExtends(s: Stable, h: History, n: Id, v: View, commits: map<Id, nat>)
    requires v.term in h.reigns && h.reigns[v.term].leader == n
    requires forall p: nat :: Read(v.term, p) in h.marks ==> p <= v.queued
    ensures Extends(s, h, Marked(s, h, v, commits), n, v.term)
  {
    hide Launched;
    QueueGrows(s, h, v, commits);
  }

  lemma NewMark(s: Stable, h: History, v: View, n: Id, commits: map<Id, nat>)
    requires Read(v.term, v.queued + 1) in h.marks
    requires h.marks[Read(v.term, v.queued + 1)] == Mark(v.commit, commits, MovedOn(s, v.term))
    requires v.term in h.reigns && h.reigns[v.term].leader == n && n in s.disks && s.disks[n].term <= v.term
    requires commits.Keys == s.disks.Keys
    requires (forall x :: x in commits ==> commits[x] <= v.commit) || IsQuorum(s.cfg, MovedOn(s, v.term))
    ensures HasMark(s, h, Read(v.term, v.queued + 1))
  {
  }

  /** Either nobody has been elected past this leader, and then its commit index covers every commit
      index in the cluster, or a quorum's durable terms are already past its own. */
  lemma QueueCovers(s: Stable, h: History, n: Id, v: View, commits: map<Id, nat>)
    requires CommitsOwnTerm(v) && Good(s, h, n, v) && v.role.Leader?
    requires commits.Keys == s.disks.Keys && AllSeen(h, commits)
    ensures (forall x :: x in commits ==> commits[x] <= v.commit) || IsQuorum(s.cfg, MovedOn(s, v.term))
  {
    hide Matched, MsgOK, StateOK, AcksOK, GrantsOK, BidOK, Complete, NetOK, MarkOK, ReignSafe, Elected, LeaderOK, OutOK;
    LeaderFacts(s, h, n, v);
    if t1: nat :| t1 in h.reigns && t1 > v.term {
      assert ReignOK(s, h, t1);
      LaterTermMoved(s, h, v.term, t1);
    } else {
      forall x | x in commits ensures commits[x] <= v.commit {
        if commits[x] != 0 {
          var t0: nat :| t0 in h.reigns && commits[x] <= h.reigns[t0].commit;
          EarlierCommit(s, h, n, v, t0);
        }
      }
    }
  }

  lemma LaterTermMoved(s: Stable, h: History, t: nat, t1: nat)
    requires GlobalOK(s, h) && t1 in h.reigns && t1 > t
    ensures IsQuorum(s.cfg, MovedOn(s, t))
  {
    hide GlobalOK, ReignOK, IsQuorum, MsgOK;
    ReignElected(s, h, t1);
    var y := h.reigns[t1].leader;
    var q :| IsQuorum(s.cfg, q) && AllGranted(s, q, y, t1);
    forall x | x in q ensures x in MovedOn(s, t) {
      NetFacts(s, h, VoteResp(x, y, t1, false));
    }
    QuorumGrows(s.cfg, q, MovedOn(s, t));
  }

  /** Everything committed in earlier terms, and in its own, is at or below the commit index of a
      leader that has committed an entry of its own term. */
  lemma EarlierCommit(s: Stable, h: History, n: Id, v: View, t0: nat)
    requires CommitsOwnTerm(v) && Good(s, h, n, v) && v.role.Leader?
    requires t0 in h.reigns && t0 <= v.term
    ensures h.reigns[t0].commit <= v.commit
  {
    hide GlobalOK, StateOK, AcksOK, GrantsOK, OutOK, AckSent, Chosen;
    LeaderFacts(s, h, n, v);
    var r0 := h.reigns[t0];
    if t0 < v.term && r0.commit != 0 {
      ReignSafeOf(s, h, t0);
      var t1: nat, j: nat :| t1 <= t0 && Own(h, t1, j) && r0.commit <= j && Chosen(s, h, t1, j)
        && Holds(r0.log, h.reigns[t1].log, r0.commit);
      OwnTerm(s, h, t1, j);
      ChosenHolds(s, h, t1, v.term, j);
      assert v.log[j - 1].term == t1;
      LogOrdered(s, h, n, v);
    }
  }

  lemma LogOrdered(s: Stable, h: History, n: Id, v: View)
    requires Good(s, h, n, v)
    ensures forall i: nat, j: nat :: i <= j < |v.log| ==> v.log[i].term <= v.log[j].term
  {
    hide GlobalOK, AcksOK, GrantsOK, OutOK, Matched, LeaderOK, CandidateOK;
    AllOrdered(s, h, v.log);
  }

  lemma OwnTerm(s: Stable, h: History, t: nat, i: nat)
    requires GlobalOK(s, h) && Own(h, t, i)
    ensures h.reigns[t].log[i - 1].term == t
  {
    hide ReignSafe, Matched, Elected, NetOK, NodeOK, MarkOK, BidOK, Complete;
    ReignFacts(s, h, t);
  }

  /** Leader completeness for what a quorum has acknowledged. */
  lemma ChosenHolds(s: Stable, h: History, t0: nat, t1: nat, i: nat)
    requires GlobalOK(s, h) && t0 < t1 && t1 in h.reigns && Own(h, t0, i) && Chosen(s, h, t0, i)
    ensures Holds(h.reigns[t1].log, h.reigns[t0].log, i)
  {
    hide ReignOK, NetOK, NodeOK, MarkOK, BidOK, Chosen, Choosable, Holds;
    ChosenChoosable(s, h, t0, i);
  }

  lemma ChosenChoosable(s: Stable, h: History, t: nat, i: nat)
    requires Chosen(s, h, t, i)
    ensures Choosable(s, h, t, i)
  {
    hide AckSent;
    var q :| IsQuorum(s.cfg, q) && AllAcked(s, h, q, t, i);
    assert AllCanAck(s, h, q, t, i);
  }

  lemma QueueNode(s: Stable, h: History, h': History, n: Id, v: View, commits: map<Id, nat>)
    requires NodeOK(s, h, n, v) && v.role.Leader? && LeaderOK(s, h, n, v)
    requires h' == Marked(s, h, v, commits) && Grows(h, h')
    requires Extends(s, h, h', n, v.term) && (forall m :: m in s.net ==> NetOK(s, h, m))
    ensures NodeOK(s, h', n, v.(queued := v.queued + 1))
  {
    hide MsgOK, AcksOK, GrantsOK, NetOK, Extends, HasGranted, Matched, CommitOK;
    var v' := v.(queued := v.queued + 1);
    AcksStay(s, h, h', n, v.term, n, v);
    GrantsStay(s, h, h', n, v.term, n, v);
    SameAcks(s, h', n, v, v');
    OutStays(s, h, h', n, v.term, v, v');
    MatchedStays(h, h', v.log);
    CommitStays(h, h', v.log, v.commit, v.term);
    assert LeaderOK(s, h', n, v') by {
      forall y | y in v.acked && v.acked[y] > 0 ensures AckSent(s, h', y, v.term, v.acked[y]) {
        AckStays(s, h, h', y, v.term, v.acked[y]);
      }
    }
  }

  /** A peer's confirmation of the leader's reads up to pos. */
  lemma CountRead(s: Stable, h: History, n: Id, v: View, x: Id, pos: nat)
    requires Good(s, h, n, v) && v.role.Leader? && pos <= v.queued && Unblocked(h, x, v.term, pos)
    ensures Good(s, h, n, v.(readAcks := v.readAcks[x := pos]))
  {
    hide Matched, MsgOK, CommitOK, AcksOK, GrantsOK, GlobalOK, Unblocked, StateOK, OutOK;
    LeaderFacts(s, h, n, v);
    Recount(s, h, n, v, v.(readAcks := v.readAcks[x := pos]));
  }

  lemma ReadRespInRange(s: Stable, h: History, n: Id, v: View, m: Message)
    requires Good(s, h, n, v) && v.role.Leader? && m in s.net && m.HeartbeatResp? && m.term == v.term && m.ctx > 0
    ensures m.ctx <= v.queued && Unblocked(h, m.from, v.term, m.ctx)
  {
    hide Matched, AcksOK, GrantsOK, StateOK, OutOK, BidOK, MarkOK, ReignOK, Complete;
    LeaderFacts(s, h, n, v);
    assert NetOK(s, h, m);
  }

  lemma OwnReads(s: Stable, h: History, n: Id, v: View)
    requires Good(s, h, n, v) && v.role.Leader?
    ensures Unblocked(h, n, v.term, v.queued)
  {
    hide Matched, AcksOK, GrantsOK, StateOK, OutOK, BidOK, ReignOK, Complete, NetOK;
    LeaderFacts(s, h, n, v);
    forall p: nat | p <= v.queued && Read(v.term, p) in h.marks ensures n !in h.marks[Read(v.term, p)].blocked {
      assert MarkOK(s, h, Read(v.term, p));
    }
  }

  predicate ConfirmedUpTo(v: View, q: set<Id>, p: nat) {
    forall x :: x in q ==> x in v.readAcks && v.readAcks[x] >= p
  }

  /** A read position whose index covers every commit index there was when it was queued. */
  ghost predicate Fresh(h: History, rd: Read, index: nat) {
    rd in h.marks && forall x :: x in h.marks[rd].commits ==> h.marks[rd].commits[x] <= index
  }

  ghost predicate MarkedAt(h: History, rd: Read, index: nat) {
    rd in h.marks && h.marks[rd].index == index
  }

  /** A read confirmed by a quorum carries an index no smaller than any commit index there was in
      the cluster when it was queued. */
  lemma ReadIsFresh(s: Stable, h: History, n: Id, v: View, q: set<Id>, p: nat, index: nat)
    requires Good(s, h, n, v) && v.role.Leader? && 0 < p <= v.queued
    requires IsQuorum(s.cfg, q) && ConfirmedUpTo(v, q, p) && MarkedAt(h, Read(v.term, p), index)
    ensures Fresh(h, Read(v.term, p), index)
  {
    hide Matched, AcksOK, GrantsOK, StateOK, OutOK, BidOK, ReignOK, Complete, NetOK, MsgOK;
    LeaderFacts(s, h, n, v);
    var k := h.marks[Read(v.term, p)];
    assert MarkOK(s, h, Read(v.term, p));
    forall x | x in q ensures x !in k.blocked { assert Unblocked(h, x, v.term, v.readAcks[x]); }
    if IsQuorum(s.cfg, k.blocked) { QuorumsMeet(s.cfg, q, k.blocked); }
  }
}
