/** The steps that change logs and commit indexes: winning an election, proposing, appending,
    counting acknowledgements and committing. */
module ProtocolLeader {
  import opened Types
  import opened Quorum
  import opened Messages
  import opened Protocol
  import opened ProtocolFrame
  import opened ProtocolSteps

  // ---------------------------------------------------------------------------------------------
  // Bookkeeping of a candidate or a leader
  // ---------------------------------------------------------------------------------------------

  /** Only the counters of a node changed. */
  predicate SameCore(v: View, v': View) {
    v' == v.(acked := v'.acked, granted := v'.granted, queued := v'.queued, readAcks := v'.readAcks)
  }

  lemma Recount(s: Stable, h: History, n: Id, v: View, v': View)
    requires NodeOK(s, h, n, v) && SameCore(v, v')
    requires v.role.Leader? ==> LeaderOK(s, h, n, v')
    requires v.role.Candidate? ==> forall x :: x in v'.granted ==> VoteResp(x, n, v.term, false) in s.net
    ensures NodeOK(s, h, n, v')
  {
    hide Matched, MsgOK, CommitOK, AckKnown;
    SameAcks(s, h, n, v, v');
    forall m | m in v'.out ensures OutOK(s, h, n, v', m) { assert OutOK(s, h, n, v, m); }
  }

  lemma CountVote(s: Stable, h: History, n: Id, v: View, x: Id)
    requires Good(s, h, n, v) && VoteResp(x, n, v.term, false) in s.net && v.role.Candidate?
    ensures Good(s, h, n, v.(granted := v.granted + {x}))
  {
    hide Matched, MsgOK, CommitOK, AcksOK, GrantsOK, GlobalOK;
    Recount(s, h, n, v, v.(granted := v.granted + {x}));
  }

  lemma CountAck(s: Stable, h: History, n: Id, v: View, x: Id, k: nat)
    requires Good(s, h, n, v) && v.role.Leader?
    requires x in s.disks && AckSent(s, h, x, v.term, k)
    ensures Good(s, h, n, v.(acked := v.acked[x := k]))
  {
    hide Matched, MsgOK, CommitOK, AcksOK, GrantsOK, GlobalOK;
    Recount(s, h, n, v, v.(acked := v.acked[x := k]));
  }

  /** Acknowledged positions are in the leader's log. */
  lemma AckBounded(s: Stable, h: History, n: Id, v: View, x: Id, k: nat)
    requires Good(s, h, n, v) && v.role.Leader? && AckSent(s, h, x, v.term, k)
    ensures k <= |v.log|
  {
    hide Matched, CommitOK, AcksOK, GrantsOK, Complete, MarkOK, BidOK, NodeOK;
    assert LeaderOK(s, h, n, v) by { LeaderFacts(s, h, n, v); }
    assert ReignOK(s, h, v.term);
    if !SelfAck(h, x, v.term, k) {
      var m :| m in s.net && IsAck(m, x, v.term, k);
      assert NetOK(s, h, m);
    }
  }

  lemma LeaderFacts(s: Stable, h: History, n: Id, v: View)
    requires NodeOK(s, h, n, v) && v.role.Leader?
    ensures LeaderOK(s, h, n, v)
  {
  }

  // ---------------------------------------------------------------------------------------------
  // Appending as a follower
  // ---------------------------------------------------------------------------------------------

  /** Where the entries first differ in term from the log, which agrees with them up to prev. */
  function FirstConflict(log: seq<Entry>, prev: nat, ents: seq<Entry>, from: nat): (i: nat)
    requires prev + from <= |log| && from <= |ents|
    ensures from <= i <= |ents| && prev + i <= |log|
    ensures forall j {:trigger ents[j]} :: from <= j < i ==> log[prev + j].term == ents[j].term
    ensures i < |ents| ==> prev + i >= |log| || log[prev + i].term != ents[i].term
    decreases |ents| - from
  {
    if from == |ents| || prev + from >= |log| || log[prev + from].term != ents[from].term then from
    else FirstConflict(log, prev, ents, from + 1)
  }

  /** The log after an append: unchanged when nothing conflicts, else cut at the first conflict. */
  function Grafted(log: seq<Entry>, prev: nat, ents: seq<Entry>): seq<Entry>
    requires prev <= |log|
  {
    var i := FirstConflict(log, prev, ents, 0);
    if i == |ents| then log else log[..prev + i] + ents[i..]
  }

  /** Appending a slice of a leader's log after a matching entry makes the log agree with the
      leader's through the end of the slice and loses nothing the two logs had in common. */
  lemma GraftAgrees(h: History, log: seq<Entry>, full: seq<Entry>, prev: nat, ents: seq<Entry>)
    requires Matched(h, log) && Matched(h, full)
    requires prev <= |log| && prev + |ents| <= |full| && TermAt(log, prev) == TermAt(full, prev)
    requires forall i :: 0 <= i < |ents| ==> ents[i] == full[prev + i]
    ensures Holds(Grafted(log, prev, ents), full, prev + |ents|)
    ensures forall k: nat :: k <= |log| && Holds(log, full, k) ==> Holds(Grafted(log, prev, ents), full, k)
    ensures Matched(h, Grafted(log, prev, ents))
    ensures Holds(log, Grafted(log, prev, ents), prev)
    ensures Grafted(log, prev, ents) == log || Holds(Grafted(log, prev, ents), full, |Grafted(log, prev, ents)|)
  {
    hide Matched;
    var i := FirstConflict(log, prev, ents, 0);
    var log' := Grafted(log, prev, ents);
    SameTerm(h, log, full, prev);
    if i > 0 {
      assert ents[i - 1] == full[prev + i - 1];
      SameTerm(h, log, full, prev + i);
    }
    if i < |ents| {
      assert |log'| == prev + |ents|;
      assert forall j :: 0 <= j < |log'| ==> log'[j] == full[j];
      assert prev + i < |log| ==> log[prev + i] != full[prev + i];
      forall k: nat | k <= |log| && Holds(log, full, k) ensures k <= prev + i { }
      MatchedPrefix(h, full, log');
    }
  }

  /** Log matching for two logs: the same term at the same position means the same log up to it. */
  lemma SameTerm(h: History, a: seq<Entry>, b: seq<Entry>, k: nat)
    requires Matched(h, a) && Matched(h, b) && k <= |a| && k <= |b| && TermAt(a, k) == TermAt(b, k)
    ensures Holds(a, b, k)
  {
    if k > 0 {
      var u := a[k - 1].term;
      assert Holds(a, h.reigns[u].log, k) && Holds(b, h.reigns[u].log, k);
      hide Matched;
    }
  }

  lemma MatchedPrefix(h: History, full: seq<Entry>, log: seq<Entry>)
    requires Matched(h, full) && |log| <= |full| && Holds(log, full, |log|)
    ensures Matched(h, log)
  {
    forall i | 0 <= i < |log|
      ensures log[i].term in h.reigns && Holds(log, h.reigns[log[i].term].log, i + 1)
    {
      assert log[i] == full[i];
      assert Holds(full, h.reigns[full[i].term].log, i + 1);
    }
  }

  /** A follower takes the entries of an append of its own term. */
  lemma Graft(s: Stable, h: History, n: Id, v: View, prev: nat, prevTerm: nat, ents: seq<Entry>)
    requires Good(s, h, n, v) && v.role.Follower? && v.term in h.reigns
    requires SliceOf(h.reigns[v.term], prev, prevTerm, ents)
    requires v.commit <= prev <= |v.log| && TermAt(v.log, prev) == prevTerm
    ensures Good(s, h, n, v.(log := Grafted(v.log, prev, ents)))
    ensures Holds(Grafted(v.log, prev, ents), h.reigns[v.term].log, prev + |ents|)
  {
    hide Matched, MsgOK, CommitOK, AckKnown, GrantsOK, Choosable, GlobalOK, Elected, ReignSafe, Own, Ahead;
    var r := h.reigns[v.term];
    var v' := v.(log := Grafted(v.log, prev, ents));
    ReignFacts(s, h, v.term);
    StaysAhead(s, n, v, v');
    GraftAgrees(h, v.log, r.log, prev, ents);
    GraftState(s, h, n, v, v', r.log, prev + |ents|);
    GraftAcks(s, h, n, v, v');
    GraftGrants(s, h, n, v, v');
    hide ReignOK, Holds, AcksOK;
    forall m | m in v'.out ensures OutOK(s, h, n, v', m) { assert OutOK(s, h, n, v, m); }
  }

  lemma GraftState(s: Stable, h: History, n: Id, v: View, v': View, full: seq<Entry>, end: nat)
    requires n in s.disks && StateOK(s, h, n, v) && v' == v.(log := v'.log)
    requires Matched(h, v'.log) && Holds(v.log, v'.log, v.commit)
    requires v.term in h.reigns && full == h.reigns[v.term].log && ReignOK(s, h, v.term)
    requires v'.log == v.log || (Holds(v'.log, full, |v'.log|))
    ensures StateOK(s, h, n, v')
  {
    hide Matched, Elected, ReignSafe;
    if v.commit != 0 {
      var t0: nat :| t0 in h.reigns && t0 <= v.term && v.commit <= h.reigns[t0].commit
        && Holds(v.log, h.reigns[t0].log, v.commit);
      assert Holds(v'.log, h.reigns[t0].log, v.commit);
    }
    assert TermsBelow(v'.log, v.term);
  }

  lemma GraftGrants(s: Stable, h: History, n: Id, v: View, v': View)
    requires NodeOK(s, h, n, v) && v' == v.(log := v'.log)
    ensures GrantsOK(s, h, n, v')
  {
    hide Matched, MsgOK, CommitOK, AcksOK, Choosable, Holds;
    assert forall t: nat, k: nat :: AckKnown(s, h, n, v', t, k) <==> AckKnown(s, h, n, v, t, k);
    assert forall x: Id, t: nat :: HasGranted(s, n, v', x, t) <==> HasGranted(s, n, v, x, t);
  }

  /** What was acknowledged survives an append: it agrees with the appending leader's log, so it is
      never cut. */
  lemma GraftAcks(s: Stable, h: History, n: Id, v: View, v': View)
    requires Good(s, h, n, v) && v' == v.(log := v'.log) && v.term in h.reigns
    requires forall k: nat :: k <= |v.log| && Holds(v.log, h.reigns[v.term].log, k) ==> Holds(v'.log, h.reigns[v.term].log, k)
    ensures AcksOK(s, h, n, v')
  {
    hide Matched, MsgOK, CommitOK, GrantsOK, Choosable, NetOK, MarkOK, BidOK, ReignOK;
    assert forall t: nat, k: nat :: AckKnown(s, h, n, v', t, k) <==> AckKnown(s, h, n, v, t, k);
    hide AckKnown, AckSent;
    forall t: nat, i: nat | AckKnown(s, h, n, v', t, i) && Own(h, t, i) && Choosable(s, h, t, i)
      ensures Holds(v'.log, h.reigns[t].log, i)
    {
      NoAckAhead(s, h, n, v, t, i);
      assert Holds(v.log, h.reigns[t].log, i);
      if t < v.term {
        assert Holds(h.reigns[v.term].log, h.reigns[t].log, i);
        assert Holds(v.log, h.reigns[v.term].log, i);
      }
    }
  }

  /** Moving the commit index to a position known to be committed. */
  lemma CommitTo(s: Stable, h: History, n: Id, v: View, k: nat)
    requires Good(s, h, n, v) && v.role.Follower? && k <= |v.log| && CommitOK(h, v.log, k, v.term)
    ensures Good(s, h, n, v.(commit := k))
  {
    hide Matched, MsgOK, CommitOK, AckKnown, GlobalOK;
    var v' := v.(commit := k);
    SameAcks(s, h, n, v, v');
    forall m | m in v'.out ensures OutOK(s, h, n, v', m) { assert OutOK(s, h, n, v, m); }
  }

  lemma CommitFromLeader(h: History, v: View, k: nat)
    requires v.term in h.reigns && k <= h.reigns[v.term].commit && Holds(v.log, h.reigns[v.term].log, k)
    ensures CommitOK(h, v.log, k, v.term)
  {
  }

  /** A follower in a leader's term holds everything it acknowledged to that leader, so a heartbeat
      never carries a commit index past its log. */
  lemma HeartbeatInRange(s: Stable, h: History, n: Id, v: View, m: Message)
    requires Good(s, h, n, v) && m in s.net && m.Heartbeat? && m.to == n && m.term == v.term
    ensures m.commit <= |v.log| && CommitOK(h, v.log, m.commit, v.term)
  {
    hide Matched, GrantsOK, Choosable, MarkOK, BidOK, ReignOK, Complete;
    assert NetOK(s, h, m) && MsgOK(s, h, m);
    if m.commit != 0 {
      assert AckKnown(s, h, n, v, v.term, m.commit);
      assert Holds(v.log, h.reigns[v.term].log, m.commit);
    }
  }

  // ---------------------------------------------------------------------------------------------
  // What a leader does to its own term
  // ---------------------------------------------------------------------------------------------

  /** A position that can still be chosen in t0 was acknowledged by a node that had already moved on
      to elect the leader of t1. */
  lemma Witness(s: Stable, h: History, h': History, t0: nat, t1: nat, i: nat) returns (y: Id)
    requires GlobalOK(s, h) && t1 in h.reigns && t0 < t1 && Choosable(s, h', t0, i)
    ensures y in s.disks && AckSent(s, h', y, t0, i)
  {
    hide Matched, MsgOK, NodeOK, MarkOK, BidOK, Complete, ReignSafe, AckSent;
    assert ReignOK(s, h, t1);
    var x := h.reigns[t1].leader;
    var q1 :| IsQuorum(s.cfg, q1) && AllGranted(s, q1, x, t1);
    y := Witness'(s, h, h', t0, t1, i, x, q1);
  }

  lemma Witness'(s: Stable, h: History, h': History, t0: nat, t1: nat, i: nat, x: Id, q1: set<Id>) returns (y: Id)
    requires GlobalOK(s, h) && t0 < t1 && Choosable(s, h', t0, i)
    requires IsQuorum(s.cfg, q1) && AllGranted(s, q1, x, t1)
    ensures y in s.disks && y in q1 && AckSent(s, h', y, t0, i)
  {
    hide AckSent, GlobalOK, IsQuorum;
    SomeVoters(s, h);
    var q0 :| IsQuorum(s.cfg, q0) && AllCanAck(s, h', q0, t0, i);
    QuorumsMeet(s.cfg, q0, q1);
    y :| y in q0 && y in q1;
    assert CanAck(s, h', y, t0, i);
    NetFacts(s, h, VoteResp(y, x, t1, false));
  }

  lemma SomeVoters(s: Stable, h: History)
    requires GlobalOK(s, h)
    ensures s.cfg.incoming != {}
  {
    hide NetOK, ReignOK, NodeOK, MarkOK, BidOK, Complete;
  }

  /** Leader completeness between terms that both had a leader before the history grew. */
  lemma CompleteStays(s: Stable, h: History, h': History, t0: nat, t1: nat, i: nat)
    requires GlobalOK(s, h) && Grows(h, h')
    requires t0 < t1 && t1 in h.reigns && Own(h', t0, i) && Choosable(s, h', t0, i)
    ensures Holds(h'.reigns[t1].log, h'.reigns[t0].log, i)
  {
    hide Matched, MsgOK, MarkOK, BidOK, ReignOK, AcksOK, GrantsOK, Choosable, NetOK, AckSent, StateOK, Own;
    var y := Witness(s, h, h', t0, t1, i);
    ChoosableStays(s, h, h', t0, i);
    OwnAck(s, h, h', y, Restarted(s.disks[y]), t0, i);
    assert Holds(h.reigns[t1].log, h.reigns[t0].log, i);
    HoldsLater(h, h', t0, t1, i);
  }

  lemma HoldsLater(h: History, h': History, t0: nat, t1: nat, i: nat)
    requires Grows(h, h') && t0 in h.reigns && t1 in h.reigns && Holds(h.reigns[t1].log, h.reigns[t0].log, i)
    ensures Holds(h'.reigns[t1].log, h'.reigns[t0].log, i)
  {
  }

  function Extended(h: History, t: nat, ents: seq<Entry>): History
    requires t in h.reigns
  {
    h.(reigns := h.reigns[t := h.reigns[t].(log := h.reigns[t].log + ents)])
  }

  /** The leader's own entries carry its term and the next positions. */
  predicate OwnEntries(v: View, ents: seq<Entry>) {
    forall i :: 0 <= i < |ents| ==> ents[i].term == v.term && ents[i].index == |v.log| + i + 1
  }

  lemma Propose(s: Stable, h: History, n: Id, v: View, ents: seq<Entry>) returns (h': History)
    requires Good(s, h, n, v) && v.role.Leader? && OwnEntries(v, ents)
    ensures Good(s, h', n, v.(log := v.log + ents)) && Later(s, h, h', n) && h'.marks == h.marks
  {
    h' := Extended(h, v.term, ents);
    ProposeReign(s, h, n, v, ents);
    hide Matched, MsgOK, CommitOK, AcksOK, GrantsOK, ReignOK, MarkOK, BidOK, Choosable, NetOK, Own, Holds;
    assert Complete(s, h') by {
      forall t0: nat, t1: nat, i: nat | t0 < t1 && t1 in h'.reigns && Own(h', t0, i) && Choosable(s, h', t0, i)
        ensures Holds(h'.reigns[t1].log, h'.reigns[t0].log, i)
      { CompleteStays(s, h, h', t0, t1, i); }
    }
    hide Complete, GlobalOK, NodeOK, Ahead, Later;
    LeaderReady(s, h, n, v);
    AllNetOK(s, h);
    GlobalStays(s, h, h', n, v.term);
    ProposeNode(s, h, h', n, v, ents);
    StaysAhead(s, n, v, v.(log := v.log + ents));
  }

  /** A leader's term is in the history already, so growth of its reign asks nothing of its disk. */
  lemma LeaderReady(s: Stable, h: History, n: Id, v: View)
    requires Good(s, h, n, v) && v.role.Leader?
    ensures v.term in h.reigns && n in s.disks && n in s.writes
  {
    hide GlobalOK, StateOK, AcksOK, GrantsOK, OutOK;
  }

  lemma AllNetOK(s: Stable, h: History)
    requires GlobalOK(s, h)
    ensures forall m :: m in s.net ==> NetOK(s, h, m)
  {
    hide NetOK, MarkOK, ReignOK, NodeOK, BidOK, Complete;
  }

  lemma LogMatched(s: Stable, h: History, n: Id, v: View)
    requires Good(s, h, n, v)
    ensures Matched(h, v.log)
  {
    hide GlobalOK, Matched, AcksOK, GrantsOK, OutOK, CommitOK;
  }

  lemma ProposeReign(s: Stable, h: History, n: Id, v: View, ents: seq<Entry>)
    requires Good(s, h, n, v) && v.role.Leader? && OwnEntries(v, ents)
    ensures v.term in h.reigns && h.reigns[v.term].leader == n
    ensures Extends(s, h, Extended(h, v.term, ents), n, v.term)
    ensures ReignOK(s, Extended(h, v.term, ents), v.term)
    ensures GoodBid(Extended(h, v.term, ents), Bid(n, v.term))
    ensures Matched(Extended(h, v.term, ents), v.log + ents)
  {
    hide MsgOK, CommitOK, AcksOK, GrantsOK, Choosable, GlobalOK, Elected, ReignSafe, Matched, Ahead, OutOK;
    var t := v.term;
    var h' := Extended(h, t, ents);
    ReignFacts(s, h, t);
    assert Grows(h, h');
    MatchedStays(h, h', v.log);
    MatchedOwn(h', v.log, ents, t);
    ProposeSafe(s, h, h', t);
    if Bid(n, t) in h.bids {
      BidFacts(s, h, Bid(n, t));
      MatchedStays(h, h', h.bids[Bid(n, t)]);
    }
  }

  lemma MatchedOwn(h: History, log: seq<Entry>, ents: seq<Entry>, t: nat)
    requires Matched(h, log) && t in h.reigns && h.reigns[t].log == log + ents
    requires forall i :: 0 <= i < |ents| ==> ents[i].term == t
    ensures Matched(h, log + ents)
  {
    var full := log + ents;
    forall i | 0 <= i < |full| ensures full[i].term in h.reigns && Holds(full, h.reigns[full[i].term].log, i + 1) {
      if i < |log| { assert Holds(log, h.reigns[log[i].term].log, i + 1); }
    }
  }

  lemma ProposeSafe(s: Stable, h: History, h': History, t: nat)
    requires Grows(h, h') && t in h.reigns && ReignSafe(s, h, t)
    requires h'.reigns[t].commit == h.reigns[t].commit <= |h.reigns[t].log|
    ensures ReignSafe(s, h', t)
  {
    var r := h.reigns[t];
    if r.commit != 0 {
      var t0: nat, j: nat :| t0 <= t && Own(h, t0, j) && r.commit <= j && Chosen(s, h, t0, j)
        && Holds(r.log, h.reigns[t0].log, r.commit);
      ChosenStays(s, h, h', t0, j);
      assert Own(h', t0, j) && Holds(h'.reigns[t].log, h'.reigns[t0].log, r.commit);
    }
  }

  lemma HoldsMore(a: seq<Entry>, more: seq<Entry>)
    ensures forall b: seq<Entry>, k: nat :: Holds(a, b, k) ==> Holds(a + more, b, k)
  {
  }

  lemma SameKnown(s: Stable, h: History, n: Id, v: View, v': View)
    requires v'.out == v.out
    ensures forall t: nat, k: nat :: AckKnown(s, h, n, v', t, k) <==> AckKnown(s, h, n, v, t, k)
    ensures forall x: Id, t: nat :: HasGranted(s, n, v', x, t) <==> HasGranted(s, n, v, x, t)
  {
  }

  /** Appending at the end of the log keeps what the node acknowledged and granted. */
  lemma LongerLog(s: Stable, h: History, n: Id, v: View, more: seq<Entry>, v': View)
    requires AcksOK(s, h, n, v) && GrantsOK(s, h, n, v)
    requires v'.log == v.log + more && v'.out == v.out && v'.term == v.term && v'.vote == v.vote
    ensures AcksOK(s, h, n, v') && GrantsOK(s, h, n, v')
  {
    hide Holds, Choosable, AckKnown, HasGranted;
    HoldsMore(v.log, more);
    SameKnown(s, h, n, v, v');
  }

  lemma LongerCommit(h: History, log: seq<Entry>, more: seq<Entry>, k: nat, t: nat)
    requires CommitOK(h, log, k, t)
    ensures CommitOK(h, log + more, k, t)
  {
    HoldsMore(log, more);
  }

  lemma ProposeNode(s: Stable, h: History, h': History, n: Id, v: View, ents: seq<Entry>)
    requires NodeOK(s, h, n, v) && v.role.Leader? && OwnEntries(v, ents)
    requires v.term in h.reigns && h' == Extended(h, v.term, ents)
    requires Extends(s, h, h', n, v.term) && (forall m :: m in s.net ==> NetOK(s, h, m))
    requires Matched(h', v.log + ents)
    ensures NodeOK(s, h', n, v.(log := v.log + ents))
  {
    hide MsgOK, Matched, CommitOK, AcksOK, GrantsOK, NetOK, Extends, Unblocked;
    var v' := v.(log := v.log + ents);
    AcksStay(s, h, h', n, v.term, n, v);
    GrantsStay(s, h, h', n, v.term, n, v);
    LongerLog(s, h', n, v, ents, v');
    CommitStays(h, h', v.log, v.commit, v.term);
    LongerCommit(h', v.log, ents, v.commit, v.term);
    OutStays(s, h, h', n, v.term, v, v');
    assert LeaderOK(s, h', n, v') by {
      forall y | y in v.acked && v.acked[y] > 0 ensures AckSent(s, h', y, v.term, v.acked[y]) {
        AckStays(s, h, h', y, v.term, v.acked[y]);
      }
      SameMarks(h, h');
    }
  }

  lemma SameMarks(h: History, h': History)
    requires h'.marks == h.marks
    ensures forall x: Id, t: nat, p: nat :: Unblocked(h, x, t, p) ==> Unblocked(h', x, t, p)
  {
  }

  /** Held-back messages stay in order while the history grows; none of them is a bid that could
      change. */
  lemma OutStays(s: Stable, h: History, h': History, n: Id, t: nat, v: View, v': View)
    requires NodeOK(s, h, n, v) && Extends(s, h, h', n, t) && h'.bids == h.bids
    requires v'.out == v.out && v'.term == v.term
    ensures forall m :: m in v'.out ==> OutOK(s, h', n, v', m)
  {
    hide Matched, CommitOK, AcksOK, GrantsOK;
    forall m | m in v'.out ensures OutOK(s, h', n, v', m) {
      assert OutOK(s, h, n, v, m);
      if m.Vote? {
        assert MsgOK(s, h', m);
      } else {
        MsgStays(s, h, h', n, t, m);
      }
    }
  }
}
