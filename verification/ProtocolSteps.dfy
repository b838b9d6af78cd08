/** The steps a node's volatile state can take, each of which keeps the invariant. A handler of the
    concrete node is a chain of these. */
module ProtocolSteps {
  import opened Types
  import opened Quorum
  import opened Messages
  import opened Protocol
  import opened ProtocolFrame

  /** n, with volatile state v, is in order inside a cluster that is in order. */
  ghost predicate Good(s: Stable, h: History, n: Id, v: View) {
    GlobalOK(s, h) && NodeOK(s, h, n, v) && Ahead(s, n, v)
  }

  // What being in order means, one part at a time.

  lemma NetFacts(s: Stable, h: History, m: Message)
    requires GlobalOK(s, h) && m in s.net
    ensures NetOK(s, h, m)
  {
  }

  lemma ReignFacts(s: Stable, h: History, t: nat)
    requires GlobalOK(s, h) && t in h.reigns
    ensures ReignOK(s, h, t)
  {
  }

  lemma RestartFacts(s: Stable, h: History, x: Id)
    requires GlobalOK(s, h) && x in s.disks
    ensures NodeOK(s, h, x, Restarted(s.disks[x]))
  {
  }

  lemma TermOrder(s: Stable, h: History, n: Id, v: View)
    requires NodeOK(s, h, n, v)
    ensures n in s.disks && s.disks[n].term <= v.term
  {
  }

  lemma BidFacts(s: Stable, h: History, b: Bid)
    requires GlobalOK(s, h) && b in h.bids
    ensures BidOK(h, b)
  {
    hide NetOK, ReignOK, NodeOK, MarkOK, Complete, BidOK;
  }

  ghost predicate GoodBid(h: History, b: Bid) {
    b in h.bids ==> BidOK(h, b)
  }

  lemma MarkFacts(s: Stable, h: History, rd: Read)
    requires GlobalOK(s, h) && rd in h.marks
    ensures MarkOK(s, h, rd)
  {
    hide NetOK, ReignOK, NodeOK, BidOK, Complete, MarkOK;
  }

  lemma BidMatched(h: History, b: Bid)
    requires b in h.bids && BidOK(h, b)
    ensures Matched(h, h.bids[b]) && b.term > 0
  {
  }

  lemma WriteFacts(s: Stable, h: History, x: Id)
    requires GlobalOK(s, h) && x in s.disks
    ensures x in s.writes && NodeOK(s, h, x, Pending(s.writes[x])) && s.disks[x].term <= s.writes[x].disk.term
  {
    hide AcksOK, GrantsOK, MsgOK, NetOK, ReignOK, MarkOK, BidOK, Complete;
  }

  /** What changes neither term, vote nor held-back messages, and a candidate's log not either, stays
      ahead of the write under way. */
  lemma StaysAhead(s: Stable, n: Id, v: View, v': View)
    requires Ahead(s, n, v) && v'.term == v.term && v'.vote == v.vote && v'.out == v.out
    requires v'.role.Candidate? ==> v.role.Candidate? && v'.log == v.log
    ensures Ahead(s, n, v')
  {
  }

  lemma GrowsOf(s: Stable, h: History, h': History, n: Id, t: nat)
    requires Extends(s, h, h', n, t)
    ensures Grows(h, h')
  {
  }

  lemma NetStays(s: Stable, h: History, h': History, n: Id, t: nat)
    requires GlobalOK(s, h) && Extends(s, h, h', n, t)
    ensures forall m :: m in s.net ==> NetOK(s, h', m)
  {
    hide MsgOK, ReignOK, MarkOK, BidOK, Complete, NodeOK, Extends;
    forall m | m in s.net ensures NetOK(s, h', m) {
      assert NetOK(s, h, m);
      VoteLaunched(s, n, t, m);
      MsgStays(s, h, h', n, t, m);
    }
  }

  lemma VoteLaunched(s: Stable, n: Id, t: nat, m: Message)
    requires m in s.net
    ensures m.Vote? && m.from == n && m.term == t ==> Launched(s, n, t)
  {
  }

  lemma ReignsStay(s: Stable, h: History, h': History, n: Id, t: nat)
    requires GlobalOK(s, h) && Extends(s, h, h', n, t)
    ensures forall u :: u in h'.reigns && u != t ==> ReignOK(s, h', u)
    ensures forall rd :: rd in h.marks ==> rd in h'.marks && MarkOK(s, h', rd)
    ensures forall b :: b in h'.bids && b != Bid(n, t) ==> BidOK(h', b)
  {
    hide NetOK, Complete, NodeOK, Matched, Elected, ReignSafe, Holds;
    forall u | u in h'.reigns && u != t ensures ReignOK(s, h', u) {
      ReignFacts(s, h, u);
      ReignSafeStays(s, h, h', u);
      MatchedStays(h, h', h.reigns[u].log);
    }
    forall b | b in h'.bids && b != Bid(n, t) ensures BidOK(h', b) {
      MatchedStays(h, h', h.bids[b]);
    }
    forall rd | rd in h.marks ensures rd in h'.marks && MarkOK(s, h', rd) { assert MarkOK(s, h, rd); }
  }

  /** What is on disk, or on its way there, has the log that a new reign of its term starts with. */
  ghost predicate Prepared(h: History, h': History, t: nat, d: Disk) {
    t in h'.reigns && t !in h.reigns && d.term == t ==> Holds(d.log, h'.reigns[t].log, h'.reigns[t].base)
  }

  lemma NodesStay(s: Stable, h: History, h': History, n: Id, t: nat)
    requires GlobalOK(s, h) && n in s.disks && n in s.writes && Extends(s, h, h', n, t)
    requires Prepared(h, h', t, s.disks[n]) && Prepared(h, h', t, s.writes[n].disk)
    ensures forall x :: x in s.disks ==> NodeOK(s, h', x, Restarted(s.disks[x]))
    ensures forall x :: x in s.writes ==> NodeOK(s, h', x, Pending(s.writes[x]))
    ensures Others(s, h, h', n)
  {
    hide NetOK, Complete, NodeOK, ReignOK, MarkOK, BidOK, Holds, Extends;
    forall x | x in s.disks ensures NodeOK(s, h', x, Restarted(s.disks[x])) {
      RestartFacts(s, h, x);
      NodeStays(s, h, h', n, t, x, Restarted(s.disks[x]));
    }
    forall x | x in s.writes ensures NodeOK(s, h', x, Pending(s.writes[x])) {
      WriteFacts(s, h, x);
      NodeStays(s, h, h', n, t, x, Pending(s.writes[x]));
    }
    forall x, w | x != n && NodeOK(s, h, x, w) ensures NodeOK(s, h', x, w) {
      NodeStays(s, h, h', n, t, x, w);
    }
  }

  lemma GlobalStays(s: Stable, h: History, h': History, n: Id, t: nat)
    requires GlobalOK(s, h) && n in s.disks && n in s.writes && Extends(s, h, h', n, t)
    requires t in h'.reigns ==> ReignOK(s, h', t)
    requires Complete(s, h')
    requires GoodBid(h', Bid(n, t))
    requires forall rd :: rd in h'.marks && rd !in h.marks ==> MarkOK(s, h', rd)
    requires Prepared(h, h', t, s.disks[n]) && Prepared(h, h', t, s.writes[n].disk)
    ensures GlobalOK(s, h') && Later(s, h, h', n)
  {
    hide NetOK, Complete, NodeOK, ReignOK, MarkOK, BidOK, Holds, Extends, Others, Grows;
    NetStays(s, h, h', n, t);
    ReignsStay(s, h, h', n, t);
    NodesStay(s, h, h', n, t);
    GrowsOf(s, h, h', n, t);
  }

  /** Terms in a log in which every entry sits in its leader's log never go down. */
  lemma Ordered(s: Stable, h: History, log: seq<Entry>, i: nat, j: nat)
    requires GlobalOK(s, h) && Matched(h, log) && i <= j < |log|
    ensures log[i].term <= log[j].term
  {
    var t := log[j].term;
    assert ReignOK(s, h, t);
  }

  // ---------------------------------------------------------------------------------------------
  // Terms, votes and candidacies
  // ---------------------------------------------------------------------------------------------

  lemma RetireAhead(s: Stable, n: Id, v: View, t: nat)
    requires Ahead(s, n, v) && v.term <= t
    ensures Ahead(s, n, Retired(v, t))
  {
  }

  lemma EmitAhead(s: Stable, n: Id, v: View, m: Message)
    requires Ahead(s, n, v) && (Firm(m) ==> m.term >= v.term)
    ensures Ahead(s, n, Emitted(v, m))
  {
  }

  function Retired(v: View, t: nat): View {
    v.(term := t, vote := if t == v.term then v.vote else NONE, role := Follower,
       acked := map[], granted := {}, queued := 0, readAcks := map[])
  }

  lemma Retire(s: Stable, h: History, n: Id, v: View, t: nat)
    requires Good(s, h, n, v) && v.term <= t
    ensures Good(s, h, n, Retired(v, t))
    ensures forall m :: m in Retired(v, t).out && Firm(m) ==> m.term <= v.term
  {
    hide Matched, MsgOK, GlobalOK, Choosable, Holds, Ahead, AckKnown;
    var v' := Retired(v, t);
    RetireAhead(s, n, v, t);
    assert forall u: nat, k: nat :: AckKnown(s, h, n, v', u, k) <==> AckKnown(s, h, n, v, u, k) by { SameOut(s, h, n, v, v'); }
    if v.commit != 0 {
      var t0: nat :| t0 in h.reigns && t0 <= v.term && v.commit <= h.reigns[t0].commit
        && Holds(v.log, h.reigns[t0].log, v.commit);
    }
    forall m | m in v'.out ensures OutOK(s, h, n, v', m) { assert OutOK(s, h, n, v, m); }
    forall k: nat | AckKnown(s, h, n, v', t, k) && t in h.reigns
      ensures Holds(v'.log, h.reigns[t].log, k)
    {
      if t != v.term { NoAckAhead(s, h, n, v, t, k); }
      assert AckKnown(s, h, n, v, t, k);
    }
    forall x: Id, u: nat | HasGranted(s, n, v', x, u) ensures v'.term > u || v'.vote == x {
      assert HasGranted(s, n, v, x, u);
      NoGrantAhead(s, h, n, v, x, u);
    }
    forall u: nat, i: nat | AckKnown(s, h, n, v', u, i) && Own(h, u, i) && Choosable(s, h, u, i)
      ensures Holds(v'.log, h.reigns[u].log, i)
    {
      assert AckKnown(s, h, n, v, u, i);
    }
    forall x: Id, u: nat, t0: nat, i: nat |
      HasGranted(s, n, v', x, u) && t0 < u && AckKnown(s, h, n, v', t0, i)
      && Own(h, t0, i) && Choosable(s, h, t0, i) && Bid(x, u) in h.bids
      ensures Holds(h.bids[Bid(x, u)], h.reigns[t0].log, i)
    {
      assert HasGranted(s, n, v, x, u) && AckKnown(s, h, n, v, t0, i);
    }
    assert forall x: Id, u: nat :: HasGranted(s, n, v', x, u) <==> HasGranted(s, n, v, x, u);
  }

  lemma SameOut(s: Stable, h: History, n: Id, v: View, v': View)
    requires v'.out == v.out
    ensures forall t: nat, k: nat :: AckKnown(s, h, n, v', t, k) <==> AckKnown(s, h, n, v, t, k)
  {
  }

  /** A node has acknowledged nothing to a leader of a term it has not reached, except as that
      leader. */
  lemma NoAckAhead(s: Stable, h: History, n: Id, v: View, t: nat, k: nat)
    requires Good(s, h, n, v) && AckKnown(s, h, n, v, t, k) && t in h.reigns
    ensures t <= v.term
  {
    hide Matched, MsgOK, Holds, AcksOK, GrantsOK, GlobalOK, Ahead, AckKnown;
    TermOrder(s, h, n, v);
    if SelfAck(h, n, t, k) {
      LeaderReached(s, h, t);
    } else {
      var m := KnownAck(s, h, n, v, t, k);
      if m in s.net { NetFacts(s, h, m); } else { assert OutOK(s, h, n, v, m); }
    }
  }

  /** The message behind an acknowledgement that is not a leader's own. */
  lemma KnownAck(s: Stable, h: History, n: Id, v: View, t: nat, k: nat) returns (m: Message)
    requires AckKnown(s, h, n, v, t, k) && !SelfAck(h, n, t, k)
    ensures (m in s.net || m in v.out) && m.AppResp? && m.from == n && m.term == t && !m.reject && m.index >= k
  {
    if x :| x in s.net && IsAck(x, n, t, k) {
      m := x;
    } else {
      m :| m in v.out && IsAck(m, n, t, k);
    }
  }

  lemma NoGrantAhead(s: Stable, h: History, n: Id, v: View, x: Id, t: nat)
    requires Good(s, h, n, v) && HasGranted(s, n, v, x, t)
    ensures t <= v.term
  {
    hide GlobalOK, StateOK, AcksOK, GrantsOK, MsgOK, LeaderOK, CandidateOK;
    var m := VoteResp(n, x, t, false);
    if m in s.net { NetFacts(s, h, m); TermOrder(s, h, n, v); } else { assert OutOK(s, h, n, v, m); }
  }

  /** Whoever won a term had made it durable before. */
  lemma LeaderReached(s: Stable, h: History, t: nat)
    requires GlobalOK(s, h) && t in h.reigns
    ensures h.reigns[t].leader in s.disks && s.disks[h.reigns[t].leader].term >= t
  {
    var x := h.reigns[t].leader;
    assert ReignOK(s, h, t);
    var q :| IsQuorum(s.cfg, q) && AllGranted(s, q, x, t);
    QuorumsMeet(s.cfg, q, q);
    var y :| y in q;
    var m := VoteResp(y, x, t, false);
    assert NetOK(s, h, m) && MsgOK(s, h, m);
    if x != y { assert Launched(s, x, t); }
    LaunchedDurable(s, h, x, t);
  }

  lemma LeaderTermPositive(s: Stable, h: History, t: nat)
    requires GlobalOK(s, h) && t in h.reigns
    ensures t > 0
  {
    hide NodeOK, MarkOK, BidOK, Complete, MsgOK, Matched, ReignSafe;
    ReignFacts(s, h, t);
    var q :| IsQuorum(s.cfg, q) && AllGranted(s, q, h.reigns[t].leader, t);
    QuorumsMeet(s.cfg, q, q);
    var y :| y in q;
    NetFacts(s, h, VoteResp(y, h.reigns[t].leader, t, false));
  }

  lemma LaunchedDurable(s: Stable, h: History, x: Id, t: nat)
    requires GlobalOK(s, h) && Launched(s, x, t)
    ensures x in s.disks && s.disks[x].term >= t
  {
    var m :| m in s.net && m.from == x && (m.Vote? || (m.VoteResp? && !m.reject && m.to == x)) && m.term == t;
    assert NetOK(s, h, m);
  }

  function Standing(v: View, n: Id): View {
    v.(term := v.term + 1, vote := n, role := Candidate,
       acked := map[], granted := {}, queued := 0, readAcks := map[])
  }

  lemma Stand(s: Stable, h: History, n: Id, v: View) returns (h': History)
    requires Good(s, h, n, v)
    ensures Good(s, h', n, Standing(v, n)) && Later(s, h, h', n)
    ensures Bid(n, v.term + 1) in h'.bids && h'.bids[Bid(n, v.term + 1)] == v.log
    ensures h'.reigns == h.reigns && h'.marks == h.marks
  {
    hide GlobalOK, StateOK, AcksOK, GrantsOK, LeaderOK, CandidateOK, MsgOK, Others, Grows;
    h' := AddBid(s, h, n, v);
    TermOrder(s, h, n, v);
    Retire(s, h', n, v, v.term + 1);
    TakeSides(s, h', n, Retired(v, v.term + 1));
  }

  function WithBid(h: History, n: Id, v: View): History {
    h.(bids := h.bids[Bid(n, v.term + 1) := v.log])
  }

  /** A node records the log it is about to stand with. */
  lemma AddBid(s: Stable, h: History, n: Id, v: View) returns (h': History)
    requires Good(s, h, n, v)
    ensures Good(s, h', n, v) && Later(s, h, h', n)
    ensures h' == WithBid(h, n, v)
  {
    hide MarkOK, ReignOK, NetOK, Complete, NodeOK, BidOK, Extends, Grows;
    h' := WithBid(h, n, v);
    var t := v.term + 1;
    BidExtends(s, h, n, v);
    SameReigns(h, h');
    SameReignsComplete(s, h, h');
    if t in h.reigns { ReignFacts(s, h, t); SameReign(s, h, h', t); }
    TermOrder(s, h, n, v);
    GlobalStays(s, h, h', n, t);
    BidNode(s, h, h', n, v);
  }

  lemma BidExtends(s: Stable, h: History, n: Id, v: View)
    requires Good(s, h, n, v)
    ensures Extends(s, h, WithBid(h, n, v), n, v.term + 1)
    ensures GoodBid(WithBid(h, n, v), Bid(n, v.term + 1))
  {
    hide GlobalOK, AcksOK, GrantsOK, Matched;
    var h' := WithBid(h, n, v);
    if Launched(s, n, v.term + 1) { LaunchedDurable(s, h, n, v.term + 1); assert false; }
    SameReigns(h, h');
    MatchedStays(h, h', v.log);
    FreeReigns(s, h, n, v);
  }

  /** n leads no term it has not reached. */
  lemma FreeReigns(s: Stable, h: History, n: Id, v: View)
    requires Good(s, h, n, v)
    ensures v.term + 1 in h.reigns ==> h.reigns[v.term + 1].leader != n
  {
    hide ReignOK, NetOK, MarkOK, BidOK, Complete, NodeOK;
    TermOrder(s, h, n, v);
    if v.term + 1 in h.reigns { LeaderReached(s, h, v.term + 1); }
  }

  lemma BidNode(s: Stable, h: History, h': History, n: Id, v: View)
    requires NodeOK(s, h, n, v) && Extends(s, h, h', n, v.term + 1) && h'.reigns == h.reigns
    requires forall m :: m in s.net ==> NetOK(s, h, m)
    ensures NodeOK(s, h', n, v)
  {
    hide Matched, MsgOK, Choosable, Holds, AcksOK, GrantsOK, CommitOK, NetOK, Extends, Unblocked, HasGranted;
    var t := v.term + 1;
    AcksStay(s, h, h', n, t, n, v);
    BidGrants(s, h, h', n, v);
    GrowsOf(s, h, h', n, t);
    MatchedStays(h, h', v.log);
    CommitStays(h, h', v.log, v.commit, v.term);
    forall m | m in v.out ensures OutOK(s, h', n, v, m) {
      assert OutOK(s, h, n, v, m);
      MsgStays(s, h, h', n, t, m);
    }
    BidRoles(s, h, h', n, v);
  }

  lemma BidGrants(s: Stable, h: History, h': History, n: Id, v: View)
    requires NodeOK(s, h, n, v) && Extends(s, h, h', n, v.term + 1)
    requires forall m :: m in s.net ==> NetOK(s, h, m)
    ensures GrantsOK(s, h', n, v)
  {
    hide Matched, MsgOK, Choosable, Holds, AcksOK, CommitOK, NetOK, Extends, Unblocked;
    GrantsStay(s, h, h', n, v.term + 1, n, v);
  }

  lemma BidRoles(s: Stable, h: History, h': History, n: Id, v: View)
    requires NodeOK(s, h, n, v) && Extends(s, h, h', n, v.term + 1) && h'.reigns == h.reigns
    ensures v.role.Leader? ==> LeaderOK(s, h', n, v)
    ensures v.role.Candidate? ==> CandidateOK(s, h', n, v)
  {
    hide StateOK, AcksOK, GrantsOK, OutOK;
    SameReignsAcks(s, h, h');
    hide AckSent;
  }

  lemma SameReigns(h: History, h': History)
    requires h'.reigns == h.reigns && h'.marks == h.marks
    ensures Grows(h, h')
  {
  }

  lemma SameReign(s: Stable, h: History, h': History, t: nat)
    requires Grows(h, h') && t in h.reigns && h'.reigns[t] == h.reigns[t] && ReignOK(s, h, t)
    ensures ReignOK(s, h', t)
  {
    ReignSafeStays(s, h, h', t);
    MatchedStays(h, h', h.reigns[t].log);
  }

  lemma SameReignsAcks(s: Stable, h: History, h': History)
    requires h'.reigns == h.reigns
    ensures forall x: Id, t: nat, k: nat :: AckSent(s, h', x, t, k) <==> AckSent(s, h, x, t, k)
    ensures forall t: nat, k: nat :: Own(h', t, k) <==> Own(h, t, k)
  {
  }

  lemma SameReignsChoosable(s: Stable, h: History, h': History, t: nat, i: nat)
    requires h'.reigns == h.reigns && Choosable(s, h', t, i)
    ensures Choosable(s, h, t, i)
  {
    hide AckSent, IsQuorum;
    SameReignsAcks(s, h, h');
    var q :| IsQuorum(s.cfg, q) && AllCanAck(s, h', q, t, i);
    assert AllCanAck(s, h, q, t, i);
  }

  lemma SameReignsComplete(s: Stable, h: History, h': History)
    requires h'.reigns == h.reigns && Complete(s, h)
    ensures Complete(s, h')
  {
    hide Choosable, Holds, AckSent, Own;
    SameReignsAcks(s, h, h');
    forall t: nat, i: nat | Choosable(s, h', t, i) ensures Choosable(s, h, t, i) {
      SameReignsChoosable(s, h, h', t, i);
    }
  }

  /** A node without a vote in a fresh term votes for itself and becomes a candidate. */
  lemma TakeSides(s: Stable, h: History, n: Id, v: View)
    requires Good(s, h, n, v) && v.role.Follower? && v.term > s.writes[n].disk.term
    requires forall m :: m in v.out && Firm(m) ==> m.term < v.term
    requires Bid(n, v.term) in h.bids && h.bids[Bid(n, v.term)] == v.log
    ensures Good(s, h, n, v.(vote := n, role := Candidate, granted := {}))
  {
    hide Matched, MsgOK, Choosable, Holds, AcksOK, CommitOK, AckKnown, GlobalOK;
    WriteFacts(s, h, n);
    var v' := v.(vote := n, role := Candidate, granted := {});
    if v.term in h.reigns && h.reigns[v.term].leader == n { LeaderReached(s, h, v.term); }
    if Launched(s, n, v.term) { LaunchedDurable(s, h, n, v.term); }
    forall m | m in v'.out ensures OutOK(s, h, n, v', m) { assert OutOK(s, h, n, v, m); }
    forall x: Id, u: nat | HasGranted(s, n, v', x, u) ensures v'.term > u {
      var m := VoteResp(n, x, u, false);
      if m in s.net { NetFacts(s, h, m); } else { assert OutOK(s, h, n, v, m); }
    }
    SameAcks(s, h, n, v, v');
  }

  /** Clauses about acknowledgements and grants only look at the log, the term and the messages. */
  lemma SameAcks(s: Stable, h: History, n: Id, v: View, v': View)
    requires v'.out == v.out && v'.log == v.log && v'.term == v.term
    ensures AcksOK(s, h, n, v) ==> AcksOK(s, h, n, v')
    ensures GrantsOK(s, h, n, v) && (forall x: Id, t: nat :: HasGranted(s, n, v', x, t) ==> v'.term > t || v'.vote == x)
            ==> GrantsOK(s, h, n, v')
    ensures v'.vote == v.vote && GrantsOK(s, h, n, v) ==> GrantsOK(s, h, n, v')
  {
    assert forall t: nat, k: nat :: AckKnown(s, h, n, v', t, k) <==> AckKnown(s, h, n, v, t, k);
    assert forall x: Id, t: nat :: HasGranted(s, n, v', x, t) <==> HasGranted(s, n, v, x, t);
  }

  // ---------------------------------------------------------------------------------------------
  // Voting
  // ---------------------------------------------------------------------------------------------

  /** A node that has no other vote in its term may record one. */
  lemma CastVote(s: Stable, h: History, n: Id, v: View, x: Id)
    requires Good(s, h, n, v) && x != NONE && (v.vote == NONE || v.vote == x)
    ensures Good(s, h, n, v.(vote := x))
  {
    hide Matched, MsgOK, Choosable, Holds, AcksOK, CommitOK, AckKnown, GlobalOK;
    var v' := v.(vote := x);
    forall m | m in v'.out ensures OutOK(s, h, n, v', m) { assert OutOK(s, h, n, v, m); }
    forall y: Id, u: nat | HasGranted(s, n, v', y, u) ensures v'.term > u || v'.vote == y {
      assert HasGranted(s, n, v, y, u);
      var m := VoteResp(n, y, u, false);
      if m in s.net { NetFacts(s, h, m); } else { assert OutOK(s, h, n, v, m); }
      GrantReal(s, h, n, m);
    }
    SameAcks(s, h, n, v, v');
    NotNone(s, h, n, v);
  }

  lemma NotNone(s: Stable, h: History, n: Id, v: View)
    requires Good(s, h, n, v)
    ensures n != NONE
  {
    hide NetOK, ReignOK, MarkOK, BidOK, Complete, StateOK, LeaderOK, CandidateOK, AcksOK, GrantsOK, OutOK, Ahead;
  }

  /** Votes go to nodes. */
  lemma GrantReal(s: Stable, h: History, n: Id, m: Message)
    requires GlobalOK(s, h) && n in s.disks && IsGrant(m) && m.from == n && MsgOK(s, h, m)
    ensures m.to in s.disks && m.to != NONE
  {
    if m.to != m.from { LaunchedDurable(s, h, m.to, m.term); }
  }

  // ---------------------------------------------------------------------------------------------
  // Messages
  // ---------------------------------------------------------------------------------------------

  function Emitted(v: View, m: Message): View {
    v.(out := v.out + {m})
  }

  predicate IsGrant(m: Message) {
    m.VoteResp? && !m.reject
  }

  predicate IsAccept(m: Message) {
    m.AppResp? && !m.reject && m.index > 0
  }

  /** Holding back a message that claims nothing about the sender's log or vote. */
  lemma EmitPlain(s: Stable, h: History, n: Id, v: View, m: Message)
    requires Good(s, h, n, v) && MsgOK(s, h, m) && !IsGrant(m) && !IsAccept(m)
    requires Firm(m) ==> m.from == n && m.term == v.term && v.term > 0
    ensures Good(s, h, n, Emitted(v, m))
  {
    hide Matched, MsgOK, Choosable, Holds, GlobalOK, CommitOK, Ahead;
    var v' := Emitted(v, m);
    EmitAhead(s, n, v, m);
    assert forall x: Id, u: nat :: HasGranted(s, n, v', x, u) <==> HasGranted(s, n, v, x, u);
    forall u: nat, k: nat | AckKnown(s, h, n, v', u, k) ensures AckKnown(s, h, n, v, u, k) || k == 0 {
      if k > 0 && !AckSent(s, h, n, u, k) {
        var a :| a in v'.out && IsAck(a, n, u, k);
        assert a != m;
      }
    }
    HoldsNothing();
    OwnPositive(h);
    assert AcksOK(s, h, n, v');
    assert GrantsOK(s, h, n, v');
    forall a | a in v'.out ensures OutOK(s, h, n, v', a) {
      if a != m { assert OutOK(s, h, n, v, a); }
    }
  }

  lemma HoldsNothing()
    ensures forall a: seq<Entry>, b: seq<Entry> :: Holds(a, b, 0)
  {
  }

  lemma OwnPositive(h: History)
    ensures forall t: nat, i: nat :: Own(h, t, i) ==> i > 0
  {
  }

  lemma AckInLog(s: Stable, h: History, v: View, m: Message)
    requires m.AppResp? && !m.reject && m.term == v.term && v.term in h.reigns
    requires Holds(v.log, h.reigns[v.term].log, m.index)
    ensures MsgOK(s, h, m)
    ensures forall k: nat :: k <= m.index ==> Holds(v.log, h.reigns[v.term].log, k)
  {
  }

  /** Acknowledging a prefix of the log shared with the leader of the node's term. */
  lemma EmitAck(s: Stable, h: History, n: Id, v: View, m: Message)
    requires Good(s, h, n, v) && m.AppResp? && !m.reject && m.from == n && m.term == v.term
    requires v.term in h.reigns && Holds(v.log, h.reigns[v.term].log, m.index)
    ensures Good(s, h, n, Emitted(v, m))
  {
    hide Matched, MsgOK, Choosable, MarkOK, ReignOK, CommitOK, Complete, BidOK, Holds, AcksOK, GrantsOK, GlobalOK;
    AckInLog(s, h, v, m);
    LeaderTermPositive(s, h, v.term);
    AckAcks(s, h, n, v, m);
    AckGrants(s, h, n, v, m);
    var v' := Emitted(v, m);
    forall a | a in v'.out ensures OutOK(s, h, n, v', a) {
      if a != m { assert OutOK(s, h, n, v, a); }
    }
  }

  lemma AckAcks(s: Stable, h: History, n: Id, v: View, m: Message)
    requires NodeOK(s, h, n, v) && m.AppResp? && m.from == n && m.term == v.term && v.term in h.reigns
    requires forall k: nat :: k <= m.index ==> Holds(v.log, h.reigns[v.term].log, k)
    ensures AcksOK(s, h, n, Emitted(v, m))
  {
    hide Matched, MsgOK, Choosable, CommitOK, Holds, GrantsOK;
    var v' := Emitted(v, m);
    forall u: nat, k: nat | AckKnown(s, h, n, v', u, k)
      ensures AckKnown(s, h, n, v, u, k) || (u == v.term && Holds(v.log, h.reigns[v.term].log, k))
    {
      if !AckSent(s, h, n, u, k) {
        var a :| a in v'.out && IsAck(a, n, u, k);
        if a in v.out { assert AckKnown(s, h, n, v, u, k); }
      }
    }
  }

  lemma AckGrants(s: Stable, h: History, n: Id, v: View, m: Message)
    requires Good(s, h, n, v) && m.AppResp? && m.from == n && m.term == v.term
    ensures GrantsOK(s, h, n, Emitted(v, m))
  {
    hide Matched, MsgOK, Choosable, CommitOK, Holds, AcksOK, MarkOK, ReignOK, Complete, BidOK;
    var v' := Emitted(v, m);
    assert forall x: Id, u: nat :: HasGranted(s, n, v', x, u) <==> HasGranted(s, n, v, x, u);
    forall x: Id, u: nat | HasGranted(s, n, v', x, u) ensures u <= v.term {
      NoGrantAhead(s, h, n, v, x, u);
    }
    forall u: nat, k: nat | u < v.term && AckKnown(s, h, n, v', u, k) ensures AckKnown(s, h, n, v, u, k) {
      if !AckSent(s, h, n, u, k) {
        var a :| a in v'.out && IsAck(a, n, u, k);
        assert a in v.out;
      }
    }
  }

  /** The up-to-date check of an election: their log against ours. */
  predicate UpToDate(ours: seq<Entry>, lastIndex: nat, lastTerm: nat) {
    lastTerm > LastTerm(ours) || (lastTerm == LastTerm(ours) && lastIndex >= |ours|)
  }

  lemma AllOrdered(s: Stable, h: History, log: seq<Entry>)
    requires GlobalOK(s, h) && Matched(h, log)
    ensures forall i: nat, j: nat :: i <= j < |log| ==> log[i].term <= log[j].term
  {
    hide GlobalOK, Matched;
    forall i: nat, j: nat | i <= j < |log| ensures log[i].term <= log[j].term { Ordered(s, h, log, i, j); }
  }

  /** A log that is up to date with one holding a position that can still be chosen holds it too. */
  lemma UpToDateHolds(s: Stable, h: History, log: seq<Entry>, theirs: seq<Entry>, t: nat, i: nat)
    requires GlobalOK(s, h) && Matched(h, log) && Matched(h, theirs)
    requires UpToDate(log, |theirs|, LastTerm(theirs))
    requires Own(h, t, i) && Choosable(s, h, t, i) && Holds(log, h.reigns[t].log, i)
    ensures Holds(theirs, h.reigns[t].log, i)
  {
    hide MsgOK, Choosable, MarkOK, CommitOK, BidOK, NodeOK, NetOK, Elected, ReignSafe;
    var own := h.reigns[t];
    assert ReignOK(s, h, t);
    assert log[i - 1].term == t;
    Ordered(s, h, log, i - 1, |log| - 1);
    AllOrdered(s, h, own.log);
    var u := LastTerm(theirs);
    assert u >= t && |theirs| > 0;
    assert Holds(theirs, h.reigns[u].log, |theirs|);
    if u == LastTerm(log) {
      assert Holds(log, h.reigns[u].log, |log|);
    } else {
      assert Holds(h.reigns[u].log, own.log, i);
      assert |theirs| >= i;
    }
  }

  /** Granting a vote to an up-to-date candidate. */
  lemma EmitGrant(s: Stable, h: History, n: Id, v: View, x: Id)
    requires Good(s, h, n, v) && v.vote == x && Bid(x, v.term) in h.bids
    requires x == n || Launched(s, x, v.term)
    requires UpToDate(v.log, |h.bids[Bid(x, v.term)]|, LastTerm(h.bids[Bid(x, v.term)]))
    ensures Good(s, h, n, Emitted(v, VoteResp(n, x, v.term, false)))
  {
    hide Matched, Choosable, Holds, GlobalOK, CommitOK, Ahead, BidOK;
    var m := VoteResp(n, x, v.term, false);
    var v' := Emitted(v, m);
    EmitAhead(s, n, v, m);
    assert MsgOK(s, h, m);
    hide MsgOK;
    BidFacts(s, h, Bid(x, v.term));
    assert Matched(h, h.bids[Bid(x, v.term)]) && v.term > 0 by { BidMatched(h, Bid(x, v.term)); }
    assert forall u: nat, k: nat :: AckKnown(s, h, n, v', u, k) ==> AckKnown(s, h, n, v, u, k) by {
      forall u: nat, k: nat | AckKnown(s, h, n, v', u, k) ensures AckKnown(s, h, n, v, u, k) {
        if !AckSent(s, h, n, u, k) {
          var a :| a in v'.out && IsAck(a, n, u, k);
          assert a in v.out;
        }
      }
    }
    assert AcksOK(s, h, n, v');
    forall y: Id, u: nat | HasGranted(s, n, v', y, u)
      ensures HasGranted(s, n, v, y, u) || (y == x && u == v.term)
    {
    }
    forall y: Id | HasGranted(s, n, v, y, v.term) ensures y == x { }
    forall y: Id, u: nat, t0: nat, i: nat |
      HasGranted(s, n, v', y, u) && t0 < u && AckKnown(s, h, n, v', t0, i)
      && Own(h, t0, i) && Choosable(s, h, t0, i) && Bid(y, u) in h.bids
      ensures Holds(h.bids[Bid(y, u)], h.reigns[t0].log, i)
    {
      if HasGranted(s, n, v, y, u) {
      } else {
        UpToDateHolds(s, h, v.log, h.bids[Bid(x, v.term)], t0, i);
      }
    }
    assert GrantsOK(s, h, n, v');
    forall a | a in v'.out ensures OutOK(s, h, n, v', a) {
      if a != m { assert OutOK(s, h, n, v, a); }
    }
  }
}
