/** What a step of one node leaves true of everything else: the history only grows, and the growth
    caused by one node disturbs neither the other nodes nor anything that already left a node. */
module ProtocolFrame {
  import opened Types
  import opened Quorum
  import opened Messages
  import opened Protocol

  ghost predicate Grows(h: History, h': History) {
    && (forall t :: t in h.reigns ==> t in h'.reigns && ReignGrows(h.reigns[t], h'.reigns[t]))
    && (forall rd :: rd in h.marks ==> rd in h'.marks && h'.marks[rd] == h.marks[rd])
  }

  ghost predicate ReignGrows(r: Reign, r': Reign) {
    && r'.leader == r.leader
    && r'.base == r.base
    && r.commit <= r'.commit
    && Holds(r.log, r'.log, |r.log|)
  }

  /** Every node other than n that was in order still is. */
  ghost predicate Others(s: Stable, h: History, h': History, n: Id) {
    forall x, w :: x != n && NodeOK(s, h, x, w) ==> NodeOK(s, h', x, w)
  }

  ghost predicate Later(s: Stable, h: History, h': History, n: Id) {
    Grows(h, h') && Others(s, h, h', n)
  }

  ghost predicate BidKept(h: History, h': History, b: Bid) {
    b in h'.bids ==> b in h.bids && h'.bids[b] == h.bids[b]
  }

  /** n's write under way is of term t or a later one. */
  predicate Handed(s: Stable, n: Id, t: nat) {
    n in s.writes && t <= s.writes[n].disk.term
  }

  /** h' adds to h only what node n does in term t. */
  ghost predicate Extends(s: Stable, h: History, h': History, n: Id, t: nat) {
    && Grows(h, h')
    && (forall u :: u in h'.reigns && u != t ==> u in h.reigns && h'.reigns[u] == h.reigns[u])
    && (t in h'.reigns ==> h'.reigns[t].leader == n || (t in h.reigns && h'.reigns[t] == h.reigns[t]))
    && (forall b :: b in h.bids ==> b in h'.bids)
    && (forall b :: b in h'.bids && b != Bid(n, t) ==> b in h.bids && h'.bids[b] == h.bids[b])
    && (Launched(s, n, t) || Handed(s, n, t) ==> BidKept(h, h', Bid(n, t)))
    && (forall rd :: rd in h'.marks && rd !in h.marks ==>
          rd.term == t && t in h.reigns && h.reigns[t].leader == n && forall p: nat :: Read(t, p) in h.marks ==> p < rd.pos)
  }

  lemma AckStays(s: Stable, h: History, h': History, x: Id, u: nat, k: nat)
    requires Grows(h, h') && AckSent(s, h, x, u, k)
    ensures AckSent(s, h', x, u, k)
  {
  }

  lemma MatchedStays(h: History, h': History, log: seq<Entry>)
    requires Grows(h, h') && Matched(h, log)
    ensures Matched(h', log)
  {
  }

  lemma ChosenStays(s: Stable, h: History, h': History, u: nat, i: nat)
    requires Grows(h, h') && Chosen(s, h, u, i)
    ensures Chosen(s, h', u, i)
  {
    var q :| IsQuorum(s.cfg, q) && AllAcked(s, h, q, u, i);
    assert AllAcked(s, h', q, u, i);
  }

  lemma ReignSafeStays(s: Stable, h: History, h': History, u: nat)
    requires Grows(h, h') && u in h.reigns && ReignSafe(s, h, u) && h'.reigns[u] == h.reigns[u]
    ensures ReignSafe(s, h', u)
  {
    var r := h.reigns[u];
    if r.commit != 0 {
      var t0: nat, j: nat :| t0 <= u && Own(h, t0, j) && r.commit <= j && Chosen(s, h, t0, j)
        && Holds(r.log, h.reigns[t0].log, r.commit);
      ChosenStays(s, h, h', t0, j);
      assert Own(h', t0, j) && Holds(r.log, h'.reigns[t0].log, r.commit);
    }
  }

  lemma CommitStays(h: History, h': History, log: seq<Entry>, k: nat, t: nat)
    requires Grows(h, h') && CommitOK(h, log, k, t)
    ensures CommitOK(h', log, k, t)
  {
    if k != 0 {
      var t0: nat :| t0 in h.reigns && t0 <= t && k <= h.reigns[t0].commit && Holds(log, h.reigns[t0].log, k);
      assert t0 in h'.reigns && k <= h'.reigns[t0].commit && Holds(log, h'.reigns[t0].log, k);
    }
  }

  /** A position can be chosen after the history grew only if it could before: nobody acknowledged
      what was not there. */
  lemma ChoosableStays(s: Stable, h: History, h': History, u: nat, i: nat)
    requires Grows(h, h') && Own(h', u, i) && Choosable(s, h', u, i)
    ensures Choosable(s, h, u, i)
  {
    var q :| IsQuorum(s.cfg, q) && AllCanAck(s, h', q, u, i);
    forall y | y in q ensures CanAck(s, h, y, u, i) {
      assert CanAck(s, h', y, u, i);
      assert !SelfAck(h', y, u, i);
    }
  }

  lemma MsgStays(s: Stable, h: History, h': History, n: Id, t: nat, m: Message)
    requires Extends(s, h, h', n, t) && MsgOK(s, h, m)
    requires m.Vote? && m.from == n && m.term == t ==> Launched(s, n, t) || Handed(s, n, t)
    ensures MsgOK(s, h', m)
  {
    GrowsBy(s, h, h', n, t);
    if m.App? || m.AppResp? || m.Snap? || m.TransferLeader? {
      LogMsgStays(s, h, h', m);
    } else if m.Heartbeat? || m.HeartbeatResp? {
      BeatStays(s, h, h', n, t, m);
    } else {
      hide Grows, Holds;
    }
  }

  /** Messages about a leader's log: the log only grows. */
  lemma LogMsgStays(s: Stable, h: History, h': History, m: Message)
    requires Grows(h, h') && MsgOK(s, h, m) && (m.App? || m.AppResp? || m.Snap? || m.TransferLeader?)
    ensures MsgOK(s, h', m)
  {
  }

  lemma BeatStays(s: Stable, h: History, h': History, n: Id, t: nat, m: Message)
    requires Extends(s, h, h', n, t) && MsgOK(s, h, m) && (m.Heartbeat? || m.HeartbeatResp?)
    ensures MsgOK(s, h', m)
  {
    hide Holds;
    if m.Heartbeat? && m.commit != 0 { AckStays(s, h, h', m.to, m.term, m.commit); }
  }

  /** A known acknowledgement of a leader's own position is an acknowledgement of a position the
      leader had before the history grew. */
  lemma OwnAck(s: Stable, h: History, h': History, x: Id, w: View, u: nat, i: nat)
    requires Grows(h, h') && NodeOK(s, h, x, w) && (forall m :: m in s.net ==> NetOK(s, h, m))
    requires AckKnown(s, h', x, w, u, i) && Own(h', u, i)
    ensures AckKnown(s, h, x, w, u, i) && Own(h, u, i)
  {
    assert !SelfAck(h', x, u, i);
    var m :| (m in s.net || m in w.out) && IsAck(m, x, u, i);
    if m in s.net { assert NetOK(s, h, m); } else { assert OutOK(s, h, x, w, m); }
    assert MsgOK(s, h, m);
  }

  /** The acknowledgement clauses survive growth. A node that starts to lead must hold its own
      log. */
  lemma AcksStay(s: Stable, h: History, h': History, n: Id, t: nat, x: Id, w: View)
    requires Extends(s, h, h', n, t) && NodeOK(s, h, x, w) && (forall m :: m in s.net ==> NetOK(s, h, m))
    requires x == n && w.term == t && t in h'.reigns && t !in h.reigns ==>
               Holds(w.log, h'.reigns[t].log, h'.reigns[t].base)
    ensures AcksOK(s, h', x, w)
  {
    forall k: nat | AckKnown(s, h', x, w, w.term, k) && w.term in h'.reigns
      ensures Holds(w.log, h'.reigns[w.term].log, k)
    {
      if w.term in h.reigns {
        assert AckKnown(s, h, x, w, w.term, k);
      } else if !SelfAck(h', x, w.term, k) {
        var m :| (m in s.net || m in w.out) && IsAck(m, x, w.term, k);
        if m in s.net { assert NetOK(s, h, m); } else { assert OutOK(s, h, x, w, m); }
        assert MsgOK(s, h, m);
      }
    }
    forall u: nat, i: nat | AckKnown(s, h', x, w, u, i) && Own(h', u, i) && Choosable(s, h', u, i)
      ensures Holds(w.log, h'.reigns[u].log, i)
    {
      OwnAck(s, h, h', x, w, u, i);
      ChoosableStays(s, h, h', u, i);
    }
  }

  lemma GrantsStay(s: Stable, h: History, h': History, n: Id, t: nat, x: Id, w: View)
    requires Extends(s, h, h', n, t) && NodeOK(s, h, x, w) && (forall m :: m in s.net ==> NetOK(s, h, m))
    requires x == n ==> VoteResp(n, n, t, false) !in w.out || h'.bids == h.bids
    ensures GrantsOK(s, h', x, w)
  {
    hide StateOK, AcksOK, LeaderOK, CandidateOK, Matched, Choosable, AckKnown, Ahead;
    forall y: Id, v: nat, t0: nat, i: nat |
      HasGranted(s, x, w, y, v) && t0 < v && AckKnown(s, h', x, w, t0, i)
      && Own(h', t0, i) && Choosable(s, h', t0, i) && Bid(y, v) in h'.bids
      ensures Holds(h'.bids[Bid(y, v)], h'.reigns[t0].log, i)
    {
      OwnAck(s, h, h', x, w, t0, i);
      ChoosableStays(s, h, h', t0, i);
      var m := VoteResp(x, y, v, false);
      if m in s.net { assert NetOK(s, h, m); } else { assert OutOK(s, h, x, w, m); }
      assert MsgOK(s, h, m);
      if m in s.net && y == x { assert Launched(s, y, v); }
      assert Bid(y, v) in h.bids && h'.bids[Bid(y, v)] == h.bids[Bid(y, v)];
    }
  }

  /** A write under way holds no message of a later term, so a candidacy that is new or changed is not
      among its messages. */
  lemma HandedBids(s: Stable, h: History, h': History, n: Id, t: nat, w: View)
    requires Extends(s, h, h', n, t) && NodeOK(s, h, n, w) && n in s.writes && w == Pending(s.writes[n])
    ensures VoteResp(n, n, t, false) !in w.out || h'.bids == h.bids
    ensures forall m :: m in w.out && m.Vote? && m.from == n && m.term == t ==> Handed(s, n, t)
  {
    hide StateOK, AcksOK, GrantsOK, MsgOK;
    forall m | m in w.out && Firm(m) ensures m.term <= w.term { assert OutOK(s, h, n, w, m); }
    if t <= w.term {
      assert BidKept(h, h', Bid(n, t));
      forall b | b in h'.bids ensures b in h.bids && h'.bids[b] == h.bids[b] { assert b != Bid(n, t) ==> b in h.bids; }
    }
  }

  /** A node other than the one that moved, its disk and its write under way stay in order. */
  lemma NodeStays(s: Stable, h: History, h': History, n: Id, t: nat, x: Id, w: View)
    requires Extends(s, h, h', n, t) && NodeOK(s, h, x, w) && (forall m :: m in s.net ==> NetOK(s, h, m))
    requires x == n ==> w == Restarted(s.disks[n]) || (n in s.writes && w == Pending(s.writes[n]))
    requires x == n && w.term == t && t in h'.reigns && t !in h.reigns ==>
               Holds(w.log, h'.reigns[t].log, h'.reigns[t].base)
    ensures NodeOK(s, h', x, w)
  {
    hide Matched, AcksOK, GrantsOK, MsgOK, CommitOK, Holds, NetOK, Extends, AckSent, Unblocked, Restarted, Pending;
    if x == n { Shape(s, n, w); }
    GrowsBy(s, h, h', n, t);
    AcksStay(s, h, h', n, t, x, w);
    if x == n && w.out != {} { HandedBids(s, h, h', n, t, w); }
    GrantsStay(s, h, h', n, t, x, w);
    MatchedStays(h, h', w.log);
    CommitStays(h, h', w.log, w.commit, w.term);
    forall m | m in w.out ensures OutOK(s, h', x, w, m) {
      assert OutOK(s, h, x, w, m);
      MsgStays(s, h, h', n, t, m);
    }
    if w.role.Leader? { LeaderStays(s, h, h', n, t, x, w); }
    if w.role.Candidate? { CandidateStays(s, h, h', n, t, x, w); }
  }

  lemma Shape(s: Stable, n: Id, w: View)
    requires n in s.disks && (w == Restarted(s.disks[n]) || (n in s.writes && w == Pending(s.writes[n])))
    ensures w.role.Follower? && (w.out != {} ==> n in s.writes && w == Pending(s.writes[n]))
  {
  }

  lemma GrowsBy(s: Stable, h: History, h': History, n: Id, t: nat)
    requires Extends(s, h, h', n, t)
    ensures Grows(h, h')
  {
  }

  lemma LeaderStays(s: Stable, h: History, h': History, n: Id, t: nat, x: Id, w: View)
    requires Extends(s, h, h', n, t) && LeaderOK(s, h, x, w) && x != n
    ensures LeaderOK(s, h', x, w)
  {
    forall y | y in w.acked && w.acked[y] > 0 ensures AckSent(s, h', y, w.term, w.acked[y]) {
      AckStays(s, h, h', y, w.term, w.acked[y]);
    }
  }

  lemma CandidateStays(s: Stable, h: History, h': History, n: Id, t: nat, x: Id, w: View)
    requires Extends(s, h, h', n, t) && x in s.disks && CandidateOK(s, h, x, w) && x != n
    ensures CandidateOK(s, h', x, w)
  {
  }
}
