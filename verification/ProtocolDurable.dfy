/** Handing a node's state out for writing, making it durable and releasing the messages that waited
    for it while the node runs on, and crashing back to what is durable. */
module ProtocolDurable {
  import opened Types
  import opened Quorum
  import opened Messages
  import opened Protocol
  import opened ProtocolSteps

  function Saved(v: View): Disk {
    Disk(v.term, v.vote, v.log, v.commit)
  }

  /** A node hands out its state and the messages it holds back; they stay with it until written. */
  function HandedOut(s: Stable, n: Id, v: View): Stable {
    s.(writes := s.writes[n := Write(Saved(v), v.out)])
  }

  /** v's state is on disk and its messages have left; nothing is under way any more. */
  function Persisted(s: Stable, n: Id, v: View): Stable {
    Stable(s.cfg, s.disks[n := Saved(v)], s.writes[n := Write(Saved(v), {})], s.net + v.out)
  }

  /** What a node holds back once the messages of the write w have left. */
  function Flushed(v: View, w: Write): View {
    v.(out := v.out - w.out)
  }

  /** What a durable write by n does to the rest of the cluster. */
  ghost predicate Writes(s: Stable, s': Stable, n: Id, v: View) {
    n in s.disks && s' == Persisted(s, n, v) && s.disks[n].term <= v.term
    && forall m :: m in v.out && Firm(m) ==> m.from == n && m.term > 0 && s.disks[n].term <= m.term <= v.term
  }

  lemma WritesFacts(s: Stable, s': Stable, h: History, n: Id, v: View)
    requires NodeOK(s, h, n, v) && s' == Persisted(s, n, v)
    ensures Writes(s, s', n, v)
  {
    hide MsgOK, AcksOK, GrantsOK, Matched, CommitOK;
    forall m | m in v.out && Firm(m) ensures m.from == n && m.term > 0 && s.disks[n].term <= m.term <= v.term {
      assert OutOK(s, h, n, v, m);
    }
  }

  lemma AcksGrow(s: Stable, s': Stable, h: History, n: Id, v: View)
    requires Writes(s, s', n, v)
    ensures forall x: Id, t: nat, k: nat :: AckSent(s, h, x, t, k) ==> AckSent(s', h, x, t, k)
    ensures forall x: Id, t: nat, k: nat :: x != n && AckSent(s', h, x, t, k) ==> AckSent(s, h, x, t, k)
    ensures forall t: nat, k: nat :: AckSent(s', h, n, t, k) ==> AckKnown(s, h, n, v, t, k)
    ensures forall t: nat, k: nat :: AckKnown(s, h, n, v, t, k) ==> AckSent(s', h, n, t, k)
  {
  }

  lemma ChoosableShrinks(s: Stable, s': Stable, h: History, n: Id, v: View, t: nat, i: nat)
    requires Writes(s, s', n, v) && Choosable(s', h, t, i)
    ensures Choosable(s, h, t, i)
  {
    AcksGrow(s, s', h, n, v);
    hide AckSent, IsQuorum;
    var q :| IsQuorum(s'.cfg, q) && AllCanAck(s', h, q, t, i);
    forall y | y in q ensures CanAck(s, h, y, t, i) {
      assert CanAck(s', h, y, t, i);
      if y == n && AckSent(s', h, n, t, i) && !AckSent(s, h, n, t, i) {
        var m :| m in v.out && IsAck(m, n, t, i);
      }
    }
    assert AllCanAck(s, h, q, t, i);
  }

  lemma ChosenGrows(s: Stable, s': Stable, h: History, n: Id, v: View, t: nat, i: nat)
    requires Writes(s, s', n, v) && Chosen(s, h, t, i)
    ensures Chosen(s', h, t, i)
  {
    AcksGrow(s, s', h, n, v);
    hide AckSent, IsQuorum;
    var q :| IsQuorum(s.cfg, q) && AllAcked(s, h, q, t, i);
    assert AllAcked(s', h, q, t, i);
  }

  lemma MsgPersists(s: Stable, s': Stable, h: History, n: Id, v: View, m: Message)
    requires Writes(s, s', n, v) && MsgOK(s, h, m)
    ensures MsgOK(s', h, m)
  {
    AcksGrow(s, s', h, n, v);
    hide AckSent;
  }

  /** Other nodes are untouched by n's write. */
  lemma OtherPersists(s: Stable, s': Stable, h: History, n: Id, v: View, x: Id, w: View)
    requires Writes(s, s', n, v) && x != n && NodeOK(s, h, x, w)
    ensures NodeOK(s', h, x, w)
  {
    AcksGrow(s, s', h, n, v);
    hide Matched, CommitOK, Holds, AckSent, Choosable, MsgOK, Own, Unblocked;
    forall m | m in w.out ensures OutOK(s', h, x, w, m) {
      assert OutOK(s, h, x, w, m);
      MsgPersists(s, s', h, n, v, m);
    }
    OtherClauses(s, s', h, n, v, x, w);
  }

  lemma OtherClauses(s: Stable, s': Stable, h: History, n: Id, v: View, x: Id, w: View)
    requires Writes(s, s', n, v) && x != n && AcksOK(s, h, x, w) && GrantsOK(s, h, x, w)
    ensures AcksOK(s', h, x, w) && GrantsOK(s', h, x, w)
  {
    AcksGrow(s, s', h, n, v);
    assert forall t: nat, k: nat :: AckKnown(s', h, x, w, t, k) <==> AckKnown(s, h, x, w, t, k);
    assert forall y: Id, t: nat :: HasGranted(s', x, w, y, t) <==> HasGranted(s, x, w, y, t);
    forall t: nat, i: nat | Choosable(s', h, t, i) ensures Choosable(s, h, t, i) {
      ChoosableShrinks(s, s', h, n, v, t, i);
    }
    hide AckKnown, HasGranted, Choosable, Holds, AckSent, Writes;
  }

  /** The state that was written, once it is on disk. */
  lemma SelfPersists(s: Stable, s': Stable, h: History, n: Id, v: View)
    requires Writes(s, s', n, v) && NodeOK(s, h, n, v)
    ensures NodeOK(s', h, n, Restarted(Saved(v)))
  {
    AcksGrow(s, s', h, n, v);
    hide Matched, CommitOK, Holds, AckSent, Choosable, MsgOK, Own, Unblocked;
    SelfClauses(s, s', h, n, v, v, Restarted(Saved(v)));
  }

  /** After the write, w knows of no acknowledgement or vote that the node did not know of before. */
  lemma SelfClauses(s: Stable, s': Stable, h: History, n: Id, p: View, v: View, w: View)
    requires Writes(s, s', n, p) && AcksOK(s, h, n, v) && GrantsOK(s, h, n, v)
    requires p.out <= v.out && w.out <= v.out && w.term == v.term && w.vote == v.vote && w.log == v.log
    ensures AcksOK(s', h, n, w) && GrantsOK(s', h, n, w)
  {
    AcksGrow(s, s', h, n, p);
    assert forall t: nat, k: nat :: AckKnown(s', h, n, w, t, k) ==> AckKnown(s, h, n, v, t, k);
    assert forall y: Id, t: nat :: HasGranted(s', n, w, y, t) ==> HasGranted(s, n, v, y, t);
    forall t: nat, i: nat | Choosable(s', h, t, i) ensures Choosable(s, h, t, i) {
      ChoosableShrinks(s, s', h, n, p, t, i);
    }
    hide AckKnown, HasGranted, Choosable, Holds, AckSent, Writes;
  }

  /** The running node after its write under way is done. */
  lemma RunsOn(s: Stable, s': Stable, h: History, n: Id, v: View)
    requires Good(s, h, n, v) && Writes(s, s', n, Pending(s.writes[n]))
    ensures NodeOK(s', h, n, Flushed(v, s.writes[n])) && Ahead(s', n, Flushed(v, s.writes[n]))
  {
    hide GlobalOK, StateOK, LeaderOK, CandidateOK, OutOK, AcksOK, GrantsOK;
    var p := Pending(s.writes[n]);
    var v' := Flushed(v, s.writes[n]);
    SelfClauses(s, s', h, n, p, v, v');
    StateRunsOn(s, s', h, n, v);
    OutRunsOn(s, s', h, n, v);
    if v.role.Leader? { LeaderRunsOn(s, s', h, n, v); }
    if v.role.Candidate? { CandidateRunsOn(s, s', h, n, v); }
  }

  lemma StateRunsOn(s: Stable, s': Stable, h: History, n: Id, v: View)
    requires Ahead(s, n, v) && n in s.disks && StateOK(s, h, n, v) && Writes(s, s', n, Pending(s.writes[n]))
    ensures n in s'.disks && StateOK(s', h, n, Flushed(v, s.writes[n])) && Ahead(s', n, Flushed(v, s.writes[n]))
  {
    hide Matched, CommitOK;
  }

  lemma OutRunsOn(s: Stable, s': Stable, h: History, n: Id, v: View)
    requires Ahead(s, n, v) && NodeOK(s, h, n, v) && Writes(s, s', n, Pending(s.writes[n]))
    ensures n in s'.disks && forall m :: m in Flushed(v, s.writes[n]).out ==> OutOK(s', h, n, Flushed(v, s.writes[n]), m)
  {
    hide MsgOK, StateOK, AcksOK, GrantsOK, LeaderOK, CandidateOK;
    forall m | m in Flushed(v, s.writes[n]).out ensures OutOK(s', h, n, Flushed(v, s.writes[n]), m) {
      assert OutOK(s, h, n, v, m);
      MsgPersists(s, s', h, n, Pending(s.writes[n]), m);
    }
  }

  lemma LeaderRunsOn(s: Stable, s': Stable, h: History, n: Id, v: View)
    requires Ahead(s, n, v) && LeaderOK(s, h, n, v) && Writes(s, s', n, Pending(s.writes[n]))
    ensures LeaderOK(s', h, n, Flushed(v, s.writes[n]))
  {
    AcksGrow(s, s', h, n, Pending(s.writes[n]));
    hide AckSent, Unblocked;
  }

  lemma CandidateRunsOn(s: Stable, s': Stable, h: History, n: Id, v: View)
    requires Good(s, h, n, v) && v.role.Candidate? && Writes(s, s', n, Pending(s.writes[n]))
    ensures n in s'.disks && CandidateOK(s', h, n, Flushed(v, s.writes[n]))
  {
    hide StateOK, AcksOK, GrantsOK, MsgOK, GlobalOK;
    var p := s.writes[n];
    if Launched(s', n, v.term) {
      WriteFacts(s, h, n);
      if Launched(s, n, v.term) {
        LaunchedDurable(s, h, n, v.term);
      } else {
        var m :| m in p.out && m.from == n && (m.Vote? || (m.VoteResp? && !m.reject && m.to == n)) && m.term == v.term;
        assert OutOK(s, h, n, Pending(p), m);
      }
      assert p.disk.term == v.term && s'.disks[n].log == v.log;
    }
  }

  lemma ReignPersists(s: Stable, s': Stable, h: History, n: Id, v: View, t: nat)
    requires Writes(s, s', n, v) && t in h.reigns && ReignOK(s, h, t)
    ensures ReignOK(s', h, t)
  {
    hide Matched, Holds, Chosen, Elected, ReignSafe;
    ElectedPersists(s, s', n, v, h.reigns[t].leader, t);
    SafePersists(s, s', h, n, v, t);
  }

  lemma ElectedPersists(s: Stable, s': Stable, n: Id, v: View, x: Id, t: nat)
    requires Writes(s, s', n, v) && Elected(s, x, t)
    ensures Elected(s', x, t)
  {
    hide IsQuorum;
    var q :| IsQuorum(s.cfg, q) && AllGranted(s, q, x, t);
    assert AllGranted(s', q, x, t);
  }

  lemma SafePersists(s: Stable, s': Stable, h: History, n: Id, v: View, t: nat)
    requires Writes(s, s', n, v) && t in h.reigns && ReignSafe(s, h, t)
    ensures ReignSafe(s', h, t)
  {
    hide Chosen, Writes;
    var r := h.reigns[t];
    if r.commit != 0 {
      var t0: nat, j: nat :| t0 <= t && Own(h, t0, j) && r.commit <= j && Chosen(s, h, t0, j)
        && Holds(r.log, h.reigns[t0].log, r.commit);
      ChosenGrows(s, s', h, n, v, t0, j);
    }
  }

  lemma CompletePersists(s: Stable, s': Stable, h: History, n: Id, v: View)
    requires Writes(s, s', n, v) && Complete(s, h)
    ensures Complete(s', h)
  {
    hide Holds, Choosable, Own, Writes;
    forall t: nat, i: nat | Choosable(s', h, t, i) ensures Choosable(s, h, t, i) {
      ChoosableShrinks(s, s', h, n, v, t, i);
    }
  }

  lemma NetPersists(s: Stable, s': Stable, h: History, n: Id, v: View)
    requires GlobalOK(s, h) && NodeOK(s, h, n, v) && Writes(s, s', n, v)
    ensures forall m :: m in s'.net ==> NetOK(s', h, m)
  {
    hide MsgOK, ReignOK, MarkOK, BidOK, Complete, StateOK, AcksOK, GrantsOK, LeaderOK, CandidateOK;
    forall m | m in s'.net ensures NetOK(s', h, m) {
      if m in s.net { assert NetOK(s, h, m); } else { assert OutOK(s, h, n, v, m); }
      MsgPersists(s, s', h, n, v, m);
    }
  }

  lemma RestPersists(s: Stable, s': Stable, h: History, n: Id, v: View)
    requires GlobalOK(s, h) && NodeOK(s, h, n, v) && Writes(s, s', n, v)
    ensures forall x :: x in s'.disks ==> NodeOK(s', h, x, Restarted(s'.disks[x]))
    ensures forall x :: x in s'.writes ==> NodeOK(s', h, x, Pending(s'.writes[x]))
    ensures s'.writes.Keys == s'.disks.Keys
  {
    hide GlobalOK, NodeOK;
    Domains(s, h);
    SelfPersists(s, s', h, n, v);
    assert Pending(s'.writes[n]) == Restarted(s'.disks[n]);
    forall x | x in s'.disks && x != n ensures NodeOK(s', h, x, Restarted(s'.disks[x])) && NodeOK(s', h, x, Pending(s'.writes[x])) {
      RestartFacts(s, h, x);
      OtherPersists(s, s', h, n, v, x, Restarted(s.disks[x]));
      WriteFacts(s, h, x);
      OtherPersists(s, s', h, n, v, x, Pending(s.writes[x]));
    }
  }

  lemma Domains(s: Stable, h: History)
    requires GlobalOK(s, h)
    ensures s.writes.Keys == s.disks.Keys
  {
    hide NetOK, ReignOK, MarkOK, BidOK, Complete, NodeOK;
  }

  lemma MarksPersist(s: Stable, s': Stable, h: History, n: Id, v: View)
    requires GlobalOK(s, h) && NodeOK(s, h, n, v) && Writes(s, s', n, v)
    ensures forall rd :: rd in h.marks ==> MarkOK(s', h, rd)
  {
    hide GlobalOK, NodeOK, IsQuorum;
    TermOrder(s, h, n, v);
    forall rd | rd in h.marks ensures MarkOK(s', h, rd) { MarkFacts(s, h, rd); }
  }

  /** When the write under way at n is on disk and its messages have left, the whole cluster is still in
      order, n with whatever it did in the meantime included. */
  lemma Persist(s: Stable, h: History, n: Id, v: View)
    requires Good(s, h, n, v)
    ensures Good(Persisted(s, n, Pending(s.writes[n])), h, n, Flushed(v, s.writes[n]))
    ensures forall x, w :: x != n && NodeOK(s, h, x, w) ==> NodeOK(Persisted(s, n, Pending(s.writes[n])), h, x, w)
  {
    hide NetOK, ReignOK, MarkOK, BidOK, Complete, NodeOK, Writes, Ahead;
    TermOrder(s, h, n, v);
    WriteFacts(s, h, n);
    var p := Pending(s.writes[n]);
    var s' := Persisted(s, n, p);
    WritesFacts(s, s', h, n, p);
    NetPersists(s, s', h, n, p);
    forall t | t in h.reigns ensures ReignOK(s', h, t) { ReignPersists(s, s', h, n, p, t); }
    CompletePersists(s, s', h, n, p);
    RestPersists(s, s', h, n, p);
    MarksPersist(s, s', h, n, p);
    forall x, w | x != n && NodeOK(s, h, x, w) ensures NodeOK(s', h, x, w) {
      OtherPersists(s, s', h, n, p, x, w);
    }
    RunsOn(s, s', h, n, v);
  }

  /** Only the writes under way differ: what is in order stays so. */
  lemma SameStable(s: Stable, s': Stable, h: History, x: Id, w: View)
    requires s' == s.(writes := s'.writes) && NodeOK(s, h, x, w)
    ensures NodeOK(s', h, x, w)
  {
    hide Matched, CommitOK, Holds, Choosable, AcksOK, GrantsOK;
    assert forall y: Id, t: nat, k: nat :: AckSent(s', h, y, t, k) <==> AckSent(s, h, y, t, k);
    forall m | m in w.out ensures OutOK(s', h, x, w, m) { assert OutOK(s, h, x, w, m); }
    SameClauses(s, s', h, x, w);
  }

  lemma SameClauses(s: Stable, s': Stable, h: History, x: Id, w: View)
    requires s' == s.(writes := s'.writes) && AcksOK(s, h, x, w) && GrantsOK(s, h, x, w)
    ensures AcksOK(s', h, x, w) && GrantsOK(s', h, x, w)
  {
    assert forall t: nat, k: nat :: AckKnown(s', h, x, w, t, k) <==> AckKnown(s, h, x, w, t, k);
    assert forall y: Id, t: nat :: HasGranted(s', x, w, y, t) <==> HasGranted(s, x, w, y, t);
    forall t: nat, i: nat | Choosable(s', h, t, i) ensures Choosable(s, h, t, i) { SameChoosable(s', s, h, t, i); }
    hide AckKnown, HasGranted, Choosable, Holds;
  }

  lemma SameChoosable(s: Stable, s': Stable, h: History, t: nat, i: nat)
    requires s' == s.(writes := s'.writes) && Choosable(s, h, t, i)
    ensures Choosable(s', h, t, i)
  {
    hide IsQuorum;
    var q :| IsQuorum(s.cfg, q) && AllCanAck(s, h, q, t, i);
    assert AllCanAck(s', h, q, t, i);
  }

  /** A cluster in order, with another write under way at n that is in order. */
  lemma OtherWrite(s: Stable, h: History, n: Id, w: Write)
    requires GlobalOK(s, h) && n in s.disks && NodeOK(s, h, n, Pending(w))
    ensures GlobalOK(s.(writes := s.writes[n := w]), h)
  {
    hide NetOK, ReignOK, Complete, MarkOK, BidOK, NodeOK;
    var s' := s.(writes := s.writes[n := w]);
    SameNet(s, s', h);
    SameReigns(s, s', h);
    SameComplete(s, s', h);
    SameMarks(s, s', h);
    Domains(s, h);
    forall x | x in s.disks ensures NodeOK(s', h, x, Restarted(s.disks[x])) && NodeOK(s', h, x, Pending(s'.writes[x])) {
      RestartFacts(s, h, x);
      SameStable(s, s', h, x, Restarted(s.disks[x]));
      WriteFacts(s, h, x);
      SameStable(s, s', h, x, Pending(s'.writes[x]));
    }
  }

  lemma SameNet(s: Stable, s': Stable, h: History)
    requires GlobalOK(s, h) && s' == s.(writes := s'.writes)
    ensures forall m :: m in s.net ==> NetOK(s', h, m)
  {
    hide GlobalOK, MsgOK;
    forall m | m in s.net ensures NetOK(s', h, m) {
      NetFacts(s, h, m);
      SameMsg(s, s', h, m);
    }
  }

  lemma SameReigns(s: Stable, s': Stable, h: History)
    requires GlobalOK(s, h) && s' == s.(writes := s'.writes)
    ensures forall t :: t in h.reigns ==> ReignOK(s', h, t)
  {
    hide GlobalOK, Matched, Elected, ReignSafe;
    forall t | t in h.reigns ensures ReignOK(s', h, t) {
      ReignFacts(s, h, t);
      SameReignOK(s, s', h, t);
    }
  }

  lemma SameComplete(s: Stable, s': Stable, h: History)
    requires Complete(s, h) && s' == s.(writes := s'.writes)
    ensures Complete(s', h)
  {
    hide Choosable, Holds, Own;
    forall t: nat, i: nat | Choosable(s', h, t, i) ensures Choosable(s, h, t, i) { SameChoosable(s', s, h, t, i); }
  }

  lemma SameMarks(s: Stable, s': Stable, h: History)
    requires GlobalOK(s, h) && s' == s.(writes := s'.writes)
    ensures forall rd :: rd in h.marks ==> MarkOK(s', h, rd)
  {
    hide GlobalOK, IsQuorum;
    forall rd | rd in h.marks ensures MarkOK(s', h, rd) { MarkFacts(s, h, rd); }
  }

  lemma SameMsg(s: Stable, s': Stable, h: History, m: Message)
    requires s' == s.(writes := s'.writes) && MsgOK(s, h, m)
    ensures MsgOK(s', h, m)
  {
  }

  lemma SameReignOK(s: Stable, s': Stable, h: History, t: nat)
    requires s' == s.(writes := s'.writes) && t in h.reigns
    ensures Elected(s, h.reigns[t].leader, t) ==> Elected(s', h.reigns[t].leader, t)
    ensures ReignSafe(s, h, t) ==> ReignSafe(s', h, t)
  {
    hide IsQuorum, Holds;
    if Elected(s, h.reigns[t].leader, t) {
      var q :| IsQuorum(s.cfg, q) && AllGranted(s, q, h.reigns[t].leader, t);
      assert AllGranted(s', q, h.reigns[t].leader, t);
    }
    if ReignSafe(s, h, t) && h.reigns[t].commit != 0 {
      var r := h.reigns[t];
      var t0: nat, j: nat :| t0 <= t && Own(h, t0, j) && r.commit <= j && Chosen(s, h, t0, j)
        && Holds(r.log, h.reigns[t0].log, r.commit);
      var q :| IsQuorum(s.cfg, q) && AllAcked(s, h, q, t0, j);
      assert AllAcked(s', h, q, t0, j) && Chosen(s', h, t0, j);
    }
  }

  /** A Ready hands out the state as it is; the node is just at it. */
  lemma HandOut(s: Stable, h: History, n: Id, v: View)
    requires Good(s, h, n, v)
    ensures Good(HandedOut(s, n, v), h, n, v)
    ensures forall x, w :: NodeOK(s, h, x, w) ==> NodeOK(HandedOut(s, n, v), h, x, w)
  {
    hide GlobalOK, NodeOK;
    TermOrder(s, h, n, v);
    AsWritten(s, h, n, v);
    OtherWrite(s, h, n, Write(Saved(v), v.out));
    forall x, w | NodeOK(s, h, x, w) ensures NodeOK(HandedOut(s, n, v), h, x, w) {
      SameStable(s, HandedOut(s, n, v), h, x, w);
    }
  }

  /** What a node is, without its role, is fit to be written. */
  lemma AsWritten(s: Stable, h: History, n: Id, v: View)
    requires NodeOK(s, h, n, v)
    ensures NodeOK(s, h, n, Pending(Write(Saved(v), v.out)))
  {
    hide Matched, CommitOK, MsgOK, Choosable, Holds;
    var w := Pending(Write(Saved(v), v.out));
    SameAcks(s, h, n, v, w);
    forall m | m in w.out ensures OutOK(s, h, n, w, m) { assert OutOK(s, h, n, v, m); }
  }

  /** A crash takes a node back to its disk, and the write under way is lost. */
  lemma Crash(s: Stable, h: History, n: Id)
    requires GlobalOK(s, h) && n in s.disks
    ensures Good(s.(writes := s.writes[n := Write(s.disks[n], {})]), h, n, Restarted(s.disks[n]))
    ensures forall x, w :: NodeOK(s, h, x, w) ==> NodeOK(s.(writes := s.writes[n := Write(s.disks[n], {})]), h, x, w)
  {
    hide GlobalOK, NodeOK;
    var s' := s.(writes := s.writes[n := Write(s.disks[n], {})]);
    RestartFacts(s, h, n);
    OtherWrite(s, h, n, Write(s.disks[n], {}));
    forall x, w | NodeOK(s, h, x, w) ensures NodeOK(s', h, x, w) { SameStable(s, s', h, x, w); }
  }

  /** A cluster in which nothing has happened yet. */
  lemma Initially(s: Stable)
    requires s.cfg.incoming != {} && Voters(s.cfg) <= s.disks.Keys && NONE !in s.disks && s.net == {}
    requires forall n :: n in s.disks ==> s.disks[n] == Disk(0, NONE, [], 0)
    requires s.writes == map n | n in s.disks :: Write(s.disks[n], {})
    ensures GlobalOK(s, History(map[], map[], map[]))
  {
    var h := History(map[], map[], map[]);
    forall n | n in s.disks ensures NodeOK(s, h, n, Restarted(s.disks[n])) && Pending(s.writes[n]) == Restarted(s.disks[n]) {
      assert forall t: nat, k: nat :: !AckKnown(s, h, n, Restarted(s.disks[n]), t, k);
    }
  }
}
