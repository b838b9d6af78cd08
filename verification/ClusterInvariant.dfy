/** Every reachable cluster is in order. */
module ClusterInvariant {
  import opened Types
  import opened Messages
  import opened Node
  import opened NodeView
  import opened NodeStep
  import opened Protocol
  import opened ProtocolFrame
  import opened ProtocolSteps
  import PR = ProtocolReign
  import PD = ProtocolDurable
  import opened NodeCommit
  import opened Cluster

  function Disks(c: Cluster): map<Id, Disk> {
    map n | n in c.stored :: c.stored[n].disk
  }

  /** The write under way, or what is on disk if there is none. */
  function WriteOf(st: Stored): Write {
    if st.write.Some? then st.write.value else Write(st.disk, {})
  }

  function Writes(c: Cluster): map<Id, Write> {
    map n | n in c.stored :: WriteOf(c.stored[n])
  }

  function S(c: Cluster): Stable {
    Stable(c.voters, Disks(c), Writes(c), c.net)
  }

  /** What is snapshotted is durably committed, and a node agrees with its storage on compaction unless
      it took over a snapshot, which then lies past what is durably committed. */
  predicate StoredOK(nd: Node, st: Stored) {
    && st.compacted <= st.snapshot <= st.disk.commit <= WriteOf(st).disk.commit <= nd.committed
    && InstallOK(nd.restoring, st)
    && (nd.restoring == 0 ==> nd.compacted == st.compacted && nd.snapshot == st.snapshot)
  }

  /** A snapshot being written is still the node's, unless the node took over a later one since. */
  predicate InstallOK(restoring: nat, st: Stored) {
    && (st.write.None? ==> st.installing == 0) && st.installing <= WriteOf(st).disk.commit
    && (st.installing != 0 ==> restoring != 0)
    && (restoring != 0 ==> st.disk.commit < restoring)
    && (restoring != 0 && restoring != st.installing ==> WriteOf(st).disk.commit < restoring)
    && (st.installing != 0 ==> st.disk.commit < st.installing)
  }

  ghost predicate Settled(c: Cluster) {
    && c.nodes.Keys == c.stored.Keys
    && forall n :: n in c.nodes ==> OptionsOK(c.voters, n, c.nodes[n].opt) && StoredOK(c.nodes[n], c.stored[n])
  }

  ghost predicate AllGood(c: Cluster, h: History) {
    forall n :: n in c.nodes ==> NodeGood(S(c), h, c.nodes[n])
  }

  ghost predicate Inv(c: Cluster, h: History) {
    Settled(c) && GlobalOK(S(c), h) && AllGood(c, h)
  }

  // ---------------------------------------------------------------------------------------------
  // Starting
  // ---------------------------------------------------------------------------------------------

  lemma NewView(opt: Options, st: Stored)
    requires st.compacted <= st.disk.commit
    ensures V(NewNode(opt, st)) == Restarted(st.disk)
  {
    assert Out(NewNode(opt, st)) == {};
  }

  lemma NewSane(s: Stable, h: History, opt: Options, st: Stored)
    requires OptionsOK(s.cfg, opt.id, opt) && opt.id in s.disks && NONE !in s.disks
    requires st.compacted <= st.snapshot <= st.disk.commit <= |st.disk.log|
    ensures Sane(s, h, NewNode(opt, st))
  {
    var nd := NewNode(opt, st);
    assert Fits(s, nd) && LeadOK(h, nd) && Flowing(nd) && QueueOK(h, nd);
  }

  /** A node that starts over from its disk. */
  lemma NewGood(s: Stable, h: History, opt: Options, st: Stored)
    requires GlobalOK(s, h) && OptionsOK(s.cfg, opt.id, opt) && opt.id in s.disks && s.disks[opt.id] == st.disk
    requires opt.id in s.writes && s.writes[opt.id] == Write(st.disk, {}) && st.write.None? && st.installing == 0
    requires st.compacted <= st.snapshot <= st.disk.commit
    ensures NodeGood(s, h, NewNode(opt, st)) && StoredOK(NewNode(opt, st), st)
  {
    hide GlobalOK, NodeOK, Sane, V;
    RestartFacts(s, h, opt.id);
    NewView(opt, st);
    DiskBounds(s, h, opt.id);
    NewSane(s, h, opt, st);
  }

  lemma DiskBounds(s: Stable, h: History, n: Id)
    requires GlobalOK(s, h) && n in s.disks
    ensures s.disks[n].commit <= |s.disks[n].log| && NONE !in s.disks
  {
    hide AcksOK, GrantsOK, Matched, CommitOK, NetOK, ReignOK, Complete, MarkOK, BidOK;
    RestartFacts(s, h, n);
  }

  lemma Starts(c: Cluster) returns (h: History)
    requires Init(c)
    ensures Inv(c, h)
  {
    hide GlobalOK, NodeGood;
    h := History(map[], map[], map[]);
    assert Writes(c) == map n | n in Disks(c) :: Write(Disks(c)[n], {});
    PD.Initially(S(c));
    forall n | n in c.nodes ensures NodeGood(S(c), h, c.nodes[n]) && StoredOK(c.nodes[n], c.stored[n]) {
      NewGood(S(c), h, c.nodes[n].opt, c.stored[n]);
    }
  }

  // ---------------------------------------------------------------------------------------------
  // Moving
  // ---------------------------------------------------------------------------------------------

  /** A commit index for every node, none beyond what some leader has committed. */
  ghost predicate KnownCommits(c: Cluster, h: History, commits: map<Id, nat>) {
    commits.Keys == c.nodes.Keys && PR.AllSeen(h, commits)
  }

  lemma CommitsSeen(c: Cluster, h: History)
    requires Inv(c, h)
    ensures KnownCommits(c, h, Commits(c))
  {
    hide GlobalOK, NodeGood, Settled;
    forall n | n in c.nodes ensures PR.Seen(h, c.nodes[n].committed) { CommittedSeen(S(c), h, c.nodes[n]); }
  }

  lemma KnownDisks(c: Cluster, h: History, commits: map<Id, nat>)
    requires Inv(c, h) && KnownCommits(c, h, commits)
    ensures commits.Keys == S(c).disks.Keys && PR.AllSeen(h, commits)
  {
    hide GlobalOK, NodeGood, PR.AllSeen;
    Domains(c);
  }

  lemma Domains(c: Cluster)
    ensures Settled(c) ==> c.nodes.Keys == c.stored.Keys
  {
  }

  lemma CommittedSeen(s: Stable, h: History, nd: Node)
    requires NodeGood(s, h, nd)
    ensures PR.Seen(h, nd.committed)
  {
    hide GlobalOK, AcksOK, GrantsOK, LeaderOK, CandidateOK, Matched, Sane;
    if nd.committed != 0 {
      var t0: nat :| t0 in h.reigns && nd.committed <= h.reigns[t0].commit && Holds(nd.log, h.reigns[t0].log, nd.committed);
    }
  }

  /** Nodes that did not move stay in order while the history grows. */
  lemma OtherGood(s: Stable, h: History, h': History, n: Id, nd: Node)
    requires NodeGood(s, h, nd) && nd.opt.id != n && GlobalOK(s, h') && Later(s, h, h', n)
    ensures NodeGood(s, h', nd)
  {
    hide GlobalOK, NodeOK, Sane, V, Grows;
    OthersFacts(s, h, h', n, nd.opt.id, V(nd));
    SaneStays(s, h, h', nd);
  }

  lemma OthersFacts(s: Stable, h: History, h': History, n: Id, x: Id, w: View)
    requires Others(s, h, h', n) && x != n && NodeOK(s, h, x, w)
    ensures NodeOK(s, h', x, w)
  {
    hide NodeOK;
  }

  lemma DeliverGood(c: Cluster, h: History, n: Id, m: Message, recent: bool, commits: map<Id, nat>) returns (h': History)
    requires Inv(c, h) && Enabled(c, Deliver(n, m, recent)) && KnownCommits(c, h, commits)
    ensures Inv(Apply(c, Deliver(n, m, recent)), h') && Grows(h, h')
    ensures ReadsStep(h', c.nodes[n], Step(c.nodes[n], m, recent), commits)
    ensures AnswersStep(c.nodes[n], Step(c.nodes[n], m, recent))
  {
    hide GlobalOK, NodeGood, Step, Later, ReadsStep, AnswersStep, PR.AllSeen, Grows, StoredOK, OptionsOK, S;
    var c' := Apply(c, Deliver(n, m, recent));
    var nd := c.nodes[n];
    At(c, h, n);
    Ids(c);
    StepStable(c, n, m, recent);
    KnownDisks(c, h, commits);
    h' := StepGood(S(c), h, nd, m, recent, commits);
    LaterGrows(S(c), h, h', n);
    ClusterFacts(S(c), h', c'.nodes[n]);
    forall x | x in c'.nodes ensures NodeGood(S(c), h', c'.nodes[x]) {
      if x != n { OtherGood(S(c), h, h', n, c.nodes[x]); }
    }
    StepStored(c, n, c'.nodes[n]);
  }

  lemma StepStable(c: Cluster, n: Id, m: Message, recent: bool)
    requires Enabled(c, Deliver(n, m, recent))
    ensures S(Apply(c, Deliver(n, m, recent))) == S(c) && S(c).net == c.net
  {
    hide Step;
  }

  lemma LaterGrows(s: Stable, h: History, h': History, n: Id)
    requires Later(s, h, h', n)
    ensures Grows(h, h')
  {
  }

  /** Steps do not touch what the node shares with its storage. */
  lemma StepStored(c: Cluster, n: Id, nd': Node)
    requires Settled(c) && n in c.nodes
    requires nd'.opt == c.nodes[n].opt && nd'.committed >= c.nodes[n].committed
    requires SameBase(c.nodes[n], nd') || Installed(c.nodes[n], nd')
    ensures Settled(c.(nodes := c.nodes[n := nd']))
  {
  }

  lemma {:induction false} ExceptIn(ms: seq<Message>, sent: set<Message>, m: Message)
    ensures m in Except(ms, sent) <==> m in ms && m !in sent
  {
    if ms != [] {
      ExceptIn(ms[1..], sent, m);
      assert ms == [ms[0]] + ms[1..];
      assert Except(ms, sent) == (if ms[0] in sent then [] else [ms[0]]) + Except(ms[1..], sent);
      assert m in ms <==> m == ms[0] || m in ms[1..];
    }
  }

  lemma ExceptIs(ms: seq<Message>, sent: set<Message>)
    ensures (set m | m in Except(ms, sent)) == (set m | m in ms) - sent
  {
    forall m ensures m in Except(ms, sent) <==> m in ms && m !in sent { ExceptIn(ms, sent, m); }
  }

  lemma FlushView(nd: Node, w: Write)
    ensures V(Flush(nd, w.out)) == PD.Flushed(V(nd), w)
  {
    ExceptIs(nd.msgs, w.out);
    ExceptIs(nd.afterAppend, w.out);
    var nd' := Flush(nd, w.out);
    assert Out(nd') == Out(nd) - w.out;
    assert Matches(nd') == Matches(nd);
  }

  lemma FlushSane(s: Stable, s': Stable, h: History, nd: Node, sent: set<Message>)
    requires Sane(s, h, nd) && s'.cfg == s.cfg && s'.disks.Keys == s.disks.Keys
    ensures Sane(s', h, nd) && Sane(s', h, Flush(nd, sent)) && Sane(s', h, nd.(readStates := []))
  {
    var nd' := Flush(nd, sent);
    assert QueueOK(h, nd') && LeadOK(h, nd') && Fits(s', nd') && Flowing(nd');
    var nd2 := nd.(readStates := []);
    assert QueueOK(h, nd2) && LeadOK(h, nd2) && Fits(s', nd2) && Flowing(nd2);
    assert Fits(s', nd);
  }

  /** A node whose disk and write are as before is in order among the new ones if its view is. */
  lemma OthersPersist(s: Stable, s': Stable, h: History, n: Id, nd: Node)
    requires NodeGood(s, h, nd) && nd.opt.id != n && n in s.disks && GlobalOK(s', h)
    requires s'.cfg == s.cfg && s'.disks.Keys == s.disks.Keys && s'.writes == s.writes[n := s'.writes[n]]
    requires forall x, w :: x != n && NodeOK(s, h, x, w) ==> NodeOK(s', h, x, w)
    ensures NodeGood(s', h, nd)
  {
    hide GlobalOK, NodeOK, Sane, V;
    FlushSane(s, s', h, nd, {});
  }

  /** Nodes other than n stay in order. */
  ghost predicate OthersStay(s: Stable, s': Stable, h: History, n: Id) {
    forall nd: Node :: nd.opt.id != n && NodeGood(s, h, nd) ==> NodeGood(s', h, nd)
  }

  ghost predicate GoodAt(c: Cluster, h: History, n: Id) {
    n in c.nodes && NodeGood(S(c), h, c.nodes[n])
  }

  lemma PersistAll(s: Stable, h: History, nd: Node)
    requires NodeGood(s, h, nd) && nd.opt.id in s.writes
    ensures var w := s.writes[nd.opt.id];
            var s' := PD.Persisted(s, nd.opt.id, Pending(w));
            GlobalOK(s', h) && NodeGood(s', h, Flush(nd, w.out)) && OthersStay(s, s', h, nd.opt.id)
  {
    hide GlobalOK, NodeOK, Sane, V, Ahead;
    var n, v := nd.opt.id, V(nd);
    var w := s.writes[n];
    var s' := PD.Persisted(s, n, Pending(w));
    ClusterFacts(s, h, nd);
    PD.Persist(s, h, n, v);
    FlushView(nd, w);
    FlushSane(s, s', h, nd, w.out);
    forall nd2 | NodeGood(s, h, nd2) && nd2.opt.id != n ensures NodeGood(s', h, nd2) {
      AheadStays(s, s', h, n, nd2);
      OthersPersist(s, s', h, n, nd2);
    }
  }

  lemma AheadStays(s: Stable, s': Stable, h: History, n: Id, nd: Node)
    requires NodeGood(s, h, nd) && nd.opt.id != n && n in s'.writes && s'.writes == s.writes[n := s'.writes[n]]
    ensures Ahead(s', nd.opt.id, V(nd))
  {
    hide GlobalOK, NodeOK, Sane, V;
  }

  lemma HandOutAll(s: Stable, h: History, nd: Node)
    requires NodeGood(s, h, nd)
    ensures var s' := PD.HandedOut(s, nd.opt.id, V(nd));
            GlobalOK(s', h) && NodeGood(s', h, nd.(readStates := [])) && OthersStay(s, s', h, nd.opt.id)
  {
    hide GlobalOK, NodeOK, Sane, Ahead;
    var n, v, nd' := nd.opt.id, V(nd), nd.(readStates := []);
    var s' := PD.HandedOut(s, n, v);
    ClusterFacts(s, h, nd);
    PD.HandOut(s, h, n, v);
    assert Matches(nd') == Matches(nd) && Out(nd') == Out(nd) && V(nd') == v;
    FlushSane(s, s', h, nd, {});
    forall nd2 | NodeGood(s, h, nd2) && nd2.opt.id != n ensures NodeGood(s', h, nd2) {
      AheadStays(s, s', h, n, nd2);
      OthersPersist(s, s', h, n, nd2);
    }
  }

  lemma At(c: Cluster, h: History, n: Id)
    requires Inv(c, h) && n in c.nodes
    ensures n in c.stored && OptionsOK(c.voters, n, c.nodes[n].opt) && StoredOK(c.nodes[n], c.stored[n])
    ensures NodeGood(S(c), h, c.nodes[n]) && n in S(c).disks && GlobalOK(S(c), h) && Settled(c)
  {
    hide GlobalOK, NodeGood, OptionsOK, StoredOK;
  }

  /** Replacing one node and its storage keeps the cluster settled. */
  lemma Replaced(c: Cluster, n: Id, nd: Node, st: Stored, net: set<Message>)
    requires Settled(c) && n in c.nodes && OptionsOK(c.voters, n, nd.opt) && StoredOK(nd, st)
    ensures Settled(c.(nodes := c.nodes[n := nd], stored := c.stored[n := st], net := net))
  {
    hide OptionsOK, StoredOK;
  }

  /** The other nodes are in order, and so is the one that was replaced. */
  lemma AllReplaced(c: Cluster, c': Cluster, h: History, n: Id)
    requires forall x :: x in c.nodes ==> c.nodes[x].opt.id == x
    requires forall x :: x in c'.nodes && x != n ==> x in c.nodes && c'.nodes[x] == c.nodes[x]
    requires GoodAt(c', h, n) && AllGood(c, h) && OthersStay(S(c), S(c'), h, n)
    ensures AllGood(c', h)
  {
    hide NodeGood, S;
  }

  lemma Ids(c: Cluster)
    requires Settled(c)
    ensures forall x :: x in c.nodes ==> c.nodes[x].opt.id == x
  {
  }

  /** Storing a snapshot does not show in a node's view. */
  lemma SnapshotStoredGood(s: Stable, h: History, nd: Node, i: nat)
    requires NodeGood(s, h, nd)
    ensures NodeGood(s, h, SnapshotStored(nd, i))
  {
    hide Good;
    var nd' := SnapshotStored(nd, i);
    assert Matches(nd') == Matches(nd) && Out(nd') == Out(nd);
    assert V(nd') == V(nd);
    assert QueueOK(h, nd') && LeadOK(h, nd') && Fits(s, nd') && Flowing(nd');
  }

  /** A node that takes a snapshot over knows it as long as it is not stored. */
  lemma Restoring(s: Stable, h: History, nd: Node)
    requires NodeGood(s, h, nd)
    ensures nd.restoring != 0 ==> nd.compacted == nd.snapshot == nd.restoring <= nd.committed
  {
    hide Good;
  }

  lemma ReadyGood(c: Cluster, h: History, n: Id)
    requires Inv(c, h) && Enabled(c, Ready(n))
    ensures Inv(Apply(c, Ready(n)), h)
  {
    hide GlobalOK, NodeGood, PD.HandedOut, Settled, AllGood, S, Out, OptionsOK;
    var c' := Apply(c, Ready(n));
    var nd, st := c.nodes[n], c.stored[n];
    At(c, h, n);
    Ids(c);
    HandOutAll(S(c), h, nd);
    ReadyStable(c, n);
    var st' := st.(write := Some(Snapshotted(nd)), installing := nd.restoring);
    Restoring(S(c), h, nd);
    Replaced(c, n, nd.(readStates := []), st', c.net);
    assert c' == c.(nodes := c.nodes[n := nd.(readStates := [])], stored := c.stored[n := st'], net := c.net);
    AllReplaced(c, c', h, n);
  }

  lemma ReadyStable(c: Cluster, n: Id)
    requires Settled(c) && n in c.nodes && Enabled(c, Ready(n))
    ensures S(Apply(c, Ready(n))) == PD.HandedOut(S(c), n, V(c.nodes[n]))
  {
    hide Settled, Out;
    var nd := c.nodes[n];
    StoredDisk(c, n);
    StoredAs(c, Apply(c, Ready(n)), n, c.stored[n].(write := Some(Snapshotted(nd)), installing := nd.restoring));
    SnapshotView(nd);
    hide Disks, Writes, Snapshotted, V;
    assert Disks(c)[n := c.stored[n].disk] == Disks(c);
  }

  lemma SnapshotView(nd: Node)
    ensures Snapshotted(nd) == Write(PD.Saved(V(nd)), V(nd).out)
  {
  }

  lemma WrittenGood(c: Cluster, h: History, n: Id)
    requires Inv(c, h) && Enabled(c, Written(n))
    ensures Inv(Apply(c, Written(n)), h)
  {
    hide GlobalOK, NodeGood, PD.Persisted, Settled, AllGood, S, Out, OptionsOK, Flush;
    var c' := Apply(c, Written(n));
    var nd, st := c.nodes[n], c.stored[n];
    var w := st.write.value;
    At(c, h, n);
    Ids(c);
    WrittenStable(c, n);
    PersistAll(S(c), h, nd);
    FlushCore(nd, w.out);
    Restoring(S(c), h, nd);
    var nd' := SnapshotStored(Flush(nd, w.out), st.installing);
    SnapshotStoredGood(S(c'), h, Flush(nd, w.out), st.installing);
    Replaced(c, n, nd', Rewritten(st), c.net + w.out);
    assert c' == c.(nodes := c.nodes[n := nd'], stored := c.stored[n := Rewritten(st)], net := c.net + w.out);
    AllReplaced(c, c', h, n);
  }

  /** Finishing a write does to the node what the append thread's answer does when it is stepped. */
  lemma WrittenIsStep(c: Cluster, h: History, n: Id, answer: Message, recent: bool)
    requires Inv(c, h) && Enabled(c, Written(n)) && answer.StorageAppendResp?
    requires answer.term == c.stored[n].write.value.disk.term && answer.snapshot == c.stored[n].installing
    ensures Apply(c, Written(n)).nodes[n] == Step(Flush(c.nodes[n], c.stored[n].write.value.out), answer, recent)
  {
    hide Settled, AllGood, Step, Flush;
    At(c, h, n);
    WrittenTerm(S(c), h, c.nodes[n]);
    StoredDisk(c, n);
    FlushCore(c.nodes[n], c.stored[n].write.value.out);
    StorageAnswer(Flush(c.nodes[n], c.stored[n].write.value.out), answer, recent);
  }

  lemma WrittenTerm(s: Stable, h: History, nd: Node)
    requires NodeGood(s, h, nd)
    ensures nd.opt.id in s.writes && s.writes[nd.opt.id].disk.term <= nd.term
  {
    hide GlobalOK, NodeOK, Sane;
  }

  /** A snapshot a node took over stays with it until it is stored, a later one takes its place, or the
      node crashes. */
  ghost predicate SnapshotKept(c: Cluster, e: Event, n: Id)
    requires Enabled(c, e) && n in c.nodes && n in Apply(c, e).nodes
  {
    var r, r' := c.nodes[n].restoring, Apply(c, e).nodes[n].restoring;
    r == 0 || r' == r || c.nodes[n].committed < r' || e == Crash(n) || (e == Written(n) && c.stored[n].installing == r && r' == 0)
  }

  lemma KeepsSnapshot(c: Cluster, h: History, e: Event, n: Id, commits: map<Id, nat>)
    requires Inv(c, h) && Enabled(c, e) && KnownCommits(c, h, commits) && n in c.nodes
    ensures n in Apply(c, e).nodes && SnapshotKept(c, e, n)
  {
    hide GlobalOK, NodeGood, Settled, Step, NewNode, Flush, Later, ReadsStep, AnswersStep, PR.AllSeen;
    At(c, h, e.n);
    KnownDisks(c, h, commits);
    if e.Deliver? {
      var h' := StepGood(S(c), h, c.nodes[e.n], e.m, e.recent, commits);
    }
    if e.Written? { FlushCore(c.nodes[e.n], c.stored[e.n].write.value.out); }
  }

  lemma FlushCore(nd: Node, sent: set<Message>)
    ensures Flush(nd, sent) == nd.(msgs := Flush(nd, sent).msgs, afterAppend := Flush(nd, sent).afterAppend)
  {
  }

  lemma WrittenStable(c: Cluster, n: Id)
    requires Settled(c) && n in c.nodes && Enabled(c, Written(n))
    ensures n in S(c).writes && S(c).writes[n] == c.stored[n].write.value
    ensures S(Apply(c, Written(n))) == PD.Persisted(S(c), n, Pending(S(c).writes[n]))
  {
    hide Flush, SnapshotStored, Settled;
    var w := c.stored[n].write.value;
    StoredDisk(c, n);
    StoredAs(c, Apply(c, Written(n)), n, Rewritten(c.stored[n]));
    hide Disks, Writes;
  }

  lemma CrashGood(c: Cluster, h: History, n: Id)
    requires Inv(c, h) && Enabled(c, Crash(n))
    ensures Inv(Apply(c, Crash(n)), h)
  {
    hide GlobalOK, NodeGood, NewNode, Settled, AllGood, OptionsOK, S;
    var c' := Apply(c, Crash(n));
    var st' := c.stored[n].(write := None, installing := 0);
    var nd := NewNode(c.nodes[n].opt, st');
    At(c, h, n);
    Ids(c);
    StoredDisk(c, n);
    CrashStable(c, n);
    CrashAll(S(c), S(c'), h, n);
    NewSameNode(c.nodes[n].opt, c.stored[n]);
    NewGood(S(c'), h, c.nodes[n].opt, st');
    NewOptions(c.nodes[n].opt, st');
    Replaced(c, n, nd, st', c.net);
    assert c' == c.(nodes := c.nodes[n := nd], stored := c.stored[n := st'], net := c.net);
    AllReplaced(c, c', h, n);
  }

  lemma NewSameNode(opt: Options, st: Stored)
    ensures NewNode(opt, st.(write := None, installing := 0)) == NewNode(opt, st)
  {
  }

  lemma StoredAs(c: Cluster, c': Cluster, n: Id, st: Stored)
    requires n in c.stored && c'.stored == c.stored[n := st]
    ensures Disks(c') == Disks(c)[n := st.disk] && Writes(c') == Writes(c)[n := WriteOf(st)]
  {
  }

  lemma CrashStable(c: Cluster, n: Id)
    requires Settled(c) && n in c.nodes && Enabled(c, Crash(n))
    ensures n in S(c).disks && S(Apply(c, Crash(n))) == S(c).(writes := S(c).writes[n := Write(S(c).disks[n], {})])
    ensures S(c).disks[n] == c.stored[n].disk && S(c).cfg == c.voters
  {
    hide NewNode, Settled;
    StoredDisk(c, n);
    StoredAs(c, Apply(c, Crash(n)), n, c.stored[n].(write := None, installing := 0));
    hide Disks, Writes;
    assert Disks(c)[n := c.stored[n].disk] == Disks(c);
  }

  lemma CrashAll(s: Stable, s': Stable, h: History, n: Id)
    requires GlobalOK(s, h) && n in s.disks && s' == s.(writes := s.writes[n := Write(s.disks[n], {})])
    ensures GlobalOK(s', h) && OthersStay(s, s', h, n)
  {
    hide GlobalOK, NodeOK, Sane, V, Ahead;
    PD.Crash(s, h, n);
    forall nd | NodeGood(s, h, nd) && nd.opt.id != n ensures NodeGood(s', h, nd) {
      AheadStays(s, s', h, n, nd);
      OthersPersist(s, s', h, n, nd);
    }
  }

  lemma StoredDisk(c: Cluster, n: Id)
    requires n in c.stored
    ensures n in S(c).disks && S(c).disks[n] == c.stored[n].disk && S(c).cfg == c.voters
    ensures n in S(c).writes && S(c).writes[n] == WriteOf(c.stored[n])
  {
  }

  lemma SameStable(c: Cluster, c': Cluster, n: Id)
    requires n in c.stored && c'.voters == c.voters && c'.net == c.net && c'.stored.Keys == c.stored.Keys
    requires forall x :: x in c.stored ==> c'.stored[x].disk == c.stored[x].disk && c'.stored[x].write == c.stored[x].write
    ensures S(c') == S(c)
  {
    assert Disks(c') == Disks(c) && Writes(c') == Writes(c);
  }

  lemma NewOptions(opt: Options, st: Stored)
    ensures NewNode(opt, st).opt == opt
  {
  }

  /** Compacting and snapshotting leave a node's view alone. */
  lemma HousekeepingGood(s: Stable, h: History, nd: Node, compacted: nat, snapshot: nat)
    requires NodeGood(s, h, nd) && compacted <= snapshot <= nd.committed
    requires nd.restoring == 0 || (compacted == nd.compacted && snapshot == nd.snapshot)
    ensures NodeGood(s, h, nd.(compacted := compacted, snapshot := snapshot))
  {
    hide Good;
    var nd' := nd.(compacted := compacted, snapshot := snapshot);
    assert Matches(nd') == Matches(nd) && Out(nd') == Out(nd);
    assert V(nd') == V(nd);
    assert QueueOK(h, nd') && LeadOK(h, nd') && Fits(s, nd') && Flowing(nd');
  }

  lemma LocalGood(c: Cluster, h: History, e: Event)
    requires Inv(c, h) && Enabled(c, e) && (e.TakeSnapshot? || e.Compact?)
    ensures Inv(Apply(c, e), h)
  {
    hide GlobalOK, NodeGood, Settled, AllGood, OptionsOK, S, Apply, StoredOK;
    var c', n := Apply(c, e), e.n;
    At(c, h, n);
    Ids(c);
    Restoring(S(c), h, c.nodes[n]);
    LocalShape(c, e);
    var nd', st' := c'.nodes[n], c'.stored[n];
    SameStable(c, c', n);
    HousekeepingGood(S(c), h, c.nodes[n], nd'.compacted, nd'.snapshot);
    Replaced(c, n, nd', st', c.net);
    AllReplaced(c, c', h, n);
  }

  /** Housekeeping moves no more than compaction and snapshot of one node, within bounds. */
  lemma LocalShape(c: Cluster, e: Event)
    requires Enabled(c, e) && (e.TakeSnapshot? || e.Compact?) && StoredOK(c.nodes[e.n], c.stored[e.n])
    requires c.nodes[e.n].restoring != 0 ==> c.nodes[e.n].compacted == c.nodes[e.n].snapshot == c.nodes[e.n].restoring <= c.nodes[e.n].committed
    ensures var c', nd := Apply(c, e), c.nodes[e.n];
            e.n in c'.nodes && e.n in c'.stored
            && c' == c.(nodes := c.nodes[e.n := c'.nodes[e.n]], stored := c.stored[e.n := c'.stored[e.n]], net := c.net)
            && var nd', st' := c'.nodes[e.n], c'.stored[e.n];
               nd' == nd.(compacted := nd'.compacted, snapshot := nd'.snapshot)
               && (nd.restoring == 0 || nd' == nd)
               && st'.disk == c.stored[e.n].disk && st'.write == c.stored[e.n].write
               && StoredOK(nd', st') && nd'.compacted <= nd'.snapshot <= nd'.committed
  {
    hide Step, NewNode, Flush, Snapshotted;
  }

  /** Whatever happens keeps the cluster in order. */
  lemma ApplyGood(c: Cluster, h: History, e: Event, commits: map<Id, nat>) returns (h': History)
    requires Inv(c, h) && Enabled(c, e) && KnownCommits(c, h, commits)
    ensures Inv(Apply(c, e), h') && Grows(h, h')
    ensures e.Deliver? ==> ReadsStep(h', c.nodes[e.n], Apply(c, e).nodes[e.n], commits)
                           && AnswersStep(c.nodes[e.n], Apply(c, e).nodes[e.n])
  {
    hide Inv, Grows, ReadsStep, AnswersStep, Step, NewNode;
    GrowsSelf(h);
    h' := h;
    match e
    case Deliver(n, m, recent) => h' := DeliverGood(c, h, n, m, recent, commits);
    case Ready(n) => ReadyGood(c, h, n);
    case Written(n) => WrittenGood(c, h, n);
    case Crash(n) => CrashGood(c, h, n);
    case TakeSnapshot(_, _) => LocalGood(c, h, e);
    case Compact(_, _) => LocalGood(c, h, e);
  }

  lemma GrowsSelf(h: History)
    ensures Grows(h, h)
  {
  }

  // ---------------------------------------------------------------------------------------------
  // What the history remembers of past clusters
  // ---------------------------------------------------------------------------------------------

  /** A leader's log is in the history, past what it was elected with. */
  ghost predicate Ruled(h: History, nd: Node) {
    nd.state.StateLeader? ==>
      nd.term in h.reigns && h.reigns[nd.term].leader == nd.opt.id
      && h.reigns[nd.term].base <= |nd.log| && Holds(nd.log, h.reigns[nd.term].log, |nd.log|)
  }

  ghost predicate Remembered(h: History, nd: Node) {
    Matched(h, nd.log) && CommitOK(h, nd.log, nd.committed, nd.term) && nd.committed <= |nd.log| && Ruled(h, nd)
  }

  ghost predicate Recorded(h: History, c: Cluster) {
    forall n :: n in c.nodes ==> c.nodes[n].opt.id == n && !c.nodes[n].panicked && Remembered(h, c.nodes[n])
  }

  lemma RememberedNow(s: Stable, h: History, nd: Node)
    requires NodeGood(s, h, nd)
    ensures Remembered(h, nd) && !nd.panicked
  {
    hide GlobalOK, AcksOK, GrantsOK, CandidateOK, Matched, CommitOK, LeaderOK;
    if nd.state.StateLeader? {
      Leads(s, h, nd);
      LeaderReign(s, h, nd.opt.id, V(nd));
      ReignBase(s, h, nd.term);
    }
  }

  lemma ReignBase(s: Stable, h: History, t: nat)
    requires GlobalOK(s, h) && t in h.reigns
    ensures h.reigns[t].base < |h.reigns[t].log|
  {
    hide Matched, Elected, ReignSafe, NetOK, NodeOK, MarkOK, BidOK, Complete;
    ReignFacts(s, h, t);
  }

  lemma RecordedNow(c: Cluster, h: History)
    requires Inv(c, h)
    ensures Recorded(h, c)
  {
    hide GlobalOK, NodeGood, Remembered;
    forall n | n in c.nodes ensures Remembered(h, c.nodes[n]) && !c.nodes[n].panicked {
      RememberedNow(S(c), h, c.nodes[n]);
    }
  }

  lemma RememberedLater(h: History, h': History, nd: Node)
    requires Remembered(h, nd) && Grows(h, h')
    ensures Remembered(h', nd)
  {
    hide Matched, CommitOK;
    MatchedStays(h, h', nd.log);
    CommitStays(h, h', nd.log, nd.committed, nd.term);
  }

  lemma RecordedLater(h: History, h': History, c: Cluster)
    requires Recorded(h, c) && Grows(h, h')
    ensures Recorded(h', c)
  {
    hide Remembered, Grows;
    forall n | n in c.nodes ensures Remembered(h', c.nodes[n]) { RememberedLater(h, h', c.nodes[n]); }
  }
}
