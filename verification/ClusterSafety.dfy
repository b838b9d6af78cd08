/** What Raft promises, over every run: no panic, one leader a term, matching logs, agreement on
    committed entries, complete leaders and linearizable reads. */
module ClusterSafety {
  import opened Types
  import opened Messages
  import opened PeerProgress
  import opened Node
  import opened NodeView
  import opened NodeReads
  import opened NodeFollower
  import opened NodeStep
  import opened Protocol
  import opened ProtocolFrame
  import opened ProtocolSteps
  import PL = ProtocolLeader
  import PR = ProtocolReign
  import opened ProtocolSafety
  import opened Cluster
  import opened ClusterInvariant

  /** The highest commit index each node ever had in a run, before crashes included. */
  function Peaks(run: seq<Cluster>): map<Id, nat> {
    if run == [] then map[] else Raised(Peaks(run[..|run| - 1]), Commits(run[|run| - 1]))
  }

  function Raised(a: map<Id, nat>, b: map<Id, nat>): map<Id, nat> {
    map x | x in b :: if x in a then Max(a[x], b[x]) else b[x]
  }

  /** Each of the indexes in b is reached in a. */
  predicate Reaches(a: map<Id, nat>, b: map<Id, nat>) {
    forall x :: x in b ==> x in a && b[x] <= a[x]
  }

  /** What linearizability needs to know about two successive clusters, when the nodes had these commit
      indexes before. */
  ghost predicate Linked(h: History, peaks: map<Id, nat>, c: Cluster, c': Cluster) {
    c'.nodes.Keys == c.nodes.Keys
    && forall n :: n in c.nodes ==> LinkedAt(h, peaks, c, c', n)
  }

  ghost predicate LinkedAt(h: History, peaks: map<Id, nat>, c: Cluster, c': Cluster, n: Id)
    requires n in c.nodes && n in c'.nodes
  {
    ReadsStep(h, c.nodes[n], c'.nodes[n], peaks)
    && (Queues(c.nodes[n], c'.nodes[n]) ==> Reaches(After(peaks, c'.nodes[n]), Commits(c')))
    && Reaches(After(peaks, c'.nodes[n]), peaks)
  }

  /** The node queued reads in this step. */
  predicate Queues(nd: Node, nd': Node) {
    nd'.state.StateLeader? && Total(nd') > if StillLeads(nd, nd') then Total(nd) else 0
  }

  ghost predicate AllRecorded(run: seq<Cluster>, h: History) {
    forall i :: 0 <= i < |run| ==> Recorded(h, run[i])
  }

  ghost predicate AllLinked(run: seq<Cluster>, h: History) {
    forall i :: 0 < i < |run| ==> Linked(h, Peaks(run[..i]), run[i - 1], run[i])
  }

  ghost predicate RunOK(run: seq<Cluster>, h: History) {
    && |run| > 0 && Inv(run[|run| - 1], h)
    && AllRecorded(run, h) && AllLinked(run, h)
    && KnownCommits(run[|run| - 1], h, Peaks(run))
  }

  // ---------------------------------------------------------------------------------------------
  // One event
  // ---------------------------------------------------------------------------------------------

  lemma Link(c: Cluster, h': History, e: Event, peaks: map<Id, nat>)
    requires Enabled(c, e) && Settled(c) && Settled(Apply(c, e)) && Reaches(peaks, Commits(c))
    requires e.Deliver? ==> ReadsStep(h', c.nodes[e.n], Apply(c, e).nodes[e.n], peaks)
    ensures Linked(h', peaks, c, Apply(c, e))
  {
    hide Step, NewNode, ReadsStep, OptionsOK, StoredOK, Flush;
    var c' := Apply(c, e);
    assert c'.nodes.Keys == c.nodes.Keys;
    forall n | n in c.nodes ensures LinkedAt(h', peaks, c, c', n) {
      if e.Deliver? && n == e.n {
        Moved(c, e, peaks);
      } else {
        LinkQuiet(c, h', e, n, peaks);
      }
    }
  }

  lemma Moved(c: Cluster, e: Event, peaks: map<Id, nat>)
    requires Enabled(c, e) && e.Deliver? && Settled(Apply(c, e)) && Reaches(peaks, Commits(c))
    ensures Reaches(After(peaks, Apply(c, e).nodes[e.n]), Commits(Apply(c, e)))
    ensures Reaches(After(peaks, Apply(c, e).nodes[e.n]), peaks)
  {
    hide Step, Settled;
    var c' := Apply(c, e);
    assert c'.nodes[e.n].opt.id == e.n by { SettledId(c', e.n); }
    assert Commits(c') == Commits(c)[e.n := c'.nodes[e.n].committed];
    AfterReaches(peaks, Commits(c), c'.nodes[e.n]);
  }

  lemma SettledId(c: Cluster, n: Id)
    requires Settled(c) && n in c.nodes
    ensures c.nodes[n].opt.id == n
  {
  }

  lemma AfterReaches(peaks: map<Id, nat>, commits: map<Id, nat>, nd: Node)
    requires Reaches(peaks, commits)
    ensures Reaches(After(peaks, nd), commits[nd.opt.id := nd.committed]) && Reaches(After(peaks, nd), peaks)
  {
  }

  lemma LinkQuiet(c: Cluster, h': History, e: Event, n: Id, peaks: map<Id, nat>)
    requires Enabled(c, e) && n in c.nodes && !(e.Deliver? && n == e.n)
    ensures n in Apply(c, e).nodes && LinkedAt(h', peaks, c, Apply(c, e), n)
  {
    hide Step, ReadsStep, Flush;
    if e.Written? && n == e.n { FlushCore(c.nodes[n], c.stored[n].write.value.out); }
    SameQueue(h', c.nodes[n], Apply(c, e).nodes[n], peaks);
  }

  lemma LinkedLater(h: History, h': History, peaks: map<Id, nat>, c: Cluster, c': Cluster)
    requires Linked(h, peaks, c, c') && Grows(h, h')
    ensures Linked(h', peaks, c, c')
  {
    hide Grows;
    forall n | n in c.nodes ensures LinkedAt(h', peaks, c, c', n) {
      ReadsLater(h, h', c.nodes[n], c'.nodes[n], peaks);
    }
  }

  lemma ReadsLater(h: History, h': History, nd: Node, nd': Node, commits: map<Id, nat>)
    requires ReadsStep(h, nd, nd', commits) && Grows(h, h')
    ensures ReadsStep(h', nd, nd', commits)
  {
    hide Grows, PR.Fresh, WasMarked;
    if nd'.state.StateLeader? {
      MarkedStays(h, h', nd'.term, if StillLeads(nd, nd') then Total(nd) else 0, Total(nd'), After(commits, nd'));
    }
    FreshLater(h, h');
    assert AllFresh(h, nd, nd'.confirmed) ==> AllFresh(h', nd, nd'.confirmed);
  }

  lemma FreshLater(h: History, h': History)
    requires Grows(h, h')
    ensures forall rd, i :: PR.Fresh(h, rd, i) ==> PR.Fresh(h', rd, i)
  {
  }

  lemma PeaksNext(run: seq<Cluster>, n: nat)
    requires n + 1 == |run|
    ensures Peaks(run) == Raised(Peaks(run[..n]), Commits(run[n]))
  {
  }

  lemma RaisedReaches(a: map<Id, nat>, b: map<Id, nat>)
    ensures Reaches(Raised(a, b), b)
    ensures a.Keys <= b.Keys ==> Reaches(Raised(a, b), a)
  {
  }

  lemma PeaksKeys(run: seq<Cluster>)
    requires run != []
    ensures Peaks(run).Keys == run[|run| - 1].nodes.Keys
  {
  }

  /** Peaks cover every moment of the run. */
  lemma {:induction false} PeaksReach(run: seq<Cluster>, i: nat)
    requires i < |run| && SameNodes(run)
    ensures Reaches(Peaks(run), Commits(run[i]))
    decreases |run|
  {
    hide Peaks, Reaches, Raised;
    var n := |run| - 1;
    PeaksNext(run, n);
    RaisedReaches(Peaks(run[..n]), Commits(run[n]));
    if i < n {
      var before := run[..n];
      assert SameNodes(before) && before[i] == run[i] && before[n - 1] == run[n - 1];
      PeaksReach(before, i);
      PeaksKeys(before);
      Covers(Peaks(run), Peaks(before), Commits(run[i]));
    }
  }

  lemma RaisedKnown(c: Cluster, c': Cluster, h: History, h': History, peaks: map<Id, nat>)
    requires KnownCommits(c, h, peaks) && Grows(h, h') && Inv(c', h') && c'.nodes.Keys == c.nodes.Keys
    ensures KnownCommits(c', h', Raised(peaks, Commits(c')))
  {
    hide Inv, Grows, PR.Seen;
    CommitsSeen(c', h');
    SeenLater(h, h');
  }

  lemma SeenLater(h: History, h': History)
    requires Grows(h, h')
    ensures forall k: nat :: PR.Seen(h, k) ==> PR.Seen(h', k)
  {
  }

  lemma RecordedOn(run: seq<Cluster>, n: nat, h: History, h': History)
    requires n + 1 == |run| && AllRecorded(run[..n], h) && Grows(h, h') && Recorded(h', run[n])
    ensures AllRecorded(run, h')
  {
    hide Recorded, Grows;
    forall i | 0 <= i < |run| ensures Recorded(h', run[i]) {
      if i < n {
        assert run[..n][i] == run[i];
        RecordedLater(h, h', run[i]);
      }
    }
  }

  lemma LinkedOn(run: seq<Cluster>, n: nat, h: History, h': History)
    requires n + 1 == |run| && AllLinked(run[..n], h) && Grows(h, h')
    requires n > 0 ==> Linked(h', Peaks(run[..n]), run[n - 1], run[n])
    ensures AllLinked(run, h')
  {
    hide Linked, Grows, Peaks;
    var before := run[..n];
    forall i | 0 < i < |run| ensures Linked(h', Peaks(run[..i]), run[i - 1], run[i]) {
      if i < n {
        assert before[i] == run[i] && before[i - 1] == run[i - 1] && before[..i] == run[..i];
        assert Linked(h, Peaks(before[..i]), before[i - 1], before[i]);
        LinkedLater(h, h', Peaks(run[..i]), run[i - 1], run[i]);
      }
    }
  }

  lemma SameOn(run: seq<Cluster>, n: nat)
    requires 0 < n && n + 1 == |run| && SameNodes(run[..n]) && run[n].nodes.Keys == run[n - 1].nodes.Keys
    ensures SameNodes(run)
  {
    var before := run[..n];
    forall i | 0 <= i < |run| ensures run[i].nodes.Keys == run[0].nodes.Keys {
      if i < n { assert before[i] == run[i]; }
      assert before[n - 1] == run[n - 1] && before[0] == run[0];
    }
  }

  /** Every run is in order, with one history for all of it. */
  lemma {:induction false} RunGood(run: seq<Cluster>) returns (h: History)
    requires IsRun(run)
    ensures RunOK(run, h) && SameNodes(run)
    decreases |run|
  {
    hide Inv, Init, Recorded, LinkedAt, Grows, Peaks, KnownCommits, Raised, AllRecorded, AllLinked, SameNodes, Reaches;
    var n := |run| - 1;
    if n == 0 {
      h := Starts(run[0]);
      RecordedNow(run[0], h);
      FirstPeaks(run, h);
      FirstMoment(run, h);
    } else {
      assert Next(run[n - 1], run[n]);
      var before := run[..n];
      assert before[n - 1] == run[n - 1];
      var h0 := RunGood(before);
      PeaksReach(before, n - 1);
      h := NextGood(run[n - 1], run[n], h0, Peaks(before));
      RecordedNow(run[n], h);
      PeaksNext(run, n);
      RaisedKnown(run[n - 1], run[n], h0, h, Peaks(before));
      RecordedOn(run, n, h0, h);
      LinkedOn(run, n, h0, h);
      SameOn(run, n);
    }
  }

  lemma FirstMoment(run: seq<Cluster>, h: History)
    requires |run| == 1 && Recorded(h, run[0])
    ensures AllRecorded(run, h) && AllLinked(run, h) && SameNodes(run)
  {
    hide Recorded;
  }

  predicate SameNodes(run: seq<Cluster>) {
    forall i :: 0 <= i < |run| ==> run[i].nodes.Keys == run[0].nodes.Keys
  }

  lemma FirstPeaks(run: seq<Cluster>, h: History)
    requires |run| == 1 && Inv(run[0], h)
    ensures KnownCommits(run[0], h, Peaks(run))
  {
    hide Inv;
    CommitsSeen(run[0], h);
    assert run[..0] == [];
    assert Peaks(run) == Commits(run[0]);
  }

  lemma NextGood(c: Cluster, c': Cluster, h: History, peaks: map<Id, nat>) returns (h': History)
    requires Inv(c, h) && Next(c, c') && KnownCommits(c, h, peaks) && Reaches(peaks, Commits(c))
    ensures Inv(c', h') && Grows(h, h') && Linked(h', peaks, c, c')
  {
    hide GlobalOK, AllGood, Grows, Settled, Linked, ReadsStep, KnownCommits, Reaches;
    var e :| Enabled(c, e) && c' == Apply(c, e);
    h' := ApplyGood(c, h, e, peaks);
    Link(c, h', e, peaks);
  }

  // ---------------------------------------------------------------------------------------------
  // The theorems
  // ---------------------------------------------------------------------------------------------

  /** The node n of the i-th cluster of a run. */
  predicate Has(run: seq<Cluster>, i: nat, n: Id) {
    i < |run| && n in run[i].nodes
  }

  lemma FactsAt(run: seq<Cluster>, h: History, i: nat, n: Id)
    requires RunOK(run, h) && Has(run, i, n)
    ensures run[i].nodes[n].opt.id == n && !run[i].nodes[n].panicked && Remembered(h, run[i].nodes[n])
    ensures GlobalOK(S(run[|run| - 1]), h)
  {
    hide GlobalOK, Remembered, Linked;
    assert Recorded(h, run[i]);
  }

  /** No panic fires in any run: no append conflicts with a committed entry, no commit index leaves
      the log, nothing is added to a full window, no confirmed read is missing from the queue. */
  lemma NoPanicEver(run: seq<Cluster>, i: nat, n: Id)
    requires IsRun(run) && Has(run, i, n)
    ensures !run[i].nodes[n].panicked
  {
    hide RunOK;
    var h := RunGood(run);
    FactsAt(run, h, i, n);
  }

  /** Election safety: one leader a term, whenever its leadership is observed. */
  lemma ElectionSafety(run: seq<Cluster>, i: nat, a: Id, j: nat, b: Id)
    requires IsRun(run) && Has(run, i, a) && Has(run, j, b)
    requires run[i].nodes[a].state.StateLeader? && run[j].nodes[b].state.StateLeader?
    requires run[i].nodes[a].term == run[j].nodes[b].term
    ensures a == b
  {
    hide RunOK, GlobalOK;
    var h := RunGood(run);
    FactsAt(run, h, i, a);
    FactsAt(run, h, j, b);
  }

  /** Log matching: logs with the same term at a position are the same up to it, at any two moments
      of a run. */
  lemma LogMatching(run: seq<Cluster>, i: nat, a: Id, j: nat, b: Id, k: nat)
    requires IsRun(run) && Has(run, i, a) && Has(run, j, b)
    requires k <= |run[i].nodes[a].log| && k <= |run[j].nodes[b].log|
    requires TermAt(run[i].nodes[a].log, k) == TermAt(run[j].nodes[b].log, k)
    ensures run[i].nodes[a].log[..k] == run[j].nodes[b].log[..k]
  {
    hide RunOK, GlobalOK, Matched;
    var h := RunGood(run);
    FactsAt(run, h, i, a);
    FactsAt(run, h, j, b);
    PL.SameTerm(h, run[i].nodes[a].log, run[j].nodes[b].log, k);
  }

  /** Terms never go down along a log. */
  lemma TermsNeverDecrease(run: seq<Cluster>, i: nat, n: Id, j: nat, k: nat)
    requires IsRun(run) && Has(run, i, n) && j <= k < |run[i].nodes[n].log|
    ensures run[i].nodes[n].log[j].term <= run[i].nodes[n].log[k].term
  {
    hide RunOK, GlobalOK, Matched;
    var h := RunGood(run);
    FactsAt(run, h, i, n);
    Ordered(S(run[|run| - 1]), h, run[i].nodes[n].log, j, k);
  }

  /** State machine safety: once a node has committed an index, every node whose commit index
      reaches it, then or ever, holds the same entries up to there. */
  lemma StateMachineSafety(run: seq<Cluster>, i: nat, a: Id, j: nat, b: Id, k: nat)
    requires IsRun(run) && Has(run, i, a) && Has(run, j, b)
    requires k <= run[i].nodes[a].committed && k <= run[j].nodes[b].committed
    ensures k <= |run[i].nodes[a].log| && k <= |run[j].nodes[b].log|
    ensures run[i].nodes[a].log[..k] == run[j].nodes[b].log[..k]
  {
    hide RunOK, GlobalOK, CommitOK;
    var h := RunGood(run);
    FactsAt(run, h, i, a);
    FactsAt(run, h, j, b);
    var x, y := run[i].nodes[a], run[j].nodes[b];
    CommitLess(h, x.log, x.committed, x.term, k);
    CommitLess(h, y.log, y.committed, y.term, k);
    SameCommitted(S(run[|run| - 1]), h, x.log, x.term, y.log, y.term, k);
  }

  /** A snapshot that was ever sent covers what every node that commits as far holds, then or ever:
      taking it over and applying the entries one by one lead to the same state. */
  lemma SnapshotSafety(run: seq<Cluster>, i: nat, m: Message, j: nat, b: Id)
    requires IsRun(run) && i < |run| && m in run[i].net && m.Snap?
    requires Has(run, j, b) && m.index <= run[j].nodes[b].committed
    ensures m.index == |m.covered| <= |run[j].nodes[b].log|
    ensures m.covered == run[j].nodes[b].log[..m.index]
  {
    hide IsRun, RunOK, GlobalOK, CommitOK, Remembered;
    var h := RunGood(run);
    NetGrows(run, i, |run| - 1);
    LastGood(run, h);
    FactsAt(run, h, j, b);
    var s, y := S(run[|run| - 1]), run[j].nodes[b];
    SnapFacts(s, h, m);
    RememberedFacts(h, y);
    CommitLess(h, y.log, y.committed, y.term, m.index);
    PL.CommitFromLeader(h, SnapView(m), m.index);
    SameCommitted(s, h, m.covered, m.term, y.log, y.term, m.index);
    assert m.covered[..m.index] == m.covered;
  }

  /** A snapshot a node took over is let go of only when its storage holds it, along with all it covers;
      before that only a later snapshot or a crash takes it away. */
  lemma SnapshotStoredFirst(run: seq<Cluster>, e: Event, n: Id)
    requires IsRun(run) && Enabled(run[|run| - 1], e) && Has(run, |run| - 1, n)
    requires run[|run| - 1].nodes[n].restoring != 0 && e != Crash(n)
    ensures var c, c' := run[|run| - 1], Apply(run[|run| - 1], e);
            var r := c.nodes[n].restoring;
            n in c'.nodes && n in c'.stored
            && (c'.nodes[n].restoring == r || c.nodes[n].committed < c'.nodes[n].restoring
                || (c'.nodes[n].restoring == 0 && c'.stored[n].snapshot == c'.stored[n].compacted == r
                    && r <= c'.stored[n].disk.commit && Holds(c'.stored[n].disk.log, c.nodes[n].log, r)))
  {
    hide IsRun, RunOK, Inv, Apply, Holds, SnapshotKept, KnownCommits;
    var h := RunGood(run);
    LastInv(run, h);
    var c := run[|run| - 1];
    CommitsSeen(c, h);
    KeepsSnapshot(c, h, e, n, Commits(c));
    KeptOrStored(c, h, e, n);
  }

  lemma KeptOrStored(c: Cluster, h: History, e: Event, n: Id)
    requires Inv(c, h) && Enabled(c, e) && n in c.nodes && n in Apply(c, e).nodes && SnapshotKept(c, e, n)
    requires c.nodes[n].restoring != 0 && e != Crash(n)
    ensures var c', r := Apply(c, e), c.nodes[n].restoring;
            n in c'.stored
            && (c'.nodes[n].restoring == r || c.nodes[n].committed < c'.nodes[n].restoring
                || (c'.nodes[n].restoring == 0 && c'.stored[n].snapshot == c'.stored[n].compacted == r
                    && r <= c'.stored[n].disk.commit && Holds(c'.stored[n].disk.log, c.nodes[n].log, r)))
  {
    hide Inv, NodeGood, GlobalOK, Settled, Holds, Step, NewNode, Flush, V;
    At(c, h, n);
    At(c, h, e.n);
    Restoring(S(c), h, c.nodes[n]);
    StoredDisk(c, n);
    if e == Written(n) && c.stored[n].installing == c.nodes[n].restoring {
      WrittenHolds(S(c), h, c.nodes[n], c.nodes[n].restoring);
    }
  }

  /** What is being written and what the node holds agree on what both have committed. */
  lemma WrittenHolds(s: Stable, h: History, nd: Node, k: nat)
    requires GlobalOK(s, h) && NodeGood(s, h, nd) && nd.opt.id in s.writes && nd.opt.id in s.disks
    requires k <= nd.committed && k <= s.writes[nd.opt.id].disk.commit
    ensures Holds(s.writes[nd.opt.id].disk.log, nd.log, k)
  {
    hide GlobalOK, NodeGood, CommitOK, Holds, Remembered, AcksOK, GrantsOK, LeaderOK, CandidateOK, Matched, OutOK;
    var d := s.writes[nd.opt.id].disk;
    WriteFacts(s, h, nd.opt.id);
    RememberedNow(s, h, nd);
    RememberedFacts(h, nd);
    CommitLess(h, d.log, d.commit, d.term, k);
    CommitLess(h, nd.log, nd.committed, nd.term, k);
    SameCommitted(s, h, d.log, d.term, nd.log, nd.term, k);
  }

  /** What a snapshot covers, as the log of a node in its term. */
  function SnapView(m: Message): View
    requires m.Snap?
  {
    View(m.term, NONE, Follower, m.covered, 0, map[], {}, 0, map[], {})
  }

  lemma LastGood(run: seq<Cluster>, h: History)
    requires RunOK(run, h)
    ensures |run| > 0 && GlobalOK(S(run[|run| - 1]), h) && S(run[|run| - 1]).net == run[|run| - 1].net
  {
    hide GlobalOK;
  }

  lemma RememberedFacts(h: History, nd: Node)
    requires Remembered(h, nd)
    ensures CommitOK(h, nd.log, nd.committed, nd.term) && nd.committed <= |nd.log|
  {
    hide CommitOK, Matched;
  }

  /** Messages that were sent stay where they can be delivered from. */
  lemma {:induction false} NetGrows(run: seq<Cluster>, i: nat, j: nat)
    requires IsRun(run) && i <= j < |run|
    ensures run[i].net <= run[j].net
    decreases j - i
  {
    hide Step, NewNode, Flush;
    if i < j {
      NetGrows(run, i, j - 1);
      assert Next(run[j - 1], run[j]);
    }
  }

  /** Leader completeness: what a node has committed is in the log of every leader of a later term,
      whenever that leader is observed, and of the same term's leader from then on. */
  lemma LeaderCompleteness(run: seq<Cluster>, i: nat, a: Id, j: nat, b: Id)
    requires IsRun(run) && Has(run, i, a) && Has(run, j, b) && run[j].nodes[b].state.StateLeader?
    requires var ta, tb := run[i].nodes[a].term, run[j].nodes[b].term; ta < tb || (ta == tb && i <= j)
    ensures Holds(run[i].nodes[a].log, run[j].nodes[b].log, run[i].nodes[a].committed)
  {
    hide IsRun, RunOK, Holds;
    if run[i].nodes[a].term < run[j].nodes[b].term {
      LaterLeader(run, i, a, j, b);
    } else {
      SameLeader(run, i, a, j, b);
    }
  }

  /** What is committed in a term by now is in the log of the term's leader as it is now. */
  lemma SameLeader(run: seq<Cluster>, i: nat, a: Id, j: nat, b: Id)
    requires IsRun(run) && Has(run, i, a) && Has(run, j, b) && i <= j
    requires run[j].nodes[b].state.StateLeader? && run[i].nodes[a].term == run[j].nodes[b].term
    ensures Holds(run[i].nodes[a].log, run[j].nodes[b].log, run[i].nodes[a].committed)
  {
    hide IsRun, RunOK, Inv, GlobalOK, CommitOK, NodeGood, Holds, Remembered, Settled, StoredOK, OptionsOK;
    var before := run[..j + 1];
    RunPrefix(run, j);
    var h := RunGood(before);
    LastInv(before, h);
    FactsAt(before, h, i, a);
    At(run[j], h, b);
    assert before[i] == run[i];
    InItsTerm(S(run[j]), h, run[i].nodes[a], run[j].nodes[b]);
  }

  /** A leader's log is that of its reign, which holds what is committed in its term. */
  lemma InItsTerm(s: Stable, h: History, x: Node, nd: Node)
    requires GlobalOK(s, h) && Remembered(h, x) && NodeGood(s, h, nd) && nd.state.StateLeader? && x.term == nd.term
    ensures Holds(x.log, nd.log, x.committed)
  {
    hide GlobalOK, NodeGood, CommitOK, Holds, Remembered, LeaderOK;
    Leads(s, h, nd);
    LeaderReign(s, h, nd.opt.id, V(nd));
    RememberedFacts(h, x);
    LeaderHolds(s, h, x.log, x.committed, x.term, x.term);
  }

  /** A run up to some moment is a run. */
  lemma RunPrefix(run: seq<Cluster>, j: nat)
    requires IsRun(run) && j < |run|
    ensures IsRun(run[..j + 1]) && run[..j + 1][j] == run[j]
  {
    hide Init, Next;
    var before := run[..j + 1];
    forall k | 0 < k < |before| ensures Next(before[k - 1], before[k]) {
      assert before[k - 1] == run[k - 1] && before[k] == run[k];
    }
  }

  lemma LaterLeader(run: seq<Cluster>, i: nat, a: Id, j: nat, b: Id)
    requires IsRun(run) && Has(run, i, a) && Has(run, j, b)
    requires run[j].nodes[b].state.StateLeader? && run[i].nodes[a].term < run[j].nodes[b].term
    ensures Holds(run[i].nodes[a].log, run[j].nodes[b].log, run[i].nodes[a].committed)
  {
    hide RunOK, GlobalOK, Matched;
    var h := RunGood(run);
    FactsAt(run, h, i, a);
    FactsAt(run, h, j, b);
    var s := S(run[|run| - 1]);
    var x, y := run[i].nodes[a], run[j].nodes[b];
    LeaderHolds(s, h, x.log, x.committed, x.term, y.term);
    if x.committed > 0 {
      EarlierTerms(s, h, x, y.term);
    }
  }

  /** Committed entries of earlier terms sit in the part of a leader's log it was elected with. */
  lemma EarlierTerms(s: Stable, h: History, nd: Node, t: nat)
    requires GlobalOK(s, h) && Remembered(h, nd) && nd.term < t && t in h.reigns
    requires 0 < nd.committed && Holds(nd.log, h.reigns[t].log, nd.committed)
    ensures nd.committed <= h.reigns[t].base
  {
    hide NetOK, NodeOK, MarkOK, BidOK, Complete, Matched, Elected, ReignSafe;
    ReignFacts(s, h, t);
    var t0: nat :| t0 in h.reigns && t0 <= nd.term && nd.committed <= h.reigns[t0].commit
      && Holds(nd.log, h.reigns[t0].log, nd.committed);
    ReignFacts(s, h, t0);
    var k := nd.committed - 1;
    assert nd.log[k] == h.reigns[t].log[k] == h.reigns[t0].log[k];
  }

  /** Flow control: at every moment of a run, every peer a leader tracks has its match below its next
      index, which is at most one past the log; while it replicates, its in-flight appends increase and
      lie between the two, and otherwise it has none. No window is ever overfull. */
  lemma FlowControl(run: seq<Cluster>, i: nat, n: Id, x: Id)
    requires IsRun(run) && Has(run, i, n) && run[i].nodes[n].state.StateLeader? && x in run[i].nodes[n].prs
    ensures Flow(run[i].nodes[n].prs[x], |run[i].nodes[n].log|)
  {
    hide IsRun, RunOK, Flow, Good, Fits, LeadOK, QueueOK, GlobalOK, Settled;
    var before := run[..i + 1];
    RunPrefix(run, i);
    var h := RunGood(before);
    assert before[|before| - 1] == run[i];
    assert Inv(run[i], h) by { LastInv(before, h); }
    assert NodeGood(S(run[i]), h, run[i].nodes[n]);
  }

  lemma LastInv(run: seq<Cluster>, h: History)
    requires RunOK(run, h)
    ensures |run| > 0 && Inv(run[|run| - 1], h)
  {
    hide Inv, Recorded, Linked;
  }

  // ---------------------------------------------------------------------------------------------
  // Linearizable reads
  // ---------------------------------------------------------------------------------------------

  /** The p-th read of the leader n of term t was queued in the i-th event. */
  predicate QueuedIn(run: seq<Cluster>, i: nat, n: Id, t: nat, p: nat) {
    0 < i && Has(run, i - 1, n) && Has(run, i, n)
    && var nd, nd' := run[i - 1].nodes[n], run[i].nodes[n];
       nd'.state.StateLeader? && nd'.term == t
       && (if StillLeads(nd, nd') then Total(nd) else 0) < p <= Total(nd')
  }

  /** The p-th read of the leader n of term t was confirmed, and answered, in the j-th event. */
  predicate ReleasedIn(run: seq<Cluster>, j: nat, n: Id, t: nat, p: nat) {
    0 < j && Has(run, j - 1, n) && Has(run, j, n)
    && var nd, nd' := run[j - 1].nodes[n], run[j].nodes[n];
       StillLeads(nd, nd') && nd.term == t && nd.confirmed < p <= nd'.confirmed && p <= Total(nd)
  }

  /** The p-th read of a leader, while it is in its queue. */
  function ReadAt(nd: Node, p: nat): Queued
    requires nd.confirmed < p <= Total(nd)
  {
    nd.queue[p - nd.confirmed - 1]
  }

  /** Every read a leader releases carries an index at least as large as the commit index any node had
      when that read was queued or at any moment before, crashes since then included. */
  lemma ReadsAreLinearizable(run: seq<Cluster>, g: nat, i: nat, j: nat, n: Id, t: nat, p: nat, x: Id)
    requires IsRun(run) && QueuedIn(run, i, n, t, p) && ReleasedIn(run, j, n, t, p) && g <= i && Has(run, g, x)
    ensures run[g].nodes[x].committed <= ReadAt(run[j - 1].nodes[n], p).index
  {
    hide IsRun, RunOK, LinkedAt, Reaches, Commits, Peaks, After, WasMarked, PR.Fresh;
    var h := RunGood(run);
    var peaks := Peaks(run[..i]);
    LinkAt(run, h, i, n);
    LinkAt(run, h, j, n);
    MarkedIn(h, peaks, run[i - 1], run[i], n, p);
    FreshIn(h, Peaks(run[..j]), run[j - 1], run[j], n, p);
    var marked := After(peaks, run[i].nodes[n]);
    if g < i {
      assert SameNodes(run[..i]);
      PeaksReach(run[..i], g);
      assert run[..i][g] == run[g];
      Covers(marked, peaks, Commits(run[g]));
    }
    CommitOf(run[g], x);
    Reached(marked, Commits(run[g]), x);
    FreshCovers(h, Read(t, p), marked, ReadAt(run[j - 1].nodes[n], p).index, x);
  }

  lemma CommitOf(c: Cluster, x: Id)
    requires x in c.nodes
    ensures x in Commits(c) && Commits(c)[x] == c.nodes[x].committed
  {
  }

  lemma FreshCovers(h: History, rd: Read, commits: map<Id, nat>, index: nat, x: Id)
    requires WasMarked(h, rd, commits) && PR.Fresh(h, rd, index) && x in commits
    ensures commits[x] <= index
  {
  }

  lemma LinkAt(run: seq<Cluster>, h: History, i: nat, n: Id)
    requires RunOK(run, h) && 0 < i && Has(run, i - 1, n) && Has(run, i, n)
    ensures LinkedAt(h, Peaks(run[..i]), run[i - 1], run[i], n)
  {
    hide Inv, Recorded, LinkedAt, KnownCommits, Peaks;
    assert Linked(h, Peaks(run[..i]), run[i - 1], run[i]);
  }

  lemma Covers(a: map<Id, nat>, b: map<Id, nat>, c: map<Id, nat>)
    requires Reaches(a, b) && Reaches(b, c)
    ensures Reaches(a, c)
  {
  }

  lemma Reached(a: map<Id, nat>, b: map<Id, nat>, x: Id)
    requires Reaches(a, b) && x in b
    ensures x in a && b[x] <= a[x]
  {
  }

  lemma MarkedIn(h: History, peaks: map<Id, nat>, c: Cluster, c': Cluster, n: Id, p: nat)
    requires n in c.nodes && n in c'.nodes && LinkedAt(h, peaks, c, c', n) && c'.nodes[n].state.StateLeader?
    requires (if StillLeads(c.nodes[n], c'.nodes[n]) then Total(c.nodes[n]) else 0) < p <= Total(c'.nodes[n])
    ensures WasMarked(h, Read(c'.nodes[n].term, p), After(peaks, c'.nodes[n]))
    ensures Reaches(After(peaks, c'.nodes[n]), Commits(c')) && Reaches(After(peaks, c'.nodes[n]), peaks)
  {
    hide WasMarked, Reaches;
  }

  lemma FreshIn(h: History, peaks: map<Id, nat>, c: Cluster, c': Cluster, n: Id, p: nat)
    requires n in c.nodes && n in c'.nodes && LinkedAt(h, peaks, c, c', n) && StillLeads(c.nodes[n], c'.nodes[n])
    requires c.nodes[n].confirmed < p <= c'.nodes[n].confirmed && p <= Total(c.nodes[n])
    ensures PR.Fresh(h, Read(c.nodes[n].term, p), ReadAt(c.nodes[n], p).index)
  {
    hide PR.Fresh;
  }

  /** Reads leave the queue from its front, each once, and the ones behind them stay: the slice
      taken off the queue is always in range. */
  lemma ReadsLeaveInOrder(run: seq<Cluster>, i: nat, n: Id)
    requires IsRun(run) && 0 < i && Has(run, i - 1, n) && Has(run, i, n)
    requires StillLeads(run[i - 1].nodes[n], run[i].nodes[n])
    ensures var nd, nd' := run[i - 1].nodes[n], run[i].nodes[n];
            nd.confirmed <= nd'.confirmed <= Total(nd)
            && nd.queue[nd'.confirmed - nd.confirmed..] <= nd'.queue
  {
    hide IsRun, RunOK, MarkedWith, AllFresh, Reaches, Peaks, After, Commits;
    var h := RunGood(run);
    LinkAt(run, h, i, n);
  }

  /** In a cluster of several voters, a leader's answers are exactly the reads that leave its queue
      in the same event: none is answered early, twice or with another index. */
  lemma AnswersAreReleases(run: seq<Cluster>, e: Event)
    requires IsRun(run) && Enabled(run[|run| - 1], e) && e.Deliver?
    ensures AnswersStep(run[|run| - 1].nodes[e.n], Apply(run[|run| - 1], e).nodes[e.n])
  {
    hide Inv, Linked, Recorded, AnswersStep, ReadsStep, Step;
    var h := RunGood(run);
    var h' := ApplyGood(run[|run| - 1], h, e, Peaks(run));
  }
}
