/** Reads from end to end: what a node tells its application about a read it asked for is what a leader
    released for that read, and no commit index of any node was past it when the read was queued. */
module ClusterAnswers {
  import opened Types
  import opened Messages
  import opened Node
  import opened NodeView
  import opened NodeReads
  import opened NodeStep
  import opened NodeAnswers
  import opened Cluster
  import opened ClusterInvariant
  import opened ClusterSafety

  /** A cluster of one voter answers reads without asking anybody. */
  predicate Several(c: Cluster) {
    !(|c.voters.incoming| == 1 && c.voters.outgoing == {})
  }

  /** The answer m is a read that its sender released, for the node it goes to. */
  ghost predicate Served(run: seq<Cluster>, m: Message)
    requires m.ReadIndexResp?
  {
    exists j: nat, p: nat :: ReleasedIn(run, j, m.from, m.term, p)
      && ReadAt(run[j - 1].nodes[m.from], p) == Queued(Request(m.to, m.data), m.index)
  }

  /** The read q of the leader n was asked for at x, and this is its outcome. */
  predicate Outcome(q: Queued, n: Id, x: Id, rs: ReadState) {
    q.index == rs.index && q.req.data == rs.data && (q.req.from == x || (q.req.from == NONE && n == x))
  }

  /** What x tells its application is the outcome of a read some leader released. */
  ghost predicate ServedAt(run: seq<Cluster>, x: Id, rs: ReadState) {
    exists j: nat, n: Id, t: nat, p: nat :: ReleasedIn(run, j, n, t, p) && Outcome(ReadAt(run[j - 1].nodes[n], p), n, x, rs)
  }

  ghost predicate MessagesServed(run: seq<Cluster>, ms: set<Message>) {
    forall m :: m in ms && m.ReadIndexResp? ==> Served(run, m)
  }

  ghost predicate NodeServed(run: seq<Cluster>, x: Id, nd: Node) {
    Clean(nd) && (forall m :: m in nd.msgs && m.ReadIndexResp? ==> Served(run, m))
    && forall rs :: rs in nd.readStates ==> ServedAt(run, x, rs)
  }

  ghost predicate WriteServed(run: seq<Cluster>, st: Stored) {
    st.write.Some? ==> MessagesServed(run, st.write.value.out)
  }

  ghost predicate AllServed(run: seq<Cluster>, c: Cluster) {
    MessagesServed(run, c.net)
    && (forall n :: n in c.nodes ==> NodeServed(run, n, c.nodes[n]))
    && (forall n :: n in c.stored ==> WriteServed(run, c.stored[n]))
  }

  // ---------------------------------------------------------------------------------------------
  // Longer runs
  // ---------------------------------------------------------------------------------------------

  lemma ServedLater(before: seq<Cluster>, run: seq<Cluster>, m: Message)
    requires before <= run && m.ReadIndexResp? && Served(before, m)
    ensures Served(run, m)
  {
    var j: nat, p: nat :| ReleasedIn(before, j, m.from, m.term, p)
      && ReadAt(before[j - 1].nodes[m.from], p) == Queued(Request(m.to, m.data), m.index);
    assert ReleasedIn(run, j, m.from, m.term, p);
  }

  lemma ServedAtLater(before: seq<Cluster>, run: seq<Cluster>, x: Id, rs: ReadState)
    requires before <= run && ServedAt(before, x, rs)
    ensures ServedAt(run, x, rs)
  {
    var j: nat, n: Id, t: nat, p: nat :| ReleasedIn(before, j, n, t, p) && Outcome(ReadAt(before[j - 1].nodes[n], p), n, x, rs);
    assert ReleasedIn(run, j, n, t, p);
  }

  lemma AllLater(before: seq<Cluster>, run: seq<Cluster>, c: Cluster)
    requires before <= run && AllServed(before, c)
    ensures AllServed(run, c)
  {
    hide Served, ServedAt;
    forall m: Message | m.ReadIndexResp? && Served(before, m) ensures Served(run, m) { ServedLater(before, run, m); }
    forall x, rs | ServedAt(before, x, rs) ensures ServedAt(run, x, rs) { ServedAtLater(before, run, x, rs); }
  }

  // ---------------------------------------------------------------------------------------------
  // One message
  // ---------------------------------------------------------------------------------------------

  lemma {:induction false} RepliesHave(ms: seq<Message>, m: Message)
    ensures m in RepliesIn(ms) <==> m in ms && m.ReadIndexResp?
    decreases |ms|
  {
    if ms != [] {
      var k := |ms| - 1;
      RepliesHave(ms[..k], m);
      assert ms == ms[..k] + [ms[k]];
    }
  }

  /** An answer sent is one of the reads answered. */
  lemma {:induction false} RemoteHas(id: Id, term: nat, qs: seq<Queued>, m: Message) returns (k: nat)
    requires m in RemoteAnswers(id, term, qs)
    ensures k < |qs| && m == ReadIndexResp(id, qs[k].req.from, term, qs[k].index, qs[k].req.data)
    decreases |qs|
  {
    var last := |qs| - 1;
    if m in RemoteAnswers(id, term, qs[..last]) { k := RemoteHas(id, term, qs[..last], m); } else { k := last; }
  }

  lemma {:induction false} LocalHas(id: Id, qs: seq<Queued>, rs: ReadState) returns (k: nat)
    requires rs in LocalAnswers(id, qs)
    ensures k < |qs| && rs == ReadState(qs[k].index, qs[k].req.data) && (qs[k].req.from == NONE || qs[k].req.from == id)
    decreases |qs|
  {
    var last := |qs| - 1;
    if rs in LocalAnswers(id, qs[..last]) { k := LocalHas(id, qs[..last], rs); } else { k := last; }
  }

  /** A leader that leads on: its new answers are the reads it released in this event. */
  lemma LeaderServes(run: seq<Cluster>, j: nat, n: Id)
    requires 0 < j < |run| && Has(run, j - 1, n) && Has(run, j, n) && run[j - 1].nodes[n].opt.id == n
    requires var nd, nd' := run[j - 1].nodes[n], run[j].nodes[n];
             StillLeads(nd, nd') && nd.confirmed <= nd'.confirmed <= Total(nd)
             && Answered(nd, nd', nd.queue[..nd'.confirmed - nd.confirmed])
             && Clean(nd') && NodeServed(run, n, nd)
    ensures NodeServed(run, n, run[j].nodes[n])
  {
    hide Served, ServedAt, LocalAnswers, RemoteAnswers, RepliesIn, Clean;
    var nd, nd' := run[j - 1].nodes[n], run[j].nodes[n];
    var qs := nd.queue[..nd'.confirmed - nd.confirmed];
    forall m | m in nd'.msgs && m.ReadIndexResp? ensures Served(run, m) {
      RepliesHave(nd'.msgs, m);
      RepliesHave(nd.msgs, m);
      if m !in nd.msgs {
        var k := RemoteHas(n, nd.term, qs, m);
        NowServed(run, j, n, nd.confirmed + k + 1, m);
      }
    }
    forall rs | rs in nd'.readStates ensures ServedAt(run, n, rs) {
      if rs !in nd.readStates {
        var k := LocalHas(n, qs, rs);
        NowServedAt(run, j, n, nd.confirmed + k + 1, rs);
      }
    }
  }

  lemma NowServed(run: seq<Cluster>, j: nat, n: Id, p: nat, m: Message)
    requires Has(run, j, n) && ReleasedIn(run, j, n, run[j].nodes[n].term, p) && m.ReadIndexResp?
    requires m.from == n && m.term == run[j].nodes[n].term
    requires ReadAt(run[j - 1].nodes[n], p) == Queued(Request(m.to, m.data), m.index)
    ensures Served(run, m)
  {
  }

  lemma NowServedAt(run: seq<Cluster>, j: nat, n: Id, p: nat, rs: ReadState)
    requires Has(run, j, n) && ReleasedIn(run, j, n, run[j].nodes[n].term, p)
    requires Outcome(ReadAt(run[j - 1].nodes[n], p), n, n, rs)
    ensures ServedAt(run, n, rs)
  {
  }

  /** Any other node answers nothing, and passes on what it was told. */
  lemma OtherServes(run: seq<Cluster>, n: Id, nd: Node, m: Message, nd': Node)
    requires Told(nd, m, nd') && NodeServed(run, n, nd)
    requires m.ReadIndexResp? ==> m.to == n && Served(run, m)
    ensures NodeServed(run, n, nd')
  {
    hide RepliesIn;
    forall r | r in nd'.msgs && r.ReadIndexResp? ensures Served(run, r) {
      RepliesHave(nd'.msgs, r);
      RepliesHave(nd.msgs, r);
    }
    forall rs | rs in nd'.readStates ensures ServedAt(run, n, rs) {
      if rs !in nd.readStates { PassedOn(run, m, rs); }
    }
  }

  lemma PassedOn(run: seq<Cluster>, m: Message, rs: ReadState)
    requires m.ReadIndexResp? && Served(run, m) && rs == ReadState(m.index, m.data)
    ensures ServedAt(run, m.to, rs)
  {
    var j: nat, p: nat :| ReleasedIn(run, j, m.from, m.term, p)
      && ReadAt(run[j - 1].nodes[m.from], p) == Queued(Request(m.to, m.data), m.index);
  }

  // ---------------------------------------------------------------------------------------------
  // Any event
  // ---------------------------------------------------------------------------------------------

  lemma DeliverServes(before: seq<Cluster>, run: seq<Cluster>, e: Event)
    requires |before| > 0 && IsRun(before) && IsRun(run) && before <= run && |run| == |before| + 1 && Several(run[|before| - 1])
    requires Enabled(before[|before| - 1], e) && e.Deliver? && run[|before|] == Apply(before[|before| - 1], e)
    requires AllServed(run, before[|before| - 1])
    ensures NodeServed(run, e.n, run[|before|].nodes[e.n])
  {
    hide IsRun, Step, Told, Clean, Served, ServedAt, Answered, AnswersStep, StillLeads, ReleasedIn;
    var j := |before|;
    var c := before[j - 1];
    var nd, nd' := c.nodes[e.n], run[j].nodes[e.n];
    VotersOf(before, e.n);
    StepTold(nd, e.m, e.recent);
    if StillLeads(nd, nd') {
      AnswersAreReleases(before, e);
      ReadsLeaveInOrder(run, j, e.n);
      AnsweredIn(nd, nd');
      LeaderServes(run, j, e.n);
    } else {
      OtherServes(run, e.n, nd, e.m, nd');
    }
  }

  lemma AnsweredIn(nd: Node, nd': Node)
    requires AnswersStep(nd, nd') && StillLeads(nd, nd') && !IsSingleton(nd) && nd.confirmed <= nd'.confirmed <= Total(nd)
    ensures Answered(nd, nd', nd.queue[..nd'.confirmed - nd.confirmed])
  {
  }

  lemma VotersOf(run: seq<Cluster>, n: Id)
    requires IsRun(run) && Has(run, |run| - 1, n)
    ensures run[|run| - 1].nodes[n].opt.id == n && run[|run| - 1].nodes[n].opt.voters == run[|run| - 1].voters
  {
    hide IsRun, RunOK, Inv;
    var h := RunGood(run);
    LastInv(run, h);
    At(run[|run| - 1], h, n);
  }

  lemma EventServes(before: seq<Cluster>, run: seq<Cluster>, e: Event)
    requires |before| > 0 && IsRun(before) && IsRun(run) && before <= run && |run| == |before| + 1 && Several(run[|before| - 1])
    requires Enabled(before[|before| - 1], e) && run[|before|] == Apply(before[|before| - 1], e)
    requires AllServed(run, before[|before| - 1])
    ensures AllServed(run, run[|before|]) && run[|before|].voters == run[|before| - 1].voters
  {
    hide IsRun, Step, NewNode, Served, ServedAt, Clean, Flush, Snapshotted;
    var c, c' := before[|before| - 1], run[|before|];
    if e.Deliver? { DeliverServes(before, run, e); }
    if e.Ready? { HandedServed(run, e.n, c.nodes[e.n]); }
    if e.Written? {
      FlushCore(c.nodes[e.n], c.stored[e.n].write.value.out);
      FlushServed(run, e.n, c.nodes[e.n], c.stored[e.n].write.value.out);
      AsBefore(run, e.n, Flush(c.nodes[e.n], c.stored[e.n].write.value.out), c'.nodes[e.n]);
    }
    if e.Crash? { NewServed(run, e.n, c.nodes[e.n].opt, c.stored[e.n]); }
    if e.TakeSnapshot? || e.Compact? { AsBefore(run, e.n, c.nodes[e.n], c'.nodes[e.n]); }
  }

  lemma AsBefore(run: seq<Cluster>, n: Id, nd: Node, nd': Node)
    requires NodeServed(run, n, nd)
    requires nd'.msgs == nd.msgs && nd'.afterAppend == nd.afterAppend && nd'.readStates == nd.readStates
    ensures NodeServed(run, n, nd')
  {
    hide Served, ServedAt;
  }

  lemma HandedServed(run: seq<Cluster>, n: Id, nd: Node)
    requires NodeServed(run, n, nd)
    ensures MessagesServed(run, Snapshotted(nd).out) && NodeServed(run, n, nd.(readStates := []))
  {
    hide Served, ServedAt;
  }

  lemma FlushServed(run: seq<Cluster>, n: Id, nd: Node, sent: set<Message>)
    requires NodeServed(run, n, nd)
    ensures NodeServed(run, n, Flush(nd, sent))
  {
    hide Served, ServedAt, Except;
    forall m ensures m in Except(nd.msgs, sent) ==> m in nd.msgs { ExceptIn(nd.msgs, sent, m); }
    forall m ensures m in Except(nd.afterAppend, sent) ==> m in nd.afterAppend { ExceptIn(nd.afterAppend, sent, m); }
  }

  lemma NewServed(run: seq<Cluster>, n: Id, opt: Options, st: Stored)
    ensures NodeServed(run, n, NewNode(opt, st))
  {
  }

  /** At every moment of a run, every answer under way or delivered was released. */
  lemma {:induction false} AllAreServed(run: seq<Cluster>)
    requires |run| > 0 && IsRun(run) && Several(run[0])
    ensures AllServed(run, run[|run| - 1]) && Several(run[|run| - 1])
    decreases |run|
  {
    hide IsRun, AllServed, Init, Next;
    var j := |run| - 1;
    if j == 0 {
      FirstServed(run);
    } else {
      var before := run[..j];
      RunPrefix(run, j - 1);
      RunStep(run, j);
      AllAreServed(before);
      AllLater(before, run, run[j - 1]);
      var e := NextEvent(run[j - 1], run[j]);
      EventServes(before, run, e);
    }
  }

  lemma NextEvent(c: Cluster, c': Cluster) returns (e: Event)
    requires Next(c, c')
    ensures Enabled(c, e) && c' == Apply(c, e)
  {
    hide Enabled, Apply;
    e :| Enabled(c, e) && c' == Apply(c, e);
  }

  lemma RunStep(run: seq<Cluster>, j: nat)
    requires IsRun(run) && 0 < j < |run|
    ensures Next(run[j - 1], run[j]) && run[..j][j - 1] == run[j - 1] && run[..j][0] == run[0]
  {
    hide Init, Next;
  }

  lemma FirstServed(run: seq<Cluster>)
    requires IsRun(run) && |run| == 1
    ensures AllServed(run, run[0])
  {
    hide NewNode, Next;
    forall n | n in run[0].nodes ensures NodeServed(run, n, run[0].nodes[n]) {
      NewServed(run, n, run[0].nodes[n].opt, run[0].stored[n]);
    }
  }

  // ---------------------------------------------------------------------------------------------
  // The theorems
  // ---------------------------------------------------------------------------------------------

  /** In a cluster of several voters, every answer to a read that ever left a node was released by the
      leader that sent it, for the node it goes to, with the index and the context of that read. */
  lemma AnswersWereReleased(run: seq<Cluster>, k: nat, m: Message)
    requires IsRun(run) && Several(run[0]) && k < |run| && m in run[k].net && m.ReadIndexResp?
    ensures Served(run, m)
  {
    hide IsRun, Served;
    NetGrows(run, k, |run| - 1);
    AllAreServed(run);
  }

  /** A released read was queued before, in its leader's term. */
  lemma {:induction false} WasQueued(run: seq<Cluster>, j: nat, n: Id, p: nat) returns (i: nat)
    requires IsRun(run) && Has(run, j, n) && run[j].nodes[n].state.StateLeader? && 0 < p <= Total(run[j].nodes[n])
    ensures i <= j && QueuedIn(run, i, n, run[j].nodes[n].term, p)
    decreases j
  {
    hide IsRun, RunOK, Next, Init;
    if j == 0 {
      NoLeaderYet(run, n);
    } else {
      SameMembers(run, j);
      if StillLeads(run[j - 1].nodes[n], run[j].nodes[n]) && p <= Total(run[j - 1].nodes[n]) {
        i := WasQueued(run, j - 1, n, p);
      } else {
        i := j;
      }
    }
  }

  lemma NoLeaderYet(run: seq<Cluster>, n: Id)
    requires IsRun(run) && Has(run, 0, n)
    ensures !run[0].nodes[n].state.StateLeader?
  {
    hide Next;
  }

  lemma SameMembers(run: seq<Cluster>, j: nat)
    requires IsRun(run) && 0 < j < |run|
    ensures run[j - 1].nodes.Keys == run[j].nodes.Keys
  {
    hide IsRun, RunOK;
    var h := RunGood(run);
  }

  /** Reads are linearizable from end to end: what any node of a cluster of several voters tells its
      application about a read is the index a leader released for it, and every commit index any node had
      when that leader queued the read, or at any moment before, is covered by it. */
  lemma ReadStatesAreLinearizable(run: seq<Cluster>, k: nat, x: Id, rs: ReadState)
    returns (i: nat, j: nat, n: Id, t: nat, p: nat)
    requires IsRun(run) && Several(run[0]) && Has(run, k, x) && rs in run[k].nodes[x].readStates
    ensures i < j <= k && QueuedIn(run, i, n, t, p) && ReleasedIn(run, j, n, t, p)
    ensures Outcome(ReadAt(run[j - 1].nodes[n], p), n, x, rs)
    ensures forall g, y :: 0 <= g <= i && Has(run, g, y) ==> run[g].nodes[y].committed <= rs.index
  {
    hide IsRun, QueuedIn;
    var before := run[..k + 1];
    RunPrefix(run, k);
    AllAreServed(before);
    j, n, t, p :| ReleasedIn(before, j, n, t, p) && Outcome(ReadAt(before[j - 1].nodes[n], p), n, x, rs);
    assert ReleasedIn(run, j, n, t, p);
    i := WasQueued(run, j - 1, n, p);
    forall g: nat, y | g <= i && Has(run, g, y) ensures run[g].nodes[y].committed <= rs.index {
      ReadsAreLinearizable(run, g, i, j, n, t, p, y);
    }
  }
}
