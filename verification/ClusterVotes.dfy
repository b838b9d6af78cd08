/** Where granted votes come from, over whole runs: every vote and every pre-vote that reaches another node was
    asked for by it, and its log reached as far as the voter's. */
module ClusterVotes {
  import opened Types
  import opened Messages
  import opened Node
  import opened NodeView
  import opened NodeStep
  import opened NodeAnswers
  import opened NodeVotes
  import opened ProtocolSteps
  import opened Cluster
  import opened ClusterInvariant
  import opened ClusterSafety
  import opened ClusterAnswers

  /** q asks for what r grants. */
  predicate AsksFor(q: Message, r: Message) {
    ((q.Vote? && r.VoteResp?) || (q.PreVote? && r.PreVoteResp?)) && q.from == r.to && q.to == r.from && q.term == r.term
  }

  /** The grant r answers a request that was sent to its sender, and the log the request tells of reached at
      least as far as its sender's. */
  ghost predicate AnswersAt(run: seq<Cluster>, j: nat, q: Message, r: Message) {
    Has(run, j, r.from) && q in run[j].net && AsksFor(q, r) && UpToDate(run[j].nodes[r.from].log, q.lastIndex, q.lastTerm)
  }

  ghost predicate Asked(run: seq<Cluster>, r: Message) {
    exists j: nat, q :: AnswersAt(run, j, q, r)
  }

  ghost predicate AllOfAsked(run: seq<Cluster>, ms: set<Message>) {
    forall r :: r in ms && ForeignGrant(r) ==> Asked(run, r)
  }

  ghost predicate StoreAsked(run: seq<Cluster>, st: Stored) {
    st.write.Some? ==> AllOfAsked(run, st.write.value.out)
  }

  ghost predicate AllAsked(run: seq<Cluster>, c: Cluster) {
    AllOfAsked(run, c.net)
    && (forall n :: n in c.nodes ==> AllOfAsked(run, Out(c.nodes[n])))
    && (forall n :: n in c.stored ==> StoreAsked(run, c.stored[n]))
  }

  lemma AskedLater(before: seq<Cluster>, run: seq<Cluster>, r: Message)
    requires before <= run && Asked(before, r)
    ensures Asked(run, r)
  {
    var j: nat, q :| AnswersAt(before, j, q, r);
    assert AnswersAt(run, j, q, r);
  }

  lemma AllAskedLater(before: seq<Cluster>, run: seq<Cluster>, c: Cluster)
    requires before <= run && AllAsked(before, c)
    ensures AllAsked(run, c)
  {
    hide Asked;
    forall r: Message | Asked(before, r) ensures Asked(run, r) { AskedLater(before, run, r); }
  }

  /** A message delivered: what is granted anew answers it. */
  lemma DeliverAsked(run: seq<Cluster>, i: nat, n: Id, m: Message, recent: bool)
    requires IsRun(run) && Has(run, i, n) && ((m in run[i].net && m.to == n) || FromApp(m))
    requires AllOfAsked(run, Out(run[i].nodes[n]))
    ensures AllOfAsked(run, Out(Step(run[i].nodes[n], m, recent)))
  {
    hide IsRun, Step, Asked, UpToDate;
    var nd := run[i].nodes[n];
    VoterKnown(run, i, n);
    forall r | r in Out(Step(nd, m, recent)) && ForeignGrant(r) ensures Asked(run, r) {
      if r !in Grants(nd) {
        GrantsAnswer(nd, m, recent, r);
        AskedNow(run, i, m, r);
      }
    }
  }

  lemma AskedNow(run: seq<Cluster>, j: nat, q: Message, r: Message)
    requires AnswersAt(run, j, q, r)
    ensures Asked(run, r)
  {
  }

  lemma VoterKnown(run: seq<Cluster>, i: nat, n: Id)
    requires IsRun(run) && Has(run, i, n)
    ensures run[i].nodes[n].opt.id == n && run[i].nodes[n].compacted <= |run[i].nodes[n].log|
  {
    hide IsRun, RunOK, Inv, NodeGood;
    var before := run[..i + 1];
    RunPrefix(run, i);
    var h := RunGood(before);
    assert before[|before| - 1] == run[i];
    LastInv(before, h);
    At(run[i], h, n);
    Bounds(S(run[i]), h, run[i].nodes[n]);
    LastBeyond(S(run[i]), h, run[i].nodes[n]);
  }

  lemma EventAsked(run: seq<Cluster>, i: nat, e: Event)
    requires IsRun(run) && i + 1 < |run| && Enabled(run[i], e) && run[i + 1] == Apply(run[i], e) && AllAsked(run, run[i])
    ensures AllAsked(run, run[i + 1])
  {
    hide IsRun, Step, NewNode, Asked, Flush, Out, FromApp;
    var c := run[i];
    if e.Deliver? { DeliverAsked(run, i, e.n, e.m, e.recent); }
    if e.Ready? { SameOut(c.nodes[e.n], c.nodes[e.n].(readStates := [])); }
    if e.Written? {
      FlushAsked(c.nodes[e.n], c.stored[e.n].write.value.out);
      SameOut(Flush(c.nodes[e.n], c.stored[e.n].write.value.out),
              SnapshotStored(Flush(c.nodes[e.n], c.stored[e.n].write.value.out), c.stored[e.n].installing));
    }
    if e.Crash? { NewSilent(c.nodes[e.n].opt, c.stored[e.n]); }
    if e.TakeSnapshot? || e.Compact? { SameOut(c.nodes[e.n], Apply(c, e).nodes[e.n]); }
  }

  lemma SameOut(nd: Node, nd': Node)
    requires nd'.msgs == nd.msgs && nd'.afterAppend == nd.afterAppend
    ensures Out(nd') == Out(nd)
  {
  }

  lemma FlushAsked(nd: Node, sent: set<Message>)
    ensures Out(Flush(nd, sent)) <= Out(nd)
  {
    hide Except;
    forall m ensures m in Except(nd.msgs, sent) ==> m in nd.msgs { ExceptIn(nd.msgs, sent, m); }
    forall m ensures m in Except(nd.afterAppend, sent) ==> m in nd.afterAppend { ExceptIn(nd.afterAppend, sent, m); }
  }

  lemma NewSilent(opt: Options, st: Stored)
    ensures Out(NewNode(opt, st)) == {}
  {
  }

  lemma {:induction false} EveryGrantAsked(run: seq<Cluster>)
    requires |run| > 0 && IsRun(run)
    ensures AllAsked(run, run[|run| - 1])
    decreases |run|
  {
    hide IsRun, AllAsked, Init, Next;
    var j := |run| - 1;
    if j == 0 {
      FirstAsked(run);
    } else {
      var before := run[..j];
      RunPrefix(run, j - 1);
      RunStep(run, j);
      EveryGrantAsked(before);
      AllAskedLater(before, run, run[j - 1]);
      var e := NextEvent(run[j - 1], run[j]);
      EventAsked(run, j - 1, e);
    }
  }

  lemma FirstAsked(run: seq<Cluster>)
    requires IsRun(run) && |run| == 1
    ensures AllAsked(run, run[0])
  {
    hide NewNode, Next;
    forall n | n in run[0].nodes ensures AllOfAsked(run, Out(run[0].nodes[n])) {
      NewSilent(run[0].nodes[n].opt, run[0].stored[n]);
    }
  }

  /** Over every run, every vote and every pre-vote granted to another node answers a request of that node for
      just that, in the same term; and when the voter answered it, the log the request tells of ended in a
      higher term than the voter's own or in the same term and not before it. */
  lemma GrantsWereAsked(run: seq<Cluster>, k: nat, r: Message)
    requires IsRun(run) && k < |run| && r in run[k].net && ForeignGrant(r)
    ensures exists j: nat, q :: AnswersAt(run, j, q, r)
  {
    hide IsRun, AnswersAt;
    NetGrows(run, k, |run| - 1);
    EveryGrantAsked(run);
  }
}
