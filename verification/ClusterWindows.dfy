/** What the in-flight window of a replicating peer means, over whole runs: it is the list of the appends with
    entries that the leader sent the peer since the peer began to replicate and that the peer has not
    acknowledged. */
module ClusterWindows {
  import opened Types
  import opened Messages
  import opened InflightWindow
  import opened PeerProgress
  import opened Node
  import opened NodeView
  import opened NodeShipping
  import opened NodeWindows
  import opened Protocol
  import opened ProtocolSteps
  import opened Cluster
  import opened ClusterInvariant
  import opened ClusterSafety

  /** A run together with the events that drive it. */
  ghost predicate Driven(run: seq<Cluster>, es: seq<Event>) {
    && |run| == |es| + 1 && Init(run[0])
    && forall i :: 0 <= i < |es| ==> Enabled(run[i], es[i]) && run[i + 1] == Apply(run[i], es[i])
  }

  /** Every run has such events, and they make it a run. */
  lemma {:induction false} EveryRunIsDriven(run: seq<Cluster>) returns (es: seq<Event>)
    requires IsRun(run) && |run| > 0
    ensures Driven(run, es)
    decreases |run|
  {
    hide Init, Next;
    if |run| == 1 {
      es := [];
    } else {
      var k := |run| - 1;
      var before := EveryRunIsDriven(run[..k]);
      assert Next(run[k - 1], run[k]);
      var e := LastEvent(run[k - 1], run[k]);
      es := before + [e];
      forall i | 0 <= i < |es| ensures Enabled(run[i], es[i]) && run[i + 1] == Apply(run[i], es[i]) {
        if i < k - 1 { assert Enabled(run[..k][i], before[i]) && run[..k][i + 1] == Apply(run[..k][i], before[i]); }
      }
    }
  }

  lemma LastEvent(c: Cluster, c': Cluster) returns (e: Event)
    requires Next(c, c')
    ensures Enabled(c, e) && c' == Apply(c, e)
  {
    hide Enabled, Apply;
    e :| Enabled(c, e) && c' == Apply(c, e);
  }

  lemma DrivenIsRun(run: seq<Cluster>, es: seq<Event>)
    requires Driven(run, es)
    ensures IsRun(run) && |run| > 0
  {
    hide Init, Enabled, Apply;
    forall i | 0 < i < |run| ensures Next(run[i - 1], run[i]) { Moves(run[i - 1], es[i - 1], run[i]); }
  }

  lemma Moves(c: Cluster, e: Event, c': Cluster)
    requires Enabled(c, e) && c' == Apply(c, e)
    ensures Next(c, c')
  {
  }

  /** The node leads and x replicates. */
  predicate Replicates(nd: Node, x: Id) {
    nd.state.StateLeader? && x in nd.prs && nd.prs[x].mode.Replicate?
  }

  /** What the node sent in a step. */
  function NewMessages(nd: Node, nd': Node): seq<Message> {
    if |nd.msgs| <= |nd'.msgs| then nd'.msgs[|nd.msgs|..] else []
  }

  /** The appends with entries that n sent x since x began to replicate and that x has not acknowledged, each
      by its last index and the size of its payloads. */
  ghost function Outstanding(run: seq<Cluster>, es: seq<Event>, i: nat, n: Id, x: Id): seq<Flight>
    requires i < |run| && |run| == |es| + 1
  {
    if i == 0 || n !in run[i - 1].nodes || n !in run[i].nodes || !Replicates(run[i].nodes[n], x) then []
    else
      var nd := run[i - 1].nodes[n];
      var before := if Replicates(nd, x) then Outstanding(run, es, i - 1, n, x) else [];
      var e := es[i - 1];
      if e.Deliver? && e.n == n then Above(before, Acknowledged(nd, e.m, x)) + SentTo(NewMessages(nd, run[i].nodes[n]), x)
      else before
  }

  /** The leader's window for x is right, and the node is configured as it was at first. */
  ghost predicate WindowOK(run: seq<Cluster>, es: seq<Event>, i: nat, n: Id, x: Id)
    requires i < |run| && |run| == |es| + 1
  {
    && n in run[i].nodes && n in run[0].nodes && run[i].nodes[n].opt == run[0].nodes[n].opt
    && x in run[i].nodes[n].prs && x in run[i].nodes[n].opt.peers && Fitted(run[i].nodes[n], x)
    && (Replicates(run[i].nodes[n], x) ==> run[i].nodes[n].prs[x].window.flights == Outstanding(run, es, i, n, x))
  }

  lemma PeerKnown(run: seq<Cluster>, i: nat, n: Id, x: Id)
    requires IsRun(run) && Has(run, i, n) && x in run[i].nodes[n].opt.peers
    ensures Primed(run[i].nodes[n], x) && !run[i].nodes[n].panicked
  {
    hide IsRun, RunOK, Flow, Good, GlobalOK, Settled, LeadOK, QueueOK;
    var before := run[..i + 1];
    RunPrefix(run, i);
    var h := RunGood(before);
    assert before[|before| - 1] == run[i];
    assert Inv(run[i], h) by { LastInv(before, h); }
    assert NodeGood(S(run[i]), h, run[i].nodes[n]);
  }

  /** The first moment. */
  lemma FirstOK(run: seq<Cluster>, es: seq<Event>, n: Id, x: Id)
    requires Driven(run, es) && n in run[0].nodes && x in run[0].nodes[n].opt.peers
    ensures WindowOK(run, es, 0, n, x)
  {
    hide Enabled, Apply;
  }

  /** Nothing but the delivery of a message to the leader touches its windows; a crash ends its lead. */
  lemma QuietKeeps(c: Cluster, e: Event, n: Id, x: Id)
    requires Enabled(c, e) && n in c.nodes && !(e.Deliver? && e.n == n) && x in c.nodes[n].prs && x in c.nodes[n].opt.peers
    ensures var nd, c' := c.nodes[n], Apply(c, e);
            n in c'.nodes && c'.nodes[n].opt == nd.opt && x in c'.nodes[n].prs && (Fitted(nd, x) ==> Fitted(c'.nodes[n], x))
            && (Replicates(c'.nodes[n], x) ==> Replicates(nd, x) && c'.nodes[n].prs[x].window == nd.prs[x].window)
  {
    hide Step, Flush;
    if e.Written? && e.n == n { FlushCore(c.nodes[n], c.stored[n].write.value.out); }
  }

  lemma {:induction false} WindowsOK(run: seq<Cluster>, es: seq<Event>, i: nat, n: Id, x: Id)
    requires Driven(run, es) && i < |run| && n in run[0].nodes && x in run[0].nodes[n].opt.peers
    ensures |run| == |es| + 1 && WindowOK(run, es, i, n, x)
    decreases i
  {
    hide Driven, Enabled, Apply, IsRun, Fitted, Replicates, Primed, Outstanding;
    DrivenIsRun(run, es);
    DrivenLong(run, es);
    if i == 0 {
      FirstOK(run, es, n, x);
    } else {
      DrivenStep(run, es, i);
      WindowsOK(run, es, i - 1, n, x);
      PeerKnown(run, i - 1, n, x);
      if es[i - 1].Deliver? && es[i - 1].n == n {
        DeliveredOK(run, es, i, n, x);
      } else {
        QuietKeeps(run[i - 1], es[i - 1], n, x);
        QuietOK(run, es, i, n, x);
      }
    }
  }

  lemma DrivenLong(run: seq<Cluster>, es: seq<Event>)
    requires Driven(run, es)
    ensures |run| == |es| + 1
  {
    hide Enabled, Apply, Init;
  }

  lemma DrivenStep(run: seq<Cluster>, es: seq<Event>, i: nat)
    requires Driven(run, es) && 0 < i < |run|
    ensures |run| == |es| + 1 && Enabled(run[i - 1], es[i - 1]) && run[i] == Apply(run[i - 1], es[i - 1])
  {
    hide Enabled, Apply, Init;
  }

  lemma QuietOK(run: seq<Cluster>, es: seq<Event>, i: nat, n: Id, x: Id)
    requires 0 < i < |run| == |es| + 1 && WindowOK(run, es, i - 1, n, x) && !(es[i - 1].Deliver? && es[i - 1].n == n)
    requires n in run[i].nodes
    requires var nd, nd' := run[i - 1].nodes[n], run[i].nodes[n];
             nd'.opt == nd.opt && x in nd'.prs && (Fitted(nd, x) ==> Fitted(nd', x))
             && (Replicates(nd', x) ==> Replicates(nd, x) && nd'.prs[x].window == nd.prs[x].window)
    ensures WindowOK(run, es, i, n, x)
  {
    hide Fitted;
  }

  lemma DeliveredOK(run: seq<Cluster>, es: seq<Event>, i: nat, n: Id, x: Id)
    requires 0 < i < |run| == |es| + 1 && WindowOK(run, es, i - 1, n, x) && es[i - 1].Deliver? && es[i - 1].n == n
    requires Driven(run, es) && IsRun(run)
    requires Enabled(run[i - 1], es[i - 1]) && run[i] == Apply(run[i - 1], es[i - 1]) && Primed(run[i - 1].nodes[n], x)
    ensures WindowOK(run, es, i, n, x)
  {
    hide Driven, Enabled, Primed, IsRun, Step;
    var e := es[i - 1];
    WindowStep(run[i - 1].nodes[n], e.m, e.recent, x);
    Delivered(run[i - 1], e);
    NoPanicEver(run, i, n);
    hide Apply, Fitted, Acknowledged;
  }

  lemma Delivered(c: Cluster, e: Event)
    requires Enabled(c, e) && e.Deliver?
    ensures e.n in c.nodes && Apply(c, e).nodes == c.nodes[e.n := Step(c.nodes[e.n], e.m, e.recent)]
  {
    hide Step;
  }

  /** Over every run: the in-flight window of a peer that replicates is the list of the appends with entries
      that the leader sent it since it began to replicate and that it has not acknowledged. So never more
      are outstanding than the options allow, and the last of them was sent when the bytes of the others
      were below their limit. */
  lemma WindowIsOutstanding(run: seq<Cluster>, es: seq<Event>, i: nat, n: Id, x: Id)
    requires Driven(run, es) && i < |run| && n in run[i].nodes && x in run[i].nodes[n].opt.peers && Replicates(run[i].nodes[n], x)
    ensures |run| == |es| + 1
    ensures var nd, fs := run[i].nodes[n], Outstanding(run, es, i, n, x);
            nd.prs[x].window.flights == fs && |fs| <= nd.opt.maxInflight
            && (nd.opt.maxInflightBytes != 0 && fs != [] ==> TotalBytes(fs[..|fs| - 1]) < nd.opt.maxInflightBytes)
  {
    hide Driven, IsRun, Outstanding, TotalBytes;
    DrivenIsRun(run, es);
    FirstKnown(run, es, i, n);
    WindowsOK(run, es, i, n, n);
    WindowsOK(run, es, i, n, x);
    FlowControl(run, i, n, x);
  }

  lemma FirstKnown(run: seq<Cluster>, es: seq<Event>, i: nat, n: Id)
    requires Driven(run, es) && i < |run| && n in run[i].nodes
    ensures n in run[0].nodes && n in run[0].nodes[n].opt.peers
    decreases i
  {
    hide Enabled, Step, NewNode;
    if i > 0 {
      DrivenStep(run, es, i);
      SameNodes(run[i - 1], es[i - 1]);
      FirstKnown(run, es, i - 1, n);
    }
  }

  lemma SameNodes(c: Cluster, e: Event)
    requires Enabled(c, e)
    ensures Apply(c, e).nodes.Keys == c.nodes.Keys
  {
    hide Step, Flush, NewNode;
  }
}
