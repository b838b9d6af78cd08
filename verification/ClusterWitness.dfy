/** Runs as Cluster defines them exist and get somewhere: in one, a node is elected and commits. */
module ClusterWitness {
  import opened Types
  import opened Quorum
  import opened Messages
  import opened InflightWindow
  import opened PeerProgress
  import opened Node
  import N = Node
  import opened NodeView
  import opened NodeStep
  import opened Protocol
  import opened Cluster

  function Opt(): Options {
    Options(1, JointConfig({1}, {}), {}, [1], false, false, false, 1000, 1000, 10, 1000)
  }

  function Self(mode: Mode, matched: nat, active: bool): Peer {
    Peer(matched, matched + 1, 0, mode, 0, active, false, Window(10, 1000, []), false)
  }

  function First(): Entry {
    Entry(1, 1, [])
  }

  function SelfVote(): Message {
    VoteResp(1, 1, 1, false)
  }

  function SelfAck(): Message {
    AppResp(1, 1, 1, 1, false, 0, 0)
  }

  /** The only node when it starts, campaigns, leads and has committed; `out` is what it has to send. */
  function Fresh(): N.Node {
    N.Node(Opt(), 0, NONE, NONE, NONE, StateFollower, [], 0, 0, 0, 0, map[1 := Self(Probe, 0, false)], map[], 0,
           map[], [], 0, [], [], [], [], false)
  }

  function Campaigning(out: seq<Message>): N.Node {
    Fresh().(term := 1, vote := 1, state := StateCandidate, afterAppend := out)
  }

  function Leading(out: seq<Message>): N.Node {
    Fresh().(term := 1, vote := 1, lead := 1, state := StateLeader, log := [First()],
             prs := map[1 := Self(Replicate, 0, true)], afterAppend := out)
  }

  function Committed(): N.Node {
    Leading([]).(prs := map[1 := Self(Replicate, 1, true)], committed := 1)
  }

  lemma Campaigns()
    ensures Step(Fresh(), Hup(1, 1), false) == Campaigning([SelfVote()])
  {
    var nd := Fresh();
    var reset := Reset(nd, 1);
    assert reset.prs == map[1 := Self(Probe, 0, false)];
    var asked := BecomeCandidate(nd);
    assert asked == Campaigning([]);
    assert nd.opt.peers[1..] == [];
    assert SendVotes(asked, nd.opt.peers, Election, 1) == SendVotes(Send(asked, SelfVote()), [], Election, 1);
  }

  /** The candidate once it counted its own vote. */
  function Voted(): N.Node {
    Campaigning([]).(votes := map[1 := true])
  }

  lemma Wins()
    ensures Step(Campaigning([]), SelfVote(), false) == Leading([SelfAck()])
  {
    hide BecomeLeader, BcastAppend, JointVote, SendAppend;
    assert RecordVote(Campaigning([]), 1, true) == Voted();
    Elected();
    Leads();
    NoOthers();
    assert Handle(Campaigning([]), SelfVote()) == Poll(Campaigning([]), 1, true);
  }

  lemma Elected()
    ensures JointVote(Opt().voters, Voted().votes).VoteWon?
  {
    var votes := map[1 := true];
    assert Granting({1}, votes) == {1} && {1} * {1} == {1};
    EmptyWins(votes);
  }

  lemma NoOthers()
    ensures BcastAppend(Leading([SelfAck()]), Opt().peers) == Leading([SelfAck()])
  {
    assert Opt().peers[1..] == [];
  }

  lemma Leads()
    ensures BecomeLeader(Voted()) == Leading([SelfAck()])
  {
    var reset := Reset(Voted(), 1);
    assert reset.prs == map[1 := Self(Probe, 0, false)];
    var led := WithPeer(reset.(lead := 1, state := StateLeader), 1, Self(Replicate, 0, true));
    assert led == Leading([]).(log := []);
    assert NewEntries(led, [[]]) == [First()];
  }

  lemma Commits()
    ensures Step(Leading([]), SelfAck(), false) == Committed()
  {
    hide LeaderAcked, Acked;
    var nd := Leading([]);
    var touched := WithPeer(nd, 1, nd.prs[1].(recentActive := true));
    assert touched.prs == nd.prs && touched == nd;
    Acks();
    assert WithPeer(nd, 1, Self(Replicate, 1, true)) == Heard();
    assert LeaderAppResp(nd, SelfAck()) == LeaderAcked(Heard(), 1);
    CommitsHeard();
  }

  /** The leader once it heard from itself. */
  function Heard(): N.Node {
    Leading([]).(prs := map[1 := Self(Replicate, 1, true)])
  }

  lemma Acks()
    ensures Acked(Self(Replicate, 0, true), 1, 1) == (Self(Replicate, 1, true), true)
  {
  }

  lemma CommitsHeard()
    ensures LeaderAcked(Heard(), 1) == Committed()
  {
    hide JointCommitted, SendMore, SendAppend;
    var nd := Heard();
    assert Matches(nd) == map[1 := 1];
    OneCommitted();
    assert Term(nd, 1) == Some(1);
    assert MaybeCommit(nd) == (Committed(), true);
    assert nd.opt.peers[1..] == [];
  }

  lemma OneCommitted()
    ensures JointCommitted(JointConfig({1}, {}), map[1 := 1]) == 1
  {
    var acked := map[1 := 1];
    assert AckedBy({1}, acked, 1) == {1} && {1} * {1} == {1};
    CommittedExactly({1}, acked, 1);
  }

  function One(nd: N.Node, disk: Disk, net: set<Message>): Cluster {
    Cluster(JointConfig({1}, {}), map[1 := nd], map[1 := Stored(disk, None, 0, 0, 0)], net)
  }

  /** The same, while the node's state is being written. */
  function Writing(nd: N.Node, disk: Disk, net: set<Message>): Cluster {
    Cluster(JointConfig({1}, {}), map[1 := nd], map[1 := Stored(disk, Some(Snapshotted(nd)), 0, 0, 0)], net)
  }

  lemma Delivers(nd: N.Node, disk: Disk, net: set<Message>, m: Message)
    requires !m.StorageAppendResp? && ((m in net && m.to == 1) || FromApp(m))
    ensures Next(One(nd, disk, net), One(Step(nd, m, false), disk, net))
  {
    hide Step;
    var c, e := One(nd, disk, net), Deliver(1, m, false);
    assert Enabled(c, e) && Apply(c, e) == One(Step(nd, m, false), disk, net);
  }

  lemma Readies(nd: N.Node, disk: Disk, net: set<Message>)
    requires nd.readStates == [] && nd.restoring == 0
    ensures Next(One(nd, disk, net), Writing(nd, disk, net))
  {
    var c, e := One(nd, disk, net), Ready(1);
    assert nd.(readStates := []) == nd;
    assert Enabled(c, e) && Apply(c, e) == Writing(nd, disk, net);
  }

  lemma Writes(nd: N.Node, disk: Disk, net: set<Message>)
    ensures Next(Writing(nd, disk, net), One(Flush(nd, Out(nd)), Snapshotted(nd).disk, net + Out(nd)))
  {
    hide Out, Flush;
    var c, e := Writing(nd, disk, net), Written(1);
    assert Enabled(c, e) && Apply(c, e) == One(Flush(nd, Out(nd)), Snapshotted(nd).disk, net + Out(nd));
  }

  lemma Begins()
    ensures Init(One(Fresh(), Disk(0, NONE, [], 0), {}))
  {
    var c := One(Fresh(), Disk(0, NONE, [], 0), {});
    assert NewNode(Opt(), c.stored[1]) == Fresh() by {
      assert NewNode(Opt(), c.stored[1]).prs == map[1 := Self(Probe, 0, false)];
    }
  }

  lemma Outgoing()
    ensures Out(Campaigning([SelfVote()])) == {SelfVote()} && Flush(Campaigning([SelfVote()]), {SelfVote()}) == Campaigning([])
    ensures Out(Leading([SelfAck()])) == {SelfAck()} && Flush(Leading([SelfAck()]), {SelfAck()}) == Leading([])
  {
    assert [SelfVote()][1..] == [] && [SelfAck()][1..] == [];
  }

  /** A run at whose end the node leads and has committed its first entry. */
  lemma SomeRunCommits() returns (run: seq<Cluster>)
    ensures IsRun(run) && 1 in run[|run| - 1].nodes
    ensures run[|run| - 1].nodes[1].state.StateLeader? && run[|run| - 1].nodes[1].committed == 1
  {
    hide Step, Next, Init, Out, Flush, Apply, Writing;
    var d0, d1, d2 := Disk(0, NONE, [], 0), Disk(1, 1, [], 0), Disk(1, 1, [First()], 0);
    var voted, acked := {SelfVote()}, {SelfVote()} + {SelfAck()};
    assert {} + {SelfVote()} == voted;
    Begins();
    Campaigns();
    Delivers(Fresh(), d0, {}, Hup(1, 1));
    Outgoing();
    Readies(Campaigning([SelfVote()]), d0, {});
    Writes(Campaigning([SelfVote()]), d0, {});
    Wins();
    Delivers(Campaigning([]), d1, voted, SelfVote());
    Readies(Leading([SelfAck()]), d1, voted);
    Writes(Leading([SelfAck()]), d1, voted);
    Commits();
    Delivers(Leading([]), d2, acked, SelfAck());
    run := [One(Fresh(), d0, {}), One(Campaigning([SelfVote()]), d0, {}),
            Writing(Campaigning([SelfVote()]), d0, {}), One(Campaigning([]), d1, voted),
            One(Leading([SelfAck()]), d1, voted), Writing(Leading([SelfAck()]), d1, voted),
            One(Leading([]), d2, acked), One(Committed(), d2, acked)];
  }
}
