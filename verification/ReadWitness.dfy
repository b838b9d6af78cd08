/** A run of a cluster of two voters that elects a leader, commits, and releases a read: what the theorems
    about quorums and reads assume does happen. */
module ReadWitness {
  import opened Types
  import opened Limit
  import opened Quorum
  import opened Messages
  import opened InflightWindow
  import opened PeerProgress
  import opened Node
  import N = Node
  import opened NodeView
  import opened NodeStep
  import opened Protocol
  import opened Cluster
  import opened ClusterSafety
  import opened ClusterAnswers

  function Both(): JointConfig {
    JointConfig({1, 2}, {})
  }

  function Opt(id: Id): Options {
    Options(id, Both(), {}, [1, 2], false, false, false, 1000, 1000, 10, 1000)
  }

  function Pr(matched: nat, sentCommit: nat, mode: Mode, active: bool, paused: bool): Peer {
    Peer(matched, matched + 1, sentCommit, mode, 0, active, paused, Window(10, 1000, []), false)
  }

  function Idle(): Peer {
    Pr(0, 0, Probe, false, false)
  }

  function First(): Entry {
    Entry(1, 1, [])
  }

  // ---------------------------------------------------------------------------------------------
  // The messages
  // ---------------------------------------------------------------------------------------------

  function Ask(): Message { Vote(1, 2, 1, 0, 0, false) }

  function Grant(from: Id): Message { VoteResp(from, 1, 1, false) }

  function Entries(): Message { App(1, 2, 1, 0, 0, [First()], 0) }

  function Ack(from: Id): Message { AppResp(from, 1, 1, 1, false, 0, 0) }

  function Told(): Message { App(1, 2, 1, 1, 1, [], 1) }

  function Question(): Message { ReadIndex(NONE, 1, [7]) }

  function Check(): Message { Heartbeat(1, 2, 1, 1, 1) }

  function Checked(): Message { HeartbeatResp(2, 1, 1, 1) }

  // ---------------------------------------------------------------------------------------------
  // The nodes
  // ---------------------------------------------------------------------------------------------

  function Fresh(id: Id): N.Node {
    N.Node(Opt(id), 0, NONE, NONE, NONE, StateFollower, [], 0, 0, 0, 0, map[1 := Idle(), 2 := Idle()], map[], 0,
           map[], [], 0, [], [], [], [], false)
  }

  function Asking(votes: map<Id, bool>, msgs: seq<Message>, waiting: seq<Message>): N.Node {
    Fresh(1).(term := 1, vote := 1, state := StateCandidate, votes := votes, msgs := msgs, afterAppend := waiting)
  }

  function Leading(own: Peer, other: Peer, committed: nat, msgs: seq<Message>, waiting: seq<Message>): N.Node {
    Fresh(1).(term := 1, vote := 1, lead := 1, state := StateLeader, log := [First()], committed := committed,
              prs := map[1 := own, 2 := other], msgs := msgs, afterAppend := waiting)
  }

  function Self(matched: nat): Peer {
    Pr(matched, 0, Replicate, true, false)
  }

  function Elected(msgs: seq<Message>, waiting: seq<Message>): N.Node {
    Leading(Self(0), Pr(0, 0, Probe, false, true), 0, msgs, waiting)
  }

  function Stored1(): N.Node {
    Leading(Self(1), Pr(0, 0, Probe, false, true), 0, [], [])
  }

  function Committed(msgs: seq<Message>): N.Node {
    Leading(Self(1), Pr(1, 1, Replicate, true, false), 1, msgs, [])
  }

  function Asked(msgs: seq<Message>): N.Node {
    Committed(msgs).(queue := [Queued(Request(NONE, [7]), 1)], acks := map[1 := 1])
  }

  function Answered(): N.Node {
    Committed([]).(confirmed := 1, acks := map[1 := 1, 2 := 1], readStates := [ReadState(1, [7])])
  }

  function Voter(waiting: seq<Message>): N.Node {
    Fresh(2).(term := 1, vote := 1, afterAppend := waiting)
  }

  function Following(committed: nat, msgs: seq<Message>, waiting: seq<Message>): N.Node {
    Voter(waiting).(lead := 1, log := [First()], committed := committed, msgs := msgs)
  }

  // ---------------------------------------------------------------------------------------------
  // Their steps
  // ---------------------------------------------------------------------------------------------

  lemma FreshReset(id: Id, votes: map<Id, bool>)
    ensures Reset(Fresh(id), 1) == Fresh(id).(term := 1)
    ensures Reset(Asking(votes, [], []), 1) == Asking(map[], [], [])
  {
    assert Reset(Fresh(id), 1).prs == map[1 := Idle(), 2 := Idle()];
    assert Reset(Asking(votes, [], []), 1).prs == map[1 := Idle(), 2 := Idle()];
  }

  lemma Peers()
    ensures [1, 2][1..] == [2] && [2][1..] == []
    ensures Voters(Both()) == {1, 2}
  {
  }

  lemma Campaigns()
    ensures Step(Fresh(1), Hup(1, 1), false) == Asking(map[], [Ask()], [Grant(1)])
  {
    hide Reset, Voters;
    FreshReset(1, map[]);
    Peers();
    assert BecomeCandidate(Fresh(1)) == Asking(map[], [], []);
    var nd1 := Send(Asking(map[], [], []), Grant(1));
    var nd2 := Send(nd1, Ask());
    assert SendVotes(nd2, [], Election, 1) == nd2;
    assert SendVotes(nd1, [2], Election, 1) == nd2;
    assert SendVotes(Asking(map[], [], []), [1, 2], Election, 1) == nd2;
  }

  lemma Votes()
    ensures Step(Fresh(2), Ask(), false) == Voter([Grant(2)])
  {
    hide Reset, HandleVote;
    FreshReset(2, map[]);
    assert Catch(Fresh(2), Ask()) == Fresh(2).(term := 1);
    Grants();
  }

  lemma Grants()
    ensures HandleVote(Fresh(2).(term := 1), Ask()) == Voter([Grant(2)])
  {
    assert IsUpToDate(Fresh(2).(term := 1), 0, 0);
  }

  lemma Counts()
    ensures Step(Asking(map[], [], []), Grant(1), false) == Asking(map[1 := true], [], [])
  {
    hide BecomeLeader, BcastAppend, JointVote, BecomeFollower;
    OneVote();
    assert RecordVote(Asking(map[], [], []), 1, true) == Asking(map[1 := true], [], []);
  }

  lemma OneVote()
    ensures JointVote(Both(), map[1 := true]).VotePending?
    ensures JointVote(Both(), map[1 := true, 2 := true]).VoteWon?
  {
    var one, two: map<Id, bool> := map[1 := true], map[1 := true, 2 := true];
    EmptyWins(one);
    EmptyWins(two);
    assert Granting({1, 2}, one) == {1} && Granting({1, 2}, two) == {1, 2} && Missing({1, 2}, one) == {2};
    assert {1} + {2} == {1, 2} && {1, 2} * {1} == {1} && {1, 2} * {1, 2} == {1, 2};
    assert |{1, 2}| == 2;
  }

  lemma Wins()
    ensures Step(Asking(map[1 := true], [], []), Grant(2), false) == Elected([Entries()], [Ack(1)])
  {
    hide BecomeLeader, BcastAppend, JointVote;
    OneVote();
    var voted := map[1 := true, 2 := true];
    assert RecordVote(Asking(map[1 := true], [], []), 2, true) == Asking(voted, [], []);
    Leads();
    Sends();
  }

  function Unsent(): N.Node {
    Leading(Self(0), Idle(), 0, [], [Ack(1)])
  }

  lemma Leads()
    ensures BecomeLeader(Asking(map[1 := true, 2 := true], [], [])) == Unsent()
  {
    hide Reset;
    FreshReset(1, map[1 := true, 2 := true]);
    var led := WithPeer(Asking(map[], [], []).(lead := 1, state := StateLeader), 1, Self(0));
    assert led.prs == map[1 := Self(0), 2 := Idle()];
    assert NewEntries(led, [[]]) == [First()];
  }

  lemma Sends()
    ensures BcastAppend(Unsent(), [1, 2]) == Elected([Entries()], [Ack(1)])
  {
    hide MaybeSendAppend;
    Peers();
    SendsOne();
    var sent := Elected([Entries()], [Ack(1)]);
    assert BcastAppend(sent, []) == sent;
    assert BcastAppend(Unsent(), [2]) == sent;
  }

  lemma SendsOne()
    ensures SendAppend(Unsent(), 2) == Elected([Entries()], [Ack(1)])
  {
    hide PayloadsSize, Payloads, Fitting;
    var nd := Unsent();
    assert nd.log[0..] == [First()];
    LimitOne(First(), 1000);
    assert EntriesFrom(nd, 1) == Some([First()]);
    assert SendAppend(nd, 2).prs == map[1 := Self(0), 2 := Pr(0, 0, Probe, false, true)];
  }

  lemma LimitOne(e: Entry, max: nat)
    ensures LimitSize([e], max) == [e]
  {
  }

  lemma Appends()
    ensures Step(Voter([]), Entries(), false) == Following(0, [], [Ack(2)])
  {
    hide MaybeAppend;
    Takes();
  }

  lemma Takes()
    ensures MaybeAppend(Voter([]).(lead := 1), 0, 0, [First()], 0) == (Following(0, [], []), Some(1))
  {
    var nd := Voter([]).(lead := 1);
    assert [First()][1..] == [] && [First()][0..] == [First()];
    assert FindConflict(nd, [First()]) == 1;
    assert AppendLog(nd, [First()]) == Following(0, [], []);
  }

  lemma Stores()
    ensures Step(Elected([], []), Ack(1), false) == Stored1()
  {
    hide LeaderAcked, Acked;
    var nd := Elected([], []);
    assert WithPeer(nd, 1, nd.prs[1].(recentActive := true)).prs == nd.prs;
    OwnAck();
    assert WithPeer(nd, 1, Self(1)).prs == map[1 := Self(1), 2 := Pr(0, 0, Probe, false, true)];
    StoresNothing();
  }

  lemma OwnAck()
    ensures Acked(Self(0), 1, 1) == (Self(1), true)
    ensures Acked(Pr(0, 0, Probe, true, true), 1, 1) == (Pr(1, 0, Replicate, true, false), true)
  {
  }

  lemma StoresNothing()
    ensures LeaderAcked(Stored1(), 1) == Stored1()
  {
    hide MaybeCommit, SendMore, MaybeSendAppend, BcastAppend, ReleaseWaiting, Send;
    NothingCommitted();
  }

  lemma NothingCommitted()
    ensures MaybeCommit(Stored1()) == (Stored1(), false)
  {
    hide MaybeCommit, JointCommitted, Matches, Both;
    MatchesAre();
    BothCommitted();
    NotPast(Stored1());
  }

  lemma MatchesAre()
    ensures Matches(Stored1()) == map[1 := 1, 2 := 0]
    ensures Matches(Heard(0, 0, [])) == map[1 := 1, 2 := 1]
  {
  }

  lemma NotPast(nd: N.Node)
    requires JointCommitted(nd.opt.voters, Matches(nd)) <= nd.committed
    ensures MaybeCommit(nd) == (nd, false)
  {
  }

  lemma Past(nd: N.Node, k: nat)
    requires JointCommitted(nd.opt.voters, Matches(nd)) == k && nd.compacted <= nd.committed < k <= |nd.log|
    requires nd.term != 0 && nd.log[k - 1].term == nd.term
    ensures MaybeCommit(nd) == (nd.(committed := k), true)
  {
  }

  lemma BothCommitted()
    ensures JointCommitted(Both(), map[1 := 1, 2 := 0]) == 0
    ensures JointCommitted(Both(), map[1 := 1]) == 0
    ensures JointCommitted(Both(), map[1 := 1, 2 := 1]) == 1
  {
    var one, none, two: map<Id, nat> := map[1 := 1, 2 := 0], map[1 := 1], map[1 := 1, 2 := 1];
    assert AckedBy({1, 2}, one, 1) == {1} && AckedBy({1, 2}, none, 1) == {1};
    assert AckedBy({1, 2}, two, 1) == {1, 2} && AckedBy({1, 2}, two, 2) == {};
    assert {1, 2} * {1} == {1} && {1, 2} * {1, 2} == {1, 2} && {1, 2} * {} == {} && |{1, 2}| == 2;
    CommittedExactly({1, 2}, one, 1);
    CommittedExactly({1, 2}, none, 1);
    CommittedExactly({1, 2}, two, 1);
    CommittedExactly({1, 2}, two, 2);
  }

  function Heard(committed: nat, sentCommit: nat, msgs: seq<Message>): N.Node {
    Leading(Self(1), Pr(1, sentCommit, Replicate, true, false), committed, msgs, [])
  }

  lemma Commits()
    ensures Step(Stored1(), Ack(2), false) == Committed([Told()])
  {
    hide LeaderAcked, Acked;
    var nd := Stored1();
    var nd1 := WithPeer(nd, 2, nd.prs[2].(recentActive := true));
    assert nd1.prs == map[1 := Self(1), 2 := Pr(0, 0, Probe, true, true)];
    OwnAck();
    assert WithPeer(nd1, 2, Pr(1, 0, Replicate, true, false)).prs == Heard(0, 0, []).prs;
    CommitsHeard();
  }

  lemma CommitsHeard()
    ensures LeaderAcked(Heard(0, 0, []), 2) == Committed([Told()])
  {
    hide MaybeCommit, SendMore, MaybeSendAppend, BcastAppend, Send, CommittedInTerm;
    SomethingCommitted();
    Tells();
    NoMore();
  }

  lemma SomethingCommitted()
    ensures MaybeCommit(Heard(0, 0, [])) == (Heard(1, 0, []), true)
  {
    hide MaybeCommit, JointCommitted, Matches, Both;
    MatchesAre();
    BothCommitted();
    Past(Heard(0, 0, []), 1);
  }

  lemma Tells()
    ensures BcastAppend(Heard(1, 0, []), [1, 2]) == Committed([Told()])
  {
    hide MaybeSendAppend;
    Peers();
    TellsOne();
    assert BcastAppend(Committed([Told()]), []) == Committed([Told()]);
    assert BcastAppend(Heard(1, 0, []), [2]) == Committed([Told()]);
  }

  lemma TellsOne()
    ensures SendAppend(Heard(1, 0, []), 2) == Committed([Told()])
  {
    hide PayloadsSize, Payloads, LimitSize;
    assert SendAppend(Heard(1, 0, []), 2).prs == Committed([]).prs;
  }

  lemma NoMore()
    ensures SendMore(Committed([Told()]), 2) == Committed([Told()])
  {
    hide PayloadsSize, Payloads, LimitSize, Send;
    assert MaybeSendAppend(Committed([Told()]), 2, false) == (Committed([Told()]), false);
  }

  lemma Asks()
    ensures Step(Committed([Told()]), Question(), false) == Asked([Told(), Check()])
  {
    hide QueueRead;
    assert |{1, 2}| == 2;
    Queues();
  }

  lemma Queues()
    ensures QueueRead(Committed([Told()]), Request(NONE, [7])) == Asked([Told(), Check()])
  {
    hide BcastHeartbeat;
    var none: map<Id, nat> := map[];
    assert none[1 := 1] == map[1 := 1];
    assert [] + [Queued(Request(NONE, [7]), 1)] == [Queued(Request(NONE, [7]), 1)];
    Checks();
  }

  lemma Checks()
    ensures BcastHeartbeat(Asked([Told()]), [1, 2], 1) == Asked([Told(), Check()])
  {
    hide SendHeartbeat;
    Peers();
    ChecksOne();
    assert BcastHeartbeat(Asked([Told(), Check()]), [], 1) == Asked([Told(), Check()]);
    assert BcastHeartbeat(Asked([Told()]), [2], 1) == Asked([Told(), Check()]);
  }

  lemma ChecksOne()
    ensures SendHeartbeat(Asked([Told()]), 2, 1) == Asked([Told(), Check()])
  {
    assert SendHeartbeat(Asked([Told()]), 2, 1).prs == Asked([]).prs;
  }

  lemma Confirms()
    ensures Step(Following(0, [], []), Check(), false) == Following(1, [Checked()], [])
  {
  }

  lemma Answers()
    ensures Step(Asked([]), Checked(), false) == Answered()
  {
    hide MaybeSendAppend, MaybeAdvance, RespondAll;
    var nd := Asked([]);
    assert WithPeer(nd, 2, nd.prs[2].(recentActive := true, paused := false)).prs == nd.prs;
    var one: map<Id, nat> := map[1 := 1];
    assert one[2 := 1] == map[1 := 1, 2 := 1];
    assert RecvAck(nd, 2, 1) == Sure();
    Advances();
  }

  /** The leader once both voters confirmed that it still leads. */
  function Sure(): N.Node {
    Asked([]).(acks := map[1 := 1, 2 := 1])
  }

  lemma Advances()
    ensures var (nd, qs) := MaybeAdvance(Sure()); RespondAll(nd, qs) == Answered()
  {
    hide MaybeAdvance, JointCommitted, Both;
    BothCommitted();
    var q := Queued(Request(NONE, [7]), 1);
    Released(Sure(), 1);
    assert Sure().queue[1..] == [] && Sure().queue[..1] == [q] && [q][1..] == [];
    var nd := Sure().(queue := [], confirmed := 1);
    assert RespondAll(Respond(nd, q), []) == Respond(nd, q);
    assert [] + [ReadState(1, [7])] == [ReadState(1, [7])];
  }

  lemma Released(nd: N.Node, k: nat)
    requires JointCommitted(nd.opt.voters, nd.acks) == k && nd.confirmed < k <= nd.confirmed + |nd.queue|
    ensures MaybeAdvance(nd) == (nd.(queue := nd.queue[k - nd.confirmed..], confirmed := k), nd.queue[..k - nd.confirmed])
  {
  }

  // ---------------------------------------------------------------------------------------------
  // The run
  // ---------------------------------------------------------------------------------------------

  /** A node with what it has on disk and what it is writing. */
  datatype Side = Side(nd: N.Node, disk: Disk, write: Option<Write>)

  function Kept(x: Side): Stored {
    Stored(x.disk, x.write, 0, 0, 0)
  }

  function Two(a: Side, b: Side, net: set<Message>): Cluster {
    Cluster(Both(), map[1 := a.nd, 2 := b.nd], map[1 := Kept(a), 2 := Kept(b)], net)
  }

  /** One of the two sides, and the cluster with another one in its place. */
  function SideOf(a: Side, b: Side, n: Id): Side {
    if n == 1 then a else b
  }

  function Put(a: Side, b: Side, n: Id, x: Side, net: set<Message>): Cluster {
    if n == 1 then Two(x, b, net) else Two(a, x, net)
  }

  lemma Puts(a: Side, b: Side, n: Id, x: Side, net: set<Message>, net': set<Message>)
    requires n == 1 || n == 2
    ensures var c := Two(a, b, net);
            n in c.nodes && n in c.stored && c.nodes[n] == SideOf(a, b, n).nd && c.stored[n] == Kept(SideOf(a, b, n))
            && c.(nodes := c.nodes[n := x.nd], stored := c.stored[n := Kept(x)], net := net') == Put(a, b, n, x, net')
            && (x.disk == SideOf(a, b, n).disk && x.write == SideOf(a, b, n).write && net' == net ==>
                  c.(nodes := c.nodes[n := x.nd]) == Put(a, b, n, x, net))
            && (net' == net ==> c.(nodes := c.nodes[n := x.nd], stored := c.stored[n := Kept(x)]) == Put(a, b, n, x, net))
  {
  }

  lemma Delivers(a: Side, b: Side, net: set<Message>, n: Id, m: Message)
    requires (n == 1 || n == 2) && !m.StorageAppendResp? && ((m in net && m.to == n) || FromApp(m))
    ensures var x := SideOf(a, b, n); Next(Two(a, b, net), Put(a, b, n, x.(nd := Step(x.nd, m, false)), net))
  {
    hide Step, Two, Put, Kept;
    var x := SideOf(a, b, n);
    var c, e := Two(a, b, net), Deliver(n, m, false);
    Puts(a, b, n, x.(nd := Step(x.nd, m, false)), net, net);
    assert c.net == net by { NetOf(a, b, net); }
    assert Enabled(c, e) && Apply(c, e) == Put(a, b, n, x.(nd := Step(x.nd, m, false)), net);
  }

  lemma NetOf(a: Side, b: Side, net: set<Message>)
    ensures Two(a, b, net).net == net
  {
  }

  lemma Readies(a: Side, b: Side, net: set<Message>, n: Id)
    requires (n == 1 || n == 2) && SideOf(a, b, n).nd.readStates == [] && SideOf(a, b, n).nd.restoring == 0
    requires SideOf(a, b, n).write.None?
    ensures var x := SideOf(a, b, n); Next(Two(a, b, net), Put(a, b, n, x.(write := Some(Snapshotted(x.nd))), net))
  {
    hide Two, Put, Snapshotted;
    var x := SideOf(a, b, n);
    var c, e := Two(a, b, net), Ready(n);
    Puts(a, b, n, x.(write := Some(Snapshotted(x.nd))), net, net);
    assert x.nd.(readStates := []) == x.nd;
    assert Enabled(c, e) && Apply(c, e) == Put(a, b, n, x.(write := Some(Snapshotted(x.nd))), net);
  }

  lemma Writes(a: Side, b: Side, net: set<Message>, n: Id)
    requires (n == 1 || n == 2) && SideOf(a, b, n).write.Some?
    ensures var x := SideOf(a, b, n);
            var w := x.write.value;
            Next(Two(a, b, net), Put(a, b, n, Side(Flush(x.nd, w.out), w.disk, None), net + w.out))
  {
    hide Two, Put, Flush;
    var x := SideOf(a, b, n);
    var w := x.write.value;
    var c, e := Two(a, b, net), Written(n);
    Puts(a, b, n, Side(Flush(x.nd, w.out), w.disk, None), net, net + w.out);
    assert c.net == net by { NetOf(a, b, net); }
    assert Enabled(c, e) && Apply(c, e) == Put(a, b, n, Side(Flush(x.nd, w.out), w.disk, None), net + w.out);
  }

  // ---------------------------------------------------------------------------------------------
  // Putting it together
  // ---------------------------------------------------------------------------------------------

  /** A run of the two voters, and its last cluster. */
  ghost predicate EndsIn(run: seq<Cluster>, c: Cluster) {
    IsRun(run) && run[0].voters == Both() && run[|run| - 1] == c
  }

  lemma Then(run: seq<Cluster>, c: Cluster, c': Cluster)
    requires EndsIn(run, c) && Next(c, c')
    ensures EndsIn(run + [c'], c')
  {
    hide Next, Init;
    var run' := run + [c'];
    forall i | 0 < i < |run'| ensures Next(run'[i - 1], run'[i]) {
      if i < |run| { assert run'[i - 1] == run[i - 1] && run'[i] == run[i]; }
    }
  }

  /** A message is delivered. */
  lemma Stepping(run: seq<Cluster>, a: Side, b: Side, net: set<Message>, n: Id, m: Message, nd: N.Node) returns (run': seq<Cluster>)
    requires EndsIn(run, Two(a, b, net)) && (n == 1 || n == 2)
    requires !m.StorageAppendResp? && ((m in net && m.to == n) || FromApp(m)) && Step(SideOf(a, b, n).nd, m, false) == nd
    ensures EndsIn(run', Put(a, b, n, SideOf(a, b, n).(nd := nd), net)) && run' == run + [Put(a, b, n, SideOf(a, b, n).(nd := nd), net)]
  {
    hide EndsIn, Step, Two, Put, Next;
    Delivers(a, b, net, n, m);
    run' := run + [Put(a, b, n, SideOf(a, b, n).(nd := nd), net)];
    Then(run, Two(a, b, net), Put(a, b, n, SideOf(a, b, n).(nd := nd), net));
  }

  /** A node writes its state, and its messages leave. */
  lemma Flushing(run: seq<Cluster>, a: Side, b: Side, net: set<Message>, n: Id, out: set<Message>, nd: N.Node) returns (run': seq<Cluster>)
    requires EndsIn(run, Two(a, b, net)) && (n == 1 || n == 2)
    requires var x := SideOf(a, b, n); x.nd.readStates == [] && x.nd.restoring == 0 && x.write.None?
                                       && Out(x.nd) == out && Flush(x.nd, out) == nd
    ensures var x := SideOf(a, b, n);
            EndsIn(run', Put(a, b, n, Side(nd, Disk(x.nd.term, x.nd.vote, x.nd.log, x.nd.committed), None), net + out))
    ensures run <= run'
  {
    hide EndsIn, Two, Next, Flush, Out;
    var x := SideOf(a, b, n);
    var y := x.(write := Some(Snapshotted(x.nd)));
    Readies(a, b, net, n);
    Then(run, Two(a, b, net), Put(a, b, n, y, net));
    var a', b' := if n == 1 then y else a, if n == 1 then b else y;
    Writes(a', b', net, n);
    var c := Put(a, b, n, Side(nd, Disk(x.nd.term, x.nd.vote, x.nd.log, x.nd.committed), None), net + out);
    run' := run + [Put(a, b, n, y, net)] + [c];
    Then(run + [Put(a, b, n, y, net)], Put(a, b, n, y, net), c);
  }

  lemma Boxes()
    ensures Out(Asking(map[], [Ask()], [Grant(1)])) == {Ask(), Grant(1)}
    ensures Flush(Asking(map[], [Ask()], [Grant(1)]), {Ask(), Grant(1)}) == Asking(map[], [], [])
    ensures Out(Voter([Grant(2)])) == {Grant(2)} && Flush(Voter([Grant(2)]), {Grant(2)}) == Voter([])
    ensures Out(Elected([Entries()], [Ack(1)])) == {Entries(), Ack(1)}
    ensures Flush(Elected([Entries()], [Ack(1)]), {Entries(), Ack(1)}) == Elected([], [])
    ensures Out(Following(0, [], [Ack(2)])) == {Ack(2)} && Flush(Following(0, [], [Ack(2)]), {Ack(2)}) == Following(0, [], [])
  {
    OneBox(Ask());
    OneBox(Grant(1));
    OneBox(Grant(2));
    OneBox(Entries());
    OneBox(Ack(1));
    OneBox(Ack(2));
  }

  lemma LastBoxes()
    ensures Out(Asked([Told(), Check()])) == {Told(), Check()} && Flush(Asked([Told(), Check()]), {Told(), Check()}) == Asked([])
    ensures Out(Following(1, [Checked()], [])) == {Checked()} && Flush(Following(1, [Checked()], []), {Checked()}) == Following(1, [], [])
  {
    OneBox(Checked());
    assert [Told(), Check()][1..] == [Check()];
    OneBox(Check());
  }

  lemma OneBox(m: Message)
    ensures (set x | x in [m]) == {m}
    ensures forall sent :: m in sent ==> Except([m], sent) == []
  {
    assert [m][1..] == [];
  }

  function At(nd: N.Node, disk: Disk): Side {
    Side(nd, disk, None)
  }

  function AfterVote(): Disk {
    Disk(1, 1, [], 0)
  }

  function AfterEntry(commit: nat): Disk {
    Disk(1, 1, [First()], commit)
  }

  lemma Begins() returns (run: seq<Cluster>)
    ensures var d := Disk(0, NONE, [], 0); EndsIn(run, Two(At(Fresh(1), d), At(Fresh(2), d), {}))
  {
    hide Next;
    var d := Disk(0, NONE, [], 0);
    run := [Two(At(Fresh(1), d), At(Fresh(2), d), {})];
    StartsFresh(1);
    StartsFresh(2);
    hide Fresh, NewNode;
    Peers();
    assert Init(run[0]);
  }

  lemma StartsFresh(id: Id)
    ensures NewNode(Opt(id), Stored(Disk(0, NONE, [], 0), None, 0, 0, 0)) == Fresh(id) && Fresh(id).opt == Opt(id)
    ensures id == 1 || id == 2 ==> OptionsOK(Both(), id, Opt(id))
  {
    assert NewNode(Opt(id), Stored(Disk(0, NONE, [], 0), None, 0, 0, 0)).prs == map[1 := Idle(), 2 := Idle()];
  }

  function Sent(k: nat): set<Message> {
    if k == 0 then {}
    else Sent(k - 1) + match k
      case 1 => {Ask(), Grant(1)}
      case 2 => {Grant(2)}
      case 3 => {Entries(), Ack(1)}
      case 4 => {Ack(2)}
      case 5 => {Told(), Check()}
      case _ => {Checked()}
  }

  /** Node 1 asks for votes and gets them. */
  lemma Elects() returns (run: seq<Cluster>)
    ensures EndsIn(run, Two(At(Elected([], []), AfterEntry(0)), At(Voter([]), AfterVote()), Sent(3)))
  {
    hide EndsIn, Two, Step, Out, Flush;
    var d := Disk(0, NONE, [], 0);
    run := Begins();
    Campaigns();
    run := Stepping(run, At(Fresh(1), d), At(Fresh(2), d), {}, 1, Hup(1, 1), Asking(map[], [Ask()], [Grant(1)]));
    Boxes();
    run := Flushing(run, At(Asking(map[], [Ask()], [Grant(1)]), d), At(Fresh(2), d), {}, 1, {Ask(), Grant(1)}, Asking(map[], [], []));
    Votes();
    run := Stepping(run, At(Asking(map[], [], []), AfterVote()), At(Fresh(2), d), Sent(1), 2, Ask(), Voter([Grant(2)]));
    run := Flushing(run, At(Asking(map[], [], []), AfterVote()), At(Voter([Grant(2)]), d), Sent(1), 2, {Grant(2)}, Voter([]));
    Counts();
    run := Stepping(run, At(Asking(map[], [], []), AfterVote()), At(Voter([]), AfterVote()), Sent(2), 1, Grant(1), Asking(map[1 := true], [], []));
    Wins();
    run := Stepping(run, At(Asking(map[1 := true], [], []), AfterVote()), At(Voter([]), AfterVote()), Sent(2), 1, Grant(2),
                    Elected([Entries()], [Ack(1)]));
    run := Flushing(run, At(Elected([Entries()], [Ack(1)]), AfterVote()), At(Voter([]), AfterVote()), Sent(2), 1, {Entries(), Ack(1)},
                    Elected([], []));
  }

  /** Its first entry is stored by both and committed. */
  lemma Agrees() returns (run: seq<Cluster>)
    ensures EndsIn(run, Two(At(Committed([Told()]), AfterEntry(0)), At(Following(0, [], []), AfterEntry(0)), Sent(4)))
  {
    hide EndsIn, Two, Step, Out, Flush;
    run := Elects();
    Appends();
    var led := At(Elected([], []), AfterEntry(0));
    run := Stepping(run, led, At(Voter([]), AfterVote()), Sent(3), 2, Entries(), Following(0, [], [Ack(2)]));
    Boxes();
    run := Flushing(run, led, At(Following(0, [], [Ack(2)]), AfterVote()), Sent(3), 2, {Ack(2)}, Following(0, [], []));
    Stores();
    run := Stepping(run, led, At(Following(0, [], []), AfterEntry(0)), Sent(4), 1, Ack(1), Stored1());
    Commits();
    run := Stepping(run, At(Stored1(), AfterEntry(0)), At(Following(0, [], []), AfterEntry(0)), Sent(4), 1, Ack(2),
                    Committed([Told()]));
  }

  /** The leader was asked for a read, queued it, and was told by the other voter that it still leads. */
  lemma Waits() returns (run: seq<Cluster>, i: nat)
    ensures EndsIn(run, Two(At(Asked([]), AfterEntry(1)), At(Following(1, [], []), AfterEntry(1)), Sent(6)))
    ensures QueuedIn(run, i, 1, 1, 1)
  {
    hide EndsIn, Two, Step, Out, Flush, QueuedIn;
    run := Agrees();
    Asks();
    var other := At(Following(0, [], []), AfterEntry(0));
    var before := run;
    i := |run|;
    run := Stepping(run, At(Committed([Told()]), AfterEntry(0)), other, Sent(4), 1, Question(), Asked([Told(), Check()]));
    QueuedNow(before, At(Committed([Told()]), AfterEntry(0)), At(Asked([Told(), Check()]), AfterEntry(0)), other, Sent(4));
    LastBoxes();
    var asked := run;
    run := Flushing(run, At(Asked([Told(), Check()]), AfterEntry(0)), other, Sent(4), 1, {Told(), Check()}, Asked([]));
    Confirms();
    var led := At(Asked([]), AfterEntry(1));
    run := Stepping(run, led, other, Sent(5), 2, Check(), Following(1, [Checked()], []));
    run := Flushing(run, led, At(Following(1, [Checked()], []), AfterEntry(0)), Sent(5), 2, {Checked()}, Following(1, [], []));
    StillQueued(asked, run, i);
  }

  lemma QueuedNow(run: seq<Cluster>, a: Side, a': Side, b: Side, net: set<Message>)
    requires EndsIn(run, Two(a, b, net)) && a.nd == Committed([Told()]) && a'.nd == Asked([Told(), Check()])
    ensures QueuedIn(run + [Two(a', b, net)], |run|, 1, 1, 1)
  {
  }

  lemma StillQueued(before: seq<Cluster>, run: seq<Cluster>, i: nat)
    requires before <= run && QueuedIn(before, i, 1, 1, 1)
    ensures QueuedIn(run, i, 1, 1, 1)
  {
  }

  /** There is a run of two voters in which a read is queued, released and told to the application. */
  lemma SomeReadIsReleased() returns (run: seq<Cluster>, i: nat)
    ensures IsRun(run) && Several(run[0]) && QueuedIn(run, i, 1, 1, 1) && ReleasedIn(run, |run| - 1, 1, 1, 1)
    ensures Has(run, |run| - 1, 1) && run[|run| - 1].nodes[1].readStates == [ReadState(1, [7])]
  {
    hide EndsIn, Two, Step, QueuedIn, ReleasedIn, IsRun, Several, Asked, Answered, Following, Checked;
    var before;
    before, i := Waits();
    Answers();
    Carries();
    var led, other := At(Asked([]), AfterEntry(1)), At(Following(1, [], []), AfterEntry(1));
    run := Stepping(before, led, other, Sent(6), 1, Checked(), Answered());
    ReleasedNow(before, led, led.(nd := Answered()), other, Sent(6));
    StillQueued(before, run, i);
    OfTwo(run, Two(led.(nd := Answered()), other, Sent(6)));
  }

  lemma Carries()
    ensures Checked() in Sent(6) && Checked().to == 1 && Checked().HeartbeatResp?
  {
  }

  lemma ReleasedNow(run: seq<Cluster>, a: Side, a': Side, b: Side, net: set<Message>)
    requires EndsIn(run, Two(a, b, net)) && a.nd == Asked([]) && a'.nd == Answered()
    ensures var run' := run + [Two(a', b, net)];
            ReleasedIn(run', |run|, 1, 1, 1) && Has(run', |run|, 1) && run'[|run|].nodes[1].readStates == [ReadState(1, [7])]
  {
  }

  lemma OfTwo(run: seq<Cluster>, c: Cluster)
    requires EndsIn(run, c)
    ensures IsRun(run) && Several(run[0])
  {
    hide IsRun;
    assert |{1, 2}| == 2;
  }
}
