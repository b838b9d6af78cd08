/** A cluster of raft nodes: what each holds in memory and on disk, the messages that were sent, and
    the events that move it. A run is a sequence of clusters linked by events. */
module Cluster {
  import opened Types
  import opened Quorum
  import opened Messages
  import opened InflightWindow
  import opened PeerProgress
  import opened Node
  import opened NodeView
  import opened NodeStep
  import opened Protocol

  /** What a node's storage holds: HardState and entries, the Ready that is being written if there is
      one, the index of the snapshot that is written with it (0 if there is none), and how far the
      storage was compacted and snapshotted. */
  datatype Stored = Stored(disk: Disk, write: Option<Write>, installing: nat, compacted: nat, snapshot: nat)

  /** Sent messages stay in `net`: each may be delivered never, late, out of order or repeatedly. */
  datatype Cluster = Cluster(voters: JointConfig, nodes: map<Id, Node>, stored: map<Id, Stored>, net: set<Message>)

  datatype Event =
    | Deliver(n: Id, m: Message, recent: bool)
    | Ready(n: Id)
    | Written(n: Id)
    | Crash(n: Id)
    | TakeSnapshot(n: Id, index: nat)
    | Compact(n: Id, index: nat)

  /** A node's options name it, the cluster's voters and peers that include it. */
  predicate OptionsOK(voters: JointConfig, n: Id, opt: Options) {
    && opt.id == n && opt.voters == voters
    && n in opt.peers && NONE !in opt.peers
    && opt.maxInflight > 0
  }

  function NewPeer(opt: Options, last: nat, x: Id): Peer {
    Peer(if x == opt.id then last else 0, last + 1, 0, Probe, 0, false, false,
         Window(opt.maxInflight, opt.maxInflightBytes, []), x in opt.learners)
  }

  /** newRaft: a follower with what its storage holds. A HardState that is not empty must have its
      commit index between the compacted and the last index. */
  function NewNode(opt: Options, st: Stored): Node {
    var d := st.disk;
    var empty := d.term == 0 && d.vote == NONE && d.commit == 0;
    var bad := !empty && !(st.compacted <= d.commit <= |d.log|);
    Node(opt, d.term, d.vote, NONE, NONE, StateFollower, d.log, if empty then st.compacted else d.commit,
         st.compacted, st.snapshot, 0,
         map x | x in opt.peers :: NewPeer(opt, |d.log|, x),
         map[], 0, map[], [], 0, [], [], [], [], bad)
  }

  ghost predicate Init(c: Cluster) {
    && c.voters.incoming != {}
    && Voters(c.voters) <= c.nodes.Keys && NONE !in c.nodes && c.nodes.Keys == c.stored.Keys
    && c.net == {}
    && forall n :: n in c.nodes ==>
         && OptionsOK(c.voters, n, c.nodes[n].opt)
         && c.stored[n] == Stored(Disk(0, NONE, [], 0), None, 0, 0, 0)
         && c.nodes[n] == NewNode(c.nodes[n].opt, c.stored[n])
  }

  /** What the environment may do: deliver what was sent to a node, ask it what an application may
      ask, take a Ready unless one is outstanding, finish writing it and send its messages, crash the
      node, and compact what is durably committed and snapshotted. Messages may be delivered, and
      anything else may happen, while a Ready is outstanding. */
  predicate Enabled(c: Cluster, e: Event) {
    && e.n in c.nodes && e.n in c.stored
    && match e
       case Deliver(n, m, _) => !m.StorageAppendResp? && ((m in c.net && m.to == n) || FromApp(m))
       case Ready(n) => c.stored[n].write.None?
       case Written(n) => c.stored[n].write.Some?
       case TakeSnapshot(n, i) => c.stored[n].snapshot < i <= c.stored[n].disk.commit
       case Compact(n, i) => c.stored[n].compacted < i <= c.stored[n].snapshot
       case _ => true
  }

  /** A Ready hands out the node's state, every message it holds and the snapshot it took over. The
      handlers never look at the messages that wait, so they can stay with the node until they leave. */
  function Snapshotted(nd: Node): Write {
    Write(Disk(nd.term, nd.vote, nd.log, nd.committed), Out(nd))
  }

  function Except(ms: seq<Message>, sent: set<Message>): seq<Message> {
    if ms == [] then [] else (if ms[0] in sent then [] else [ms[0]]) + Except(ms[1..], sent)
  }

  /** The node once those messages have left; an equal one that was added since need not leave again. */
  function Flush(nd: Node, sent: set<Message>): Node {
    nd.(msgs := Except(nd.msgs, sent), afterAppend := Except(nd.afterAppend, sent))
  }

  ghost function Apply(c: Cluster, e: Event): Cluster
    requires Enabled(c, e)
  {
    var nd, st := c.nodes[e.n], c.stored[e.n];
    match e
    case Deliver(n, m, recent) => c.(nodes := c.nodes[n := Step(nd, m, recent)])
    case Ready(n) =>
      c.(nodes := c.nodes[n := nd.(readStates := [])],
         stored := c.stored[n := st.(write := Some(Snapshotted(nd)), installing := nd.restoring)])
    case Written(n) =>
      // HardState, entries and snapshot are durable before any message leaves; the node is told.
      c.(nodes := c.nodes[n := SnapshotStored(Flush(nd, st.write.value.out), st.installing)],
         stored := c.stored[n := Rewritten(st)], net := c.net + st.write.value.out)
    case Crash(n) =>
      c.(nodes := c.nodes[n := NewNode(nd.opt, st)], stored := c.stored[n := st.(write := None, installing := 0)])
    case TakeSnapshot(n, i) =>
      c.(nodes := c.nodes[n := if nd.restoring == 0 then nd.(snapshot := i) else nd],
         stored := c.stored[n := st.(snapshot := i)])
    case Compact(n, i) =>
      c.(nodes := c.nodes[n := if nd.restoring == 0 then nd.(compacted := i) else nd],
         stored := c.stored[n := st.(compacted := i)])
  }

  /** A storage once the write under way is done. A snapshot replaces all that came before. */
  function Rewritten(st: Stored): Stored
    requires st.write.Some?
  {
    var st' := st.(disk := st.write.value.disk, write := None, installing := 0);
    if st.installing == 0 then st' else st'.(compacted := st.installing, snapshot := st.installing)
  }

  ghost predicate Next(c: Cluster, c': Cluster) {
    exists e :: Enabled(c, e) && c' == Apply(c, e)
  }

  ghost predicate IsRun(run: seq<Cluster>) {
    && |run| > 0 && Init(run[0])
    && forall i :: 0 < i < |run| ==> Next(run[i - 1], run[i])
  }

  function Commits(c: Cluster): map<Id, nat> {
    map n | n in c.nodes :: c.nodes[n].committed
  }
}
