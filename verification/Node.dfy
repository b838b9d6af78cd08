/** The raft node (raft/raft.go) as a function from states and messages to states. The object that
    is updated in place is class Raft of module RaftObject; the log here is the single sequence that
    storage and the unstable tail represent together (module RaftLog).

    Entries up to `compacted` are kept in `log` although the storage dropped them: they are what the
    cluster proofs talk about, and no handler looks at them. `restoring` is the index of a snapshot the
    node took over and did not store yet, 0 if there is none. */
module Node {
  import opened Types
  import opened Quorum
  import opened Messages
  import opened Limit
  import opened InflightWindow
  import opened PeerProgress

  datatype StateType = StateFollower | StateCandidate | StateLeader | StatePreCandidate

  datatype CampaignType = PreElection | Election | Transfer

  /** The node's configuration, with its fixed membership. `peers` lists every tracked node in
      increasing order. */
  datatype Options = Options(id: Id, voters: JointConfig, learners: set<Id>, peers: seq<Id>,
                             checkQuorum: bool, preVote: bool, disableForwarding: bool,
                             maxMsgSize: nat, maxUncommitted: nat, maxInflight: nat, maxInflightBytes: nat)

  /** A read request: who asks, and the application's context. */
  datatype Request = Request(from: Id, data: Bytes)

  /** A request waiting for confirmation, with the commit index it will be answered with. */
  datatype Queued = Queued(req: Request, index: nat)

  datatype ReadState = ReadState(index: nat, data: Bytes)

  datatype Node = Node(opt: Options, term: nat, vote: Id, lead: Id, transferee: Id, state: StateType,
                       log: seq<Entry>, committed: nat, compacted: nat, snapshot: nat, restoring: nat,
                       prs: map<Id, Peer>, votes: map<Id, bool>, uncommitted: nat,
                       acks: map<Id, nat>, queue: seq<Queued>, confirmed: nat, waiting: seq<Request>,
                       readStates: seq<ReadState>, msgs: seq<Message>, afterAppend: seq<Message>,
                       panicked: bool)

  /** A logged panic or a runtime error of the program. */
  function Panic(nd: Node): Node {
    nd.(panicked := true)
  }

  predicate IsVoteKind(m: Message) {
    m.Vote? || m.VoteResp? || m.PreVote? || m.PreVoteResp?
  }

  /** Responses wait until the state they speak of is durable; nothing else goes to the node
      itself. */
  function Send(nd: Node, m: Message): Node {
    if IsVoteKind(m) && m.term == 0 then Panic(nd)
    else if m.AppResp? || m.VoteResp? || m.PreVoteResp? then nd.(afterAppend := nd.afterAppend + [m])
    else if m.to == nd.opt.id then Panic(nd)
    else nd.(msgs := nd.msgs + [m])
  }

  // ---------------------------------------------------------------------------------------------
  // The log
  // ---------------------------------------------------------------------------------------------

  /** The term of entry i, unless it is compacted or not there yet. */
  function Term(nd: Node, i: nat): Option<nat> {
    if i < nd.compacted || i > |nd.log| then None
    else if i == 0 then Some(0)
    else Some(nd.log[i - 1].term)
  }

  function ZeroTerm(nd: Node, i: nat): nat {
    if Term(nd, i).Some? then Term(nd, i).value else 0
  }

  function LastIndex(nd: Node): nat {
    |nd.log|
  }

  predicate MatchTerm(nd: Node, i: nat, t: nat) {
    Term(nd, i) == Some(t)
  }

  /** Entries from i on, limited in size; None when they are compacted. */
  function EntriesFrom(nd: Node, i: nat): Option<seq<Entry>> {
    if i > |nd.log| then Some([])
    else if i <= nd.compacted then None
    else Some(LimitSize(nd.log[i - 1..], nd.opt.maxMsgSize))
  }

  /** The index of the first entry the log does not hold, 0 if it holds all of them. */
  function FindConflict(nd: Node, ents: seq<Entry>): nat {
    if ents == [] then 0
    else if !MatchTerm(nd, ents[0].index, ents[0].term) then ents[0].index
    else FindConflict(nd, ents[1..])
  }

  function FindConflictByTerm(nd: Node, index: nat, term: nat): (nat, nat)
    decreases index
  {
    if index == 0 then (0, 0)
    else match Term(nd, index)
      case None => (index, 0)
      case Some(t) => if t <= term then (index, t) else FindConflictByTerm(nd, index - 1, term)
  }

  function AppendLog(nd: Node, ents: seq<Entry>): Node {
    if ents == [] then nd
    else if ents[0].index <= nd.committed || ents[0].index > |nd.log| + 1 then Panic(nd)
    else nd.(log := nd.log[..ents[0].index - 1] + ents)
  }

  function CommitTo(nd: Node, k: nat): Node {
    if k <= nd.committed then nd
    else if |nd.log| < k then Panic(nd)
    else nd.(committed := k)
  }

  function MaybeAppend(nd: Node, prevIndex: nat, prevTerm: nat, ents: seq<Entry>, commit: nat): (Node, Option<nat>) {
    if !MatchTerm(nd, prevIndex, prevTerm) then (nd, None)
    else
      var last := prevIndex + |ents|;
      var ci := FindConflict(nd, ents);
      var nd1 :=
        if ci == 0 then nd
        else if ci <= nd.committed || ci < prevIndex + 1 || ci - (prevIndex + 1) > |ents| then Panic(nd)
        else AppendLog(nd, ents[ci - (prevIndex + 1)..]);
      (CommitTo(nd1, Min(commit, last)), Some(last))
  }

  predicate IsUpToDate(nd: Node, lastIndex: nat, lastTerm: nat) {
    var ours := ZeroTerm(nd, |nd.log|);
    lastTerm > ours || (lastTerm == ours && lastIndex >= |nd.log|)
  }

  // ---------------------------------------------------------------------------------------------
  // Replication
  // ---------------------------------------------------------------------------------------------

  function WithPeer(nd: Node, x: Id, p: Peer): Node {
    nd.(prs := nd.prs[x := p])
  }

  /** Sends what the peer still needs, if it is not paused: entries, or a snapshot once they are
      compacted. The flag says whether a message went out. */
  function MaybeSendAppend(nd: Node, to: Id, sendIfEmpty: bool): (Node, bool) {
    if to !in nd.prs || nd.prs[to].next == 0 then (Panic(nd), false)
    else
      var pr := nd.prs[to];
      if Paused(pr) then (nd, false)
      else if Term(nd, pr.next - 1).None? then MaybeSendSnapshot(nd, to, pr)
      else
        var ents := if pr.mode.Replicate? && Full(pr.window) then Some([]) else EntriesFrom(nd, pr.next);
        if (ents.None? || ents.value == []) && !sendIfEmpty then (nd, false)
        else if ents.None? then MaybeSendSnapshot(nd, to, pr)
        else
          var m := App(nd.opt.id, to, nd.term, pr.next - 1, Term(nd, pr.next - 1).value, ents.value, nd.committed);
          var sent := Send(nd, m);
          if SendPanics(pr, |ents.value|) then (Panic(sent), true)
          else
            var pr1 := AfterSend(pr, |ents.value|, PayloadsSize(Payloads(ents.value)));
            (WithPeer(sent, to, pr1.(sentCommit := nd.committed)), true)
  }

  /** The entries whose effect the node's snapshot is. */
  function Covered(nd: Node): seq<Entry> {
    nd.log[..Min(nd.snapshot, |nd.log|)]
  }

  function MaybeSendSnapshot(nd: Node, to: Id, pr: Peer): (Node, bool) {
    if !pr.recentActive then (nd, false)
    else if nd.snapshot == 0 then (Panic(nd), false)
    else
      var m := Snap(nd.opt.id, to, nd.term, nd.snapshot, ZeroTerm(nd, nd.snapshot), Covered(nd));
      (Send(WithPeer(nd, to, Snapshotting(pr, nd.snapshot)), m), true)
  }

  function SendAppend(nd: Node, to: Id): Node {
    MaybeSendAppend(nd, to, true).0
  }

  function BcastAppend(nd: Node, ids: seq<Id>): Node
    decreases |ids|
  {
    if ids == [] then nd
    else BcastAppend(if ids[0] == nd.opt.id then nd else SendAppend(nd, ids[0]), ids[1..])
  }

  /** How much can still be sent to a peer before it pauses. */
  function ToSend(nd: Node, to: Id): nat {
    if to !in nd.prs || Paused(nd.prs[to]) then 0
    else 1 + (if nd.prs[to].next <= |nd.log| then |nd.log| + 1 - nd.prs[to].next else 0)
  }

  /** Each non-empty send brings the peer closer to pausing or to the end of the log. */
  lemma SendingEnds(nd: Node, to: Id)
    requires MaybeSendAppend(nd, to, false).1
    ensures MaybeSendAppend(nd, to, false).0.panicked || ToSend(MaybeSendAppend(nd, to, false).0, to) < ToSend(nd, to)
  {
    hide Full, LimitSize, Payloads, PayloadsSize, ZeroTerm;
    var pr := nd.prs[to];
    if Term(nd, pr.next - 1).Some? {
      var ents := if pr.mode.Replicate? && Full(pr.window) then Some([]) else EntriesFrom(nd, pr.next);
      if ents.Some? {
        assert pr.next <= |nd.log|;
        if !SendPanics(pr, |ents.value|) {
          SentMore(pr, |ents.value|, PayloadsSize(Payloads(ents.value)));
        }
      }
    }
  }

  lemma SentMore(p: Peer, entries: nat, bytes: nat)
    requires !SendPanics(p, entries) && entries > 0
    ensures Paused(AfterSend(p, entries, bytes)) || AfterSend(p, entries, bytes).next == p.next + entries
  {
    hide Full;
  }

  /** Sends until nothing more goes out. */
  function SendMore(nd: Node, to: Id): Node
    decreases !nd.panicked, ToSend(nd, to)
  {
    var (nd1, sent) := MaybeSendAppend(nd, to, false);
    if !sent then nd1
    else if nd1.panicked then nd1
    else
      SendingEnds(nd, to);
      SendMore(nd1, to)
  }

  function SendHeartbeat(nd: Node, to: Id, ctx: nat): Node {
    if to !in nd.prs then Panic(nd)
    else
      var commit := Min(nd.prs[to].matched, nd.committed);
      var sent := Send(nd, Heartbeat(nd.opt.id, to, nd.term, commit, ctx));
      WithPeer(sent, to, nd.prs[to].(sentCommit := commit))
  }

  function BcastHeartbeat(nd: Node, ids: seq<Id>, ctx: nat): Node
    decreases |ids|
  {
    if ids == [] then nd
    else BcastHeartbeat(if ids[0] == nd.opt.id then nd else SendHeartbeat(nd, ids[0], ctx), ids[1..], ctx)
  }

  function Matches(nd: Node): map<Id, nat> {
    map x | x in nd.prs :: nd.prs[x].matched
  }

  /** Advances the commit index to what a quorum acknowledged, if that is of the current term. */
  ghost function MaybeCommit(nd: Node): (Node, bool) {
    var k := JointCommitted(nd.opt.voters, Matches(nd));
    if nd.term != 0 && k > nd.committed && MatchTerm(nd, k, nd.term) then (CommitTo(nd, k), true)
    else (nd, false)
  }

  /** A leader's own entries; refused when too much is uncommitted already. */
  function AppendEntry(nd: Node, payloads: seq<Bytes>): (Node, bool) {
    var ents := NewEntries(nd, payloads);
    var size := PayloadsSize(payloads);
    if nd.uncommitted > 0 && size > 0 && nd.uncommitted + size > nd.opt.maxUncommitted then (nd, false)
    else
      var nd1 := AppendLog(nd.(uncommitted := nd.uncommitted + size), ents);
      (Send(nd1, AppResp(nd.opt.id, nd.opt.id, nd.term, LastIndex(nd1), false, 0, 0)), true)
  }

  function NewEntries(nd: Node, payloads: seq<Bytes>): seq<Entry> {
    seq(|payloads|, i requires 0 <= i < |payloads| => Entry(|nd.log| + 1 + i, nd.term, payloads[i]))
  }

  // ---------------------------------------------------------------------------------------------
  // Roles
  // ---------------------------------------------------------------------------------------------

  function Reset(nd: Node, term: nat): Node {
    nd.(term := term,
        vote := if nd.term != term then NONE else nd.vote,
        lead := NONE, transferee := NONE, votes := map[],
        prs := map x | x in nd.prs ::
                 FreshPeer(nd.prs[x], if x == nd.opt.id then |nd.log| else 0, |nd.log| + 1),
        uncommitted := 0, acks := map[], queue := [], confirmed := 0)
  }

  function BecomeFollower(nd: Node, term: nat, lead: Id): Node {
    Reset(nd, term).(lead := lead, state := StateFollower)
  }

  function BecomeCandidate(nd: Node): Node {
    if nd.state.StateLeader? then Panic(nd)
    else Reset(nd, nd.term + 1).(vote := nd.opt.id, state := StateCandidate)
  }

  function BecomePreCandidate(nd: Node): Node {
    if nd.state.StateLeader? then Panic(nd)
    else nd.(votes := map[], lead := NONE, state := StatePreCandidate)
  }

  function BecomeLeader(nd: Node): Node {
    if nd.state.StateFollower? || nd.opt.id !in nd.prs then Panic(nd)
    else
      var nd1 := Reset(nd, nd.term).(lead := nd.opt.id, state := StateLeader);
      var self := Replicating(nd1.prs[nd.opt.id]).(recentActive := true);
      var (nd2, ok) := AppendEntry(WithPeer(nd1, nd.opt.id, self), [[]]);
      if ok then nd2 else Panic(nd2)
  }

  function SendVotes(nd: Node, ids: seq<Id>, t: CampaignType, term: nat): Node
    decreases |ids|
  {
    if ids == [] then nd
    else
      var x := ids[0];
      var nd1 :=
        if x !in Voters(nd.opt.voters) then nd
        else if x == nd.opt.id then
          Send(nd, if t.PreElection? then PreVoteResp(x, x, term, false) else VoteResp(x, x, term, false))
        else
          Send(nd, if t.PreElection? then PreVote(nd.opt.id, x, term, |nd.log|, ZeroTerm(nd, |nd.log|))
                   else Vote(nd.opt.id, x, term, |nd.log|, ZeroTerm(nd, |nd.log|), t.Transfer?));
      SendVotes(nd1, ids[1..], t, term)
  }

  function Campaign(nd: Node, t: CampaignType): Node {
    if t.PreElection? then
      var nd1 := BecomePreCandidate(nd);
      SendVotes(nd1, nd.opt.peers, t, nd1.term + 1)
    else
      var nd1 := BecomeCandidate(nd);
      SendVotes(nd1, nd.opt.peers, t, nd1.term)
  }

  predicate Promotable(nd: Node) {
    nd.opt.id in nd.prs && !nd.prs[nd.opt.id].learner && nd.restoring == 0
  }

  function StartCampaign(nd: Node, t: CampaignType): Node {
    if nd.state.StateLeader? || !Promotable(nd) then nd else Campaign(nd, t)
  }

  function RecordVote(nd: Node, x: Id, granted: bool): Node {
    if x in nd.votes then nd else nd.(votes := nd.votes[x := granted])
  }

  predicate QuorumActive(nd: Node) {
    var active := map x | x in nd.prs && !nd.prs[x].learner :: nd.prs[x].recentActive;
    JointVote(nd.opt.voters, active).VoteWon?
  }

  // ---------------------------------------------------------------------------------------------
  // Reads
  // ---------------------------------------------------------------------------------------------

  predicate IsSingleton(nd: Node) {
    |nd.opt.voters.incoming| == 1 && nd.opt.voters.outgoing == {}
  }

  predicate CommittedInTerm(nd: Node) {
    ZeroTerm(nd, nd.committed) == nd.term
  }

  /** The position of the last unconfirmed read; 0 stands for an absent context. */
  function HeartbeatCtx(nd: Node): nat {
    if nd.queue == [] then 0 else nd.confirmed + |nd.queue|
  }

  function RecvAck(nd: Node, from: Id, ctx: nat): Node {
    if ctx == 0 then nd else nd.(acks := nd.acks[from := Max(Ack(nd.acks, from), ctx)])
  }

  /** Takes the reads that are now confirmed off the queue. */
  ghost function MaybeAdvance(nd: Node): (Node, seq<Queued>) {
    var k := JointCommitted(nd.opt.voters, nd.acks);
    if k <= nd.confirmed then (nd, [])
    else if k - nd.confirmed > |nd.queue| then (Panic(nd), [])
    else (nd.(queue := nd.queue[k - nd.confirmed..], confirmed := k), nd.queue[..k - nd.confirmed])
  }

  /** Answers a read: locally, or to the node that asked. */
  function Respond(nd: Node, q: Queued): Node {
    if q.req.from == NONE || q.req.from == nd.opt.id
    then nd.(readStates := nd.readStates + [ReadState(q.index, q.req.data)])
    else Send(nd, ReadIndexResp(nd.opt.id, q.req.from, nd.term, q.index, q.req.data))
  }

  function RespondAll(nd: Node, qs: seq<Queued>): Node
    decreases |qs|
  {
    if qs == [] then nd else RespondAll(Respond(nd, qs[0]), qs[1..])
  }

  /** Queues a read at the current commit index and asks every peer to confirm the leadership. */
  function QueueRead(nd: Node, req: Request): Node {
    var nd1 := nd.(queue := nd.queue + [Queued(req, nd.committed)]);
    var nd2 := RecvAck(nd1, nd.opt.id, HeartbeatCtx(nd1));
    BcastHeartbeat(nd2, nd.opt.peers, HeartbeatCtx(nd2))
  }

  function QueueReads(nd: Node, reqs: seq<Request>): Node
    decreases |reqs|
  {
    if reqs == [] then nd else QueueReads(QueueRead(nd, reqs[0]), reqs[1..])
  }

  function ReleaseWaiting(nd: Node): Node {
    if nd.waiting == [] || !CommittedInTerm(nd) then nd
    else QueueReads(nd.(waiting := []), nd.waiting)
  }

  // ---------------------------------------------------------------------------------------------
  // Messages
  // ---------------------------------------------------------------------------------------------

  function HandleAppendEntries(nd: Node, m: Message): Node
    requires m.App?
  {
    if m.prevIndex < nd.committed then
      Send(nd, AppResp(nd.opt.id, m.from, nd.term, nd.committed, false, 0, 0))
    else
      var (nd1, last) := MaybeAppend(nd, m.prevIndex, m.prevTerm, m.ents, m.commit);
      if last.Some? then Send(nd1, AppResp(nd.opt.id, m.from, nd.term, last.value, false, 0, 0))
      else
        var (hint, hintTerm) := FindConflictByTerm(nd, Min(m.prevIndex, |nd.log|), m.prevTerm);
        Send(nd, AppResp(nd.opt.id, m.from, nd.term, m.prevIndex, true, hint, hintTerm))
  }

  function HandleHeartbeat(nd: Node, m: Message): Node
    requires m.Heartbeat?
  {
    Send(CommitTo(nd, m.commit), HeartbeatResp(nd.opt.id, m.from, nd.term, m.ctx))
  }

  /** The peers of a restored configuration. */
  function RestoredPeers(opt: Options, last: nat): map<Id, Peer> {
    map x | x in opt.peers ::
      Peer(0, Max(last, 1), 0, Probe, 0, true, false, Window(opt.maxInflight, opt.maxInflightBytes, []), x in opt.learners)
  }

  /** The node once a snapshot replaced its log. */
  function Restored(nd: Node, m: Message): Node
    requires m.Snap?
  {
    nd.(log := m.covered, committed := m.index, compacted := m.index, snapshot := m.index, restoring := m.index,
        prs := RestoredPeers(nd.opt, m.index), votes := map[])
  }

  /** Takes over a snapshot that reaches past the commit index, unless the log already holds the entry
      it ends with. The membership is fixed, so the snapshot's configuration is the node's own. */
  function Restore(nd: Node, m: Message): (Node, bool)
    requires m.Snap?
  {
    if m.index <= nd.committed then (nd, false)
    else if !nd.state.StateFollower? then (BecomeFollower(nd, nd.term + 1, NONE), false)
    else if nd.opt.id !in nd.opt.peers then (nd, false)
    else if MatchTerm(nd, m.index, m.snapTerm) then (CommitTo(nd, m.index), false)
    else (Restored(nd, m), true)
  }

  function HandleSnapshot(nd: Node, m: Message): Node
    requires m.Snap?
  {
    var (nd1, restored) := Restore(nd, m);
    Send(nd1, AppResp(nd.opt.id, m.from, nd1.term, if restored then |nd1.log| else nd1.committed, false, 0, 0))
  }

  /** The snapshot that ends at i is stored. */
  function SnapshotStored(nd: Node, i: nat): Node {
    if i != 0 && nd.restoring == i then nd.(restoring := 0) else nd
  }

  function ReduceUncommitted(nd: Node, size: nat): Node {
    nd.(uncommitted := if size > nd.uncommitted then 0 else nd.uncommitted - size)
  }

  function NextProbe(nd: Node, m: Message): nat
    requires m.AppResp?
  {
    if m.hintTerm > 0 then FindConflictByTerm(nd, m.hint, m.hintTerm).0 else m.hint
  }

  ghost function LeaderAppResp(nd0: Node, m: Message): Node
    requires m.AppResp? && m.from in nd0.prs
  {
    var x := m.from;
    var nd := WithPeer(nd0, x, nd0.prs[x].(recentActive := true));
    if nd.prs[x].next == 0 then Panic(nd)
    else if m.reject then
      var (pr, lowered) := Rejected(nd.prs[x], m.index, NextProbe(nd, m));
      if lowered then SendAppend(WithPeer(nd, x, pr), x) else nd
    else
      var (pr, news) := Acked(nd.prs[x], m.index, nd.compacted + 1);
      if news then LeaderAcked(WithPeer(nd, x, pr), x) else nd
  }

  /** What follows news about a peer's log: committing, and sending it more. */
  ghost function LeaderAcked(nd: Node, x: Id): Node
    requires x in nd.prs
  {
    var (nd1, committed) := MaybeCommit(nd);
    var nd2 :=
      if committed then BcastAppend(ReleaseWaiting(nd1), nd.opt.peers)
      else if x != nd.opt.id && Bumpable(nd.prs[x], nd.committed) then SendAppend(nd, x)
      else nd;
    var nd3 := if x != nd.opt.id then SendMore(nd2, x) else nd2;
    if x == nd3.transferee && x in nd3.prs && nd3.prs[x].matched == |nd3.log|
    then Send(nd3, TimeoutNow(nd.opt.id, x, nd.term))
    else nd3
  }

  ghost function LeaderHeartbeatResp(nd0: Node, m: Message): Node
    requires m.HeartbeatResp? && m.from in nd0.prs
  {
    var x := m.from;
    var nd := WithPeer(nd0, x, nd0.prs[x].(recentActive := true, paused := false));
    var nd1 := if nd.prs[x].matched < |nd.log| || nd.prs[x].mode.Probe? then SendAppend(nd, x) else nd;
    if m.ctx == 0 then nd1
    else
      var (nd2, qs) := MaybeAdvance(RecvAck(nd1, x, m.ctx));
      RespondAll(nd2, qs)
  }

  function LeaderTransfer(nd: Node, x: Id): Node
    requires x in nd.prs
  {
    if nd.prs[x].learner || nd.transferee == x then nd
    else if x == nd.opt.id then nd.(transferee := NONE)
    else
      var nd1 := nd.(transferee := x);
      if nd.prs[x].matched == |nd.log| then Send(nd1, TimeoutNow(nd.opt.id, x, nd.term))
      else SendAppend(nd1, x)
  }

  /** Everyone but the leader counts as inactive until heard from again. */
  function Quiet(nd: Node): Node {
    nd.(prs := map x | x in nd.prs :: if x == nd.opt.id then nd.prs[x] else nd.prs[x].(recentActive := false))
  }

  ghost function StepLeader(nd: Node, m: Message): Node {
    match m
    case Beat(_, _) => BcastHeartbeat(nd, nd.opt.peers, HeartbeatCtx(nd))
    case CheckQuorum(_, _) =>
      Quiet(if QuorumActive(nd) then nd else BecomeFollower(nd, nd.term, NONE))
    case Prop(_, _, payloads) =>
      if payloads == [] then Panic(nd)
      else if nd.opt.id !in nd.prs || nd.transferee != NONE then nd
      else
        var (nd1, ok) := AppendEntry(nd, payloads);
        if ok then BcastAppend(nd1, nd.opt.peers) else nd
    case ReadIndex(from, _, data) =>
      if IsSingleton(nd) then Respond(nd, Queued(Request(from, data), nd.committed))
      else if !CommittedInTerm(nd) then nd.(waiting := nd.waiting + [Request(from, data)])
      else QueueRead(nd, Request(from, data))
    case AppResp(from, _, _, _, _, _, _) => if from in nd.prs then LeaderAppResp(nd, m) else nd
    case HeartbeatResp(from, _, _, _) => if from in nd.prs then LeaderHeartbeatResp(nd, m) else nd
    case SnapStatus(from, _, failed) =>
      if from !in nd.prs || !nd.prs[from].mode.Snapshot? then nd
      else
        var pr := nd.prs[from];
        WithPeer(nd, from, Probing(if failed then pr.(pendingSnapshot := 0) else pr).(paused := true))
    case Unreachable(from, _) =>
      if from in nd.prs && nd.prs[from].mode.Replicate? then WithPeer(nd, from, Probing(nd.prs[from])) else nd
    case TransferLeader(from, _, _) => if from in nd.prs then LeaderTransfer(nd, from) else nd
    case _ => nd
  }

  ghost function StepCandidate(nd: Node, m: Message): Node {
    match m
    case App(from, _, term, _, _, _, _) => HandleAppendEntries(BecomeFollower(nd, term, from), m)
    case Heartbeat(from, _, term, _, _) => HandleHeartbeat(BecomeFollower(nd, term, from), m)
    case Snap(from, _, term, _, _, _) => HandleSnapshot(BecomeFollower(nd, term, from), m)
    case PreVoteResp(from, _, _, reject) => if nd.state.StatePreCandidate? then Poll(nd, from, !reject) else nd
    case VoteResp(from, _, _, reject) => if nd.state.StatePreCandidate? then nd else Poll(nd, from, !reject)
    case _ => nd
  }

  /** Counts a vote and acts once the election is decided. */
  ghost function Poll(nd: Node, from: Id, granted: bool): Node {
    var nd1 := RecordVote(nd, from, granted);
    match JointVote(nd.opt.voters, nd1.votes)
    case VoteWon =>
      if nd.state.StatePreCandidate? then Campaign(nd1, Election)
      else BcastAppend(BecomeLeader(nd1), nd.opt.peers)
    case VoteLost => BecomeFollower(nd1, nd.term, NONE)
    case VotePending => nd1
  }

  function StepFollower(nd: Node, m: Message): Node {
    match m
    case App(from, _, _, _, _, _, _) => HandleAppendEntries(nd.(lead := from), m)
    case Heartbeat(from, _, _, _, _) => HandleHeartbeat(nd.(lead := from), m)
    case Snap(from, _, _, _, _, _) => HandleSnapshot(nd.(lead := from), m)
    case Prop(from, _, payloads) =>
      if nd.lead == NONE || nd.opt.disableForwarding then nd
      else Send(nd, Prop(if from == NONE then nd.opt.id else from, nd.lead, payloads))
    case TransferLeader(from, _, term) =>
      if nd.lead == NONE then nd
      else if term != 0 then Panic(nd)
      else Send(nd, TransferLeader(if from == NONE then nd.opt.id else from, nd.lead, nd.term))
    case ForgetLeader(_, _) => nd.(lead := NONE)
    case TimeoutNow(_, _, _) => StartCampaign(nd, Transfer)
    case ReadIndex(from, _, data) =>
      if nd.lead == NONE then nd
      else Send(nd, ReadIndex(if from == NONE then nd.opt.id else from, nd.lead, data))
    case ReadIndexResp(_, _, _, index, data) => nd.(readStates := nd.readStates + [ReadState(index, data)])
    case _ => nd
  }

  function LastOf(m: Message): (nat, nat)
    requires m.Vote? || m.PreVote?
  {
    (m.lastIndex, m.lastTerm)
  }

  /** MsgVote and MsgPreVote. */
  function HandleVote(nd: Node, m: Message): Node
    requires m.Vote? || m.PreVote?
  {
    var canVote := nd.vote == m.from || (nd.vote == NONE && nd.lead == NONE) || (m.PreVote? && m.term > nd.term);
    var (lastIndex, lastTerm) := LastOf(m);
    if canVote && IsUpToDate(nd, lastIndex, lastTerm) then
      var nd1 := Send(nd, if m.Vote? then VoteResp(nd.opt.id, m.from, m.term, false)
                          else PreVoteResp(nd.opt.id, m.from, m.term, false));
      if m.Vote? then nd1.(vote := m.from) else nd1
    else
      Send(nd, if m.Vote? then VoteResp(nd.opt.id, m.from, nd.term, true)
               else PreVoteResp(nd.opt.id, m.from, nd.term, true))
  }

  /** A vote request is ignored while the node heard from a leader recently (`recent`). */
  predicate InLease(nd: Node, m: Message, recent: bool) {
    (m.PreVote? || (m.Vote? && !m.transfer)) && nd.opt.checkQuorum && nd.lead != NONE && recent
  }

  /** What a message of a higher term does to the node's own term before it is handled. */
  function Catch(nd: Node, m: Message): Node {
    if m.PreVote? || (m.PreVoteResp? && !m.reject) then nd
    else if m.App? || m.Heartbeat? || m.Snap? then BecomeFollower(nd, TermOf(m), m.from)
    else BecomeFollower(nd, TermOf(m), NONE)
  }

  function LowTerm(nd: Node, m: Message): Node {
    if (nd.opt.checkQuorum || nd.opt.preVote) && (m.Heartbeat? || m.App?) then
      Send(nd, AppResp(nd.opt.id, m.from, nd.term, 0, false, 0, 0))
    else if m.PreVote? then Send(nd, PreVoteResp(nd.opt.id, m.from, nd.term, true))
    else if m.StorageAppendResp? then SnapshotStored(nd, m.snapshot)
    else nd
  }

  /** Any message. `recent` says that the election timeout has not passed since the node last heard
      from a leader. What the storage threads report moves the boundaries inside the log, which is one
      sequence here; of an append that is a snapshot stored, of an application its size. */
  ghost function Step(nd: Node, m: Message, recent: bool): Node {
    var t := TermOf(m);
    if t == 0 then Handle(nd, m)
    else if t > nd.term then
      if InLease(nd, m, recent) then nd else Handle(Catch(nd, m), m)
    else if t < nd.term then LowTerm(nd, m)
    else Handle(nd, m)
  }

  ghost function Handle(nd: Node, m: Message): Node {
    match m
    case Hup(_, _) => StartCampaign(nd, if nd.opt.preVote then PreElection else Election)
    case Vote(_, _, _, _, _, _) => HandleVote(nd, m)
    case PreVote(_, _, _, _, _) => HandleVote(nd, m)
    case StorageAppendResp(_, _, _, _, _, snapshot) => SnapshotStored(nd, snapshot)
    case StorageApplyResp(_, _, size) => ReduceUncommitted(nd, size)
    case _ => StepRole(nd, m)
  }

  /** The append thread's answer counts for a snapshot whatever the term, as long as no later snapshot
      was taken over meanwhile; the node's own term has not fallen behind it. */
  lemma StorageAnswer(nd: Node, m: Message, recent: bool)
    requires m.StorageAppendResp? && m.term <= nd.term
    ensures Step(nd, m, recent) == nd.(restoring := if nd.restoring == m.snapshot then 0 else nd.restoring)
  {
  }

  /** raft.step, the handler of the node's role. */
  ghost function StepRole(nd: Node, m: Message): Node {
    if nd.state.StateLeader? then StepLeader(nd, m)
    else if nd.state.StateFollower? then StepFollower(nd, m)
    else StepCandidate(nd, m)
  }
}
