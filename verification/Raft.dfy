/** The raft node as the object that raft/raft.go updates in place. Every method leaves exactly the
    state that the function of the same name in module Node computes from the state before it, so
    what is proved about those functions and about runs of them holds of this object. */
module RaftObject {
  import opened Types
  import opened Quorum
  import opened Messages
  import opened Limit
  import opened InflightWindow
  import opened PeerProgress
  import opened Node
  import N = Node
  import opened Cluster

  /** JointConfig.CommittedIndex: the smaller of what the two halves committed. */
  method CommittedOf(c: JointConfig, acked: map<Id, nat>) returns (r: nat)
    ensures r == JointCommitted(c, acked)
  {
    hide CommittedIndex;
    var idx0 := SortAndPick(c.incoming, acked);
    var idx1 := SortAndPick(c.outgoing, acked);
    if idx0 < idx1 { return idx0; }
    return idx1;
  }

  /** JointConfig.VoteResult. */
  method VoteOf(c: JointConfig, votes: map<Id, bool>) returns (r: VoteResult)
    ensures r == JointVote(c, votes)
  {
    hide MajorityVote;
    var r1 := CountVotes(c.incoming, votes);
    var r2 := CountVotes(c.outgoing, votes);
    if r1 == r2 { return r1; }
    if r1.VoteLost? || r2.VoteLost? { return VoteLost; }
    return VotePending;
  }

  class Raft {
    const opt: Options
    var term: nat
    var vote: Id
    var lead: Id
    var transferee: Id
    var state: StateType
    var log: seq<Entry>
    var committed: nat
    var compacted: nat
    var snapshot: nat
    var restoring: nat
    var prs: map<Id, Peer>
    var votes: map<Id, bool>
    var uncommitted: nat
    var acks: map<Id, nat>
    var queue: seq<Queued>
    var confirmed: nat
    var waiting: seq<Request>
    var readStates: seq<ReadState>
    var msgs: seq<Message>
    var afterAppend: seq<Message>
    var panicked: bool

    function Value(): N.Node
      reads this
    {
      N.Node(opt, term, vote, lead, transferee, state, log, committed, compacted, snapshot, restoring,
             prs, votes, uncommitted, acks, queue, confirmed, waiting, readStates, msgs, afterAppend, panicked)
    }

    /** newRaft. */
    constructor (opt: Options, st: Stored)
      ensures Value() == NewNode(opt, st)
    {
      var d := st.disk;
      var empty := d.term == 0 && d.vote == NONE && d.commit == 0;
      this.opt := opt;
      term, vote, log := d.term, d.vote, d.log;
      lead, transferee, state := NONE, NONE, StateFollower;
      committed := if empty then st.compacted else d.commit;
      compacted, snapshot, restoring := st.compacted, st.snapshot, 0;
      prs := map x | x in opt.peers :: NewPeer(opt, |d.log|, x);
      votes, uncommitted := map[], 0;
      acks, queue, confirmed, waiting := map[], [], 0, [];
      readStates, msgs, afterAppend := [], [], [];
      panicked := !empty && !(st.compacted <= d.commit <= |d.log|);
    }

    method Panic()
      modifies `panicked
      ensures Value() == N.Panic(old(Value()))
    {
      panicked := true;
    }

    method Send(m: Message)
      modifies `msgs, `afterAppend, `panicked
      ensures Value() == N.Send(old(Value()), m)
    {
      if IsVoteKind(m) && m.term == 0 {
        Panic();
      } else if m.AppResp? || m.VoteResp? || m.PreVoteResp? {
        afterAppend := afterAppend + [m];
      } else if m.to == opt.id {
        Panic();
      } else {
        msgs := msgs + [m];
      }
    }

    // -----------------------------------------------------------------------------------------
    // The log
    // -----------------------------------------------------------------------------------------

    /** findConflict. */
    method FindConflict(ents: seq<Entry>) returns (ci: nat)
      ensures ci == N.FindConflict(Value(), ents)
    {
      for i := 0 to |ents|
        invariant N.FindConflict(Value(), ents) == N.FindConflict(Value(), ents[i..])
      {
        assert ents[i..][1..] == ents[i + 1..];
        if !MatchTerm(Value(), ents[i].index, ents[i].term) {
          return ents[i].index;
        }
      }
      return 0;
    }

    /** findConflictByTerm counts down until the term is not above the given one. */
    method FindConflictByTerm(index: nat, term: nat) returns (i: nat, t: nat)
      ensures (i, t) == N.FindConflictByTerm(Value(), index, term)
    {
      i := index;
      while i > 0
        invariant N.FindConflictByTerm(Value(), index, term) == N.FindConflictByTerm(Value(), i, term)
      {
        var ours := Term(Value(), i);
        if ours.None? { return i, 0; }
        if ours.value <= term { return i, ours.value; }
        i := i - 1;
      }
      return 0, 0;
    }

    method AppendLog(ents: seq<Entry>)
      modifies `log, `panicked
      ensures Value() == N.AppendLog(old(Value()), ents)
    {
      if |ents| == 0 { return; }
      if ents[0].index <= committed || ents[0].index > |log| + 1 {
        Panic();
        return;
      }
      log := log[..ents[0].index - 1] + ents;
    }

    method CommitTo(k: nat)
      modifies `committed, `panicked
      ensures Value() == N.CommitTo(old(Value()), k)
    {
      if committed < k {
        if |log| < k {
          Panic();
          return;
        }
        committed := k;
      }
    }

    method MaybeAppend(prevIndex: nat, prevTerm: nat, ents: seq<Entry>, commit: nat) returns (last: Option<nat>)
      modifies `log, `committed, `panicked
      ensures (Value(), last) == N.MaybeAppend(old(Value()), prevIndex, prevTerm, ents, commit)
    {
      hide N.FindConflict;
      if !MatchTerm(Value(), prevIndex, prevTerm) { return None; }
      var lastNew := prevIndex + |ents|;
      var ci := FindConflict(ents);
      if ci == 0 {
      } else if ci <= committed {
        Panic();
      } else {
        var offset := prevIndex + 1;
        if ci < offset || ci - offset > |ents| {
          Panic();
        } else {
          AppendLog(ents[ci - offset..]);
        }
      }
      CommitTo(Min(commit, lastNew));
      return Some(lastNew);
    }

    // -----------------------------------------------------------------------------------------
    // Replication
    // -----------------------------------------------------------------------------------------

    method MaybeSendAppend(to: Id, sendIfEmpty: bool) returns (sent: bool)
      modifies `prs, `msgs, `afterAppend, `panicked
      ensures (Value(), sent) == N.MaybeSendAppend(old(Value()), to, sendIfEmpty)
    {
      hide Full, Pushed, PayloadsSize, Payloads, SendPanics, Paused, AfterSend, EntriesFrom, Term, N.Send, N.MaybeSendSnapshot, Snapshotting;
      SendKeepsPeers(Value());
      if to !in prs || prs[to].next == 0 {
        Panic();
        return false;
      }
      var pr := prs[to];
      if Paused(pr) { return false; }
      var prevIndex := pr.next - 1;
      var prevTerm := Term(Value(), prevIndex);
      if prevTerm.None? {
        sent := MaybeSendSnapshot(to, pr);
        return;
      }
      var ents := Some([]);
      if !(pr.mode.Replicate? && Full(pr.window)) {
        ents := EntriesFrom(Value(), pr.next);
      }
      if (ents.None? || |ents.value| == 0) && !sendIfEmpty { return false; }
      if ents.None? {
        sent := MaybeSendSnapshot(to, pr);
        return;
      }
      Send(App(opt.id, to, term, prevIndex, prevTerm.value, ents.value, committed));
      if SendPanics(pr, |ents.value|) {
        Panic();
        return true;
      }
      pr := AfterSend(pr, |ents.value|, PayloadsSize(Payloads(ents.value)));
      prs := prs[to := pr.(sentCommit := committed)];
      return true;
    }

    method MaybeSendSnapshot(to: Id, pr: Peer) returns (sent: bool)
      requires to in prs && prs[to] == pr
      modifies `prs, `msgs, `afterAppend, `panicked
      ensures (Value(), sent) == N.MaybeSendSnapshot(old(Value()), to, pr)
    {
      if !pr.recentActive { return false; }
      if snapshot == 0 {
        Panic();
        return false;
      }
      var snapTerm, covered := ZeroTerm(Value(), snapshot), log[..Min(snapshot, |log|)];
      prs := prs[to := Snapshotting(pr, snapshot)];
      Send(Snap(opt.id, to, term, snapshot, snapTerm, covered));
      return true;
    }

    method SendAppend(to: Id)
      modifies `prs, `msgs, `afterAppend, `panicked
      ensures Value() == N.SendAppend(old(Value()), to)
    {
      hide N.MaybeSendAppend;
      var sent := MaybeSendAppend(to, true);
    }

    /** bcastAppend visits the peers in order. */
    method BcastAppend()
      modifies `prs, `msgs, `afterAppend, `panicked
      ensures Value() == N.BcastAppend(old(Value()), opt.peers)
    {
      hide N.SendAppend;
      var ids := opt.peers;
      assert ids[0..] == ids;
      for i := 0 to |ids|
        invariant N.BcastAppend(Value(), ids[i..]) == N.BcastAppend(old(Value()), ids)
      {
        assert ids[i..][1..] == ids[i + 1..];
        if ids[i] != opt.id { SendAppend(ids[i]); }
      }
    }

    /** The loop that sends until the peer is paused or has everything: it ends because every send of
        entries moves the peer towards one or the other. */
    method SendMore(to: Id)
      modifies `prs, `msgs, `afterAppend, `panicked
      ensures Value() == N.SendMore(old(Value()), to)
    {
      hide N.MaybeSendAppend, ToSend;
      var sent := true;
      while sent
        invariant sent ==> N.SendMore(Value(), to) == N.SendMore(old(Value()), to)
        invariant !sent ==> Value() == N.SendMore(old(Value()), to)
        decreases sent, ToSend(Value(), to)
      {
        ghost var before := Value();
        sent := MaybeSendAppend(to, false);
        if sent && panicked { return; }
        if sent { SendingEnds(before, to); }
      }
    }

    method SendHeartbeat(to: Id, ctx: nat)
      modifies `prs, `msgs, `afterAppend, `panicked
      ensures Value() == N.SendHeartbeat(old(Value()), to, ctx)
    {
      if to !in prs {
        Panic();
        return;
      }
      var pr := prs[to];
      var commit := Min(pr.matched, committed);
      Send(Heartbeat(opt.id, to, term, commit, ctx));
      prs := prs[to := pr.(sentCommit := commit)];
    }

    method BcastHeartbeat(ctx: nat)
      modifies `prs, `msgs, `afterAppend, `panicked
      ensures Value() == N.BcastHeartbeat(old(Value()), opt.peers, ctx)
    {
      hide N.SendHeartbeat;
      var ids := opt.peers;
      assert ids[0..] == ids;
      for i := 0 to |ids|
        invariant N.BcastHeartbeat(Value(), ids[i..], ctx) == N.BcastHeartbeat(old(Value()), ids, ctx)
      {
        assert ids[i..][1..] == ids[i + 1..];
        if ids[i] != opt.id { SendHeartbeat(ids[i], ctx); }
      }
    }

    method MaybeCommit() returns (changed: bool)
      modifies `committed, `panicked
      ensures (Value(), changed) == N.MaybeCommit(old(Value()))
    {
      hide JointCommitted;
      var k := CommittedOf(opt.voters, Matches(Value()));
      if term != 0 && k > committed && MatchTerm(Value(), k, term) {
        CommitTo(k);
        return true;
      }
      return false;
    }

    /** appendEntry. */
    method AppendEntry(payloads: seq<Bytes>) returns (accepted: bool)
      modifies `log, `uncommitted, `msgs, `afterAppend, `panicked
      ensures (Value(), accepted) == N.AppendEntry(old(Value()), payloads)
    {
      hide PayloadsSize, NewEntries, N.AppendLog, N.Send;
      var ents := Stamped(payloads);
      var size := PayloadsSize(payloads);
      if uncommitted > 0 && size > 0 && uncommitted + size > opt.maxUncommitted { return false; }
      uncommitted := uncommitted + size;
      AppendLog(ents);
      Send(AppResp(opt.id, opt.id, term, |log|, false, 0, 0));
      return true;
    }

    /** The leader's entries are stamped, in place, with its term and the next indexes. */
    method Stamped(payloads: seq<Bytes>) returns (ents: seq<Entry>)
      ensures ents == NewEntries(Value(), payloads)
    {
      var li := |log|;
      var es := new Entry[|payloads|](i requires 0 <= i < |payloads| => Entry(0, 0, payloads[i]));
      for i := 0 to es.Length
        invariant forall j :: 0 <= j < i ==> es[j] == Entry(li + 1 + j, term, payloads[j])
        invariant forall j :: i <= j < es.Length ==> es[j].data == payloads[j]
      {
        es[i] := es[i].(term := term, index := li + 1 + i);
      }
      return es[..];
    }

    // -----------------------------------------------------------------------------------------
    // Roles
    // -----------------------------------------------------------------------------------------

    /** reset, with a loop over the tracked peers. */
    method Reset(t: nat)
      modifies this
      ensures Value() == N.Reset(old(Value()), t)
    {
      hide FreshPeers, N.Reset;
      ResetIs(Value(), t);
      ResetTerm(t);
      ResetPeers();
    }

    method ResetTerm(t: nat)
      modifies `term, `vote, `lead, `transferee, `votes, `uncommitted, `acks, `queue, `confirmed
      ensures term == t && vote == (if old(term) != t then NONE else old(vote))
      ensures lead == transferee == NONE && votes == map[] && uncommitted == 0
      ensures acks == map[] && queue == [] && confirmed == 0
    {
      if term != t {
        term := t;
        vote := NONE;
      }
      lead := NONE;
      transferee := NONE;
      votes := map[];
      uncommitted := 0;
      acks := map[];
      queue := [];
      confirmed := 0;
    }

    method ResetPeers()
      modifies `prs
      ensures prs == FreshPeers(opt.id, |log|, old(prs))
    {
      hide FreshPeers, ResetUpTo;
      var todo, was, last := prs.Keys, prs, |log|;
      ResetStart(opt.id, last, was);
      while todo != {}
        invariant last == |log| && ResetUpTo(opt.id, last, was, todo, prs)
        decreases |todo|
      {
        var x :| x in todo;
        ResetOne(opt.id, last, was, todo, prs, x);
        var next := FreshPeer(prs[x], 0, last + 1);
        if x == opt.id { next := next.(matched := last); }
        prs := prs[x := next];
        todo := todo - {x};
      }
      ResetEnd(opt.id, last, was, prs);
    }

    method BecomeFollower(t: nat, leader: Id)
      modifies this
      ensures Value() == N.BecomeFollower(old(Value()), t, leader)
    {
      hide N.Reset;
      ResetKeeps(Value(), t);
      Reset(t);
      lead := leader;
      state := StateFollower;
    }

    method BecomeCandidate()
      modifies this
      ensures Value() == N.BecomeCandidate(old(Value()))
    {
      hide N.Reset;
      if state.StateLeader? {
        Panic();
        return;
      }
      ResetKeeps(Value(), term + 1);
      Reset(term + 1);
      vote := opt.id;
      state := StateCandidate;
    }

    method BecomePreCandidate()
      modifies this
      ensures Value() == N.BecomePreCandidate(old(Value()))
    {
      if state.StateLeader? {
        Panic();
        return;
      }
      votes, lead, state := map[], NONE, StatePreCandidate;
    }

    method BecomeLeader()
      modifies this
      ensures Value() == N.BecomeLeader(old(Value()))
    {
      hide N.AppendEntry, N.Reset, Replicating;
      if state.StateFollower? || opt.id !in prs {
        Panic();
        return;
      }
      ResetKeeps(Value(), term);
      Reset(term);
      lead := opt.id;
      state := StateLeader;
      prs := prs[opt.id := Replicating(prs[opt.id]).(recentActive := true)];
      var accepted := AppendEntry([[]]);
      if !accepted { Panic(); }
    }

    method Campaign(t: CampaignType)
      modifies this
      ensures Value() == N.Campaign(old(Value()), t)
    {
      hide N.SendVotes, N.BecomePreCandidate, N.BecomeCandidate;
      var voteTerm;
      if t.PreElection? {
        BecomePreCandidate();
        voteTerm := term + 1;
      } else {
        BecomeCandidate();
        voteTerm := term;
      }
      SendVotes(t, voteTerm);
    }

    /** The vote requests go out in the order of the voters' ids; the own vote is a response. */
    method SendVotes(t: CampaignType, voteTerm: nat)
      modifies `msgs, `afterAppend, `panicked
      ensures Value() == N.SendVotes(old(Value()), opt.peers, t, voteTerm)
    {
      hide N.Send, ZeroTerm;
      var ids := opt.peers;
      assert ids[0..] == ids;
      for i := 0 to |ids|
        invariant N.SendVotes(Value(), ids[i..], t, voteTerm) == N.SendVotes(old(Value()), ids, t, voteTerm)
      {
        assert ids[i..][1..] == ids[i + 1..];
        var x := ids[i];
        if x in Voters(opt.voters) {
          if x == opt.id {
            Send(if t.PreElection? then PreVoteResp(x, x, voteTerm, false) else VoteResp(x, x, voteTerm, false));
          } else {
            var lastTerm := ZeroTerm(Value(), |log|);
            Send(if t.PreElection? then PreVote(opt.id, x, voteTerm, |log|, lastTerm)
                 else Vote(opt.id, x, voteTerm, |log|, lastTerm, t.Transfer?));
          }
        }
      }
    }

    method StartCampaign(t: CampaignType)
      modifies this
      ensures Value() == N.StartCampaign(old(Value()), t)
    {
      hide N.Campaign;
      if state.StateLeader? { return; }
      if !Promotable(Value()) { return; }
      Campaign(t);
    }

    method RecordVote(x: Id, granted: bool)
      modifies `votes
      ensures Value() == N.RecordVote(old(Value()), x, granted)
    {
      if x !in votes { votes := votes[x := granted]; }
    }

    method Poll(from: Id, granted: bool)
      modifies this
      ensures Value() == N.Poll(old(Value()), from, granted)
    {
      hide N.Campaign, N.BecomeLeader, N.BcastAppend, N.BecomeFollower, JointVote;
      var pre, t := state.StatePreCandidate?, term;
      RecordVote(from, granted);
      var result := VoteOf(opt.voters, votes);
      match result {
        case VoteWon =>
          if pre {
            Campaign(Election);
          } else {
            BecomeLeader();
            BcastAppend();
          }
        case VoteLost => BecomeFollower(t, NONE);
        case VotePending =>
      }
    }

    // -----------------------------------------------------------------------------------------
    // Reads
    // -----------------------------------------------------------------------------------------

    /** readOnly.recvAck. */
    method RecvAck(from: Id, ctx: nat)
      modifies `acks
      ensures Value() == N.RecvAck(old(Value()), from, ctx)
    {
      if ctx != 0 {
        if from !in acks {
          acks := acks[from := ctx];
        } else if ctx > acks[from] {
          acks := acks[from := ctx];
        } else {
          assert acks == acks[from := acks[from]];
        }
      }
    }

    /** readOnly.maybeAdvance: the reads now confirmed, taken off the queue. */
    method MaybeAdvance() returns (confirmedReads: seq<Queued>)
      modifies `queue, `confirmed, `panicked
      ensures (Value(), confirmedReads) == N.MaybeAdvance(old(Value()))
    {
      hide JointCommitted;
      var k := CommittedOf(opt.voters, acks);
      if k <= confirmed { return []; }
      if k - confirmed > |queue| {
        Panic();
        return [];
      }
      confirmedReads := queue[..k - confirmed];
      queue := queue[k - confirmed..];
      confirmed := k;
    }

    method Respond(q: Queued)
      modifies `readStates, `msgs, `afterAppend, `panicked
      ensures Value() == N.Respond(old(Value()), q)
    {
      if q.req.from == NONE || q.req.from == opt.id {
        readStates := readStates + [ReadState(q.index, q.req.data)];
      } else {
        Send(ReadIndexResp(opt.id, q.req.from, term, q.index, q.req.data));
      }
    }

    method RespondAll(qs: seq<Queued>)
      modifies `readStates, `msgs, `afterAppend, `panicked
      ensures Value() == N.RespondAll(old(Value()), qs)
    {
      hide N.Respond;
      assert qs[0..] == qs;
      for i := 0 to |qs|
        invariant N.RespondAll(Value(), qs[i..]) == N.RespondAll(old(Value()), qs)
      {
        assert qs[i..][1..] == qs[i + 1..];
        Respond(qs[i]);
      }
    }

    /** sendMsgReadIndexResponse of a leader of several voters. */
    method QueueRead(req: Request)
      modifies `prs, `queue, `acks, `msgs, `afterAppend, `panicked
      ensures Value() == N.QueueRead(old(Value()), req)
    {
      hide N.RecvAck, N.BcastHeartbeat, HeartbeatCtx;
      queue := queue + [Queued(req, committed)];
      var ctx := HeartbeatCtx(Value());
      RecvAck(opt.id, ctx);
      RecvAckKeeps(old(Value()).(queue := old(queue) + [Queued(req, committed)]), opt.id, ctx);
      BcastHeartbeat(ctx);
    }

    /** releasePendingReadIndexMessages. */
    method ReleaseWaiting()
      modifies `prs, `queue, `acks, `waiting, `msgs, `afterAppend, `panicked
      ensures Value() == N.ReleaseWaiting(old(Value()))
    {
      hide N.QueueRead, CommittedInTerm;
      if |waiting| == 0 { return; }
      if !CommittedInTerm(Value()) { return; }
      var reqs := waiting;
      waiting := [];
      ghost var start := Value();
      assert reqs[0..] == reqs;
      for i := 0 to |reqs|
        invariant N.QueueReads(Value(), reqs[i..]) == N.QueueReads(start, reqs)
      {
        assert reqs[i..][1..] == reqs[i + 1..];
        QueueRead(reqs[i]);
      }
    }

    // -----------------------------------------------------------------------------------------
    // Messages
    // -----------------------------------------------------------------------------------------

    method HandleAppendEntries(m: Message)
      requires m.App?
      modifies `log, `committed, `msgs, `afterAppend, `panicked
      ensures Value() == N.HandleAppendEntries(old(Value()), m)
    {
      hide N.MaybeAppend, N.FindConflictByTerm, N.Send;
      if m.prevIndex < committed {
        Send(AppResp(opt.id, m.from, term, committed, false, 0, 0));
        return;
      }
      ghost var before := Value();
      RefusedKeeps(before, m.prevIndex, m.prevTerm, m.ents, m.commit);
      var last := MaybeAppend(m.prevIndex, m.prevTerm, m.ents, m.commit);
      if last.Some? {
        Send(AppResp(opt.id, m.from, term, last.value, false, 0, 0));
        return;
      }
      var hint, hintTerm := FindConflictByTerm(Min(m.prevIndex, |log|), m.prevTerm);
      Send(AppResp(opt.id, m.from, term, m.prevIndex, true, hint, hintTerm));
    }

    method HandleSnapshot(m: Message)
      requires m.Snap?
      modifies this
      ensures Value() == N.HandleSnapshot(old(Value()), m)
    {
      hide N.Restore, N.Send;
      var restored := Restore(m);
      if restored {
        Send(AppResp(opt.id, m.from, term, |log|, false, 0, 0));
      } else {
        Send(AppResp(opt.id, m.from, term, committed, false, 0, 0));
      }
    }

    /** restore: whether the snapshot replaced the log. */
    method Restore(m: Message) returns (restored: bool)
      requires m.Snap?
      modifies this
      ensures (Value(), restored) == N.Restore(old(Value()), m)
    {
      hide N.BecomeFollower, N.CommitTo, MatchTerm, N.Restored, RestoredPeers;
      if m.index <= committed { return false; }
      if !state.StateFollower? {
        BecomeFollower(term + 1, NONE);
        return false;
      }
      if opt.id !in opt.peers { return false; }
      if MatchTerm(Value(), m.index, m.snapTerm) {
        CommitTo(m.index);
        return false;
      }
      RestoredIs(Value(), m);
      RestoreLog(m);
      prs := RestoredPeers(opt, m.index);
      return true;
    }

    /** raftLog.restore; the votes go with the old configuration. */
    method RestoreLog(m: Message)
      requires m.Snap?
      modifies `log, `committed, `compacted, `snapshot, `restoring, `votes
      ensures log == m.covered && committed == compacted == snapshot == restoring == m.index && votes == map[]
    {
      log, committed, votes := m.covered, m.index, map[];
      compacted, snapshot, restoring := m.index, m.index, m.index;
    }

    method HandleHeartbeat(m: Message)
      requires m.Heartbeat?
      modifies `committed, `msgs, `afterAppend, `panicked
      ensures Value() == N.HandleHeartbeat(old(Value()), m)
    {
      hide N.CommitTo, N.Send;
      CommitTo(m.commit);
      Send(HeartbeatResp(opt.id, m.from, term, m.ctx));
    }

    method LeaderAppResp(m: Message)
      requires m.AppResp? && m.from in prs
      modifies this
      ensures Value() == N.LeaderAppResp(old(Value()), m)
    {
      hide Rejected, Acked, N.SendAppend, N.LeaderAcked, N.FindConflictByTerm;
      var x := m.from;
      prs := prs[x := prs[x].(recentActive := true)];
      if prs[x].next == 0 {
        Panic();
        return;
      }
      if m.reject {
        var probe := m.hint;
        if m.hintTerm > 0 {
          var t;
          probe, t := FindConflictByTerm(m.hint, m.hintTerm);
        }
        assert probe == NextProbe(Value(), m);
        var (pr, lowered) := Rejected(prs[x], m.index, probe);
        if lowered {
          prs := prs[x := pr];
          SendAppend(x);
        }
      } else {
        var (pr, news) := Acked(prs[x], m.index, compacted + 1);
        if news {
          prs := prs[x := pr];
          LeaderAcked(x);
        }
      }
    }

    method LeaderAcked(x: Id)
      requires x in prs
      modifies this
      ensures Value() == N.LeaderAcked(old(Value()), x)
    {
      hide N.MaybeCommit, N.ReleaseWaiting, N.BcastAppend, N.SendAppend, N.SendMore, N.Send, Bumpable;
      var t, pr, at := term, prs[x], committed;
      var changed := MaybeCommit();
      CommitKeeps(old(Value()));
      if changed {
        ReleaseWaiting();
        BcastAppend();
      } else if x != opt.id && Bumpable(pr, at) {
        SendAppend(x);
      }
      if x != opt.id { SendMore(x); }
      if x == transferee && x in prs && prs[x].matched == |log| {
        Send(TimeoutNow(opt.id, x, t));
      }
    }

    method LeaderHeartbeatResp(m: Message)
      requires m.HeartbeatResp? && m.from in prs
      modifies this
      ensures Value() == N.LeaderHeartbeatResp(old(Value()), m)
    {
      hide N.SendAppend, N.RecvAck, N.MaybeAdvance, N.RespondAll;
      var x := m.from;
      prs := prs[x := prs[x].(recentActive := true, paused := false)];
      if prs[x].matched < |log| || prs[x].mode.Probe? { SendAppend(x); }
      if m.ctx == 0 { return; }
      RecvAck(x, m.ctx);
      var qs := MaybeAdvance();
      RespondAll(qs);
    }

    method LeaderTransfer(x: Id)
      requires x in prs
      modifies this
      ensures Value() == N.LeaderTransfer(old(Value()), x)
    {
      hide N.SendAppend, N.Send;
      if prs[x].learner || transferee == x { return; }
      if x == opt.id {
        transferee := NONE;
        return;
      }
      transferee := x;
      if prs[x].matched == |log| {
        Send(TimeoutNow(opt.id, x, term));
      } else {
        SendAppend(x);
      }
    }

    /** MsgCheckQuorum: a leader that lost touch with a quorum steps down. */
    method CheckQuorum(m: Message)
      requires m.CheckQuorum?
      modifies this
      ensures Value() == N.StepLeader(old(Value()), m)
    {
      hide JointVote, N.BecomeFollower;
      var active := map x | x in prs && !prs[x].learner :: prs[x].recentActive;
      var result := VoteOf(opt.voters, active);
      if !result.VoteWon? { BecomeFollower(term, NONE); }
      prs := map x | x in prs :: if x == opt.id then prs[x] else prs[x].(recentActive := false);
    }

    /** stepLeader first takes the messages that concern no single peer, then the others. */
    method StepLeader(m: Message)
      modifies this
      ensures Value() == N.StepLeader(old(Value()), m)
    {
      hide N.StepLeader;
      if m.Beat? || m.CheckQuorum? || m.Prop? || m.ReadIndex? {
        StepLeaderAny(m);
      } else {
        StepLeaderPeer(m);
      }
    }

    method StepLeaderAny(m: Message)
      requires m.Beat? || m.CheckQuorum? || m.Prop? || m.ReadIndex?
      modifies this
      ensures Value() == N.StepLeader(old(Value()), m)
    {
      hide N.StepLeader;
      if m.Beat? {
        Beat(m);
      } else if m.CheckQuorum? {
        CheckQuorum(m);
      } else if m.Prop? {
        Propose(m);
      } else {
        AskRead(m);
      }
    }

    method Beat(m: Message)
      requires m.Beat?
      modifies this
      ensures Value() == N.StepLeader(old(Value()), m)
    {
      hide N.BcastHeartbeat, HeartbeatCtx;
      var ctx := HeartbeatCtx(Value());
      BcastHeartbeat(ctx);
    }

    method Propose(m: Message)
      requires m.Prop?
      modifies this
      ensures Value() == N.StepLeader(old(Value()), m)
    {
      hide N.AppendEntry, N.BcastAppend;
      if |m.payloads| == 0 {
        Panic();
        return;
      }
      if opt.id !in prs || transferee != NONE { return; }
      RefusedEntryKeeps(Value(), m.payloads);
      var accepted := AppendEntry(m.payloads);
      if accepted { BcastAppend(); }
    }

    method AskRead(m: Message)
      requires m.ReadIndex?
      modifies this
      ensures Value() == N.StepLeader(old(Value()), m)
    {
      hide N.Respond, N.QueueRead, CommittedInTerm, IsSingleton;
      if IsSingleton(Value()) {
        Respond(Queued(Request(m.from, m.data), committed));
      } else if !CommittedInTerm(Value()) {
        waiting := waiting + [Request(m.from, m.data)];
      } else {
        QueueRead(Request(m.from, m.data));
      }
    }

    method StepLeaderPeer(m: Message)
      requires !(m.Beat? || m.CheckQuorum? || m.Prop? || m.ReadIndex?)
      modifies this
      ensures Value() == N.StepLeader(old(Value()), m)
    {
      hide N.LeaderAppResp, N.LeaderHeartbeatResp, N.LeaderTransfer, Probing;
      var x := m.from;
      if x !in prs { return; }
      if m.AppResp? {
        LeaderAppResp(m);
      } else if m.HeartbeatResp? {
        LeaderHeartbeatResp(m);
      } else if m.SnapStatus? {
        if !prs[x].mode.Snapshot? { return; }
        var pr := prs[x];
        if m.failed { pr := pr.(pendingSnapshot := 0); }
        prs := prs[x := Probing(pr).(paused := true)];
      } else if m.Unreachable? {
        if prs[x].mode.Replicate? { prs := prs[x := Probing(prs[x])]; }
      } else if m.TransferLeader? {
        LeaderTransfer(x);
      }
    }

    method StepCandidate(m: Message)
      modifies this
      ensures Value() == N.StepCandidate(old(Value()), m)
    {
      hide N.BecomeFollower, N.HandleAppendEntries, N.HandleHeartbeat, N.HandleSnapshot, N.Poll;
      match m {
        case App(from, _, t, _, _, _, _) => BecomeFollower(t, from); HandleAppendEntries(m);
        case Heartbeat(from, _, t, _, _) => BecomeFollower(t, from); HandleHeartbeat(m);
        case Snap(from, _, t, _, _, _) => BecomeFollower(t, from); HandleSnapshot(m);
        case PreVoteResp(from, _, _, reject) => if state.StatePreCandidate? { Poll(from, !reject); }
        case VoteResp(from, _, _, reject) => if !state.StatePreCandidate? { Poll(from, !reject); }
        case _ =>
      }
    }

    method StepFollower(m: Message)
      modifies this
      ensures Value() == N.StepFollower(old(Value()), m)
    {
      hide N.StepFollower;
      if m.Prop? || m.TransferLeader? || m.ReadIndex? {
        Forward(m);
      } else {
        Follow(m);
      }
    }

    /** What a follower passes on to its leader. */
    method Forward(m: Message)
      requires m.Prop? || m.TransferLeader? || m.ReadIndex?
      modifies this
      ensures Value() == N.StepFollower(old(Value()), m)
    {
      hide N.Send, N.StepFollower;
      FollowerForwards(Value(), m);
      if lead == NONE { return; }
      if m.Prop? {
        if opt.disableForwarding { return; }
        Send(Prop(if m.from == NONE then opt.id else m.from, lead, m.payloads));
      } else if m.ReadIndex? {
        Send(ReadIndex(if m.from == NONE then opt.id else m.from, lead, m.data));
      } else if m.term != 0 {
        Panic();
      } else {
        Send(TransferLeader(if m.from == NONE then opt.id else m.from, lead, term));
      }
    }

    method Follow(m: Message)
      requires !(m.Prop? || m.TransferLeader? || m.ReadIndex?)
      modifies this
      ensures Value() == N.StepFollower(old(Value()), m)
    {
      hide N.HandleAppendEntries, N.HandleHeartbeat, N.HandleSnapshot, N.StartCampaign;
      if m.App? {
        lead := m.from;
        HandleAppendEntries(m);
      } else if m.Heartbeat? {
        lead := m.from;
        HandleHeartbeat(m);
      } else if m.Snap? {
        lead := m.from;
        HandleSnapshot(m);
      } else if m.ForgetLeader? {
        lead := NONE;
      } else if m.TimeoutNow? {
        StartCampaign(Transfer);
      } else if m.ReadIndexResp? {
        readStates := readStates + [ReadState(m.index, m.data)];
      }
    }

    method HandleVote(m: Message)
      requires m.Vote? || m.PreVote?
      modifies `vote, `msgs, `afterAppend, `panicked
      ensures Value() == N.HandleVote(old(Value()), m)
    {
      hide N.Send, IsUpToDate;
      var canVote := vote == m.from || (vote == NONE && lead == NONE) || (m.PreVote? && m.term > term);
      if canVote && IsUpToDate(Value(), m.lastIndex, m.lastTerm) {
        Send(if m.Vote? then VoteResp(opt.id, m.from, m.term, false) else PreVoteResp(opt.id, m.from, m.term, false));
        if m.Vote? { vote := m.from; }
      } else {
        Send(if m.Vote? then VoteResp(opt.id, m.from, term, true) else PreVoteResp(opt.id, m.from, term, true));
      }
    }

    /** raft.Step: the term first, then the message. */
    method Step(m: Message, recent: bool)
      modifies this
      ensures Value() == N.Step(old(Value()), m, recent)
    {
      hide N.Handle, N.BecomeFollower, InLease, N.LowTerm;
      var t := TermOf(m);
      if t == 0 {
      } else if t > term {
        if InLease(Value(), m, recent) { return; }
        if m.PreVote? || (m.PreVoteResp? && !m.reject) {
        } else if m.App? || m.Heartbeat? || m.Snap? {
          BecomeFollower(t, m.from);
        } else {
          BecomeFollower(t, NONE);
        }
      } else if t < term {
        LowTerm(m);
        return;
      }
      Handle(m);
    }

    method LowTerm(m: Message)
      modifies `restoring, `msgs, `afterAppend, `panicked
      ensures Value() == N.LowTerm(old(Value()), m)
    {
      hide N.Send;
      if (opt.checkQuorum || opt.preVote) && (m.Heartbeat? || m.App?) {
        Send(AppResp(opt.id, m.from, term, 0, false, 0, 0));
      } else if m.PreVote? {
        Send(PreVoteResp(opt.id, m.from, term, true));
      } else if m.StorageAppendResp? {
        SnapshotStored(m.snapshot);
      }
    }

    /** appliedSnap. */
    method SnapshotStored(i: nat)
      modifies `restoring
      ensures Value() == N.SnapshotStored(old(Value()), i)
    {
      if i != 0 && restoring == i { restoring := 0; }
    }

    /** reduceUncommittedSize. */
    method ReduceUncommitted(size: nat)
      modifies `uncommitted
      ensures Value() == N.ReduceUncommitted(old(Value()), size)
    {
      if size > uncommitted { uncommitted := 0; } else { uncommitted := uncommitted - size; }
    }

    method Handle(m: Message)
      modifies this
      ensures Value() == N.Handle(old(Value()), m)
    {
      hide N.Handle, N.StartCampaign, N.HandleVote, N.StepRole, N.SnapshotStored, N.ReduceUncommitted;
      HandleIs(Value(), m);
      if m.Hup? {
        StartCampaign(if opt.preVote then PreElection else Election);
      } else if m.Vote? || m.PreVote? {
        HandleVote(m);
      } else if m.StorageAppendResp? {
        SnapshotStored(m.snapshot);
      } else if m.StorageApplyResp? {
        ReduceUncommitted(m.size);
      } else {
        StepRole(m);
      }
    }

    /** raft.step. */
    method StepRole(m: Message)
      modifies this
      ensures Value() == N.StepRole(old(Value()), m)
    {
      hide N.StepLeader, N.StepFollower, N.StepCandidate;
      if state.StateLeader? {
        StepLeader(m);
      } else if state.StateFollower? {
        StepFollower(m);
      } else {
        StepCandidate(m);
      }
    }
  }

  function FreshPeers(id: Id, last: nat, prs: map<Id, Peer>): map<Id, Peer> {
    map x | x in prs :: FreshPeer(prs[x], if x == id then last else 0, last + 1)
  }

  /** All peers but those still to do are reset. */
  predicate ResetUpTo(id: Id, last: nat, was: map<Id, Peer>, todo: set<Id>, prs: map<Id, Peer>) {
    && prs.Keys == was.Keys && todo <= was.Keys
    && forall x :: x in was ==>
         prs[x] == if x in todo then was[x] else FreshPeer(was[x], if x == id then last else 0, last + 1)
  }

  lemma ResetStart(id: Id, last: nat, was: map<Id, Peer>)
    ensures ResetUpTo(id, last, was, was.Keys, was)
  {
  }

  lemma ResetOne(id: Id, last: nat, was: map<Id, Peer>, todo: set<Id>, prs: map<Id, Peer>, x: Id)
    requires ResetUpTo(id, last, was, todo, prs) && x in todo
    ensures x in prs
    ensures var p := FreshPeer(prs[x], 0, last + 1);
            ResetUpTo(id, last, was, todo - {x}, prs[x := if x == id then p.(matched := last) else p])
  {
  }

  lemma ResetEnd(id: Id, last: nat, was: map<Id, Peer>, prs: map<Id, Peer>)
    requires ResetUpTo(id, last, was, {}, prs)
    ensures prs == FreshPeers(id, last, was)
  {
    hide FreshPeer;
  }

  lemma ResetIs(nd: N.Node, t: nat)
    ensures N.Reset(nd, t)
            == N.Node(nd.opt, t, if nd.term != t then NONE else nd.vote, NONE, NONE, nd.state, nd.log, nd.committed,
                      nd.compacted, nd.snapshot, nd.restoring, FreshPeers(nd.opt.id, |nd.log|, nd.prs), map[], 0, map[], [], 0,
                      nd.waiting, nd.readStates, nd.msgs, nd.afterAppend, nd.panicked)
  {
    hide FreshPeer;
  }

  lemma RestoredIs(nd: N.Node, m: Message)
    requires m.Snap?
    ensures N.Restored(nd, m)
            == N.Node(nd.opt, nd.term, nd.vote, nd.lead, nd.transferee, nd.state, m.covered, m.index, m.index, m.index, m.index,
                      RestoredPeers(nd.opt, m.index), map[], nd.uncommitted, nd.acks, nd.queue, nd.confirmed,
                      nd.waiting, nd.readStates, nd.msgs, nd.afterAppend, nd.panicked)
  {
    hide RestoredPeers;
  }

  /** A reset touches no more than it should. */
  lemma ResetKeeps(nd: N.Node, t: nat)
    ensures var r := N.Reset(nd, t); r.opt == nd.opt && r.prs.Keys == nd.prs.Keys && r.term == t && r.log == nd.log
  {
  }

  lemma HandleIs(nd: N.Node, m: Message)
    ensures N.Handle(nd, m)
            == if m.Hup? then N.StartCampaign(nd, if nd.opt.preVote then PreElection else Election)
               else if m.Vote? || m.PreVote? then N.HandleVote(nd, m)
               else if m.StorageAppendResp? then N.SnapshotStored(nd, m.snapshot)
               else if m.StorageApplyResp? then N.ReduceUncommitted(nd, m.size)
               else N.StepRole(nd, m)
  {
    hide N.StartCampaign, N.HandleVote, N.StepRole, N.SnapshotStored, N.ReduceUncommitted;
  }

  lemma FollowerForwards(nd: N.Node, m: Message)
    requires m.Prop? || m.TransferLeader? || m.ReadIndex?
    ensures N.StepFollower(nd, m)
            == if nd.lead == NONE || (m.Prop? && nd.opt.disableForwarding) then nd
               else if m.TransferLeader? && m.term != 0 then N.Panic(nd)
               else
                 var from := if m.from == NONE then nd.opt.id else m.from;
                 N.Send(nd, if m.Prop? then Prop(from, nd.lead, m.payloads)
                            else if m.ReadIndex? then ReadIndex(from, nd.lead, m.data)
                            else TransferLeader(from, nd.lead, nd.term))
  {
    hide N.Send;
  }

  lemma RecvAckKeeps(nd: N.Node, from: Id, ctx: nat)
    ensures N.RecvAck(nd, from, ctx).queue == nd.queue && N.RecvAck(nd, from, ctx).confirmed == nd.confirmed
    ensures N.RecvAck(nd, from, ctx).opt == nd.opt && HeartbeatCtx(N.RecvAck(nd, from, ctx)) == HeartbeatCtx(nd)
  {
  }

  lemma SendKeepsPeers(nd: N.Node)
    ensures forall m :: N.Send(nd, m).prs == nd.prs && N.Send(nd, m).committed == nd.committed
  {
  }

  /** A refused append leaves the node as it was. */
  lemma RefusedKeeps(nd: N.Node, prevIndex: nat, prevTerm: nat, ents: seq<Entry>, commit: nat)
    ensures N.MaybeAppend(nd, prevIndex, prevTerm, ents, commit).1.None? ==>
              N.MaybeAppend(nd, prevIndex, prevTerm, ents, commit).0 == nd
  {
    hide N.AppendLog, N.CommitTo, N.FindConflict;
  }

  lemma RefusedEntryKeeps(nd: N.Node, payloads: seq<Bytes>)
    ensures !N.AppendEntry(nd, payloads).1 ==> N.AppendEntry(nd, payloads).0 == nd
  {
    hide N.AppendLog, N.Send, NewEntries, PayloadsSize;
  }

  lemma CommitKeeps(nd: N.Node)
    ensures !N.MaybeCommit(nd).1 ==> N.MaybeCommit(nd).0 == nd
  {
    hide JointCommitted, N.CommitTo;
  }
}
