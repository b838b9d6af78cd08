/** Where a node's answers come from: answers to other nodes' reads leave with the leader's release of the
    reads they answer, what a node tells its application it either released itself or was told, and votes
    are granted to those who ask for them. */
module NodeAnswers {
  import opened Types
  import opened Quorum
  import opened Messages
  import opened Limit
  import opened InflightWindow
  import opened PeerProgress
  import opened Node
  import opened NodeView
  import opened NodeReads
  import opened NodeStep

  /** Answers never wait for a write. */
  predicate Clean(nd: Node) {
    forall m :: m in nd.afterAppend ==> !m.ReadIndexResp?
  }

  /** A vote or pre-vote granted to another node. */
  predicate ForeignGrant(r: Message) {
    (r.VoteResp? || r.PreVoteResp?) && !r.reject && r.from != r.to
  }

  /** The grants to others on their way. */
  function Grants(nd: Node): set<Message> {
    set r | r in Out(nd) && ForeignGrant(r)
  }

  /** No read is answered, here or elsewhere. */
  predicate Hushed(nd: Node, nd': Node) {
    Replies(nd') == Replies(nd) && nd'.readStates == nd.readStates && (Clean(nd) ==> Clean(nd'))
  }

  /** Nor is a vote granted to another node. */
  predicate Mute(nd: Node, nd': Node) {
    Hushed(nd, nd') && Grants(nd') <= Grants(nd)
  }

  /** Nor does the node change role or term. */
  predicate Calm(nd: Node, nd': Node) {
    Mute(nd, nd') && nd'.state == nd.state && nd'.term == nd.term
  }

  // ---------------------------------------------------------------------------------------------
  // Handlers that answer nothing
  // ---------------------------------------------------------------------------------------------

  lemma SendCalm(nd: Node, m: Message)
    requires !m.ReadIndexResp? && !ForeignGrant(m)
    ensures Calm(nd, Send(nd, m))
  {
    hide Hushed, Grants;
    SendKeeps(nd, m);
    Emits(nd, m);
    GrantsNext(nd, m);
  }

  lemma GrantsNext(nd: Node, m: Message)
    ensures Grants(Send(nd, m)) <= Grants(nd) + {m}
    ensures !ForeignGrant(m) ==> Grants(Send(nd, m)) <= Grants(nd)
  {
  }

  lemma Emits(nd: Node, m: Message)
    requires !m.ReadIndexResp?
    ensures Hushed(nd, Send(nd, m))
  {
    hide Clean, RepliesIn, IsVoteKind;
    RepliesNext(nd.msgs, m);
    CleanNext(nd, nd.(afterAppend := nd.afterAppend + [m]), m);
    CleanSame(nd, Send(nd, m));
  }

  lemma CleanNext(nd: Node, nd': Node, m: Message)
    requires !m.ReadIndexResp? && nd'.afterAppend == nd.afterAppend + [m]
    ensures Clean(nd) ==> Clean(nd')
  {
  }

  lemma CleanSame(nd: Node, nd': Node)
    ensures nd'.afterAppend == nd.afterAppend ==> Clean(nd') == Clean(nd)
  {
  }

  lemma GrantsSame(nd: Node, nd': Node)
    requires nd'.msgs == nd.msgs && nd'.afterAppend == nd.afterAppend
    ensures Grants(nd') == Grants(nd)
  {
  }

  /** Progress, panics and the log do not matter. */
  lemma AsIs(nd: Node, nd1: Node, nd2: Node)
    requires nd2.msgs == nd1.msgs && nd2.afterAppend == nd1.afterAppend && nd2.readStates == nd1.readStates
    ensures Mute(nd, nd1) ==> Mute(nd, nd2)
    ensures Calm(nd, nd1) && nd2.state == nd1.state && nd2.term == nd1.term ==> Calm(nd, nd2)
  {
    hide Grants;
    GrantsSame(nd1, nd2);
  }

  lemma Still(nd: Node)
    ensures Calm(nd, nd)
  {
  }

  lemma CalmTrans(nd: Node, nd1: Node, nd2: Node)
    ensures Mute(nd, nd1) && Mute(nd1, nd2) ==> Mute(nd, nd2)
    ensures Calm(nd, nd1) && Calm(nd1, nd2) ==> Calm(nd, nd2)
  {
    hide Grants;
  }

  lemma AppendCalm(nd: Node, to: Id, ifEmpty: bool)
    ensures Calm(nd, MaybeSendAppend(nd, to, ifEmpty).0)
  {
    hide Calm, Mute, Send, MaybeSendSnapshot, EntriesFrom, Term, Paused, Full, SendPanics, AfterSend, PayloadsSize, Payloads;
    Still(nd);
    AsIs(nd, nd, Panic(nd));
    if to in nd.prs && nd.prs[to].next > 0 {
      var pr := nd.prs[to];
      SnapshotCalm(nd, to, pr);
      if !Paused(pr) && Term(nd, pr.next - 1).Some? {
        var ents := if pr.mode.Replicate? && Full(pr.window) then Some([]) else EntriesFrom(nd, pr.next);
        if ents.Some? && (ents.value != [] || ifEmpty) {
          var m := App(nd.opt.id, to, nd.term, pr.next - 1, Term(nd, pr.next - 1).value, ents.value, nd.committed);
          SendCalm(nd, m);
          AsIs(nd, Send(nd, m), MaybeSendAppend(nd, to, ifEmpty).0);
        }
      }
    }
  }

  lemma SnapshotCalm(nd: Node, to: Id, pr: Peer)
    ensures Calm(nd, MaybeSendSnapshot(nd, to, pr).0)
  {
    hide Calm, Mute, Send, Snapshotting, ZeroTerm, Covered;
    Still(nd);
    AsIs(nd, nd, Panic(nd));
    var nd1, m := WithPeer(nd, to, Snapshotting(pr, nd.snapshot)), Snap(nd.opt.id, to, nd.term, nd.snapshot, ZeroTerm(nd, nd.snapshot), Covered(nd));
    AsIs(nd, nd, nd1);
    SendCalm(nd1, m);
    CalmTrans(nd, nd1, Send(nd1, m));
  }

  lemma {:induction false} BcastCalm(nd: Node, ids: seq<Id>)
    ensures Calm(nd, BcastAppend(nd, ids))
    decreases |ids|
  {
    hide Calm, Mute, MaybeSendAppend;
    Still(nd);
    if ids != [] {
      var nd1 := if ids[0] == nd.opt.id then nd else SendAppend(nd, ids[0]);
      AppendCalm(nd, ids[0], true);
      BcastCalm(nd1, ids[1..]);
      CalmTrans(nd, nd1, BcastAppend(nd, ids));
    }
  }

  lemma {:induction false} SendMoreCalm(nd: Node, to: Id)
    ensures Calm(nd, SendMore(nd, to))
    decreases !nd.panicked, ToSend(nd, to)
  {
    hide Calm, Mute, MaybeSendAppend, ToSend;
    AppendCalm(nd, to, false);
    PanicStays(nd, to);
    var (nd1, sent) := MaybeSendAppend(nd, to, false);
    if sent && !nd1.panicked {
      SendingEnds(nd, to);
      SendMoreCalm(nd1, to);
      CalmTrans(nd, nd1, SendMore(nd, to));
    }
  }

  lemma PanicStays(nd: Node, to: Id)
    ensures nd.panicked ==> MaybeSendAppend(nd, to, false).0.panicked
  {
    hide EntriesFrom, Term, Paused, Full, SendPanics, AfterSend, PayloadsSize, Payloads;
  }

  lemma {:induction false} BeatCalm(nd: Node, ids: seq<Id>, ctx: nat)
    ensures Calm(nd, BcastHeartbeat(nd, ids, ctx))
    decreases |ids|
  {
    hide Calm, Mute, SendHeartbeat;
    Still(nd);
    if ids != [] {
      var nd1 := if ids[0] == nd.opt.id then nd else SendHeartbeat(nd, ids[0], ctx);
      HeartbeatCalm(nd, ids[0], ctx);
      BeatCalm(nd1, ids[1..], ctx);
      CalmTrans(nd, nd1, BcastHeartbeat(nd, ids, ctx));
    }
  }

  lemma HeartbeatCalm(nd: Node, to: Id, ctx: nat)
    ensures Calm(nd, SendHeartbeat(nd, to, ctx))
  {
    hide Calm, Mute, Send;
    Still(nd);
    AsIs(nd, nd, Panic(nd));
    if to in nd.prs {
      var m := Heartbeat(nd.opt.id, to, nd.term, Min(nd.prs[to].matched, nd.committed), ctx);
      SendCalm(nd, m);
      AsIs(nd, Send(nd, m), SendHeartbeat(nd, to, ctx));
      SendKeeps(nd, m);
    }
  }

  lemma SendKeeps(nd: Node, m: Message)
    ensures Send(nd, m) == nd.(msgs := Send(nd, m).msgs, afterAppend := Send(nd, m).afterAppend, panicked := Send(nd, m).panicked)
  {
  }

  lemma {:induction false} VotesMute(nd: Node, ids: seq<Id>, t: CampaignType, term: nat)
    ensures Mute(nd, SendVotes(nd, ids, t, term))
    decreases |ids|
  {
    hide Calm, Mute, Send, ZeroTerm;
    Still(nd);
    CalmMute(nd, nd);
    if ids != [] {
      var x := ids[0];
      var own := if t.PreElection? then PreVoteResp(x, x, term, false) else VoteResp(x, x, term, false);
      var ask := if t.PreElection? then PreVote(nd.opt.id, x, term, |nd.log|, ZeroTerm(nd, |nd.log|))
                 else Vote(nd.opt.id, x, term, |nd.log|, ZeroTerm(nd, |nd.log|), t.Transfer?);
      var nd1 := if x !in Voters(nd.opt.voters) then nd else if x == nd.opt.id then Send(nd, own) else Send(nd, ask);
      SendCalm(nd, own);
      SendCalm(nd, ask);
      CalmMute(nd, nd1);
      VotesMute(nd1, ids[1..], t, term);
      CalmTrans(nd, nd1, SendVotes(nd, ids, t, term));
    }
  }

  lemma CalmMute(nd: Node, nd': Node)
    ensures Calm(nd, nd') ==> Mute(nd, nd')
  {
  }

  lemma EntryCalm(nd: Node, payloads: seq<Bytes>)
    ensures Calm(nd, AppendEntry(nd, payloads).0)
  {
    hide Calm, Mute, Send, NewEntries, PayloadsSize;
    Still(nd);
    if AppendEntry(nd, payloads).1 {
      var nd1 := AppendLog(nd.(uncommitted := nd.uncommitted + PayloadsSize(payloads)), NewEntries(nd, payloads));
      AsIs(nd, nd, nd1);
      var m := AppResp(nd.opt.id, nd.opt.id, nd.term, LastIndex(nd1), false, 0, 0);
      SendCalm(nd1, m);
      CalmTrans(nd, nd1, Send(nd1, m));
    }
  }

  lemma LeaderMute(nd: Node)
    ensures Mute(nd, BecomeLeader(nd))
  {
    hide Mute, Calm, AppendEntry, Reset;
    Still(nd);
    CalmMute(nd, nd);
    AsIs(nd, nd, Panic(nd));
    ResetMute(nd, nd.term);
    if !nd.state.StateFollower? && nd.opt.id in nd.prs {
      ResetPeers(nd, nd.term);
      var nd1 := Reset(nd, nd.term).(lead := nd.opt.id, state := StateLeader);
      var nd2 := WithPeer(nd1, nd.opt.id, Replicating(nd1.prs[nd.opt.id]).(recentActive := true));
      AsIs(nd, Reset(nd, nd.term), nd2);
      EntryCalm(nd2, [[]]);
      var nd3 := AppendEntry(nd2, [[]]).0;
      CalmMute(nd2, nd3);
      CalmTrans(nd, nd2, nd3);
      AsIs(nd, nd3, Panic(nd3));
    }
  }

  lemma ResetPeers(nd: Node, term: nat)
    ensures Reset(nd, term).prs.Keys == nd.prs.Keys && Reset(nd, term).opt == nd.opt
  {
  }

  lemma ResetMute(nd: Node, term: nat)
    ensures Mute(nd, Reset(nd, term)) && Mute(nd, BecomeFollower(nd, term, NONE))
    ensures forall lead :: Mute(nd, BecomeFollower(nd, term, lead)) && BecomeFollower(nd, term, lead).state.StateFollower?
  {
    hide Grants;
    GrantsSame(nd, Reset(nd, term));
    forall lead ensures Grants(BecomeFollower(nd, term, lead)) == Grants(nd) { GrantsSame(nd, BecomeFollower(nd, term, lead)); }
  }

  lemma CandidateMute(nd: Node)
    ensures Mute(nd, BecomeCandidate(nd)) && Mute(nd, BecomePreCandidate(nd))
  {
    hide Grants;
    GrantsSame(nd, BecomeCandidate(nd));
    GrantsSame(nd, BecomePreCandidate(nd));
  }

  lemma CampaignMute(nd: Node, t: CampaignType)
    ensures Mute(nd, Campaign(nd, t)) && Mute(nd, StartCampaign(nd, t))
  {
    hide Mute, Calm, SendVotes, BecomeCandidate, BecomePreCandidate;
    Still(nd);
    CalmMute(nd, nd);
    CandidateMute(nd);
    var nd1 := if t.PreElection? then BecomePreCandidate(nd) else BecomeCandidate(nd);
    var term := if t.PreElection? then nd1.term + 1 else nd1.term;
    VotesMute(nd1, nd.opt.peers, t, term);
    CalmTrans(nd, nd1, SendVotes(nd1, nd.opt.peers, t, term));
  }

  lemma PollMute(nd: Node, from: Id, granted: bool)
    ensures Mute(nd, Poll(nd, from, granted))
  {
    hide Mute, Calm, Campaign, BecomeLeader, BcastAppend, BecomeFollower, JointVote;
    Still(nd);
    CalmMute(nd, nd);
    var nd1 := RecordVote(nd, from, granted);
    AsIs(nd, nd, nd1);
    CampaignMute(nd1, Election);
    CalmTrans(nd, nd1, Campaign(nd1, Election));
    LeaderMute(nd1);
    CalmTrans(nd, nd1, BecomeLeader(nd1));
    BcastCalm(BecomeLeader(nd1), nd.opt.peers);
    CalmMute(BecomeLeader(nd1), BcastAppend(BecomeLeader(nd1), nd.opt.peers));
    CalmTrans(nd, BecomeLeader(nd1), BcastAppend(BecomeLeader(nd1), nd.opt.peers));
    ResetMute(nd1, nd.term);
    CalmTrans(nd, nd1, BecomeFollower(nd1, nd.term, NONE));
  }

  // ---------------------------------------------------------------------------------------------
  // Followers and candidates
  // ---------------------------------------------------------------------------------------------

  /** Sending something else from a state with the same answers. */
  lemma ThenSend(nd: Node, nd1: Node, m: Message)
    requires Mute(nd, nd1) && !m.ReadIndexResp? && !ForeignGrant(m)
    ensures Mute(nd, Send(nd1, m))
  {
    hide Mute, Calm, Send;
    SendCalm(nd1, m);
    CalmMute(nd1, Send(nd1, m));
    CalmTrans(nd, nd1, Send(nd1, m));
  }

  lemma FollowMute(nd: Node, m: Message)
    requires FromLeader(m)
    ensures Mute(nd, Follow(nd, m))
  {
    hide Mute, Calm, Send, MaybeAppend, FindConflictByTerm, CommitTo, Restore;
    Still(nd);
    CalmMute(nd, nd);
    if m.App? {
      AppendKeeps(nd, m.prevIndex, m.prevTerm, m.ents, m.commit);
      var (nd1, last) := MaybeAppend(nd, m.prevIndex, m.prevTerm, m.ents, m.commit);
      AsIs(nd, nd, nd1);
      var (hint, hintTerm) := FindConflictByTerm(nd, Min(m.prevIndex, |nd.log|), m.prevTerm);
      ThenSend(nd, nd, AppResp(nd.opt.id, m.from, nd.term, nd.committed, false, 0, 0));
      ThenSend(nd, nd1, AppResp(nd.opt.id, m.from, nd.term, if last.Some? then last.value else 0, false, 0, 0));
      ThenSend(nd, nd, AppResp(nd.opt.id, m.from, nd.term, m.prevIndex, true, hint, hintTerm));
    } else if m.Heartbeat? {
      CommitKeeps(nd, m.commit);
      AsIs(nd, nd, CommitTo(nd, m.commit));
      ThenSend(nd, CommitTo(nd, m.commit), HeartbeatResp(nd.opt.id, m.from, nd.term, m.ctx));
    } else {
      RestoreMute(nd, m);
      var (nd1, restored) := Restore(nd, m);
      ThenSend(nd, nd1, AppResp(nd.opt.id, m.from, nd1.term, if restored then |nd1.log| else nd1.committed, false, 0, 0));
    }
  }

  lemma AppendKeeps(nd: Node, prevIndex: nat, prevTerm: nat, ents: seq<Entry>, commit: nat)
    ensures var nd1 := MaybeAppend(nd, prevIndex, prevTerm, ents, commit).0;
            nd1 == nd.(log := nd1.log, committed := nd1.committed, panicked := nd1.panicked)
  {
    hide MatchTerm, FindConflict, AppendLog, CommitTo;
    EntriesKept(nd, prevIndex, ents);
    CommitKeeps(nd, Min(commit, prevIndex + |ents|));
    CommitKeeps(Panic(nd), Min(commit, prevIndex + |ents|));
    CommitKeeps(AppendedAt(nd, prevIndex, ents), Min(commit, prevIndex + |ents|));
  }

  /** What an append puts into the log, if it puts anything. */
  function AppendedAt(nd: Node, prevIndex: nat, ents: seq<Entry>): Node {
    var ci := FindConflict(nd, ents);
    if prevIndex < ci <= prevIndex + |ents| + 1 then AppendLog(nd, ents[ci - (prevIndex + 1)..]) else nd
  }

  lemma EntriesKept(nd: Node, prevIndex: nat, ents: seq<Entry>)
    ensures var nd1 := AppendedAt(nd, prevIndex, ents);
            nd1 == nd.(log := nd1.log, panicked := nd1.panicked)
  {
    hide FindConflict;
  }

  lemma CommitKeeps(nd: Node, k: nat)
    ensures CommitTo(nd, k) == nd.(committed := CommitTo(nd, k).committed, panicked := CommitTo(nd, k).panicked)
  {
  }

  lemma RestoreMute(nd: Node, m: Message)
    requires m.Snap?
    ensures Mute(nd, Restore(nd, m).0)
  {
    hide Mute, Calm, CommitTo, BecomeFollower;
    Still(nd);
    CalmMute(nd, nd);
    CommitKeeps(nd, m.index);
    AsIs(nd, nd, CommitTo(nd, m.index));
    ResetMute(nd, nd.term + 1);
    AsIs(nd, nd, Restored(nd, m));
  }

  lemma VoteHushed(nd: Node, m: Message)
    requires m.Vote? || m.PreVote?
    ensures Hushed(nd, HandleVote(nd, m)) && HandleVote(nd, m).state == nd.state && HandleVote(nd, m).term == nd.term
  {
    hide Hushed, Send, IsUpToDate;
    var yes := if m.Vote? then VoteResp(nd.opt.id, m.from, m.term, false) else PreVoteResp(nd.opt.id, m.from, m.term, false);
    var no := if m.Vote? then VoteResp(nd.opt.id, m.from, nd.term, true) else PreVoteResp(nd.opt.id, m.from, nd.term, true);
    Emits(nd, yes);
    SendKeeps(nd, yes);
    Emits(nd, no);
    SendKeeps(nd, no);
    HushedSame(nd, Send(nd, yes), Send(nd, yes).(vote := m.from));
  }

  lemma HushedSame(nd: Node, nd1: Node, nd2: Node)
    requires Hushed(nd, nd1) && nd2.msgs == nd1.msgs && nd2.afterAppend == nd1.afterAppend && nd2.readStates == nd1.readStates
    ensures Hushed(nd, nd2)
  {
  }

  /** What a node tells its application anew was told to it. */
  predicate Told(nd: Node, m: Message, nd': Node) {
    && Replies(nd') == Replies(nd) && (Clean(nd) ==> Clean(nd'))
    && nd'.readStates == nd.readStates + if m.ReadIndexResp? && nd'.readStates != nd.readStates then [ReadState(m.index, m.data)] else []
  }

  lemma MuteTold(nd: Node, m: Message, nd': Node)
    ensures Mute(nd, nd') ==> Told(nd, m, nd') && Withheld(nd, m, nd')
    ensures Hushed(nd, nd') ==> Told(nd, m, nd')
  {
    hide Grants;
  }

  /** Votes are granted to those who ask for them alone. */
  predicate Withheld(nd: Node, m: Message, nd': Node) {
    m.Vote? || m.PreVote? || Grants(nd') <= Grants(nd)
  }

  lemma FollowerTold(nd: Node, m: Message)
    ensures Told(nd, m, StepFollower(nd, m)) && Withheld(nd, m, StepFollower(nd, m))
  {
    hide Mute, Calm, Told, Withheld, Send, StartCampaign, HandleAppendEntries, HandleHeartbeat, HandleSnapshot;
    var nd' := StepFollower(nd, m);
    Still(nd);
    CalmMute(nd, nd);
    MuteTold(nd, m, nd');
    if FromLeader(m) {
      var nd1 := nd.(lead := m.from);
      AsIs(nd, nd, nd1);
      FollowMute(nd1, m);
      CalmTrans(nd, nd1, Follow(nd1, m));
    } else if m.ReadIndexResp? {
      ToldSo(nd, m);
    } else {
      AsIs(nd, nd, Panic(nd));
      AsIs(nd, nd, nd.(lead := NONE));
      CampaignMute(nd, Transfer);
      ForwardMute(nd, m);
    }
  }

  lemma ToldSo(nd: Node, m: Message)
    requires m.ReadIndexResp?
    ensures var nd' := nd.(readStates := nd.readStates + [ReadState(m.index, m.data)]); Told(nd, m, nd') && Withheld(nd, m, nd')
  {
    hide Grants;
    GrantsSame(nd, nd.(readStates := nd.readStates + [ReadState(m.index, m.data)]));
  }

  lemma ForwardMute(nd: Node, m: Message)
    ensures m.Prop? ==> Mute(nd, Send(nd, Prop(if m.from == NONE then nd.opt.id else m.from, nd.lead, m.payloads)))
    ensures m.TransferLeader? ==> Mute(nd, Send(nd, TransferLeader(if m.from == NONE then nd.opt.id else m.from, nd.lead, nd.term)))
    ensures m.ReadIndex? ==> Mute(nd, Send(nd, ReadIndex(if m.from == NONE then nd.opt.id else m.from, nd.lead, m.data)))
  {
    hide Mute, Send, Calm;
    Still(nd);
    CalmMute(nd, nd);
    var from := if m.from == NONE then nd.opt.id else m.from;
    if m.Prop? { ThenSend(nd, nd, Prop(from, nd.lead, m.payloads)); }
    if m.TransferLeader? { ThenSend(nd, nd, TransferLeader(from, nd.lead, nd.term)); }
    if m.ReadIndex? { ThenSend(nd, nd, ReadIndex(from, nd.lead, m.data)); }
  }

  lemma CandidateTold(nd: Node, m: Message)
    ensures Told(nd, m, StepCandidate(nd, m)) && Withheld(nd, m, StepCandidate(nd, m))
  {
    hide Mute, Calm, Told, Withheld, Poll, BecomeFollower, HandleAppendEntries, HandleHeartbeat, HandleSnapshot;
    var nd' := StepCandidate(nd, m);
    Still(nd);
    CalmMute(nd, nd);
    MuteTold(nd, m, nd');
    if FromLeader(m) {
      ResetMute(nd, m.term);
      var nd1 := BecomeFollower(nd, m.term, m.from);
      FollowMute(nd1, m);
      CalmTrans(nd, nd1, Follow(nd1, m));
    } else if m.PreVoteResp? || m.VoteResp? {
      PollMute(nd, m.from, !m.reject);
    }
  }

  // ---------------------------------------------------------------------------------------------
  // Leaders
  // ---------------------------------------------------------------------------------------------

  /** A leader leads on in its term. */
  predicate LeadsOn(nd: Node, nd': Node) {
    nd'.state == nd.state && nd'.term == nd.term && (Clean(nd) ==> Clean(nd')) && Grants(nd') <= Grants(nd)
  }

  lemma OnTrans(nd: Node, nd1: Node, nd2: Node)
    ensures Calm(nd, nd1) ==> LeadsOn(nd, nd1)
    ensures LeadsOn(nd, nd1) && LeadsOn(nd1, nd2) ==> LeadsOn(nd, nd2)
    ensures LeadsOn(nd, nd1) && Calm(nd1, nd2) ==> LeadsOn(nd, nd2)
  {
    hide Grants;
  }

  lemma SameOn(nd: Node, nd1: Node, nd2: Node)
    requires LeadsOn(nd, nd1) && nd2.state == nd1.state && nd2.term == nd1.term
    requires nd2.msgs == nd1.msgs && nd2.afterAppend == nd1.afterAppend
    ensures LeadsOn(nd, nd2)
  {
    hide Grants;
    GrantsSame(nd1, nd2);
  }

  lemma {:induction false} RespondOn(nd: Node, qs: seq<Queued>)
    ensures LeadsOn(nd, RespondAll(nd, qs))
    decreases |qs|
  {
    hide LeadsOn, Calm, Respond;
    Still(nd);
    OnTrans(nd, nd, nd);
    if qs != [] {
      RespondOne(nd, qs[0]);
      RespondOn(Respond(nd, qs[0]), qs[1..]);
      OnTrans(nd, Respond(nd, qs[0]), RespondAll(nd, qs));
    }
  }

  lemma QueueOn(nd: Node, req: Request)
    ensures LeadsOn(nd, QueueRead(nd, req))
  {
    hide LeadsOn, Calm, BcastHeartbeat, HeartbeatCtx;
    var nd1 := nd.(queue := nd.queue + [Queued(req, nd.committed)]);
    var nd2 := RecvAck(nd1, nd.opt.id, HeartbeatCtx(nd1));
    Still(nd);
    OnTrans(nd, nd, nd);
    SameOn(nd, nd, nd2);
    BeatCalm(nd2, nd.opt.peers, HeartbeatCtx(nd2));
    OnTrans(nd, nd2, QueueRead(nd, req));
  }

  lemma {:induction false} QueueAllOn(nd: Node, reqs: seq<Request>)
    ensures LeadsOn(nd, QueueReads(nd, reqs))
    decreases |reqs|
  {
    hide LeadsOn, Calm, QueueRead;
    Still(nd);
    OnTrans(nd, nd, nd);
    if reqs != [] {
      QueueOn(nd, reqs[0]);
      QueueAllOn(QueueRead(nd, reqs[0]), reqs[1..]);
      OnTrans(nd, QueueRead(nd, reqs[0]), QueueReads(nd, reqs));
    }
  }

  lemma AckedOn(nd: Node, x: Id)
    requires x in nd.prs
    ensures LeadsOn(nd, LeaderAcked(nd, x))
  {
    hide LeadsOn, Calm, Mute, MaybeCommit, BcastAppend, ReleaseWaiting, SendMore, MaybeSendAppend, Send;
    CommitOn(nd);
    Still(nd);
    OnTrans(nd, nd, nd);
    var (nd1, committed) := MaybeCommit(nd);
    BcastCalm(ReleaseWaiting(nd1), nd.opt.peers);
    OnTrans(nd, ReleaseWaiting(nd1), BcastAppend(ReleaseWaiting(nd1), nd.opt.peers));
    AppendCalm(nd, x, true);
    OnTrans(nd, nd, SendAppend(nd, x));
    var nd2 := if committed then BcastAppend(ReleaseWaiting(nd1), nd.opt.peers)
               else if x != nd.opt.id && Bumpable(nd.prs[x], nd.committed) then SendAppend(nd, x)
               else nd;
    SendMoreCalm(nd2, x);
    OnTrans(nd, nd2, SendMore(nd2, x));
    var nd3 := if x != nd.opt.id then SendMore(nd2, x) else nd2;
    SendCalm(nd3, TimeoutNow(nd.opt.id, x, nd.term));
    OnTrans(nd, nd3, Send(nd3, TimeoutNow(nd.opt.id, x, nd.term)));
  }

  lemma CommitOn(nd: Node)
    ensures LeadsOn(nd, ReleaseWaiting(MaybeCommit(nd).0))
  {
    hide LeadsOn, Calm, QueueReads, JointCommitted, CommittedInTerm, CommitTo, MatchTerm;
    var nd1 := MaybeCommit(nd).0;
    CommitKeeps(nd, JointCommitted(nd.opt.voters, Matches(nd)));
    Still(nd);
    OnTrans(nd, nd, nd);
    SameOn(nd, nd, nd1);
    SameOn(nd, nd1, nd1.(waiting := []));
    QueueAllOn(nd1.(waiting := []), nd1.waiting);
    OnTrans(nd, nd1.(waiting := []), QueueReads(nd1.(waiting := []), nd1.waiting));
  }

  lemma AppRespOn(nd0: Node, m: Message)
    requires m.AppResp? && m.from in nd0.prs
    ensures LeadsOn(nd0, LeaderAppResp(nd0, m))
  {
    hide LeadsOn, Calm, Mute, LeaderAcked, MaybeSendAppend, Rejected, Acked, NextProbe;
    var x := m.from;
    var nd := WithPeer(nd0, x, nd0.prs[x].(recentActive := true));
    Still(nd0);
    OnTrans(nd0, nd0, nd0);
    SameOn(nd0, nd0, nd);
    SameOn(nd0, nd0, Panic(nd));
    if nd.prs[x].next > 0 {
      var lowered := WithPeer(nd, x, Rejected(nd.prs[x], m.index, NextProbe(nd, m)).0);
      SameOn(nd0, nd0, lowered);
      AppendCalm(lowered, x, true);
      OnTrans(nd0, lowered, SendAppend(lowered, x));
      var raised := WithPeer(nd, x, Acked(nd.prs[x], m.index, nd.compacted + 1).0);
      SameOn(nd0, nd0, raised);
      AckedOn(raised, x);
      OnTrans(nd0, raised, LeaderAcked(raised, x));
    }
  }

  lemma BeatRespOn(nd0: Node, m: Message)
    requires m.HeartbeatResp? && m.from in nd0.prs
    ensures LeadsOn(nd0, LeaderHeartbeatResp(nd0, m))
  {
    hide LeadsOn, Calm, Mute, MaybeSendAppend, RespondAll, JointCommitted;
    var x := m.from;
    var nd := WithPeer(nd0, x, nd0.prs[x].(recentActive := true, paused := false));
    Still(nd0);
    OnTrans(nd0, nd0, nd0);
    SameOn(nd0, nd0, nd);
    AppendCalm(nd, x, true);
    OnTrans(nd0, nd, SendAppend(nd, x));
    var nd1 := if nd.prs[x].matched < |nd.log| || nd.prs[x].mode.Probe? then SendAppend(nd, x) else nd;
    var (nd2, qs) := MaybeAdvance(RecvAck(nd1, x, m.ctx));
    SameOn(nd0, nd1, nd2);
    RespondOn(nd2, qs);
    OnTrans(nd0, nd2, RespondAll(nd2, qs));
  }

  lemma TransferOn(nd: Node, x: Id)
    requires x in nd.prs
    ensures LeadsOn(nd, LeaderTransfer(nd, x))
  {
    hide LeadsOn, Calm, Mute, MaybeSendAppend, Send;
    Still(nd);
    OnTrans(nd, nd, nd);
    SameOn(nd, nd, nd.(transferee := NONE));
    var nd1 := nd.(transferee := x);
    SameOn(nd, nd, nd1);
    SendCalm(nd1, TimeoutNow(nd.opt.id, x, nd.term));
    OnTrans(nd, nd1, Send(nd1, TimeoutNow(nd.opt.id, x, nd.term)));
    AppendCalm(nd1, x, true);
    OnTrans(nd, nd1, SendAppend(nd1, x));
  }

  lemma PropOn(nd: Node, payloads: seq<Bytes>)
    ensures var (nd1, ok) := AppendEntry(nd, payloads); LeadsOn(nd, BcastAppend(nd1, nd.opt.peers))
  {
    hide LeadsOn, Calm, Mute, AppendEntry, BcastAppend;
    var nd1 := AppendEntry(nd, payloads).0;
    EntryCalm(nd, payloads);
    OnTrans(nd, nd1, nd1);
    BcastCalm(nd1, nd.opt.peers);
    OnTrans(nd, nd1, BcastAppend(nd1, nd.opt.peers));
  }

  /** A leader only stops leading in its term when it finds no quorum active, and then it answers
      nothing. */
  lemma LeaderOn(nd: Node, m: Message)
    ensures m.CheckQuorum? ==> Mute(nd, StepLeader(nd, m))
    ensures !m.CheckQuorum? ==> LeadsOn(nd, StepLeader(nd, m))
  {
    hide LeadsOn, Calm, Mute, BcastHeartbeat, HeartbeatCtx, AppendEntry, BcastAppend, Respond, QueueRead, LeaderAppResp,
         LeaderHeartbeatResp, LeaderTransfer, QuorumActive, BecomeFollower, CommittedInTerm, Probing;
    Still(nd);
    CalmMute(nd, nd);
    OnTrans(nd, nd, nd);
    if m.CheckQuorum? {
      ResetMute(nd, nd.term);
      var nd1 := if QuorumActive(nd) then nd else BecomeFollower(nd, nd.term, NONE);
      AsIs(nd, nd1, Quiet(nd1));
    } else if m.Beat? {
      BeatCalm(nd, nd.opt.peers, HeartbeatCtx(nd));
      OnTrans(nd, nd, StepLeader(nd, m));
    } else if m.Prop? {
      SameOn(nd, nd, Panic(nd));
      PropOn(nd, m.payloads);
    } else if m.ReadIndex? {
      RespondOne(nd, Queued(Request(m.from, m.data), nd.committed));
      SameOn(nd, nd, nd.(waiting := nd.waiting + [Request(m.from, m.data)]));
      QueueOn(nd, Request(m.from, m.data));
    } else if m.AppResp? {
      if m.from in nd.prs { AppRespOn(nd, m); }
    } else if m.HeartbeatResp? {
      if m.from in nd.prs { BeatRespOn(nd, m); }
    } else if m.TransferLeader? {
      if m.from in nd.prs { TransferOn(nd, m.from); }
    } else {
      SameOn(nd, nd, StepLeader(nd, m));
    }
  }

  lemma RespondOne(nd: Node, q: Queued)
    ensures LeadsOn(nd, Respond(nd, q))
  {
    hide Grants, Answered;
    RespondIs(nd, q);
    if q.req.from == NONE || q.req.from == nd.opt.id {
      GrantsSame(nd, Respond(nd, q));
    } else {
      GrantsNext(nd, ReadIndexResp(nd.opt.id, q.req.from, nd.term, q.index, q.req.data));
    }
  }

  // ---------------------------------------------------------------------------------------------
  // Any message
  // ---------------------------------------------------------------------------------------------

  /** A node that does not lead on answers nobody, and tells its application what it was told. No node
      grants a vote to another that did not ask. */
  lemma StepTold(nd: Node, m: Message, recent: bool)
    ensures Clean(nd) ==> Clean(Step(nd, m, recent))
    ensures !StillLeads(nd, Step(nd, m, recent)) ==> Told(nd, m, Step(nd, m, recent))
    ensures Withheld(nd, m, Step(nd, m, recent))
  {
    hide Mute, Calm, Clean, Told, Withheld, Handle, Catch, LowTerm, InLease;
    Still(nd);
    CalmMute(nd, nd);
    MuteTold(nd, m, nd);
    ToldClean(nd, m, nd);
    var t := TermOf(m);
    if t > nd.term && !InLease(nd, m, recent) {
      CatchMute(nd, m);
      HandleTold(Catch(nd, m), m);
      CaughtTold(nd, Catch(nd, m), m, Handle(Catch(nd, m), m));
    } else if 0 < t < nd.term {
      LowMute(nd, m);
      MuteTold(nd, m, LowTerm(nd, m));
      ToldClean(nd, m, LowTerm(nd, m));
    } else if t <= nd.term {
      HandleTold(nd, m);
    }
  }

  lemma ToldClean(nd: Node, m: Message, nd': Node)
    ensures Told(nd, m, nd') ==> (Clean(nd) ==> Clean(nd'))
  {
  }

  lemma CatchMute(nd: Node, m: Message)
    ensures Mute(nd, Catch(nd, m)) && (Catch(nd, m) == nd || Catch(nd, m).state.StateFollower?)
  {
    hide Mute, Calm, BecomeFollower;
    Still(nd);
    CalmMute(nd, nd);
    ResetMute(nd, TermOf(m));
  }

  lemma CaughtTold(nd: Node, nd1: Node, m: Message, nd': Node)
    requires Mute(nd, nd1) && (nd1 == nd || nd1.state.StateFollower?)
    requires (Clean(nd1) ==> Clean(nd')) && (!StillLeads(nd1, nd') ==> Told(nd1, m, nd')) && Withheld(nd1, m, nd')
    ensures (Clean(nd) ==> Clean(nd')) && (!StillLeads(nd, nd') ==> Told(nd, m, nd')) && Withheld(nd, m, nd')
  {
    hide Grants;
  }

  lemma LowMute(nd: Node, m: Message)
    ensures Mute(nd, LowTerm(nd, m))
  {
    hide Mute, Calm, Send;
    Still(nd);
    CalmMute(nd, nd);
    ThenSend(nd, nd, AppResp(nd.opt.id, m.from, nd.term, 0, false, 0, 0));
    ThenSend(nd, nd, PreVoteResp(nd.opt.id, m.from, nd.term, true));
    if m.StorageAppendResp? { AsIs(nd, nd, SnapshotStored(nd, m.snapshot)); }
  }

  lemma HandleTold(nd: Node, m: Message)
    ensures Clean(nd) ==> Clean(Handle(nd, m))
    ensures !StillLeads(nd, Handle(nd, m)) ==> Told(nd, m, Handle(nd, m))
    ensures Withheld(nd, m, Handle(nd, m))
  {
    hide Mute, Hushed, Calm, Clean, Told, Withheld, StepLeader, StepFollower, StepCandidate, StartCampaign, HandleVote;
    var nd' := Handle(nd, m);
    Still(nd);
    CalmMute(nd, nd);
    MuteTold(nd, m, nd');
    ToldClean(nd, m, nd');
    if m.Hup? {
      CampaignMute(nd, if nd.opt.preVote then PreElection else Election);
    } else if m.Vote? || m.PreVote? {
      VoteHushed(nd, m);
      AskedFor(nd, m, nd');
    } else if m.StorageAppendResp? || m.StorageApplyResp? {
      AsIs(nd, nd, nd');
    } else if nd.state.StateLeader? {
      LeaderOn(nd, m);
      OnStill(nd, m, nd');
    } else if nd.state.StateFollower? {
      FollowerTold(nd, m);
    } else {
      CandidateTold(nd, m);
    }
  }

  lemma OnStill(nd: Node, m: Message, nd': Node)
    requires nd.state.StateLeader?
    ensures LeadsOn(nd, nd') ==> StillLeads(nd, nd') && (Clean(nd) ==> Clean(nd')) && Withheld(nd, m, nd')
  {
    hide Grants;
  }

  lemma AskedFor(nd: Node, m: Message, nd': Node)
    requires m.Vote? || m.PreVote?
    ensures Withheld(nd, m, nd')
  {
  }
}
