/** Which appends a replicating peer has in flight: each step of the node adds to the window what it sends the
    peer with entries and takes out what the peer acknowledges. */
module NodeWindows {
  import opened Types
  import opened Quorum
  import opened Messages
  import opened Limit
  import opened InflightWindow
  import opened PeerProgress
  import opened Node
  import opened NodeStep
  import opened NodeAnswers
  import opened NodeShipping

  // ---------------------------------------------------------------------------------------------
  // Leaders
  // ---------------------------------------------------------------------------------------------

  /** A leader's window for x after a step: what it had in flight above `ack`, if x replicated before, and what
      the step sent. */
  predicate Slides(nd: Node, ack: nat, nd': Node, x: Id)
    requires x in nd.prs
  {
    nd'.panicked || (nd'.state.StateLeader? ==>
      && nd.msgs <= nd'.msgs && nd'.opt == nd.opt && x in nd'.prs && (Fitted(nd, x) ==> Fitted(nd', x))
      && (nd'.prs[x].mode.Replicate? ==>
            nd'.prs[x].window.flights ==
              (if nd.state.StateLeader? && nd.prs[x].mode.Replicate? then Above(nd.prs[x].window.flights, ack) else [])
              + SentTo(nd'.msgs[|nd.msgs|..], x)))
  }

  /** The index x acknowledged with a message that is handled. */
  function AckBy(m: Message, x: Id): nat {
    if m.AppResp? && m.from == x && !m.reject then m.index else 0
  }

  /** A change of x's progress alone, and then sending. */
  lemma ThenShips(nd: Node, nd1: Node, ack: nat, nd': Node, x: Id)
    requires x in nd.prs && x in nd1.prs && nd1.msgs == nd.msgs && nd1.opt == nd.opt && (Fitted(nd, x) ==> Fitted(nd1, x))
    requires nd1.prs[x].mode.Replicate? ==>
               nd1.prs[x].window.flights
               == if nd.state.StateLeader? && nd.prs[x].mode.Replicate? then Above(nd.prs[x].window.flights, ack) else []
    requires Ships(nd1, nd', x)
    ensures Slides(nd, ack, nd', x)
  {
  }

  lemma AllInFlight(p: Peer, last: nat, ack: nat)
    requires Flow(p, last) && ack <= p.matched && p.mode.Replicate?
    ensures Above(p.window.flights, ack) == p.window.flights
  {
    AllAbove(p.window.flights, ack);
  }

  /** A leader that only sends. */
  lemma ShipsSlides(nd: Node, nd': Node, x: Id)
    requires x in nd.prs && nd.state.StateLeader? && Flow(nd.prs[x], |nd.log|) && Ships(nd, nd', x)
    ensures Slides(nd, 0, nd', x)
  {
    hide Flow, Ships, Slides;
    if nd.prs[x].mode.Replicate? { AllInFlight(nd.prs[x], |nd.log|, 0); }
    ThenShips(nd, nd, 0, nd', x);
  }

  /** The window of a peer after a rejection and after an acknowledgement. */
  lemma RejectedWindow(p: Peer, last: nat, rejected: nat, hint: nat)
    requires Flow(p, last)
    ensures var q := Rejected(p, rejected, hint).0;
            q.window.size == p.window.size && q.window.maxBytes == p.window.maxBytes
            && (q.mode.Replicate? ==> p.mode.Replicate? && q.window.flights == Above(p.window.flights, 0))
  {
    RejectedIs(p, rejected, hint);
    if p.mode.Replicate? { AllInFlight(p, last, 0); }
  }

  lemma AckedWindow(p: Peer, last: nat, n: nat, first: nat)
    requires Flow(p, last)
    ensures var q := Acked(p, n, first).0;
            q.window.size == p.window.size && q.window.maxBytes == p.window.maxBytes
            && (q.mode.Replicate? ==> q.window.flights == if p.mode.Replicate? then Above(p.window.flights, n) else [])
  {
    AckedIs(p, n, first);
    if p.mode.Replicate? && n <= p.matched { AllInFlight(p, last, n); }
  }

  lemma AppRespSlides(nd0: Node, m: Message, x: Id)
    requires nd0.state.StateLeader? && m.AppResp? && m.from in nd0.prs && x in nd0.prs && Flow(nd0.prs[x], |nd0.log|)
    ensures Slides(nd0, AckBy(m, x), LeaderAppResp(nd0, m), x)
  {
    hide Flow, Ships, Slides, LeaderAcked, MaybeSendAppend, Rejected, Acked, NextProbe, Above;
    var from := m.from;
    var p := nd0.prs[from].(recentActive := true);
    var nd := WithPeer(nd0, from, p);
    ActiveFlow(nd0.prs[from], |nd0.log|);
    if nd0.prs[x].mode.Replicate? { AllInFlight(nd0.prs[x], |nd0.log|, 0); }
    if p.next == 0 {
      PanicSlides(nd0, AckBy(m, x), Panic(nd), x);
    } else if m.reject {
      var (pr, lowered) := Rejected(p, m.index, NextProbe(nd, m));
      var nd1 := WithPeer(nd, from, pr);
      if from == x { RejectedWindow(p, |nd0.log|, m.index, NextProbe(nd, m)); }
      if lowered {
        AppendShips(nd1, from, true, x);
        ThenShips(nd0, nd1, 0, SendAppend(nd1, from), x);
      } else {
        SameShips(nd, nd, x);
        ThenShips(nd0, nd, 0, nd, x);
      }
    } else {
      var (pr, news) := Acked(p, m.index, nd.compacted + 1);
      var nd1 := WithPeer(nd, from, pr);
      if from == x { AckedWindow(p, |nd0.log|, m.index, nd.compacted + 1); }
      StaleSame(p, m.index, nd.compacted + 1);
      AckedShips(nd1, from, x);
      SameShips(nd1, nd1, x);
      ThenShips(nd0, nd1, AckBy(m, x), LeaderAcked(nd1, from), x);
      ThenShips(nd0, nd1, AckBy(m, x), nd1, x);
      assert !news ==> nd1 == nd;
    }
  }

  lemma ActiveFlow(p: Peer, last: nat)
    ensures Flow(p, last) ==> Flow(p.(recentActive := true), last)
  {
  }

  lemma StaleSame(p: Peer, n: nat, first: nat)
    ensures !Acked(p, n, first).1 ==> Acked(p, n, first).0 == p
  {
  }

  lemma PanicSlides(nd: Node, ack: nat, nd': Node, x: Id)
    requires x in nd.prs && nd'.panicked
    ensures Slides(nd, ack, nd', x)
  {
  }

  lemma BeatRespSlides(nd0: Node, m: Message, x: Id)
    requires nd0.state.StateLeader? && m.HeartbeatResp? && m.from in nd0.prs && x in nd0.prs && Flow(nd0.prs[x], |nd0.log|)
    ensures Slides(nd0, 0, LeaderHeartbeatResp(nd0, m), x)
  {
    hide Flow, Ships, Slides, MaybeSendAppend, RespondAll, JointCommitted;
    var from := m.from;
    var nd := WithPeer(nd0, from, nd0.prs[from].(recentActive := true, paused := false));
    SameShips(nd0, nd, x);
    SameShips(nd, nd, x);
    AppendShips(nd, from, true, x);
    var nd1 := if nd.prs[from].matched < |nd.log| || nd.prs[from].mode.Probe? then SendAppend(nd, from) else nd;
    ShipsTrans(nd0, nd, nd1, x);
    ShipsHas(nd0, nd1, x);
    AdvanceShips(nd1, from, m.ctx, x);
    var (nd2, qs) := MaybeAdvance(RecvAck(nd1, from, m.ctx));
    ShipsTrans(nd0, nd1, nd2, x);
    ShipsHas(nd0, nd2, x);
    RespondAllShips(nd2, qs, x);
    ShipsTrans(nd0, nd2, RespondAll(nd2, qs), x);
    ShipsSlides(nd0, LeaderHeartbeatResp(nd0, m), x);
  }

  lemma AdvanceShips(nd: Node, from: Id, ctx: nat, x: Id)
    requires x in nd.prs
    ensures Ships(nd, MaybeAdvance(RecvAck(nd, from, ctx)).0, x)
  {
    hide JointCommitted;
  }

  lemma TransferShips(nd: Node, to: Id, x: Id)
    requires to in nd.prs && x in nd.prs
    ensures Ships(nd, LeaderTransfer(nd, to), x)
  {
    hide Ships, MaybeSendAppend, Send;
    SameShips(nd, nd, x);
    SameShips(nd, nd.(transferee := NONE), x);
    var nd1 := nd.(transferee := to);
    SameShips(nd, nd1, x);
    SendShips(nd1, TimeoutNow(nd.opt.id, to, nd.term), x);
    ShipsTrans(nd, nd1, Send(nd1, TimeoutNow(nd.opt.id, to, nd.term)), x);
    AppendShips(nd1, to, true, x);
    ShipsTrans(nd, nd1, SendAppend(nd1, to), x);
  }

  lemma EntryShips(nd: Node, payloads: seq<Bytes>, x: Id)
    requires x in nd.prs
    ensures Ships(nd, AppendEntry(nd, payloads).0, x)
  {
    hide Ships, NewEntries, PayloadsSize, AppendLog;
    SameShips(nd, nd, x);
    if AppendEntry(nd, payloads).1 {
      var nd0 := nd.(uncommitted := nd.uncommitted + PayloadsSize(payloads));
      var nd1 := AppendLog(nd0, NewEntries(nd, payloads));
      LogShips(nd0, NewEntries(nd, payloads), x);
      SameShips(nd, nd0, x);
      ShipsTrans(nd, nd0, nd1, x);
      ShipsHas(nd, nd1, x);
      var m := AppResp(nd.opt.id, nd.opt.id, nd.term, LastIndex(nd1), false, 0, 0);
      SendShips(nd1, m, x);
      ShipsTrans(nd, nd1, Send(nd1, m), x);
    }
  }

  lemma LogShips(nd: Node, ents: seq<Entry>, x: Id)
    requires x in nd.prs
    ensures Ships(nd, AppendLog(nd, ents), x)
  {
  }

  lemma PropShips(nd: Node, payloads: seq<Bytes>, x: Id)
    requires x in nd.prs
    ensures var (nd1, ok) := AppendEntry(nd, payloads); Ships(nd, BcastAppend(nd1, nd.opt.peers), x)
  {
    hide Ships, AppendEntry, BcastAppend;
    var nd1 := AppendEntry(nd, payloads).0;
    EntryShips(nd, payloads, x);
    ShipsHas(nd, nd1, x);
    BcastShips(nd1, nd.opt.peers, x);
    ShipsTrans(nd, nd1, BcastAppend(nd1, nd.opt.peers), x);
  }

  lemma QuietSlides(nd: Node, x: Id)
    requires nd.state.StateLeader? && x in nd.prs && Flow(nd.prs[x], |nd.log|)
    ensures Slides(nd, 0, Quiet(if QuorumActive(nd) then nd else BecomeFollower(nd, nd.term, NONE)), x)
  {
    hide Flow, Slides, Ships, QuorumActive;
    SameShips(nd, Quiet(nd), x);
    ShipsSlides(nd, Quiet(nd), x);
    Deposed(nd, Quiet(BecomeFollower(nd, nd.term, NONE)), x);
  }

  lemma Deposed(nd: Node, nd': Node, x: Id)
    requires x in nd.prs && !nd'.state.StateLeader?
    ensures forall ack :: Slides(nd, ack, nd', x)
  {
  }

  /** A peer that is now probed has no window. */
  lemma ProbedSlides(nd: Node, from: Id, p: Peer, x: Id)
    requires nd.state.StateLeader? && from in nd.prs && x in nd.prs && Flow(nd.prs[x], |nd.log|) && p.mode.Probe?
    requires p.window.size == nd.prs[from].window.size && p.window.maxBytes == nd.prs[from].window.maxBytes
    ensures Slides(nd, 0, WithPeer(nd, from, p), x)
  {
    hide Flow, Ships, Slides, Above;
    var nd' := WithPeer(nd, from, p);
    if nd.prs[x].mode.Replicate? { AllInFlight(nd.prs[x], |nd.log|, 0); }
    SameShips(nd', nd', x);
    ThenShips(nd, nd', 0, nd', x);
  }

  lemma StatusSlides(nd: Node, m: Message, x: Id)
    requires nd.state.StateLeader? && x in nd.prs && Flow(nd.prs[x], |nd.log|) && (m.SnapStatus? || m.Unreachable?)
    ensures Slides(nd, 0, StepLeader(nd, m), x)
  {
    hide Flow, Ships, Slides;
    SameShips(nd, nd, x);
    ShipsSlides(nd, nd, x);
    if m.from in nd.prs {
      var pr := nd.prs[m.from];
      ProbedSlides(nd, m.from, Probing(pr), x);
      ProbedSlides(nd, m.from, Probing(pr).(paused := true), x);
      ProbedSlides(nd, m.from, Probing(pr.(pendingSnapshot := 0)).(paused := true), x);
    }
  }

  lemma LeaderSlides(nd: Node, m: Message, x: Id)
    requires nd.state.StateLeader? && x in nd.prs && Flow(nd.prs[x], |nd.log|)
    ensures Slides(nd, AckBy(m, x), StepLeader(nd, m), x)
  {
    hide Flow, Ships, Slides, BcastHeartbeat, HeartbeatCtx, AppendEntry, BcastAppend, Respond, QueueRead, LeaderAppResp,
         LeaderHeartbeatResp, LeaderTransfer, QuorumActive, BecomeFollower, CommittedInTerm, Probing, Quiet;
    SameShips(nd, nd, x);
    ShipsSlides(nd, nd, x);
    if m.CheckQuorum? {
      QuietSlides(nd, x);
    } else if m.Beat? {
      BeatShips(nd, nd.opt.peers, HeartbeatCtx(nd), x);
      ShipsSlides(nd, StepLeader(nd, m), x);
    } else if m.Prop? {
      PanicSlides(nd, 0, Panic(nd), x);
      PropShips(nd, m.payloads, x);
      ShipsSlides(nd, BcastAppend(AppendEntry(nd, m.payloads).0, nd.opt.peers), x);
    } else if m.ReadIndex? {
      ReadShips(nd, m, x);
      ShipsSlides(nd, StepLeader(nd, m), x);
    } else if m.AppResp? {
      if m.from in nd.prs { AppRespSlides(nd, m, x); }
    } else if m.HeartbeatResp? {
      if m.from in nd.prs { BeatRespSlides(nd, m, x); }
    } else if m.TransferLeader? {
      if m.from in nd.prs {
        TransferShips(nd, m.from, x);
        ShipsSlides(nd, LeaderTransfer(nd, m.from), x);
      }
    } else if m.SnapStatus? || m.Unreachable? {
      StatusSlides(nd, m, x);
    }
  }

  lemma ReadShips(nd: Node, m: Message, x: Id)
    requires nd.state.StateLeader? && m.ReadIndex? && x in nd.prs
    ensures Ships(nd, StepLeader(nd, m), x)
  {
    hide Ships, Respond, QueueRead, CommittedInTerm, IsSingleton;
    RespondShips(nd, Queued(Request(m.from, m.data), nd.committed), x);
    SameShips(nd, nd.(waiting := nd.waiting + [Request(m.from, m.data)]), x);
    QueueShips(nd, Request(m.from, m.data), x);
  }

  // ---------------------------------------------------------------------------------------------
  // Other roles
  // ---------------------------------------------------------------------------------------------

  /** The window limits stay right. */
  predicate StaysFit(nd: Node, nd': Node, x: Id) {
    x in nd'.prs && nd'.opt == nd.opt && (Fitted(nd, x) ==> Fitted(nd', x))
  }

  lemma FitsTrans(nd: Node, nd1: Node, nd2: Node, x: Id)
    requires StaysFit(nd, nd1, x) && StaysFit(nd1, nd2, x)
    ensures StaysFit(nd, nd2, x)
  {
  }

  lemma SameFits(nd: Node, nd': Node, x: Id)
    requires x in nd.prs && nd'.prs == nd.prs && nd'.opt == nd.opt
    ensures StaysFit(nd, nd', x)
  {
  }

  lemma ResetFits(nd: Node, term: nat, x: Id)
    requires x in nd.prs
    ensures StaysFit(nd, Reset(nd, term), x) && Reset(nd, term).prs[x].mode.Probe? && Reset(nd, term).msgs == nd.msgs
    ensures forall lead :: StaysFit(nd, BecomeFollower(nd, term, lead), x)
  {
  }

  lemma SendFits(nd: Node, m: Message, x: Id)
    requires x in nd.prs
    ensures StaysFit(nd, Send(nd, m), x) && Send(nd, m).state == nd.state
  {
  }

  lemma {:induction false} VotesFit(nd: Node, ids: seq<Id>, t: CampaignType, term: nat, x: Id)
    requires x in nd.prs
    ensures StaysFit(nd, SendVotes(nd, ids, t, term), x) && SendVotes(nd, ids, t, term).state == nd.state
    decreases |ids|
  {
    hide StaysFit, Send, ZeroTerm;
    SameFits(nd, nd, x);
    if ids != [] {
      var y := ids[0];
      var own := if t.PreElection? then PreVoteResp(y, y, term, false) else VoteResp(y, y, term, false);
      var ask := if t.PreElection? then PreVote(nd.opt.id, y, term, |nd.log|, ZeroTerm(nd, |nd.log|))
                 else Vote(nd.opt.id, y, term, |nd.log|, ZeroTerm(nd, |nd.log|), t.Transfer?);
      var nd1 := if y !in Voters(nd.opt.voters) then nd else if y == nd.opt.id then Send(nd, own) else Send(nd, ask);
      SendFits(nd, own, x);
      SendFits(nd, ask, x);
      FitsHas(nd, nd1, x);
      VotesFit(nd1, ids[1..], t, term, x);
      FitsTrans(nd, nd1, SendVotes(nd, ids, t, term), x);
    }
  }

  lemma FitsHas(nd: Node, nd': Node, x: Id)
    requires StaysFit(nd, nd', x)
    ensures x in nd'.prs
  {
  }

  lemma CampaignFits(nd: Node, t: CampaignType, x: Id)
    requires x in nd.prs
    ensures StaysFit(nd, Campaign(nd, t), x) && StaysFit(nd, StartCampaign(nd, t), x)
    ensures !nd.state.StateLeader? ==> !Campaign(nd, t).state.StateLeader? && !StartCampaign(nd, t).state.StateLeader?
  {
    hide StaysFit, SendVotes, Reset, Promotable;
    ResetFits(nd, nd.term + 1, x);
    ResetState(nd, nd.term + 1);
    SameFits(nd, nd, x);
    SameFits(nd, Panic(nd), x);
    var nd1 := if t.PreElection? then BecomePreCandidate(nd) else BecomeCandidate(nd);
    if !nd.state.StateLeader? {
      SameFits(if t.PreElection? then nd else Reset(nd, nd.term + 1), nd1, x);
      FitsTrans(nd, if t.PreElection? then nd else Reset(nd, nd.term + 1), nd1, x);
    }
    FitsHas(nd, nd1, x);
    var term := if t.PreElection? then nd1.term + 1 else nd1.term;
    VotesFit(nd1, nd.opt.peers, t, term, x);
    FitsTrans(nd, nd1, SendVotes(nd1, nd.opt.peers, t, term), x);
  }

  lemma ResetState(nd: Node, term: nat)
    ensures Reset(nd, term).state == nd.state && Reset(nd, term).opt == nd.opt
  {
  }

  /** A new leader's progress before it appends its first entry. */
  function Elected(nd: Node): Node
    requires nd.opt.id in nd.prs
  {
    var nd1 := Reset(nd, nd.term).(lead := nd.opt.id, state := StateLeader);
    WithPeer(nd1, nd.opt.id, Replicating(nd1.prs[nd.opt.id]).(recentActive := true))
  }

  lemma ElectedPeers(nd: Node, x: Id)
    requires nd.opt.id in nd.prs && x in nd.prs
    ensures var nd' := Elected(nd);
            x in nd'.prs && nd'.msgs == nd.msgs && nd'.opt == nd.opt && (Fitted(nd, x) ==> Fitted(nd', x))
            && (nd'.prs[x].mode.Replicate? ==> nd'.prs[x].window.flights == [])
  {
  }

  /** When a leader is elected, no peer has anything in flight. */
  lemma ElectedSlides(nd: Node, nd1: Node, x: Id)
    requires x in nd.prs && !nd.state.StateLeader? && !nd1.state.StateFollower?
    requires nd1.msgs == nd.msgs && nd1.opt == nd.opt && nd1.prs == nd.prs
    ensures Slides(nd, 0, BcastAppend(BecomeLeader(nd1), nd.opt.peers), x)
  {
    hide Ships, Slides, AppendEntry, Elected, BcastAppend;
    var nd' := BecomeLeader(nd1);
    if nd1.opt.id !in nd1.prs {
      BcastShips(nd', nd.opt.peers, x);
      ShipsPanic(nd', BcastAppend(nd', nd.opt.peers), x);
      PanicSlides(nd, 0, BcastAppend(nd', nd.opt.peers), x);
    } else {
      var nd2 := Elected(nd1);
      ElectedIs(nd1);
      ElectedPeers(nd1, x);
      FittedBoth(nd, nd1, x);
      EntryShips(nd2, [[]], x);
      var (nd3, ok) := AppendEntry(nd2, [[]]);
      ShipsHas(nd2, nd3, x);
      BcastShips(nd', nd.opt.peers, x);
      if ok {
        ShipsTrans(nd2, nd3, BcastAppend(nd', nd.opt.peers), x);
        ThenShips(nd, nd2, 0, BcastAppend(nd', nd.opt.peers), x);
      } else {
        ShipsPanic(nd', BcastAppend(nd', nd.opt.peers), x);
        PanicSlides(nd, 0, BcastAppend(nd', nd.opt.peers), x);
      }
    }
  }

  lemma ElectedIs(nd: Node)
    requires !nd.state.StateFollower? && nd.opt.id in nd.prs
    ensures var (nd2, ok) := AppendEntry(Elected(nd), [[]]); BecomeLeader(nd) == if ok then nd2 else Panic(nd2)
  {
    hide AppendEntry;
  }

  lemma FittedBoth(nd: Node, nd1: Node, x: Id)
    requires nd1.opt == nd.opt && nd1.prs == nd.prs
    ensures Fitted(nd, x) == Fitted(nd1, x)
  {
  }

  lemma ShipsPanic(nd: Node, nd': Node, x: Id)
    requires Ships(nd, nd', x)
    ensures nd.panicked ==> nd'.panicked
  {
  }

  /** After a step the window limits are right, and a leader's windows follow from those it had. */
  predicate Slid(nd: Node, ack: nat, nd': Node, x: Id)
    requires x in nd.prs
  {
    nd'.panicked || (Slides(nd, ack, nd', x) && StaysFit(nd, nd', x))
  }

  lemma LeaderSlid(nd: Node, ack: nat, nd': Node, x: Id)
    requires x in nd.prs && nd'.state.StateLeader? && Slides(nd, ack, nd', x)
    ensures Slid(nd, ack, nd', x)
  {
  }

  lemma OtherSlid(nd: Node, ack: nat, nd': Node, x: Id)
    requires x in nd.prs && !nd'.state.StateLeader? && StaysFit(nd, nd', x)
    ensures Slid(nd, ack, nd', x)
  {
  }

  lemma PollSlid(nd: Node, from: Id, granted: bool, x: Id)
    requires x in nd.prs && (nd.state.StateCandidate? || nd.state.StatePreCandidate?)
    ensures Slid(nd, 0, Poll(nd, from, granted), x)
  {
    hide Slid, Slides, StaysFit, Campaign, BecomeLeader, BcastAppend, BecomeFollower, JointVote;
    var nd1 := RecordVote(nd, from, granted);
    SameFits(nd, nd1, x);
    match JointVote(nd.opt.voters, nd1.votes)
    case VoteWon =>
      if nd.state.StatePreCandidate? {
        CampaignFits(nd1, Election, x);
        FitsTrans(nd, nd1, Campaign(nd1, Election), x);
        OtherSlid(nd, 0, Campaign(nd1, Election), x);
      } else {
        var nd' := BcastAppend(BecomeLeader(nd1), nd.opt.peers);
        ElectedSlides(nd, nd1, x);
        WonLeads(nd1, nd.opt.peers, x);
        if nd'.panicked { PanickedSlid(nd, 0, nd', x); } else { LeaderSlid(nd, 0, nd', x); }
      }
    case VoteLost =>
      ResetFits(nd1, nd.term, x);
      FollowState(nd1, nd.term, NONE);
      FitsTrans(nd, nd1, BecomeFollower(nd1, nd.term, NONE), x);
      OtherSlid(nd, 0, BecomeFollower(nd1, nd.term, NONE), x);
    case VotePending => OtherSlid(nd, 0, nd1, x);
  }

  lemma PanickedSlid(nd: Node, ack: nat, nd': Node, x: Id)
    requires x in nd.prs && nd'.panicked
    ensures Slid(nd, ack, nd', x)
  {
  }

  lemma FollowState(nd: Node, term: nat, lead: Id)
    ensures BecomeFollower(nd, term, lead).state.StateFollower?
  {
  }

  lemma WonLeads(nd: Node, ids: seq<Id>, x: Id)
    requires x in nd.prs && !nd.state.StateFollower?
    ensures var nd' := BcastAppend(BecomeLeader(nd), ids); nd'.panicked || nd'.state.StateLeader?
  {
    hide Ships, AppendEntry, Elected, BcastAppend;
    var nd' := BecomeLeader(nd);
    if nd.opt.id !in nd.prs {
      BcastShips(nd', ids, x);
      ShipsPanic(nd', BcastAppend(nd', ids), x);
    } else {
      ElectedIs(nd);
      ElectedPeers(nd, x);
      EntryShips(Elected(nd), [[]], x);
      ShipsHas(Elected(nd), AppendEntry(Elected(nd), [[]]).0, x);
      ElectedState(nd);
      ShipsState(Elected(nd), AppendEntry(Elected(nd), [[]]).0, x);
      BcastShips(nd', ids, x);
      ShipsPanic(nd', BcastAppend(nd', ids), x);
      ShipsState(nd', BcastAppend(nd', ids), x);
    }
  }

  lemma ElectedState(nd: Node)
    requires nd.opt.id in nd.prs
    ensures Elected(nd).state.StateLeader?
  {
  }

  lemma ShipsState(nd: Node, nd': Node, x: Id)
    requires Ships(nd, nd', x)
    ensures nd'.panicked || nd'.state == nd.state
  {
  }

  /** Appends, heartbeats and snapshots: a snapshot's configuration is the node's own. */
  lemma FollowFits(nd: Node, m: Message, x: Id)
    requires FromLeader(m) && nd.state.StateFollower? && x in nd.prs && x in nd.opt.peers
    ensures StaysFit(nd, Follow(nd, m), x) && !Follow(nd, m).state.StateLeader?
  {
    hide StaysFit, Send, MaybeAppend, FindConflictByTerm, CommitTo, Restore;
    SameFits(nd, nd, x);
    if m.App? {
      AppendKeeps(nd, m.prevIndex, m.prevTerm, m.ents, m.commit);
      var (nd1, last) := MaybeAppend(nd, m.prevIndex, m.prevTerm, m.ents, m.commit);
      SameFits(nd, nd1, x);
      var (hint, hintTerm) := FindConflictByTerm(nd, Min(m.prevIndex, |nd.log|), m.prevTerm);
      SendFits(nd, AppResp(nd.opt.id, m.from, nd.term, nd.committed, false, 0, 0), x);
      SendFits(nd1, AppResp(nd.opt.id, m.from, nd.term, if last.Some? then last.value else 0, false, 0, 0), x);
      SendFits(nd, AppResp(nd.opt.id, m.from, nd.term, m.prevIndex, true, hint, hintTerm), x);
      FitsTrans(nd, nd1, Send(nd1, AppResp(nd.opt.id, m.from, nd.term, if last.Some? then last.value else 0, false, 0, 0)), x);
    } else if m.Heartbeat? {
      CommitKeeps(nd, m.commit);
      var nd1 := CommitTo(nd, m.commit);
      SameFits(nd, nd1, x);
      SendFits(nd1, HeartbeatResp(nd.opt.id, m.from, nd.term, m.ctx), x);
      FitsTrans(nd, nd1, Send(nd1, HeartbeatResp(nd.opt.id, m.from, nd.term, m.ctx)), x);
    } else {
      RestoreFits(nd, m, x);
      var (nd1, restored) := Restore(nd, m);
      FitsHas(nd, nd1, x);
      var r := AppResp(nd.opt.id, m.from, nd1.term, if restored then |nd1.log| else nd1.committed, false, 0, 0);
      SendFits(nd1, r, x);
      FitsTrans(nd, nd1, Send(nd1, r), x);
    }
  }

  lemma RestoreFits(nd: Node, m: Message, x: Id)
    requires m.Snap? && nd.state.StateFollower? && x in nd.prs && x in nd.opt.peers
    ensures StaysFit(nd, Restore(nd, m).0, x) && Restore(nd, m).0.state.StateFollower?
  {
  }

  lemma FollowerFits(nd: Node, m: Message, x: Id)
    requires nd.state.StateFollower? && x in nd.prs && x in nd.opt.peers
    ensures StaysFit(nd, StepFollower(nd, m), x) && !StepFollower(nd, m).state.StateLeader?
  {
    hide StaysFit, StepFollower;
    if FromLeader(m) {
      var nd1 := nd.(lead := m.from);
      LeaderHeard(nd, m);
      SameFits(nd, nd1, x);
      FollowFits(nd1, m, x);
      FitsTrans(nd, nd1, Follow(nd1, m), x);
    } else {
      OtherHeard(nd, m, x);
    }
  }

  lemma LeaderHeard(nd: Node, m: Message)
    requires FromLeader(m)
    ensures StepFollower(nd, m) == Follow(nd.(lead := m.from), m)
    ensures StepCandidate(nd, m) == Follow(BecomeFollower(nd, m.term, m.from), m)
  {
    hide HandleAppendEntries, HandleHeartbeat, HandleSnapshot, BecomeFollower;
  }

  lemma OtherHeard(nd: Node, m: Message, x: Id)
    requires !FromLeader(m) && nd.state.StateFollower? && x in nd.prs
    ensures StaysFit(nd, StepFollower(nd, m), x) && !StepFollower(nd, m).state.StateLeader?
  {
    hide StaysFit, Send, StartCampaign;
    SameFits(nd, nd, x);
    if m.TimeoutNow? {
      CampaignFits(nd, Transfer, x);
    } else if m.ReadIndexResp? {
      SameFits(nd, nd.(readStates := nd.readStates + [ReadState(m.index, m.data)]), x);
    } else if m.ForgetLeader? {
      SameFits(nd, nd.(lead := NONE), x);
    } else if m.Prop? {
      SendFits(nd, Prop(if m.from == NONE then nd.opt.id else m.from, nd.lead, m.payloads), x);
    } else if m.TransferLeader? {
      SameFits(nd, Panic(nd), x);
      SendFits(nd, TransferLeader(if m.from == NONE then nd.opt.id else m.from, nd.lead, nd.term), x);
    } else if m.ReadIndex? {
      SendFits(nd, ReadIndex(if m.from == NONE then nd.opt.id else m.from, nd.lead, m.data), x);
    }
  }

  lemma CandidateSlid(nd: Node, m: Message, x: Id)
    requires (nd.state.StateCandidate? || nd.state.StatePreCandidate?) && x in nd.prs && x in nd.opt.peers
    ensures Slid(nd, 0, StepCandidate(nd, m), x)
  {
    hide Slid, StaysFit, StepCandidate, Poll;
    if FromLeader(m) {
      CandidateHears(nd, m, x);
    } else {
      Ballot(nd, m);
      SameFits(nd, nd, x);
      OtherSlid(nd, 0, nd, x);
      if m.PreVoteResp? || m.VoteResp? { PollSlid(nd, m.from, !m.reject, x); }
    }
  }

  lemma Ballot(nd: Node, m: Message)
    requires !FromLeader(m)
    ensures StepCandidate(nd, m) == nd || ((m.PreVoteResp? || m.VoteResp?) && StepCandidate(nd, m) == Poll(nd, m.from, !m.reject))
  {
    hide Poll;
  }

  lemma CandidateHears(nd: Node, m: Message, x: Id)
    requires FromLeader(m) && x in nd.prs && x in nd.opt.peers
    ensures Slid(nd, 0, StepCandidate(nd, m), x)
  {
    hide Slid, StaysFit, StepCandidate, BecomeFollower, Follow;
    LeaderHeard(nd, m);
    ResetFits(nd, m.term, x);
    var nd1 := BecomeFollower(nd, m.term, m.from);
    FollowState(nd, m.term, m.from);
    FollowOpt(nd, m.term, m.from);
    FitsHas(nd, nd1, x);
    FollowFits(nd1, m, x);
    FitsTrans(nd, nd1, Follow(nd1, m), x);
    OtherSlid(nd, 0, Follow(nd1, m), x);
  }

  lemma FollowOpt(nd: Node, term: nat, lead: Id)
    ensures BecomeFollower(nd, term, lead).opt == nd.opt
  {
  }

  // ---------------------------------------------------------------------------------------------
  // Any message
  // ---------------------------------------------------------------------------------------------

  /** The index a message acknowledges for x when it is handled in this term. */
  function Acknowledged(nd: Node, m: Message, x: Id): nat {
    if TermOf(m) == 0 || TermOf(m) == nd.term then AckBy(m, x) else 0
  }

  predicate Primed(nd: Node, x: Id) {
    x in nd.prs && x in nd.opt.peers && (nd.state.StateLeader? ==> Flow(nd.prs[x], |nd.log|))
  }

  /** A node that changes neither its peers nor its role, nor what it sends but for messages that are no
      appends. */
  lemma SendSlid(nd: Node, m: Message, x: Id)
    requires Primed(nd, x) && !m.App?
    ensures Slid(nd, 0, Send(nd, m), x)
  {
    hide Slides, StaysFit, Send, Ships, Flow;
    SendFits(nd, m, x);
    if nd.state.StateLeader? {
      SendShips(nd, m, x);
      ShipsSlides(nd, Send(nd, m), x);
    } else {
      OtherSlid(nd, 0, Send(nd, m), x);
    }
  }

  lemma SameSlid(nd: Node, nd': Node, x: Id)
    requires Primed(nd, x) && nd'.prs == nd.prs && nd'.opt == nd.opt && nd'.state == nd.state && nd'.term == nd.term && nd'.msgs == nd.msgs
    requires nd'.panicked == nd.panicked
    ensures Slid(nd, 0, nd', x)
  {
    hide Slides, StaysFit, Ships, Flow;
    SameFits(nd, nd', x);
    if nd.state.StateLeader? {
      SameShips(nd, nd', x);
      ShipsSlides(nd, nd', x);
    } else {
      OtherSlid(nd, 0, nd', x);
    }
  }

  lemma VoteSlid(nd: Node, m: Message, x: Id)
    requires Primed(nd, x) && (m.Vote? || m.PreVote?)
    ensures Slid(nd, 0, HandleVote(nd, m), x)
  {
    hide Slid, Send, IsUpToDate, Flow;
    var yes := if m.Vote? then VoteResp(nd.opt.id, m.from, m.term, false) else PreVoteResp(nd.opt.id, m.from, m.term, false);
    var no := if m.Vote? then VoteResp(nd.opt.id, m.from, nd.term, true) else PreVoteResp(nd.opt.id, m.from, nd.term, true);
    SendSlid(nd, yes, x);
    SendSlid(nd, no, x);
    VotedSlid(nd, 0, Send(nd, yes), m.from, x);
  }

  lemma VotedSlid(nd: Node, ack: nat, nd': Node, vote: Id, x: Id)
    requires x in nd.prs && Slid(nd, ack, nd', x)
    ensures Slid(nd, ack, nd'.(vote := vote), x)
  {
  }

  /** What was acknowledged does not matter to a node that does not lead. */
  lemma AnyAck(nd: Node, nd': Node, ack: nat, x: Id)
    requires x in nd.prs && !nd.state.StateLeader? && Slid(nd, 0, nd', x)
    ensures Slid(nd, ack, nd', x)
  {
  }

  lemma HandleSlid(nd: Node, m: Message, x: Id)
    requires Primed(nd, x)
    ensures Slid(nd, AckBy(m, x), Handle(nd, m), x)
  {
    hide Slid, Flow, StepLeader, StepFollower, StepCandidate, StartCampaign, HandleVote, StaysFit, Slides;
    var nd' := Handle(nd, m);
    if m.Hup? {
      SameSlid(nd, nd, x);
      StartStays(nd, if nd.opt.preVote then PreElection else Election);
      if !nd.state.StateLeader? {
        CampaignFits(nd, if nd.opt.preVote then PreElection else Election, x);
        OtherSlid(nd, 0, nd', x);
      }
    } else if m.Vote? || m.PreVote? {
      VoteSlid(nd, m, x);
    } else if m.StorageAppendResp? || m.StorageApplyResp? {
      SameSlid(nd, nd', x);
    } else if nd.state.StateLeader? {
      LeaderSlides(nd, m, x);
      if nd'.state.StateLeader? {
        LeaderSlid(nd, AckBy(m, x), nd', x);
      } else {
        DeposedFits(nd, m, x);
        OtherSlid(nd, AckBy(m, x), nd', x);
      }
    } else if nd.state.StateFollower? {
      FollowerFits(nd, m, x);
      OtherSlid(nd, AckBy(m, x), nd', x);
    } else {
      CandidateSlid(nd, m, x);
      AnyAck(nd, nd', AckBy(m, x), x);
    }
  }

  lemma StartStays(nd: Node, t: CampaignType)
    ensures nd.state.StateLeader? ==> StartCampaign(nd, t) == nd
  {
    hide Campaign;
  }

  lemma DeposedFits(nd: Node, m: Message, x: Id)
    requires nd.state.StateLeader? && x in nd.prs && !StepLeader(nd, m).state.StateLeader?
    ensures StaysFit(nd, StepLeader(nd, m), x)
  {
    LeaderOn(nd, m);
    hide StepLeader;
    if m.CheckQuorum? { QuietFits(nd, m, x); }
  }

  lemma QuietFits(nd: Node, m: Message, x: Id)
    requires nd.state.StateLeader? && x in nd.prs && m.CheckQuorum?
    ensures StaysFit(nd, StepLeader(nd, m), x)
  {
    hide QuorumActive;
  }

  lemma FollowerHandles(nd: Node, m: Message, x: Id)
    requires nd.state.StateFollower? && x in nd.prs && x in nd.opt.peers
    ensures StaysFit(nd, Handle(nd, m), x) && !Handle(nd, m).state.StateLeader?
  {
    hide StepFollower, StartCampaign, StaysFit, HandleVote;
    if m.Hup? {
      CampaignFits(nd, if nd.opt.preVote then PreElection else Election, x);
    } else if m.Vote? || m.PreVote? {
      VoteFits(nd, m, x);
    } else if m.StorageAppendResp? || m.StorageApplyResp? {
      SameFits(nd, Handle(nd, m), x);
    } else {
      FollowerFits(nd, m, x);
    }
  }

  lemma VoteFits(nd: Node, m: Message, x: Id)
    requires (m.Vote? || m.PreVote?) && x in nd.prs
    ensures StaysFit(nd, HandleVote(nd, m), x) && HandleVote(nd, m).state == nd.state
  {
    hide StaysFit, Send, IsUpToDate;
    var yes := if m.Vote? then VoteResp(nd.opt.id, m.from, m.term, false) else PreVoteResp(nd.opt.id, m.from, m.term, false);
    var no := if m.Vote? then VoteResp(nd.opt.id, m.from, nd.term, true) else PreVoteResp(nd.opt.id, m.from, nd.term, true);
    SendFits(nd, yes, x);
    SendFits(nd, no, x);
    FitsHas(nd, Send(nd, yes), x);
    SameFits(Send(nd, yes), Send(nd, yes).(vote := m.from), x);
    FitsTrans(nd, Send(nd, yes), Send(nd, yes).(vote := m.from), x);
  }

  /** Any message: unless the node panics, window limits stay the configured ones, and the window of a peer
      that replicates holds what it held above the index the message acknowledges, if the peer replicated
      before, and the appends with entries that the step sends it. */
  lemma WindowStep(nd: Node, m: Message, recent: bool, x: Id)
    requires Primed(nd, x)
    ensures Slid(nd, Acknowledged(nd, m, x), Step(nd, m, recent), x)
  {
    hide Slid, Primed, StaysFit, Handle, Send, InLease;
    var t := TermOf(m);
    SameSlid(nd, nd, x);
    if t == 0 || t == nd.term {
      HandleSlid(nd, m, x);
    } else if t < nd.term {
      SendSlid(nd, AppResp(nd.opt.id, m.from, nd.term, 0, false, 0, 0), x);
      SendSlid(nd, PreVoteResp(nd.opt.id, m.from, nd.term, true), x);
      if m.StorageAppendResp? { SameSlid(nd, SnapshotStored(nd, m.snapshot), x); }
    } else if !InLease(nd, m, recent) {
      CatchSlid(nd, m, x);
    }
  }

  lemma CatchSlid(nd: Node, m: Message, x: Id)
    requires Primed(nd, x) && TermOf(m) > nd.term
    ensures Slid(nd, 0, Handle(Catch(nd, m), m), x)
  {
    hide Slid, Flow, StaysFit, Handle, BecomeFollower;
    if m.PreVote? || (m.PreVoteResp? && !m.reject) {
      HandleSlid(nd, m, x);
    } else {
      var lead := if m.App? || m.Heartbeat? || m.Snap? then m.from else NONE;
      var nd1 := BecomeFollower(nd, TermOf(m), lead);
      ResetFits(nd, TermOf(m), x);
      FollowState(nd, TermOf(m), lead);
      FollowOpt(nd, TermOf(m), lead);
      FitsHas(nd, nd1, x);
      FollowerHandles(nd1, m, x);
      FitsTrans(nd, nd1, Handle(nd1, m), x);
      OtherSlid(nd, 0, Handle(nd1, m), x);
    }
  }
}
