/** What sending does to a peer's progress: the window of a peer that replicates grows by the appends with
    entries that leave for it, and by nothing else. */
module NodeShipping {
  import opened Types
  import opened Quorum
  import opened Messages
  import opened Limit
  import opened InflightWindow
  import opened PeerProgress
  import opened Node
  import opened NodeAnswers

  /** The appends with entries to x among some messages, in order. */
  function SentTo(ms: seq<Message>, x: Id): seq<Flight> {
    if ms == [] then []
    else
      var m := ms[|ms| - 1];
      SentTo(ms[..|ms| - 1], x)
      + if m.App? && m.to == x && m.ents != [] then [Flight(m.prevIndex + |m.ents|, PayloadsSize(Payloads(m.ents)))] else []
  }

  lemma {:induction false} SentBoth(a: seq<Message>, b: seq<Message>, x: Id)
    ensures SentTo(a + b, x) == SentTo(a, x) + SentTo(b, x)
    decreases |b|
  {
    hide PayloadsSize, Payloads;
    if b == [] {
      assert a + b == a;
    } else {
      assert (a + b)[..|a + b| - 1] == a + b[..|b| - 1];
      SentBoth(a, b[..|b| - 1], x);
    }
  }

  /** The window limits of x's progress are the configured ones. */
  predicate Fitted(nd: Node, x: Id) {
    x in nd.prs ==> nd.prs[x].window.size == nd.opt.maxInflight && nd.prs[x].window.maxBytes == nd.opt.maxInflightBytes
  }

  /** x is at most sent more. */
  predicate Shipping(nd: Node, nd': Node, x: Id)
    requires x in nd.prs && x in nd'.prs
  {
    && nd'.opt == nd.opt && nd'.state == nd.state && nd'.term == nd.term && nd.msgs <= nd'.msgs
    && (Fitted(nd, x) ==> Fitted(nd', x))
    && (nd'.prs[x].mode.Replicate? ==>
          nd.prs[x].mode.Replicate?
          && nd'.prs[x].window.flights == nd.prs[x].window.flights + SentTo(nd'.msgs[|nd.msgs|..], x))
  }

  /** So it is unless the node panics. */
  predicate Ships(nd: Node, nd': Node, x: Id) {
    && (nd.panicked ==> nd'.panicked) && x in nd.prs && x in nd'.prs && nd'.prs[x].matched == nd.prs[x].matched
    && (nd'.panicked || Shipping(nd, nd', x))
  }

  lemma ShipsHas(nd: Node, nd': Node, x: Id)
    requires Ships(nd, nd', x)
    ensures x in nd.prs && x in nd'.prs && nd'.prs[x].matched == nd.prs[x].matched
  {
  }

  lemma ShipsTrans(nd: Node, nd1: Node, nd2: Node, x: Id)
    requires Ships(nd, nd1, x) && Ships(nd1, nd2, x)
    ensures Ships(nd, nd2, x)
  {
    hide Fitted, SentTo;
    if !nd2.panicked {
      SentBoth(nd1.msgs[|nd.msgs|..], nd2.msgs[|nd1.msgs|..], x);
      assert nd2.msgs[|nd.msgs|..] == nd1.msgs[|nd.msgs|..] + nd2.msgs[|nd1.msgs|..];
    }
  }

  /** Nothing sent, and nothing done to the peer's mode and window. */
  lemma SameShips(nd: Node, nd': Node, x: Id)
    requires nd.panicked ==> nd'.panicked
    requires nd'.opt == nd.opt && nd'.state == nd.state && nd'.term == nd.term && nd'.msgs == nd.msgs && x in nd.prs && x in nd'.prs
    requires nd'.prs[x].mode == nd.prs[x].mode && nd'.prs[x].window == nd.prs[x].window && nd'.prs[x].matched == nd.prs[x].matched
    ensures Ships(nd, nd', x)
  {
  }

  lemma PanicShips(nd: Node, x: Id)
    requires x in nd.prs
    ensures Ships(nd, Panic(nd), x)
  {
  }

  lemma OneSent(ms: seq<Message>, m: Message, x: Id)
    ensures (ms + [m])[|ms|..] == [m]
    ensures SentTo([m], x) == if m.App? && m.to == x && m.ents != []
                              then [Flight(m.prevIndex + |m.ents|, PayloadsSize(Payloads(m.ents)))] else []
  {
    assert [m][..0] == [];
  }

  /** Any message but an append with entries to x. */
  lemma SendShips(nd: Node, m: Message, x: Id)
    requires x in nd.prs && !(m.App? && m.to == x && m.ents != [])
    ensures Ships(nd, Send(nd, m), x)
  {
    hide PayloadsSize, Payloads;
    OneSent(nd.msgs, m, x);
  }

  // ---------------------------------------------------------------------------------------------
  // Sending
  // ---------------------------------------------------------------------------------------------

  lemma AppendShips(nd: Node, to: Id, ifEmpty: bool, x: Id)
    requires x in nd.prs
    ensures Ships(nd, MaybeSendAppend(nd, to, ifEmpty).0, x)
  {
    hide Ships, MaybeSendSnapshot, EntriesFrom, Term, Paused, Full, PayloadsSize, Payloads;
    SameShips(nd, nd, x);
    PanicShips(nd, x);
    if to in nd.prs && nd.prs[to].next > 0 {
      var pr := nd.prs[to];
      SnapshotShips(nd, to, pr, x);
      if !Paused(pr) && Term(nd, pr.next - 1).Some? {
        var ents := if pr.mode.Replicate? && Full(pr.window) then Some([]) else EntriesFrom(nd, pr.next);
        if ents.Some? && (ents.value != [] || ifEmpty) {
          EntriesShip(nd, to, Term(nd, pr.next - 1).value, ents.value, x);
        }
      }
    }
  }

  lemma EntriesShip(nd: Node, to: Id, term: nat, ents: seq<Entry>, x: Id)
    requires x in nd.prs && to in nd.prs && nd.prs[to].next > 0
    ensures var pr := nd.prs[to];
            var sent := Send(nd, App(nd.opt.id, to, nd.term, pr.next - 1, term, ents, nd.committed));
            Ships(nd, if SendPanics(pr, |ents|) then Panic(sent)
                      else WithPeer(sent, to, AfterSend(pr, |ents|, PayloadsSize(Payloads(ents))).(sentCommit := nd.committed)), x)
  {
    hide Full, PayloadsSize, Payloads, Fitted, AfterSend, SendPanics;
    var pr := nd.prs[to];
    var m := App(nd.opt.id, to, nd.term, pr.next - 1, term, ents, nd.committed);
    var sent := Send(nd, m);
    OneSent(nd.msgs, m, x);
    if !SendPanics(pr, |ents|) {
      var nd' := WithPeer(sent, to, AfterSend(pr, |ents|, PayloadsSize(Payloads(ents))).(sentCommit := nd.committed));
      Lengthened(pr, ents, nd.committed);
      FittedSame(nd, nd', x);
    }
  }

  lemma Lengthened(pr: Peer, ents: seq<Entry>, commit: nat)
    requires pr.next > 0 && !SendPanics(pr, |ents|)
    ensures var q := AfterSend(pr, |ents|, PayloadsSize(Payloads(ents))).(sentCommit := commit);
            q.mode == pr.mode && q.matched == pr.matched
            && q.window.size == pr.window.size && q.window.maxBytes == pr.window.maxBytes
            && (q.mode.Replicate? ==>
              q.window.flights == pr.window.flights
                                  + if ents != [] then [Flight(pr.next - 1 + |ents|, PayloadsSize(Payloads(ents)))] else [])
  {
    hide Full, PayloadsSize, Payloads;
  }

  lemma FittedSame(nd: Node, nd': Node, x: Id)
    requires x in nd.prs && x in nd'.prs && nd'.opt == nd.opt
    requires nd'.prs[x].window.size == nd.prs[x].window.size && nd'.prs[x].window.maxBytes == nd.prs[x].window.maxBytes
    ensures Fitted(nd, x) ==> Fitted(nd', x)
  {
  }

  lemma SnapshotShips(nd: Node, to: Id, pr: Peer, x: Id)
    requires x in nd.prs && to in nd.prs && pr == nd.prs[to]
    ensures Ships(nd, MaybeSendSnapshot(nd, to, pr).0, x)
  {
    hide ZeroTerm, Covered;
    var m := Snap(nd.opt.id, to, nd.term, nd.snapshot, ZeroTerm(nd, nd.snapshot), Covered(nd));
    OneSent(nd.msgs, m, x);
  }

  lemma {:induction false} BcastShips(nd: Node, ids: seq<Id>, x: Id)
    requires x in nd.prs
    ensures Ships(nd, BcastAppend(nd, ids), x)
    decreases |ids|
  {
    hide Ships, MaybeSendAppend;
    SameShips(nd, nd, x);
    if ids != [] {
      var nd1 := if ids[0] == nd.opt.id then nd else SendAppend(nd, ids[0]);
      AppendShips(nd, ids[0], true, x);
      ShipsHas(nd, SendAppend(nd, ids[0]), x);
      BcastShips(nd1, ids[1..], x);
      ShipsTrans(nd, nd1, BcastAppend(nd, ids), x);
    }
  }

  lemma {:induction false} SendMoreShips(nd: Node, to: Id, x: Id)
    requires x in nd.prs
    ensures Ships(nd, SendMore(nd, to), x)
    decreases !nd.panicked, ToSend(nd, to)
  {
    hide Ships, MaybeSendAppend, ToSend;
    AppendShips(nd, to, false, x);
    ShipsHas(nd, MaybeSendAppend(nd, to, false).0, x);
    PanicStays(nd, to);
    var (nd1, sent) := MaybeSendAppend(nd, to, false);
    if sent && !nd1.panicked {
      SendingEnds(nd, to);
      SendMoreShips(nd1, to, x);
      ShipsTrans(nd, nd1, SendMore(nd, to), x);
    }
  }

  lemma HeartbeatShips(nd: Node, to: Id, ctx: nat, x: Id)
    requires x in nd.prs
    ensures Ships(nd, SendHeartbeat(nd, to, ctx), x)
  {
    hide Ships;
    PanicShips(nd, x);
    if to in nd.prs {
      var m := Heartbeat(nd.opt.id, to, nd.term, Min(nd.prs[to].matched, nd.committed), ctx);
      SendShips(nd, m, x);
      SameShips(Send(nd, m), SendHeartbeat(nd, to, ctx), x);
      ShipsTrans(nd, Send(nd, m), SendHeartbeat(nd, to, ctx), x);
    }
  }

  lemma {:induction false} BeatShips(nd: Node, ids: seq<Id>, ctx: nat, x: Id)
    requires x in nd.prs
    ensures Ships(nd, BcastHeartbeat(nd, ids, ctx), x)
    decreases |ids|
  {
    hide Ships, SendHeartbeat;
    SameShips(nd, nd, x);
    if ids != [] {
      var nd1 := if ids[0] == nd.opt.id then nd else SendHeartbeat(nd, ids[0], ctx);
      HeartbeatShips(nd, ids[0], ctx, x);
      ShipsHas(nd, SendHeartbeat(nd, ids[0], ctx), x);
      BeatShips(nd1, ids[1..], ctx, x);
      ShipsTrans(nd, nd1, BcastHeartbeat(nd, ids, ctx), x);
    }
  }

  lemma QueueShips(nd: Node, req: Request, x: Id)
    requires x in nd.prs
    ensures Ships(nd, QueueRead(nd, req), x)
  {
    hide Ships, BcastHeartbeat, HeartbeatCtx;
    var nd1 := nd.(queue := nd.queue + [Queued(req, nd.committed)]);
    var nd2 := RecvAck(nd1, nd.opt.id, HeartbeatCtx(nd1));
    SameShips(nd, nd2, x);
    BeatShips(nd2, nd.opt.peers, HeartbeatCtx(nd2), x);
    ShipsTrans(nd, nd2, QueueRead(nd, req), x);
  }

  lemma {:induction false} QueueAllShips(nd: Node, reqs: seq<Request>, x: Id)
    requires x in nd.prs
    ensures Ships(nd, QueueReads(nd, reqs), x)
    decreases |reqs|
  {
    hide Ships, QueueRead;
    SameShips(nd, nd, x);
    if reqs != [] {
      QueueShips(nd, reqs[0], x);
      ShipsHas(nd, QueueRead(nd, reqs[0]), x);
      QueueAllShips(QueueRead(nd, reqs[0]), reqs[1..], x);
      ShipsTrans(nd, QueueRead(nd, reqs[0]), QueueReads(nd, reqs), x);
    }
  }

  lemma CommitShips(nd: Node, x: Id)
    requires x in nd.prs
    ensures Ships(nd, ReleaseWaiting(MaybeCommit(nd).0), x)
  {
    hide Ships, QueueReads, JointCommitted, CommittedInTerm, CommitTo, MatchTerm;
    var nd1 := MaybeCommit(nd).0;
    CommitKeeps(nd, JointCommitted(nd.opt.voters, Matches(nd)));
    CommitPanics(nd, JointCommitted(nd.opt.voters, Matches(nd)));
    SameShips(nd, nd1, x);
    SameShips(nd1, nd1.(waiting := []), x);
    QueueAllShips(nd1.(waiting := []), nd1.waiting, x);
    ShipsTrans(nd1, nd1.(waiting := []), QueueReads(nd1.(waiting := []), nd1.waiting), x);
    SameShips(nd1, nd1, x);
    ShipsTrans(nd, nd1, ReleaseWaiting(nd1), x);
  }

  lemma CommitPanics(nd: Node, k: nat)
    ensures nd.panicked ==> CommitTo(nd, k).panicked
  {
  }

  lemma RespondShips(nd: Node, q: Queued, x: Id)
    requires x in nd.prs
    ensures Ships(nd, Respond(nd, q), x)
  {
    hide Ships;
    if q.req.from == NONE || q.req.from == nd.opt.id {
      SameShips(nd, Respond(nd, q), x);
    } else {
      SendShips(nd, ReadIndexResp(nd.opt.id, q.req.from, nd.term, q.index, q.req.data), x);
    }
  }

  lemma {:induction false} RespondAllShips(nd: Node, qs: seq<Queued>, x: Id)
    requires x in nd.prs
    ensures Ships(nd, RespondAll(nd, qs), x)
    decreases |qs|
  {
    hide Ships, Respond;
    SameShips(nd, nd, x);
    if qs != [] {
      RespondShips(nd, qs[0], x);
      ShipsHas(nd, Respond(nd, qs[0]), x);
      RespondAllShips(Respond(nd, qs[0]), qs[1..], x);
      ShipsTrans(nd, Respond(nd, qs[0]), RespondAll(nd, qs), x);
    }
  }

  /** What follows an acknowledgement. */
  lemma AckedShips(nd: Node, from: Id, x: Id)
    requires from in nd.prs && x in nd.prs
    ensures Ships(nd, LeaderAcked(nd, from), x)
  {
    hide Ships, MaybeCommit, BcastAppend, ReleaseWaiting, SendMore, MaybeSendAppend, Send;
    CommitShips(nd, x);
    SameShips(nd, nd, x);
    var (nd1, committed) := MaybeCommit(nd);
    var released := ReleaseWaiting(nd1);
    ShipsHas(nd, released, x);
    BcastShips(released, nd.opt.peers, x);
    ShipsTrans(nd, released, BcastAppend(released, nd.opt.peers), x);
    AppendShips(nd, from, true, x);
    var nd2 := if committed then BcastAppend(released, nd.opt.peers)
               else if from != nd.opt.id && Bumpable(nd.prs[from], nd.committed) then SendAppend(nd, from)
               else nd;
    ShipsHas(nd, nd2, x);
    SendMoreShips(nd2, from, x);
    ShipsTrans(nd, nd2, SendMore(nd2, from), x);
    var nd3 := if from != nd.opt.id then SendMore(nd2, from) else nd2;
    var m := TimeoutNow(nd.opt.id, from, nd.term);
    ShipsHas(nd, nd3, x);
    SendShips(nd3, m, x);
    ShipsTrans(nd, nd3, Send(nd3, m), x);
  }
}
