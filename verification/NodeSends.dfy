/** What a leader sends one peer (raft/raft.go maybeSendAppend, maybeSendSnapshot), written out on the log and
    the peer's progress: which message leaves, if any, and what becomes of the progress. */
module NodeSends {
  import opened Types
  import opened Messages
  import opened Limit
  import opened InflightWindow
  import opened PeerProgress
  import opened Node
  import opened Protocol

  /** The entries that follow position prev: as many as fit the size limit, but at least one if there
      is one. */
  predicate Batch(log: seq<Entry>, prev: nat, limit: nat, ents: seq<Entry>) {
    && prev <= |log| && ents <= log[prev..]
    && (prev < |log| ==> ents != [])
    && (|ents| > 1 ==> EntsSize(ents) <= limit)
    && (prev + |ents| < |log| ==> EntsSize(log[prev..prev + |ents| + 1]) > limit)
  }

  lemma {:induction false} FittingMost(ents: seq<Entry>, max: nat)
    ensures var n := Fitting(ents, max); n < |ents| ==> EntsSize(ents[..n + 1]) > max
    decreases |ents|
  {
    var n := Fitting(ents, max);
    if n < |ents| {
      var shorter := ents[..|ents| - 1];
      assert ents[..|ents|] == ents;
      FittingMost(shorter, max);
      if n < |shorter| { assert shorter[..n + 1] == ents[..n + 1]; }
    }
  }

  lemma BatchIs(log: seq<Entry>, prev: nat, limit: nat)
    requires prev <= |log|
    ensures Batch(log, prev, limit, LimitSize(log[prev..], limit))
  {
    var rest := log[prev..];
    var n := Fitting(rest, limit);
    FittingMost(rest, limit);
    if prev + n < |log| { assert log[prev..prev + n + 1] == rest[..n + 1]; }
  }

  /** No further flight fits. */
  predicate NoRoom(w: Window) {
    |w.flights| == w.size || (w.maxBytes != 0 && TotalBytes(w.flights) >= w.maxBytes)
  }

  /** A peer that was sent entries: one that replicates is sent what follows next, and waits once its window
      is full; one that is probed waits for the answer. */
  function SentEnts(p: Peer, ents: seq<Entry>, commit: nat): Peer {
    if ents == [] then p.(sentCommit := commit, paused := if p.mode.Replicate? then NoRoom(p.window) else p.paused)
    else if p.mode.Replicate? then
      var w := p.window.(flights := p.window.flights + [Flight(p.next + |ents| - 1, PayloadsSize(Payloads(ents)))]);
      p.(next := p.next + |ents|, sentCommit := commit, window := w, paused := NoRoom(w))
    else p.(sentCommit := commit, paused := true)
  }

  predicate Waits(p: Peer) {
    p.mode.Snapshot? || p.paused
  }

  /** The append behind position prev that the leader may send. */
  function AppFrom(nd: Node, to: Id, prev: nat, ents: seq<Entry>): Message
    requires prev <= |nd.log|
  {
    App(nd.opt.id, to, nd.term, prev, TermAt(nd.log, prev), ents, nd.committed)
  }

  /** The node once the append left. */
  function Shipped(nd: Node, to: Id, ents: seq<Entry>): Node
    requires to in nd.prs && 0 < nd.prs[to].next <= |nd.log| + 1
  {
    var pr := nd.prs[to];
    nd.(msgs := nd.msgs + [AppFrom(nd, to, pr.next - 1, ents)], prs := nd.prs[to := SentEnts(pr, ents, nd.committed)])
  }

  /** A peer that does not wait and has room is sent the entries from its next index on. */
  lemma SendsEntries(nd: Node, to: Id, ifEmpty: bool) returns (ents: seq<Entry>)
    requires to in nd.prs && to != nd.opt.id && !Waits(nd.prs[to])
    requires nd.compacted < nd.prs[to].next <= |nd.log| && !(nd.prs[to].mode.Replicate? && NoRoom(nd.prs[to].window))
    ensures Batch(nd.log, nd.prs[to].next - 1, nd.opt.maxMsgSize, ents) && ents != []
    ensures ents == LimitSize(nd.log[nd.prs[to].next - 1..], nd.opt.maxMsgSize)
    ensures MaybeSendAppend(nd, to, ifEmpty) == (Shipped(nd, to, ents), true)
  {
    hide Fitting, LimitSize, TotalBytes, EntsSize, PayloadsSize, Payloads;
    var pr := nd.prs[to];
    ents := LimitSize(nd.log[pr.next - 1..], nd.opt.maxMsgSize);
    BatchIs(nd.log, pr.next - 1, nd.opt.maxMsgSize);
  }

  /** One that has no room, or to which no entry is left to send, is sent an append without entries, and
      only if that was asked for. */
  lemma SendsEmpty(nd: Node, to: Id, ifEmpty: bool)
    requires to in nd.prs && to != nd.opt.id && !Waits(nd.prs[to]) && nd.compacted < nd.prs[to].next <= |nd.log| + 1
    requires nd.prs[to].next == |nd.log| + 1 || (nd.prs[to].mode.Replicate? && NoRoom(nd.prs[to].window))
    ensures MaybeSendAppend(nd, to, ifEmpty) == if ifEmpty then (Shipped(nd, to, []), true) else (nd, false)
  {
    hide Fitting, LimitSize, TotalBytes;
    assert Payloads([]) == [];
  }

  /** One whose entries are compacted is sent the node's snapshot, if it was heard from of late, and the
      rest after it. */
  lemma SendsSnapshot(nd: Node, to: Id, ifEmpty: bool)
    requires to in nd.prs && to != nd.opt.id && !Waits(nd.prs[to]) && 0 < nd.prs[to].next <= nd.compacted
    requires nd.compacted <= nd.snapshot <= |nd.log|
    ensures MaybeSendAppend(nd, to, ifEmpty) ==
              if !nd.prs[to].recentActive then (nd, false)
              else
                var pr := nd.prs[to];
                (nd.(msgs := nd.msgs + [Snap(nd.opt.id, to, nd.term, nd.snapshot, TermAt(nd.log, nd.snapshot), nd.log[..nd.snapshot])],
                     prs := nd.prs[to := Peer(pr.matched, nd.snapshot + 1, nd.snapshot, Snapshot, nd.snapshot, pr.recentActive, false,
                                              Window(pr.window.size, pr.window.maxBytes, []), pr.learner)]), true)
  {
  }

  lemma SendsNothing(nd: Node, to: Id, ifEmpty: bool)
    requires to in nd.prs && nd.prs[to].next > 0 && Waits(nd.prs[to])
    ensures MaybeSendAppend(nd, to, ifEmpty) == (nd, false)
  {
  }

  // ---------------------------------------------------------------------------------------------
  // Sending until nothing more goes out
  // ---------------------------------------------------------------------------------------------

  /** Nothing more is to be sent to the peer: it waits, its window is full, it has all entries, or it
      needs a snapshot but was not heard from. */
  predicate Drained(nd: Node, to: Id)
    requires to in nd.prs
  {
    var pr := nd.prs[to];
    Waits(pr) || (pr.mode.Replicate? && NoRoom(pr.window)) || pr.next == |nd.log| + 1 || (pr.next <= nd.compacted && !pr.recentActive)
  }

  predicate InReach(nd: Node, to: Id) {
    && to in nd.prs && to != nd.opt.id && 0 < nd.prs[to].next <= |nd.log| + 1
    && nd.compacted <= nd.snapshot <= |nd.log|
  }

  lemma OneMore(nd: Node, to: Id)
    requires InReach(nd, to) && !nd.panicked
    ensures var (nd1, sent) := MaybeSendAppend(nd, to, false);
            InReach(nd1, to) && !nd1.panicked && (sent || (nd1 == nd && Drained(nd, to)))
  {
    hide MaybeSendAppend, NoRoom, Batch;
    var pr := nd.prs[to];
    if Waits(pr) {
      SendsNothing(nd, to, false);
    } else if pr.next <= nd.compacted {
      SendsSnapshot(nd, to, false);
    } else if pr.next == |nd.log| + 1 || (pr.mode.Replicate? && NoRoom(pr.window)) {
      SendsEmpty(nd, to, false);
    } else {
      var ents := SendsEntries(nd, to, false);
      BatchEnds(nd.log, pr.next - 1, nd.opt.maxMsgSize, ents);
    }
  }

  lemma BatchEnds(log: seq<Entry>, prev: nat, limit: nat, ents: seq<Entry>)
    requires Batch(log, prev, limit, ents)
    ensures prev + |ents| <= |log|
  {
  }

  // ---------------------------------------------------------------------------------------------
  // Broadcasts
  // ---------------------------------------------------------------------------------------------

  /** What leaves for a peer when it is sent what it needs, entries or none, and its progress after. */
  function NextFor(nd: Node, to: Id): (seq<Message>, Peer)
    requires InReach(nd, to)
  {
    var pr := nd.prs[to];
    if Waits(pr) then ([], pr)
    else if pr.next <= nd.compacted then
      if !pr.recentActive then ([], pr)
      else ([Snap(nd.opt.id, to, nd.term, nd.snapshot, TermAt(nd.log, nd.snapshot), nd.log[..nd.snapshot])],
            Peer(pr.matched, nd.snapshot + 1, nd.snapshot, Snapshot, nd.snapshot, pr.recentActive, false,
                 Window(pr.window.size, pr.window.maxBytes, []), pr.learner))
    else
      var ents := if pr.mode.Replicate? && NoRoom(pr.window) then [] else LimitSize(nd.log[pr.next - 1..], nd.opt.maxMsgSize);
      ([AppFrom(nd, to, pr.next - 1, ents)], SentEnts(pr, ents, nd.committed))
  }

  lemma SendAppendIs(nd: Node, to: Id)
    requires InReach(nd, to)
    ensures var (ms, p) := NextFor(nd, to); SendAppend(nd, to) == nd.(msgs := nd.msgs + ms, prs := nd.prs[to := p])
  {
    hide MaybeSendAppend, SentEnts, NoRoom, Batch, LimitSize;
    var pr := nd.prs[to];
    assert nd.prs[to := pr] == nd.prs;
    assert nd.msgs + [] == nd.msgs;
    if Waits(pr) {
      SendsNothing(nd, to, true);
    } else if pr.next <= nd.compacted {
      SendsSnapshot(nd, to, true);
    } else if pr.next == |nd.log| + 1 || (pr.mode.Replicate? && NoRoom(pr.window)) {
      SendsEmpty(nd, to, true);
      assert pr.next == |nd.log| + 1 ==> nd.log[pr.next - 1..] == [];
      NothingToLimit(nd.opt.maxMsgSize);
    } else {
      var ents := SendsEntries(nd, to, true);
    }
  }

  lemma NothingToLimit(max: nat)
    ensures LimitSize([], max) == []
  {
  }

  predicate Distinct(ids: seq<Id>) {
    forall i, j :: 0 <= i < j < |ids| ==> ids[i] != ids[j]
  }

  predicate AllInReach(nd: Node, ids: seq<Id>) {
    forall y :: y in ids && y != nd.opt.id ==> InReach(nd, y)
  }

  /** What leaves for several peers, in their order. */
  function ForAll(nd: Node, ids: seq<Id>): seq<Message>
    requires AllInReach(nd, ids)
  {
    if ids == [] then []
    else (if ids[0] == nd.opt.id then [] else NextFor(nd, ids[0]).0) + ForAll(nd, ids[1..])
  }

  /** Their progress after. */
  function AfterAll(nd: Node, ids: seq<Id>): map<Id, Peer>
    requires AllInReach(nd, ids)
  {
    map y | y in nd.prs :: if y in ids && y != nd.opt.id then NextFor(nd, y).1 else nd.prs[y]
  }

  /** What a peer is sent depends on its own progress alone. */
  lemma {:induction false} ForOthers(nd: Node, x: Id, p: Peer, ms: seq<Message>, ids: seq<Id>)
    requires AllInReach(nd, ids) && x !in ids
    ensures var nd1 := nd.(prs := nd.prs[x := p], msgs := ms);
            AllInReach(nd1, ids) && ForAll(nd1, ids) == ForAll(nd, ids)
            && forall y :: y in ids && y != nd.opt.id ==> NextFor(nd1, y) == NextFor(nd, y)
    decreases |ids|
  {
    hide NextFor;
    if ids != [] {
      ForOthers(nd, x, p, ms, ids[1..]);
      if ids[0] != nd.opt.id { ForAnother(nd, x, p, ms, ids[0]); }
    }
  }

  lemma ForAnother(nd: Node, x: Id, p: Peer, ms: seq<Message>, y: Id)
    requires InReach(nd, y) && y != x
    ensures var nd1 := nd.(prs := nd.prs[x := p], msgs := ms); InReach(nd1, y) && NextFor(nd1, y) == NextFor(nd, y)
  {
    hide NoRoom, LimitSize, SentEnts;
  }

  /** A broadcast sends every peer, in order, what it needs, and leaves the progress that comes of it; a peer is
      sent nothing only if it waits for an answer or a snapshot, or needs a snapshot and was not heard
      from. */
  lemma {:induction false} BcastIs(nd: Node, ids: seq<Id>)
    requires AllInReach(nd, ids) && Distinct(ids)
    ensures BcastAppend(nd, ids) == nd.(msgs := nd.msgs + ForAll(nd, ids), prs := AfterAll(nd, ids))
    decreases |ids|
  {
    hide MaybeSendAppend, NextFor, AfterAll, InReach;
    if ids == [] {
      AfterNone(nd);
      assert nd.msgs + ForAll(nd, ids) == nd.msgs;
    } else {
      var x := ids[0];
      assert x !in ids[1..];
      AfterAllFirst(nd, ids);
      if x == nd.opt.id {
        BcastIs(nd, ids[1..]);
        assert ForAll(nd, ids) == ForAll(nd, ids[1..]);
      } else {
        SendAppendIs(nd, x);
        var (ms, p) := NextFor(nd, x);
        var nd1 := nd.(prs := nd.prs[x := p], msgs := nd.msgs + ms);
        ForOthers(nd, x, p, nd.msgs + ms, ids[1..]);
        BcastIs(nd1, ids[1..]);
        assert nd1.msgs + ForAll(nd1, ids[1..]) == nd.msgs + ForAll(nd, ids);
      }
    }
  }

  lemma AfterNone(nd: Node)
    ensures AfterAll(nd, []) == nd.prs
  {
  }

  lemma AfterAllFirst(nd: Node, ids: seq<Id>)
    requires AllInReach(nd, ids) && ids != [] && ids[0] !in ids[1..]
    ensures ids[0] == nd.opt.id ==> AfterAll(nd, ids) == AfterAll(nd, ids[1..])
    ensures ids[0] != nd.opt.id ==>
              var (ms, p) := NextFor(nd, ids[0]);
              var nd1 := nd.(prs := nd.prs[ids[0] := p], msgs := nd.msgs + ms);
              AllInReach(nd1, ids[1..]) && AfterAll(nd1, ids[1..]) == AfterAll(nd, ids)
  {
    hide NextFor;
    assert ids == [ids[0]] + ids[1..];
    if ids[0] != nd.opt.id {
      var (ms, p) := NextFor(nd, ids[0]);
      ForOthers(nd, ids[0], p, nd.msgs + ms, ids[1..]);
    }
  }

  /** The heartbeats to several peers: the commit index as far as each is known to match. */
  function Heartbeats(nd: Node, ids: seq<Id>, ctx: nat): seq<Message>
    requires forall y :: y in ids ==> y in nd.prs
  {
    if ids == [] then []
    else
      (if ids[0] == nd.opt.id then []
       else [Heartbeat(nd.opt.id, ids[0], nd.term, Min(nd.prs[ids[0]].matched, nd.committed), ctx)])
      + Heartbeats(nd, ids[1..], ctx)
  }

  /** The progress after: the commit index they tell of is what was sent last. */
  function AfterBeats(nd: Node, ids: seq<Id>): map<Id, Peer> {
    map y | y in nd.prs ::
      if y in ids && y != nd.opt.id then nd.prs[y].(sentCommit := Min(nd.prs[y].matched, nd.committed)) else nd.prs[y]
  }

  lemma {:induction false} HeartbeatsSame(nd: Node, x: Id, commit: nat, ms: seq<Message>, ids: seq<Id>, ctx: nat)
    requires x in nd.prs && forall y :: y in ids ==> y in nd.prs
    ensures var nd1 := nd.(prs := nd.prs[x := nd.prs[x].(sentCommit := commit)], msgs := ms);
            Heartbeats(nd1, ids, ctx) == Heartbeats(nd, ids, ctx)
    decreases |ids|
  {
    if ids != [] { HeartbeatsSame(nd, x, commit, ms, ids[1..], ctx); }
  }

  lemma {:induction false} BeatsAre(nd: Node, ids: seq<Id>, ctx: nat)
    requires forall y :: y in ids ==> y in nd.prs
    ensures BcastHeartbeat(nd, ids, ctx) == nd.(msgs := nd.msgs + Heartbeats(nd, ids, ctx), prs := AfterBeats(nd, ids))
    decreases |ids|
  {
    hide SendHeartbeat, AfterBeats;
    AfterFirst(nd, ids, nd);
    if ids == [] {
      assert nd.msgs + Heartbeats(nd, ids, ctx) == nd.msgs;
    } else if ids[0] == nd.opt.id {
      BeatsAre(nd, ids[1..], ctx);
      assert Heartbeats(nd, ids, ctx) == Heartbeats(nd, ids[1..], ctx);
    } else {
      var x := ids[0];
      var commit := Min(nd.prs[x].matched, nd.committed);
      var nd1 := SendHeartbeat(nd, x, ctx);
      OneBeat(nd, x, ctx);
      AfterFirst(nd, ids, nd1);
      BeatsAre(nd1, ids[1..], ctx);
      HeartbeatsSame(nd, x, commit, nd1.msgs, ids[1..], ctx);
      assert nd1.msgs + Heartbeats(nd, ids[1..], ctx) == nd.msgs + Heartbeats(nd, ids, ctx);
    }
  }

  lemma AfterFirst(nd: Node, ids: seq<Id>, nd1: Node)
    requires forall y :: y in ids ==> y in nd.prs
    ensures ids == [] ==> AfterBeats(nd, ids) == nd.prs
    ensures ids != [] && ids[0] == nd.opt.id ==> AfterBeats(nd, ids) == AfterBeats(nd, ids[1..])
    ensures ids != [] && ids[0] != nd.opt.id && nd1.opt == nd.opt && nd1.committed == nd.committed
            && nd1.prs == nd.prs[ids[0] := nd.prs[ids[0]].(sentCommit := Min(nd.prs[ids[0]].matched, nd.committed))]
            ==> AfterBeats(nd1, ids[1..]) == AfterBeats(nd, ids)
  {
    if ids != [] { assert ids == [ids[0]] + ids[1..]; }
  }

  lemma OneBeat(nd: Node, x: Id, ctx: nat)
    requires x in nd.prs && x != nd.opt.id
    ensures var commit := Min(nd.prs[x].matched, nd.committed);
            SendHeartbeat(nd, x, ctx) == nd.(msgs := nd.msgs + [Heartbeat(nd.opt.id, x, nd.term, commit, ctx)],
                                             prs := nd.prs[x := nd.prs[x].(sentCommit := commit)])
  {
  }
}
