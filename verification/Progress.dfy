/** What a leader tracks about one peer (tracker/progress.go): the probe / replicate / snapshot state
    machine and the flow control it does, first as operations on a value, then as the object that is
    updated in place. */
module PeerProgress {
  import opened Types
  import opened InflightWindow

  datatype Mode = Probe | Replicate | Snapshot

  datatype Peer = Peer(matched: nat, next: nat, sentCommit: nat, mode: Mode, pendingSnapshot: nat,
                       recentActive: bool, paused: bool, window: Window, learner: bool)

  function InMode(p: Peer, mode: Mode): Peer {
    p.(paused := false, pendingSnapshot := 0, mode := mode, window := p.window.(flights := []))
  }

  function Probing(p: Peer): Peer {
    var next := if p.mode.Snapshot? then Max(p.matched + 1, p.pendingSnapshot + 1) else p.matched + 1;
    InMode(p, Probe).(next := next, sentCommit := Min(p.sentCommit, next - 1))
  }

  function Replicating(p: Peer): Peer {
    InMode(p, Replicate).(next := p.matched + 1)
  }

  function Snapshotting(p: Peer, index: nat): Peer {
    InMode(p, Snapshot).(pendingSnapshot := index, next := index + 1, sentCommit := index)
  }

  /** Recording a send panics in snapshot mode and when a message does not fit in the window. */
  predicate SendPanics(p: Peer, entries: nat) {
    p.mode.Snapshot? || (p.mode.Replicate? && entries > 0 && Full(p.window))
  }

  function AfterSend(p: Peer, entries: nat, bytes: nat): Peer
    requires !SendPanics(p, entries)
  {
    if p.mode.Replicate? then
      var q := if entries > 0
               then p.(next := p.next + entries, window := Pushed(p.window, Flight(p.next + entries - 1, bytes)))
               else p;
      q.(paused := Full(q.window))
    else if entries > 0 then p.(paused := true)
    else p
  }

  predicate Bumpable(p: Peer, index: nat) {
    index > p.sentCommit && p.sentCommit + 1 < p.next
  }

  /** An acknowledgement of n; false when it is outdated. */
  function Updated(p: Peer, n: nat): (Peer, bool) {
    if n <= p.matched then (p, false)
    else (p.(matched := n, next := Max(p.next, n + 1), paused := false), true)
  }

  /** A rejection of the append at `rejected`; false when it is outdated. */
  function Decreased(p: Peer, rejected: nat, hint: nat): (Peer, bool)
    requires p.next > 0
  {
    if p.mode.Replicate? then
      if rejected <= p.matched then (p, false)
      else (p.(next := p.matched + 1, sentCommit := Min(p.sentCommit, p.matched)), true)
    else if p.next - 1 != rejected then (p, false)
    else
      var next := Max(Min(rejected, hint + 1), p.matched + 1);
      (p.(next := next, sentCommit := Min(p.sentCommit, next - 1), paused := false), true)
  }

  predicate Paused(p: Peer) {
    p.mode.Snapshot? || p.paused
  }

  /** What an accepted acknowledgement does in stepLeader: probing and caught-up snapshot peers start
      to replicate, replicating ones free their window. `first` is the leader's first index. */
  function Acked(p: Peer, n: nat, first: nat): (Peer, bool) {
    var (q, updated) := Updated(p, n);
    if !(updated || (q.matched == n && q.mode.Probe?)) then (q, false)
    else if q.mode.Probe? then (Replicating(q), true)
    else if q.mode.Snapshot? then
      (if q.matched + 1 >= first then Replicating(Probing(q)) else q, true)
    else (q.(window := Released(q.window, n)), true)
  }

  /** What a rejection does in stepLeader. */
  function Rejected(p: Peer, rejected: nat, hint: nat): (Peer, bool)
    requires p.next > 0
  {
    var (q, lowered) := Decreased(p, rejected, hint);
    (if lowered && q.mode.Replicate? then Probing(q) else q, lowered)
  }

  /** What reset leaves of a peer. */
  function FreshPeer(p: Peer, matched: nat, next: nat): Peer {
    Peer(matched, next, 0, Probe, 0, false, false, p.window.(flights := []), p.learner)
  }

  // ---------------------------------------------------------------------------------------------
  // Flow control
  // ---------------------------------------------------------------------------------------------

  /** The in-flight appends of a replicating peer lie above what it matched and below what is sent
      next, in order, and are within the limits; no other peer has any. `last` is the leader's last
      index. */
  predicate Flow(p: Peer, last: nat) {
    && p.matched < p.next <= last + 1
    && p.window.size > 0 && |p.window.flights| <= p.window.size
    && WithinBytes(p.window)
    && (p.mode.Replicate? ==> Increasing(p.window.flights) && InFlight(p))
    && (!p.mode.Replicate? ==> p.window.flights == [])
    && p.pendingSnapshot <= last
  }

  /** All the flights but the last together are below the byte limit, if there is one: each was sent when
      there was still room. */
  predicate WithinBytes(w: Window) {
    w.maxBytes != 0 && w.flights != [] ==> TotalBytes(w.flights[..|w.flights| - 1]) < w.maxBytes
  }

  lemma FewerWithin(w: Window, k: nat)
    requires WithinBytes(w) && k <= |w.flights|
    ensures WithinBytes(w.(flights := w.flights[k..]))
  {
    var fs := w.flights;
    if k < |fs| {
      BytesOf(fs[..k], fs[k..|fs| - 1]);
      assert fs[..k] + fs[k..|fs| - 1] == fs[..|fs| - 1];
      assert fs[k..][..|fs[k..]| - 1] == fs[k..|fs| - 1];
    }
  }

  predicate InFlight(p: Peer) {
    forall f :: f in p.window.flights ==> p.matched < f.index < p.next
  }

  lemma FreshFlows(p: Peer, matched: nat, last: nat)
    requires p.window.size > 0 && matched <= last
    ensures Flow(FreshPeer(p, matched, last + 1), last)
  {
  }

  /** Sending entries that the leader has, to a peer that is not paused, when there is room. */
  lemma SendFlows(p: Peer, last: nat, entries: nat, bytes: nat)
    requires Flow(p, last) && !SendPanics(p, entries) && p.next + entries <= last + 1
    ensures Flow(AfterSend(p, entries, bytes), last)
  {
    hide TotalBytes, Increasing;
    if p.mode.Replicate? && entries > 0 {
      var f := Flight(p.next + entries - 1, bytes);
      PushedInOrder(p, f);
      assert (p.window.flights + [f])[..|p.window.flights + [f]| - 1] == p.window.flights;
    }
  }

  lemma PushedInOrder(p: Peer, f: Flight)
    requires Increasing(p.window.flights) && InFlight(p) && f.index >= p.next
    ensures Increasing(p.window.flights + [f])
    ensures forall g :: g in p.window.flights + [f] ==> g in p.window.flights || g == f
  {
    var fs := p.window.flights;
    assert forall k :: 0 <= k < |fs| ==> fs[k] in fs && fs[k].index < f.index;
  }

  lemma SnapshotFlows(p: Peer, last: nat, index: nat)
    requires Flow(p, last) && p.matched <= index <= last
    ensures Flow(Snapshotting(p, index), last)
  {
  }

  lemma ProbeFlows(p: Peer, last: nat)
    requires Flow(p, last)
    ensures Flow(Probing(p), last)
  {
  }

  lemma AckFlows(p: Peer, last: nat, n: nat, first: nat)
    requires Flow(p, last) && n <= last
    ensures Flow(Acked(p, n, first).0, last)
    ensures Acked(p, n, first).0.matched == Max(p.matched, n)
  {
    var (q, updated) := Updated(p, n);
    if updated && q.mode.Replicate? {
      FreeKeepsAbove(q.window, n);
      FewerWithin(q.window, Freed(q.window.flights, n));
      assert forall f :: f in Released(q.window, n).flights ==> f in p.window.flights;
    }
  }

  /** An acknowledgement below what was matched, or of just that by a peer that is not probed, is stale.
      Any other raises Match to it; what else changes depends on the mode. A replicating peer keeps the
      flights above it, in order; a probed one, and one waiting for a snapshot that the leader's log now
      connects to, begins to replicate behind it with an empty window. */
  lemma AckedIs(p: Peer, n: nat, first: nat)
    requires p.mode.Replicate? ==> Increasing(p.window.flights)
    ensures var next := if p.next > n then p.next else n + 1;
            Acked(p, n, first) ==
              if n < p.matched || (n == p.matched && !p.mode.Probe?) then (p, false)
              else if p.mode.Replicate? then
                (p.(matched := n, next := next, paused := false, window := p.window.(flights := Above(p.window.flights, n))), true)
              else if p.mode.Snapshot? && n + 1 < first then (p.(matched := n, next := next, paused := false), true)
              else (Peer(n, n + 1, if p.mode.Snapshot? then Min(p.sentCommit, Max(n, p.pendingSnapshot)) else p.sentCommit, Replicate, 0,
                         p.recentActive, false, Window(p.window.size, p.window.maxBytes, []), p.learner), true)
  {
    if p.mode.Replicate? { ReleasedIs(p.window.flights, n); }
  }

  /** A rejection counts for a replicating peer when it is above what it matched, and for any other when it
      answers the probe behind which entries are sent next. A replicating peer is then probed behind what
      it matched; any other behind the hint, but not above the rejected index nor below what it matched. */
  lemma RejectedIs(p: Peer, rejected: nat, hint: nat)
    requires p.next > 0
    ensures Rejected(p, rejected, hint) ==
              if p.mode.Replicate? then
                if rejected <= p.matched then (p, false)
                else (Peer(p.matched, p.matched + 1, Min(p.sentCommit, p.matched), Probe, 0, p.recentActive, false,
                           Window(p.window.size, p.window.maxBytes, []), p.learner), true)
              else if p.next != rejected + 1 then (p, false)
              else
                var prev := Max(Min(rejected, hint + 1) - (if rejected > 0 then 1 else 0), p.matched);
                (p.(next := prev + 1, sentCommit := Min(p.sentCommit, prev), paused := false), true)
  {
  }

  lemma RejectFlows(p: Peer, last: nat, rejected: nat, hint: nat)
    requires Flow(p, last)
    ensures Flow(Rejected(p, rejected, hint).0, last)
    ensures Rejected(p, rejected, hint).0.matched == p.matched
  {
  }

  // ---------------------------------------------------------------------------------------------
  // The object
  // ---------------------------------------------------------------------------------------------

  class Progress {
    var matched: nat
    var next: nat
    var sentCommit: nat
    var mode: Mode
    var pendingSnapshot: nat
    var recentActive: bool
    var paused: bool
    const inflights: Inflights
    const learner: bool

    ghost predicate Valid()
      reads this, inflights, inflights.buffer
    {
      inflights.Valid() && next > 0
    }

    ghost function State(): Peer
      requires Valid()
      reads this, inflights, inflights.buffer
    {
      Peer(matched, next, sentCommit, mode, pendingSnapshot, recentActive, paused, inflights.Contents(), learner)
    }

    constructor (next: nat, size: nat, maxBytes: nat, learner: bool)
      requires next > 0
      ensures Valid() && fresh(inflights) && fresh(inflights.buffer)
      ensures State() == Peer(0, next, 0, Probe, 0, false, false, Window(size, maxBytes, []), learner)
    {
      this.matched, this.next, this.sentCommit := 0, next, 0;
      this.mode, this.pendingSnapshot := Probe, 0;
      this.recentActive, this.paused, this.learner := false, false, learner;
      inflights := new Inflights(size, maxBytes);
    }

    method ResetState(mode: Mode)
      requires Valid()
      modifies this, inflights
      ensures Valid() && inflights.buffer == old(inflights.buffer)
      ensures State() == InMode(old(State()), mode)
    {
      paused := false;
      pendingSnapshot := 0;
      this.mode := mode;
      inflights.Reset();
    }

    method BecomeProbe()
      requires Valid()
      modifies this, inflights
      ensures Valid() && inflights.buffer == old(inflights.buffer)
      ensures State() == Probing(old(State()))
    {
      if mode.Snapshot? {
        var pending := pendingSnapshot;
        ResetState(Probe);
        next := Max(matched + 1, pending + 1);
      } else {
        ResetState(Probe);
        next := matched + 1;
      }
      sentCommit := Min(sentCommit, next - 1);
    }

    method BecomeReplicate()
      requires Valid()
      modifies this, inflights
      ensures Valid() && inflights.buffer == old(inflights.buffer)
      ensures State() == Replicating(old(State()))
    {
      ResetState(Replicate);
      next := matched + 1;
    }

    method BecomeSnapshot(index: nat)
      requires Valid()
      modifies this, inflights
      ensures Valid() && inflights.buffer == old(inflights.buffer)
      ensures State() == Snapshotting(old(State()), index)
    {
      ResetState(Snapshot);
      pendingSnapshot := index;
      next := index + 1;
      sentCommit := index;
    }

    /** Panics in snapshot mode, and when the message would not fit in the window. */
    method SentEntries(entries: nat, bytes: nat)
      requires Valid() && !SendPanics(State(), entries)
      modifies this, inflights, inflights.buffer
      ensures Valid() && (inflights.buffer == old(inflights.buffer) || fresh(inflights.buffer))
      ensures State() == AfterSend(old(State()), entries, bytes)
    {
      hide RingOK, TotalBytes, Ring, Full;
      if mode.Replicate? {
        if entries > 0 {
          next := next + entries;
          inflights.Add(next - 1, bytes);
        }
        paused := inflights.IsFull();
      } else if entries > 0 {
        paused := true;
      }
    }

    method MaybeUpdate(n: nat) returns (updated: bool)
      requires Valid()
      modifies this
      ensures Valid() && (State(), updated) == Updated(old(State()), n)
    {
      if n <= matched { return false; }
      matched := n;
      next := Max(next, n + 1);
      paused := false;
      return true;
    }

    method MaybeDecrTo(rejected: nat, hint: nat) returns (lowered: bool)
      requires Valid()
      modifies this
      ensures Valid() && (State(), lowered) == Decreased(old(State()), rejected, hint)
    {
      if mode.Replicate? {
        if rejected <= matched { return false; }
        next := matched + 1;
        sentCommit := Min(sentCommit, next - 1);
        return true;
      }
      if next - 1 != rejected { return false; }
      next := Max(Min(rejected, hint + 1), matched + 1);
      sentCommit := Min(sentCommit, next - 1);
      paused := false;
      return true;
    }
  }
}
