/** Finding where a follower's log ends matching the leader's: the follower's hint and the leader's
    next probe skip whole terms (raft/raft.go, log.go findConflictByTerm, progress.go MaybeDecrTo). */
module Backoff {
  import opened Types
  import opened Messages
  import opened PeerProgress
  import opened Node
  import opened Protocol

  /** The terms of a log's entries: positive, never going down. */
  predicate Sorted(log: seq<Entry>) {
    (forall i :: 0 <= i < |log| ==> log[i].term > 0)
    && forall i, j :: 0 <= i <= j < |log| ==> log[i].term <= log[j].term
  }

  /** Both logs reach i and have the same term there. */
  predicate Agree(a: seq<Entry>, b: seq<Entry>, i: nat) {
    i <= |a| && i <= |b| && TermAt(a, i) == TermAt(b, i)
  }

  /** The rejection a follower answers a probe at `prev` with. */
  function Rejection(leader: Node, follower: Node, prev: nat): Message
    requires prev <= |leader.log|
  {
    var (hint, hintTerm) := FindConflictByTerm(follower, Min(prev, |follower.log|), TermAt(leader.log, prev));
    AppResp(follower.opt.id, leader.opt.id, leader.term, prev, true, hint, hintTerm)
  }

  /** A leader probing a follower whose logs do not change. */
  predicate Probing(leader: Node, follower: Node, pr: Peer) {
    && leader.compacted == 0 && follower.compacted == 0
    && Sorted(leader.log) && Sorted(follower.log)
    && pr.mode.Probe? && pr.matched < pr.next <= |leader.log| + 1
    && Agree(leader.log, follower.log, pr.matched)
  }

  /** The peer after the rejection of its probe. */
  function Backed(leader: Node, follower: Node, pr: Peer): Peer
    requires Probing(leader, follower, pr)
  {
    Rejected(pr, pr.next - 1, NextProbe(leader, Rejection(leader, follower, pr.next - 1))).0
  }

  /** findConflictByTerm gives the largest index at or below its argument whose term is at most
      `term`, with its term. */
  lemma {:induction false} FindsLargest(nd: Node, index: nat, term: nat)
    requires nd.compacted == 0 && index <= |nd.log|
    ensures var (k, t) := FindConflictByTerm(nd, index, term);
            k <= index && t == TermAt(nd.log, k) && t <= term
            && forall i :: k < i <= index ==> TermAt(nd.log, i) > term
    decreases index
  {
    if index > 0 && TermAt(nd.log, index) > term { FindsLargest(nd, index - 1, term); }
  }

  /** What the leader makes of a rejection. */
  lemma NextIs(leader: Node, follower: Node, prev: nat) returns (hint: nat, next: nat)
    requires leader.compacted == 0 && follower.compacted == 0 && prev <= |leader.log|
    requires Sorted(leader.log) && Sorted(follower.log)
    ensures next == NextProbe(leader, Rejection(leader, follower, prev))
    ensures next <= hint <= prev && hint <= |follower.log| && TermAt(follower.log, hint) <= TermAt(leader.log, prev)
    ensures TermAt(leader.log, next) <= TermAt(follower.log, hint)
    ensures forall i :: hint < i <= prev && i <= |follower.log| ==> TermAt(follower.log, i) > TermAt(leader.log, prev)
    ensures forall i :: next < i <= hint ==> TermAt(leader.log, i) > TermAt(follower.log, hint)
  {
    var m := Rejection(leader, follower, prev);
    FindsLargest(follower, Min(prev, |follower.log|), TermAt(leader.log, prev));
    hint := m.hint;
    next := NextProbe(leader, m);
    if m.hintTerm > 0 { FindsLargest(leader, hint, m.hintTerm); }
  }

  /** Back-off is sound: nothing it skips could have matched. */
  lemma NothingSkipped(leader: Node, follower: Node, pr: Peer, i: nat)
    requires Probing(leader, follower, pr) && !Agree(leader.log, follower.log, pr.next - 1)
    requires Backed(leader, follower, pr).next - 1 < i < pr.next
    ensures !Agree(leader.log, follower.log, i)
  {
    var prev := pr.next - 1;
    var hint, next := NextIs(leader, follower, prev);
    if i <= |follower.log| {
      assert TermAt(leader.log, i) <= TermAt(leader.log, prev);
      if i <= hint { assert TermAt(follower.log, i) <= TermAt(follower.log, hint); }
    }
  }

  /** Each rejection moves the probe back, and either lowers the term it is at or lands on a
      position that the follower accepts. */
  lemma RejectionProgress(leader: Node, follower: Node, pr: Peer)
    requires Probing(leader, follower, pr) && !Agree(leader.log, follower.log, pr.next - 1)
    ensures var q := Backed(leader, follower, pr);
            Probing(leader, follower, q) && q.next < pr.next
            && (TermAt(leader.log, q.next - 1) < TermAt(leader.log, pr.next - 1) || Agree(leader.log, follower.log, q.next - 1))
  {
    var prev := pr.next - 1;
    var hint, next := NextIs(leader, follower, prev);
    var q := Backed(leader, follower, pr);
    assert pr.matched < prev;
    assert next < prev;
    if q.next - 1 != pr.matched && TermAt(leader.log, next) == TermAt(leader.log, prev) {
      assert TermAt(leader.log, hint) <= TermAt(leader.log, prev);
      assert q.next - 1 == next == hint;
    }
  }

  /** How many probes are rejected before one is accepted. */
  function Rejections(leader: Node, follower: Node, pr: Peer): nat
    requires Probing(leader, follower, pr)
    decreases pr.next
  {
    if Agree(leader.log, follower.log, pr.next - 1) then 0
    else
      RejectionProgress(leader, follower, pr);
      1 + Rejections(leader, follower, Backed(leader, follower, pr))
  }

  /** The distinct terms up to t in a log. */
  function TermsUpTo(log: seq<Entry>, t: nat): set<nat> {
    set i | 0 <= i < |log| && log[i].term <= t :: log[i].term
  }

  /** At most one rejection for each term of the leader's log at or below the probed one. */
  lemma {:induction false} RejectionsBounded(leader: Node, follower: Node, pr: Peer)
    requires Probing(leader, follower, pr)
    ensures Rejections(leader, follower, pr) <= |TermsUpTo(leader.log, TermAt(leader.log, pr.next - 1))|
    decreases pr.next
  {
    if !Agree(leader.log, follower.log, pr.next - 1) {
      RejectionProgress(leader, follower, pr);
      var q := Backed(leader, follower, pr);
      var t, u := TermAt(leader.log, pr.next - 1), TermAt(leader.log, q.next - 1);
      var all := TermsUpTo(leader.log, t);
      assert leader.log[pr.next - 2].term == t && t in all;
      if u < t {
        RejectionsBounded(leader, follower, q);
        assert TermsUpTo(leader.log, u) <= all - {t};
        Smaller(TermsUpTo(leader.log, u), all - {t});
      } else {
        Smaller({t}, all);
      }
    }
  }

  lemma Smaller(a: set<nat>, b: set<nat>)
    requires a <= b
    ensures |a| <= |b|
  {
    assert b == a + (b - a);
  }
}
