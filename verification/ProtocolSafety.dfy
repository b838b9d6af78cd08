/** What the invariant says about committed entries: state machine safety and leader completeness,
    across any two moments of a run. */
module ProtocolSafety {
  import opened Types
  import opened Protocol
  import opened ProtocolSteps
  import opened ProtocolReign

  /** What a leader term committed, every later leader term has in its log. */
  lemma ReignHolds(s: Stable, h: History, t0: nat, t1: nat, k: nat)
    requires GlobalOK(s, h) && t0 in h.reigns && t1 in h.reigns && t0 <= t1 && k <= h.reigns[t0].commit
    ensures Holds(h.reigns[t0].log, h.reigns[t1].log, k)
  {
    hide GlobalOK, Chosen;
    ReignBounds(s, h, t0);
    if t0 < t1 && k > 0 {
      var r0 := h.reigns[t0];
      ReignSafeOf(s, h, t0);
      var t: nat, j: nat :| t <= t0 && Own(h, t, j) && r0.commit <= j && Chosen(s, h, t, j)
        && Holds(r0.log, h.reigns[t].log, r0.commit);
      ChosenHolds(s, h, t, t1, j);
    }
  }

  lemma ReignBounds(s: Stable, h: History, t: nat)
    requires GlobalOK(s, h) && t in h.reigns
    ensures h.reigns[t].commit <= |h.reigns[t].log|
  {
    hide Matched, Elected, ReignSafe, NetOK, NodeOK, MarkOK, BidOK, Complete;
    ReignFacts(s, h, t);
  }

  /** Leader completeness: what a node has committed in term t is in the log of every leader of that
      term or a later one. */
  lemma LeaderHolds(s: Stable, h: History, log: seq<Entry>, k: nat, t: nat, t1: nat)
    requires GlobalOK(s, h) && CommitOK(h, log, k, t) && t1 in h.reigns && t <= t1
    ensures Holds(log, h.reigns[t1].log, k)
  {
    hide GlobalOK;
    if k > 0 {
      var t0: nat :| t0 in h.reigns && t0 <= t && k <= h.reigns[t0].commit && Holds(log, h.reigns[t0].log, k);
      ReignHolds(s, h, t0, t1, k);
    }
  }

  /** State machine safety: two committed prefixes never disagree. */
  lemma SameCommitted(s: Stable, h: History, a: seq<Entry>, ta: nat, b: seq<Entry>, tb: nat, k: nat)
    requires GlobalOK(s, h) && CommitOK(h, a, k, ta) && CommitOK(h, b, k, tb)
    ensures Holds(a, b, k)
  {
    hide GlobalOK;
    if k > 0 {
      var ra: nat :| ra in h.reigns && k <= h.reigns[ra].commit && Holds(a, h.reigns[ra].log, k);
      var rb: nat :| rb in h.reigns && k <= h.reigns[rb].commit && Holds(b, h.reigns[rb].log, k);
      if ra <= rb { ReignHolds(s, h, ra, rb, k); } else { ReignHolds(s, h, rb, ra, k); }
      ViaReigns(a, h.reigns[ra].log, h.reigns[rb].log, b, k);
    }
  }

  lemma ViaReigns(a: seq<Entry>, x: seq<Entry>, y: seq<Entry>, b: seq<Entry>, k: nat)
    requires Holds(a, x, k) && Holds(b, y, k) && (Holds(x, y, k) || Holds(y, x, k))
    ensures Holds(a, b, k)
  {
    assert forall i :: 0 <= i < k ==> x[i] == y[i];
  }

  lemma CommitLess(h: History, log: seq<Entry>, k: nat, t: nat, j: nat)
    requires CommitOK(h, log, k, t) && j <= k
    ensures CommitOK(h, log, j, t)
  {
    if j > 0 {
      var t0: nat :| t0 in h.reigns && t0 <= t && k <= h.reigns[t0].commit && Holds(log, h.reigns[t0].log, k);
      assert Holds(log, h.reigns[t0].log, j);
    }
  }
}
