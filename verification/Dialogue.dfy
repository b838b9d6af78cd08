/** The dialogue in which a leader finds out where a follower's log agrees with its own, over Step itself: each
    rejection is answered with the next probe, until one is accepted (raft/raft.go). */
module Dialogue {
  import opened Types
  import opened Messages
  import opened PeerProgress
  import opened Node
  import opened NodeFollower
  import opened Protocol
  import PL = ProtocolLeader
  import opened NodeLeader
  import opened NodeSends
  import opened NodeReplication
  import opened NodeFollowing
  import opened NodeShipping
  import Backoff

  /** Where both logs have an entry of the same term they are the same up to it. */
  predicate LogsMatch(a: seq<Entry>, b: seq<Entry>) {
    forall i :: 0 <= i <= |a| && i <= |b| && TermAt(a, i) == TermAt(b, i) ==> a[..i] == b[..i]
  }

  /** Entries stand at their index, and terms never go down. */
  predicate Ordered(log: seq<Entry>) {
    (forall i :: 0 <= i < |log| ==> log[i].index == i + 1 && log[i].term > 0)
    && forall i, j :: 0 <= i <= j < |log| ==> log[i].term <= log[j].term
  }

  /** A leader that probes a follower of its term whose log agrees with its own up to `a` and perhaps further;
      neither has compacted more than that, and the follower has committed no more. */
  predicate Talking(ld: Node, fl: Node, a: nat) {
    && ld.state.StateLeader? && fl.state.StateFollower? && ld.term == fl.term > 0
    && ld.compacted <= ld.snapshot <= ld.committed <= |ld.log|
    && PeerOf(ld, fl.opt.id) && ld.prs[fl.opt.id].mode.Probe?
    && Ordered(ld.log) && Ordered(fl.log) && LogsMatch(ld.log, fl.log)
    && a <= |ld.log| && a <= |fl.log| && TermAt(ld.log, a) == TermAt(fl.log, a)
    && ld.compacted <= a && fl.compacted <= fl.committed <= a
    && ld.prs[fl.opt.id].matched <= a < ld.prs[fl.opt.id].next
  }

  /** The probe that is out: the append behind the position before the peer's next index. */
  predicate IsProbe(ld: Node, fl: Node, m: Message)
    requires fl.opt.id in ld.prs
  {
    var next := ld.prs[fl.opt.id].next;
    && m.App? && 0 < next <= |ld.log| + 1 && m.ents <= ld.log[next - 1..]
    && m == App(ld.opt.id, fl.opt.id, ld.term, next - 1, TermAt(ld.log, next - 1), m.ents, m.commit)
  }

  // ---------------------------------------------------------------------------------------------
  // The follower's answer
  // ---------------------------------------------------------------------------------------------

  lemma SliceContiguous(log: seq<Entry>, prev: nat, ents: seq<Entry>)
    requires Ordered(log) && prev <= |log| && ents <= log[prev..]
    ensures Contiguous(prev, ents)
  {
    forall i | 0 <= i < |ents| ensures ents[i].index == prev + i + 1 { assert ents[i] == log[prev..][i]; }
  }

  /** A probe at a position of the same term is accepted: the follower's log then is the leader's up to the
      last entry it was sent. */
  lemma Accepts(ld: Node, fl: Node, m: Message, a: nat) returns (r: Message)
    requires Talking(ld, fl, a) && IsProbe(ld, fl, m)
    requires m.prevIndex <= |fl.log| && TermAt(fl.log, m.prevIndex) == m.prevTerm
    ensures r == AppResp(fl.opt.id, ld.opt.id, ld.term, m.prevIndex + |m.ents|, false, 0, 0)
    ensures Step(fl, m, false).afterAppend == fl.afterAppend + [r]
    ensures m.prevIndex + |m.ents| <= |ld.log| && m.prevIndex + |m.ents| <= |Step(fl, m, false).log|
    ensures Step(fl, m, false).log[..m.prevIndex + |m.ents|] == ld.log[..m.prevIndex + |m.ents|]
  {
    hide Step, Flow, PL.Grafted;
    r := AppResp(fl.opt.id, ld.opt.id, ld.term, m.prevIndex + |m.ents|, false, 0, 0);
    SliceContiguous(ld.log, m.prevIndex, m.ents);
    var hint := AppendAnswered(fl, m, false);
    GraftedIs(ld.log, fl.log, m.prevIndex, m.ents);
  }

  /** Replacing what conflicts behind a position where the logs agree. */
  lemma GraftedIs(full: seq<Entry>, log: seq<Entry>, prev: nat, ents: seq<Entry>)
    requires LogsMatch(full, log) && prev <= |full| && prev <= |log| && TermAt(full, prev) == TermAt(log, prev)
    requires ents <= full[prev..]
    ensures var g := PL.Grafted(log, prev, ents); |g| >= prev + |ents| && g[..prev + |ents|] == full[..prev + |ents|]
  {
    var i := PL.FirstConflict(log, prev, ents, 0);
    assert forall k :: 0 <= k < |ents| ==> ents[k] == full[prev + k];
    if i > 0 { assert log[prev + i - 1].term == ents[i - 1].term; }
    assert TermAt(full, prev + i) == TermAt(log, prev + i);
    SameBefore(full, log, prev + i);
    hide LogsMatch;
    var g := PL.Grafted(log, prev, ents);
    if i == |ents| {
      assert g == log;
    } else {
      Spliced(full, log[..prev + i], prev, ents, i);
    }
  }

  lemma SameBefore(a: seq<Entry>, b: seq<Entry>, i: nat)
    requires LogsMatch(a, b) && i <= |a| && i <= |b| && TermAt(a, i) == TermAt(b, i)
    ensures a[..i] == b[..i]
  {
  }

  lemma Spliced(full: seq<Entry>, start: seq<Entry>, prev: nat, ents: seq<Entry>, i: nat)
    requires i <= |ents| && prev + |ents| <= |full| && start == full[..prev + i]
    requires forall k :: 0 <= k < |ents| ==> ents[k] == full[prev + k]
    ensures start + ents[i..] == full[..prev + |ents|]
  {
  }

  /** Any other is rejected, and the hint is the last index not after the probed one where the follower has no
      higher term than was probed. */
  lemma Refuses(ld: Node, fl: Node, m: Message, a: nat) returns (r: Message)
    requires Talking(ld, fl, a) && IsProbe(ld, fl, m)
    requires !(m.prevIndex <= |fl.log| && TermAt(fl.log, m.prevIndex) == m.prevTerm)
    ensures r.AppResp? && r == AppResp(fl.opt.id, ld.opt.id, ld.term, m.prevIndex, true, r.hint, r.hintTerm)
    ensures Step(fl, m, false) == fl.(lead := ld.opt.id, afterAppend := fl.afterAppend + [r])
    ensures a <= r.hint <= m.prevIndex && r.hint <= |fl.log| && r.hintTerm == TermAt(fl.log, r.hint) <= m.prevTerm
    ensures forall i :: r.hint < i <= m.prevIndex && i <= |fl.log| ==> TermAt(fl.log, i) > m.prevTerm
  {
    hide Step, Flow;
    TermsRise(ld.log, a, m.prevIndex);
    SliceContiguous(ld.log, m.prevIndex, m.ents);
    var hint := AppendAnswered(fl, m, false);
    assert a <= hint;
    r := AppResp(fl.opt.id, ld.opt.id, ld.term, m.prevIndex, true, hint, TermAt(fl.log, hint));
  }

  lemma TermsRise(log: seq<Entry>, i: nat, j: nat)
    requires Ordered(log) && i <= j <= |log|
    ensures TermAt(log, i) <= TermAt(log, j)
    ensures i > 0 ==> TermAt(log, i) > 0
  {
  }

  // ---------------------------------------------------------------------------------------------
  // The leader's next probe
  // ---------------------------------------------------------------------------------------------

  /** The leader follows the hint to a position that is lower, not below the agreement, and of a lower term or
      one where the logs agree; the probe for it is the one message it sends. */
  lemma ProbesNext(ld: Node, fl: Node, m: Message, a: nat, r: Message) returns (next: Message)
    requires Talking(ld, fl, a) && IsProbe(ld, fl, m)
    requires !(m.prevIndex <= |fl.log| && TermAt(fl.log, m.prevIndex) == m.prevTerm)
    requires r.AppResp? && r == AppResp(fl.opt.id, ld.opt.id, ld.term, m.prevIndex, true, r.hint, r.hintTerm)
    requires a <= r.hint <= m.prevIndex && r.hint <= |fl.log| && r.hintTerm == TermAt(fl.log, r.hint) <= m.prevTerm
    requires forall i :: r.hint < i <= m.prevIndex && i <= |fl.log| ==> TermAt(fl.log, i) > m.prevTerm
    ensures var ld' := Step(ld, r, false);
            ld'.msgs == ld.msgs + [next] && ld'.log == ld.log && Talking(ld', fl, a) && IsProbe(ld', fl, next)
    ensures next.App? && next.prevIndex < m.prevIndex
    ensures next.prevTerm < m.prevTerm || (next.prevIndex <= |fl.log| && TermAt(fl.log, next.prevIndex) == next.prevTerm)
  {
    hide Flow, Step, Batch, SentEnts, LogsMatch, Ordered, HintLeads, ProbeBehind, ProbedAt;
    var x := fl.opt.id;
    var pr := ld.prs[x];
    var hint, ents := RejectionAnswered(ld, r, false);
    HintAbove(ld, fl, m, a, r, hint);
    var prev := ProbeBehind(pr, r.index, hint);
    ProbedFlows(pr, |ld.log|, prev, ents, ld.committed);
    next := AppFrom(ld, x, prev, ents);
    BatchSlice(ld.log, prev, ld.opt.maxMsgSize, ents);
  }

  lemma BatchSlice(log: seq<Entry>, prev: nat, limit: nat, ents: seq<Entry>)
    requires Batch(log, prev, limit, ents)
    ensures prev <= |log| && ents <= log[prev..]
  {
  }

  lemma ProbedFlows(pr: Peer, last: nat, prev: nat, ents: seq<Entry>, commit: nat)
    requires Flow(pr, last) && pr.mode.Probe? && pr.matched <= prev <= last
    ensures var q := SentEnts(ProbedAt(pr, prev), ents, commit);
            Flow(q, last) && q.mode.Probe? && q.matched == pr.matched && q.next == prev + 1
  {
  }

  lemma HintAbove(ld: Node, fl: Node, m: Message, a: nat, r: Message, hint: nat)
    requires Talking(ld, fl, a) && IsProbe(ld, fl, m)
    requires !(m.prevIndex <= |fl.log| && TermAt(fl.log, m.prevIndex) == m.prevTerm)
    requires r.AppResp? && r == AppResp(fl.opt.id, ld.opt.id, ld.term, m.prevIndex, true, r.hint, r.hintTerm)
    requires a <= r.hint <= m.prevIndex && r.hint <= |fl.log| && r.hintTerm == TermAt(fl.log, r.hint) <= m.prevTerm
    requires forall i :: r.hint < i <= m.prevIndex && i <= |fl.log| ==> TermAt(fl.log, i) > m.prevTerm
    requires if r.hintTerm == 0 then hint == r.hint else HintLeads(ld.log, ld.compacted, r.hint, r.hintTerm, hint)
    ensures var prev := ProbeBehind(ld.prs[fl.opt.id], r.index, hint);
            a <= prev < m.prevIndex && prev <= |ld.log|
            && (TermAt(ld.log, prev) < m.prevTerm || (prev <= |fl.log| && TermAt(fl.log, prev) == TermAt(ld.log, prev)))
  {
    hide Flow;
    TermsRise(fl.log, a, r.hint);
    var prev := ProbeBehind(ld.prs[fl.opt.id], r.index, hint);
    assert a < m.prevIndex;
    TermsRise(fl.log, r.hint, r.hint);
    assert r.hintTerm == 0 ==> r.hint == 0;
    assert a <= hint <= r.hint;
    TermsRise(ld.log, prev, m.prevIndex);
    TermsRise(ld.log, prev, hint);
    TermsRise(ld.log, r.hint, m.prevIndex);
    if prev == a {
    } else if TermAt(ld.log, prev) == m.prevTerm {
      assert TermAt(ld.log, hint) <= r.hintTerm;
      assert r.hintTerm == m.prevTerm;
      assert hint == r.hint;
    }
  }

  /** An acknowledgement of a probe raises Match to it. */
  lemma AckRaises(ld: Node, x: Id, r: Message)
    requires ld.state.StateLeader? && PeerOf(ld, x) && ld.prs[x].mode.Probe? && ld.term > 0
    requires r.AppResp? && r == AppResp(x, ld.opt.id, ld.term, r.index, false, 0, 0) && r.index >= ld.prs[x].matched
    ensures x in Step(ld, r, false).prs && Step(ld, r, false).prs[x].matched == r.index
  {
    hide Step, Flow, LeaderAcked, Acked, Ships;
    HandledByLeader(ld, r, false);
    var pr := ld.prs[x].(recentActive := true);
    NextInRange(ld.prs[x], |ld.log|);
    AckedIs(pr, r.index, ld.compacted + 1);
    var nd1 := WithPeer(WithPeer(ld, x, pr), x, Acked(pr, r.index, ld.compacted + 1).0);
    AckedShips(nd1, x, x);
    ShipsHas(nd1, LeaderAcked(nd1, x), x);
  }

  // ---------------------------------------------------------------------------------------------
  // The dialogue
  // ---------------------------------------------------------------------------------------------

  /** Delivers a probe to the follower and its answer to the leader, and goes on with the next probe while
      there is one: the leader and the follower at the end, and how many probes were rejected. */
  ghost function Converse(ld: Node, fl: Node, m: Message): (Node, Node, nat)
    requires m.App?
    decreases m.prevIndex
  {
    var fl1 := Step(fl, m, false);
    if fl1.afterAppend == [] then (ld, fl1, 0)
    else
      var r := fl1.afterAppend[|fl1.afterAppend| - 1];
      var ld1 := Step(ld, r, false);
      if !r.AppResp? || !r.reject then (ld1, fl1, 0)
      else if ld1.msgs == [] then (ld1, fl1, 1)
      else
        var next := ld1.msgs[|ld1.msgs| - 1];
        if next.App? && next.prevIndex < m.prevIndex then
          var (ld2, fl2, k) := Converse(ld1, fl1, next);
          (ld2, fl2, k + 1)
        else (ld1, fl1, 1)
  }

  /** The dialogue finds where the logs agree. Whatever index they agree up to at or below the first probe, in
      the end the leader's Match for the follower is at least that, and the follower's log is the leader's up
      to Match; no more probes were rejected than the leader's log has terms up to the first probe's. */
  lemma {:induction false} DialogueEnds(ld: Node, fl: Node, m: Message, a: nat)
    requires Talking(ld, fl, a) && m.App? && IsProbe(ld, fl, m)
    ensures var (ld', fl', k) := Converse(ld, fl, m);
            && fl.opt.id in ld'.prs && a <= ld'.prs[fl.opt.id].matched <= |ld.log|
            && ld'.prs[fl.opt.id].matched <= |fl'.log|
            && fl'.log[..ld'.prs[fl.opt.id].matched] == ld.log[..ld'.prs[fl.opt.id].matched]
            && k <= |Backoff.TermsUpTo(ld.log, m.prevTerm)|
            && (m.prevIndex <= |fl.log| && TermAt(fl.log, m.prevIndex) == m.prevTerm ==> k == 0)
    decreases m.prevIndex
  {
    hide Step, Talking, IsProbe, Backoff.TermsUpTo;
    if m.prevIndex <= |fl.log| && TermAt(fl.log, m.prevIndex) == m.prevTerm {
      var r := Accepts(ld, fl, m, a);
      ProbeFacts(ld, fl, m, a);
      AckRaises(ld, fl.opt.id, r);
    } else {
      var r := Refuses(ld, fl, m, a);
      var next := ProbesNext(ld, fl, m, a, r);
      var ld1, fl1 := Step(ld, r, false), Step(fl, m, false);
      assert fl1.afterAppend[|fl1.afterAppend| - 1] == r && ld1.msgs[|ld1.msgs| - 1] == next;
      StillTalking(ld1, fl, fl1, a, next);
      DialogueEnds(ld1, fl1, next, a);
      ProbeFacts(ld, fl, m, a);
      ProbeFacts(ld1, fl1, next, a);
      FewerTerms(ld.log, m.prevIndex, next.prevTerm);
    }
  }

  lemma ProbeFacts(ld: Node, fl: Node, m: Message, a: nat)
    requires Talking(ld, fl, a) && IsProbe(ld, fl, m)
    ensures ld.state.StateLeader? && PeerOf(ld, fl.opt.id) && ld.prs[fl.opt.id].mode.Probe? && ld.term > 0
    ensures ld.prs[fl.opt.id].matched <= a <= m.prevIndex <= |ld.log| && m.prevTerm == TermAt(ld.log, m.prevIndex)
  {
    hide Flow;
  }

  lemma StillTalking(ld: Node, fl: Node, fl1: Node, a: nat, m: Message)
    requires Talking(ld, fl, a) && IsProbe(ld, fl, m) && fl1 == fl.(lead := fl1.lead, afterAppend := fl1.afterAppend)
    ensures Talking(ld, fl1, a) && IsProbe(ld, fl1, m)
  {
    hide Flow;
  }

  /** Terms below that of an entry are fewer than up to it. */
  lemma FewerTerms(log: seq<Entry>, i: nat, t: nat)
    requires 0 < i <= |log|
    ensures |Backoff.TermsUpTo(log, log[i - 1].term)| > 0
    ensures t < log[i - 1].term ==> |Backoff.TermsUpTo(log, t)| < |Backoff.TermsUpTo(log, log[i - 1].term)|
  {
    var all := Backoff.TermsUpTo(log, log[i - 1].term);
    assert log[i - 1].term in all;
    if t < log[i - 1].term { Backoff.Smaller(Backoff.TermsUpTo(log, t), all - {log[i - 1].term}); }
  }
}
