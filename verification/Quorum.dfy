/** Majority and joint quorums (quorum/majority.go, quorum/joint.go): what a quorum is, how a vote
    result and a commit index follow from it, and why two quorums always meet. */
module Quorum {
  import opened Types

  /** math.MaxUint64: what an empty majority config answers as its committed index. */
  const INFINITE_INDEX: nat := 0xFFFF_FFFF_FFFF_FFFF

  datatype VoteResult = VotePending | VoteLost | VoteWon

  /** Two possibly overlapping majority configs; `outgoing` is empty unless the config is joint. */
  datatype JointConfig = JointConfig(incoming: set<Id>, outgoing: set<Id>)

  function Voters(c: JointConfig): set<Id> {
    c.incoming + c.outgoing
  }

  /** q holds a majority of c; an empty config is satisfied by every set. */
  predicate IsMajority(c: set<Id>, q: set<Id>) {
    c == {} || 2 * |c * q| > |c|
  }

  predicate IsQuorum(c: JointConfig, q: set<Id>) {
    IsMajority(c.incoming, q) && IsMajority(c.outgoing, q)
  }

  lemma MajoritiesMeet(c: set<Id>, p: set<Id>, q: set<Id>)
    requires c != {} && IsMajority(c, p) && IsMajority(c, q)
    ensures exists x :: x in c && x in p && x in q
  {
    var a, b := c * p, c * q;
    assert a + b <= c;
    Cardinality(a + b, c);
    assert |a + b| + |a * b| == |a| + |b|;
    assert |a * b| != 0;
    var x :| x in a * b;
  }

  /** Any two quorums of one config with an incoming voter share a voter. */
  lemma QuorumsMeet(c: JointConfig, p: set<Id>, q: set<Id>)
    requires c.incoming != {} && IsQuorum(c, p) && IsQuorum(c, q)
    ensures exists x :: x in c.incoming && x in p && x in q
  {
    MajoritiesMeet(c.incoming, p, q);
  }

  lemma {:induction false} Cardinality(a: set<Id>, b: set<Id>)
    requires a <= b
    ensures |a| <= |b|
    decreases |a|
  {
    if a != {} {
      var x :| x in a;
      Cardinality(a - {x}, b - {x});
    }
  }

  lemma MajorityGrows(c: set<Id>, p: set<Id>, q: set<Id>)
    requires IsMajority(c, p) && c * p <= q
    ensures IsMajority(c, q)
  {
    Cardinality(c * p, c * q);
  }

  lemma QuorumGrows(c: JointConfig, p: set<Id>, q: set<Id>)
    requires IsQuorum(c, p) && p <= q
    ensures IsQuorum(c, q)
  {
    MajorityGrows(c.incoming, p, q);
    MajorityGrows(c.outgoing, p, q);
  }

  // ---------------------------------------------------------------------------------------------
  // The committed index
  // ---------------------------------------------------------------------------------------------

  /** The index x acknowledged; a voter that did not report counts as 0. */
  function Ack(acked: map<Id, nat>, x: Id): nat {
    if x in acked then acked[x] else 0
  }

  function AckedBy(c: set<Id>, acked: map<Id, nat>, k: nat): set<Id> {
    set x | x in c && Ack(acked, x) >= k
  }

  /** A majority of c acknowledged k. */
  predicate IsCommitted(c: set<Id>, acked: map<Id, nat>, k: nat) {
    IsMajority(c, AckedBy(c, acked, k))
  }

  ghost predicate IsLargest(c: set<Id>, acked: map<Id, nat>, k: nat) {
    IsCommitted(c, acked, k) && forall j: nat :: IsCommitted(c, acked, j) ==> j <= k
  }

  /** The largest index a majority acknowledged; unbounded for an empty config. */
  ghost function CommittedIndex(c: set<Id>, acked: map<Id, nat>): (r: nat)
    ensures c != {} ==> IsLargest(c, acked, r)
  {
    if c == {} then INFINITE_INDEX
    else
      LargestExists(c, acked);
      var k: nat :| IsLargest(c, acked, k);
      k
  }

  lemma LargestExists(c: set<Id>, acked: map<Id, nat>)
    requires c != {}
    ensures exists k: nat :: IsLargest(c, acked, k)
  {
    var hi := Bounded(c, acked);
    forall j: nat | j > hi ensures !IsCommitted(c, acked, j) {
      assert c * AckedBy(c, acked, j) == {};
    }
    LargestBelow(c, acked, hi);
  }

  /** An index nobody in c acknowledged more than. */
  lemma Bounded(c: set<Id>, acked: map<Id, nat>) returns (hi: nat)
    ensures forall x :: x in c ==> Ack(acked, x) <= hi
    decreases |c|
  {
    if c == {} {
      hi := 0;
    } else {
      var x :| x in c;
      var h := Bounded(c - {x}, acked);
      hi := Max(h, Ack(acked, x));
    }
  }

  lemma {:induction false} LargestBelow(c: set<Id>, acked: map<Id, nat>, hi: nat)
    requires c != {} && forall j: nat :: j > hi ==> !IsCommitted(c, acked, j)
    ensures exists k: nat :: IsLargest(c, acked, k)
  {
    assert c * AckedBy(c, acked, 0) == c;
    assert IsCommitted(c, acked, 0);
    if IsCommitted(c, acked, hi) {
      assert IsLargest(c, acked, hi);
    } else {
      LargestBelow(c, acked, hi - 1);
    }
  }

  /** A position is at or below the committed index exactly when a majority acknowledged it. */
  lemma CommittedExactly(c: set<Id>, acked: map<Id, nat>, k: nat)
    requires c != {}
    ensures k <= CommittedIndex(c, acked) <==> IsCommitted(c, acked, k)
  {
    var r := CommittedIndex(c, acked);
    if k <= r {
      assert c * AckedBy(c, acked, r) <= AckedBy(c, acked, k);
      MajorityGrows(c, AckedBy(c, acked, r), AckedBy(c, acked, k));
    }
  }

  ghost function JointCommitted(c: JointConfig, acked: map<Id, nat>): nat {
    Min(CommittedIndex(c.incoming, acked), CommittedIndex(c.outgoing, acked))
  }

  /** The joint committed index is the largest one committed in both halves. */
  lemma JointExactly(c: JointConfig, acked: map<Id, nat>, k: nat)
    requires c.incoming != {} && (c.outgoing == {} ==> k <= INFINITE_INDEX)
    ensures k <= JointCommitted(c, acked) <==> IsQuorum(c, AckedBy(Voters(c), acked, k))
  {
    CommittedExactly(c.incoming, acked, k);
    var q := AckedBy(Voters(c), acked, k);
    assert c.incoming * q == c.incoming * AckedBy(c.incoming, acked, k);
    if c.outgoing != {} {
      CommittedExactly(c.outgoing, acked, k);
      assert c.outgoing * q == c.outgoing * AckedBy(c.outgoing, acked, k);
    }
  }

  /** The committed index never drops when acknowledgements rise. */
  lemma CommittedMonotone(c: JointConfig, acked: map<Id, nat>, acked': map<Id, nat>)
    requires c.incoming != {} && forall x :: Ack(acked, x) <= Ack(acked', x)
    ensures JointCommitted(c, acked) <= JointCommitted(c, acked')
  {
    HalfMonotone(c.incoming, acked, acked');
    HalfMonotone(c.outgoing, acked, acked');
  }

  lemma HalfMonotone(c: set<Id>, acked: map<Id, nat>, acked': map<Id, nat>)
    requires forall x :: Ack(acked, x) <= Ack(acked', x)
    ensures CommittedIndex(c, acked) <= CommittedIndex(c, acked')
  {
    if c != {} {
      var k := CommittedIndex(c, acked);
      assert c * AckedBy(c, acked, k) <= AckedBy(c, acked', k);
      MajorityGrows(c, AckedBy(c, acked, k), AckedBy(c, acked', k));
      assert IsCommitted(c, acked', k);
    }
  }

  // ---------------------------------------------------------------------------------------------
  // Sorting and picking
  // ---------------------------------------------------------------------------------------------

  predicate Sorted(s: seq<nat>) {
    forall i, j :: 0 <= i < j < |s| ==> s[i] <= s[j]
  }

  /** How many elements of s reach k. */
  function Reaching(s: seq<nat>, k: nat): (r: nat)
    ensures r <= |s|
  {
    if s == [] then 0 else Reaching(s[..|s| - 1], k) + (if s[|s| - 1] >= k then 1 else 0)
  }

  lemma {:induction false} ReachingOf(s: seq<nat>, t: seq<nat>, k: nat)
    ensures Reaching(s + t, k) == Reaching(s, k) + Reaching(t, k)
  {
    if t == [] {
      assert s + t == s;
    } else {
      assert (s + t)[..|s + t| - 1] == s + t[..|t| - 1];
      ReachingOf(s, t[..|t| - 1], k);
    }
  }

  /** In a sorted sequence the last n elements reach k exactly when at least n elements do. */
  lemma SortedReach(s: seq<nat>, pos: nat, k: nat)
    requires Sorted(s) && pos < |s|
    ensures Reaching(s, k) >= |s| - pos <==> s[pos] >= k
  {
    if s[pos] >= k {
      var low, high := s[..pos], s[pos..];
      assert s == low + high;
      ReachingOf(low, high, k);
      AllReach(high, k);
    } else {
      var low, high := s[..pos + 1], s[pos + 1..];
      assert s == low + high;
      ReachingOf(low, high, k);
      NoneReach(low, k);
    }
  }

  lemma {:induction false} AllReach(s: seq<nat>, k: nat)
    requires forall i :: 0 <= i < |s| ==> s[i] >= k
    ensures Reaching(s, k) == |s|
  {
    if s != [] { AllReach(s[..|s| - 1], k); }
  }

  lemma {:induction false} NoneReach(s: seq<nat>, k: nat)
    requires forall i :: 0 <= i < |s| ==> s[i] < k
    ensures Reaching(s, k) == 0
  {
    if s != [] { NoneReach(s[..|s| - 1], k); }
  }

  function Without(s: seq<nat>, i: nat): seq<nat>
    requires i < |s|
  {
    s[..i] + s[i + 1..]
  }

  lemma WithoutParts(s: seq<nat>, i: nat, k: nat)
    requires i < |s|
    ensures multiset(Without(s, i)) == multiset(s) - multiset{s[i]}
    ensures Reaching(s, k) == Reaching(Without(s, i), k) + (if s[i] >= k then 1 else 0)
  {
    var low, high := s[..i], s[i + 1..];
    assert s == low + [s[i]] + high;
    ReachingOf(low, high, k);
    ReachingOf(low + [s[i]], high, k);
    ReachingOf(low, [s[i]], k);
  }

  /** Which multiset a sequence holds decides how many of its elements reach k. */
  lemma {:induction false} ReachingPermuted(s: seq<nat>, t: seq<nat>, k: nat)
    requires multiset(s) == multiset(t)
    ensures Reaching(s, k) == Reaching(t, k)
    decreases |s|
  {
    hide Without, Reaching;
    if s == [] {
      assert |multiset(t)| == 0;
    } else {
      assert s[0] in multiset(t);
      var i: nat :| i < |t| && t[i] == s[0];
      WithoutParts(s, 0, k);
      WithoutParts(t, i, k);
      assert |multiset(Without(s, 0))| < |multiset(s)|;
      ReachingPermuted(Without(s, 0), Without(t, i), k);
    }
  }

  /** slices.Sort. */
  method Sort(a: array<nat>)
    modifies a
    ensures Sorted(a[..]) && multiset(a[..]) == multiset(old(a[..]))
  {
    var n := 0;
    while n < a.Length
      invariant n <= a.Length
      invariant Sorted(a[..n])
      invariant multiset(a[..]) == multiset(old(a[..]))
    {
      var j := n;
      while j > 0 && a[j - 1] > a[j]
        invariant 0 <= j <= n
        invariant forall x, y :: 0 <= x < y <= n && y != j ==> a[x] <= a[y]
        invariant multiset(a[..]) == multiset(old(a[..]))
      {
        a[j - 1], a[j] := a[j], a[j - 1];
        j := j - 1;
      }
      n := n + 1;
    }
    assert a[..] == a[..n];
  }

  /** What the slice to sort holds while it is filled from the right: the acknowledgements of the
      voters seen that did report, after zeros. */
  ghost predicate Filled(a: seq<nat>, seen: set<Id>, acked: map<Id, nat>, i: int) {
    && -1 <= i < |a|
    && (forall j :: 0 <= j <= i ==> a[j] == 0)
    && forall k: nat :: k > 0 ==> Reaching(a, k) == |AckedBy(seen, acked, k)|
  }

  lemma {:induction false} Put(a: seq<nat>, i: nat, v: nat, k: nat)
    requires i < |a| && a[i] == 0 && k > 0
    ensures Reaching(a[i := v], k) == Reaching(a, k) + (if v >= k then 1 else 0)
  {
    assert a == a[..i] + [a[i]] + a[i + 1..];
    assert a[i := v] == a[..i] + [v] + a[i + 1..];
    ReachingOf(a[..i] + [a[i]], a[i + 1..], k);
    ReachingOf(a[..i] + [v], a[i + 1..], k);
    ReachingOf(a[..i], [a[i]], k);
    ReachingOf(a[..i], [v], k);
  }

  lemma FillOne(a: seq<nat>, seen: set<Id>, acked: map<Id, nat>, i: int, x: Id)
    requires Filled(a, seen, acked, i) && x !in seen
    requires x in acked ==> i >= 0
    ensures x in acked ==> Filled(a[i := acked[x]], seen + {x}, acked, i - 1)
    ensures x !in acked ==> Filled(a, seen + {x}, acked, i)
  {
    forall k: nat | k > 0
      ensures |AckedBy(seen + {x}, acked, k)| == |AckedBy(seen, acked, k)| + (if Ack(acked, x) >= k then 1 else 0)
    {
      if Ack(acked, x) >= k {
        assert AckedBy(seen + {x}, acked, k) == AckedBy(seen, acked, k) + {x};
      } else {
        assert AckedBy(seen + {x}, acked, k) == AckedBy(seen, acked, k);
      }
    }
    if x in acked {
      forall k: nat | k > 0 ensures Reaching(a[i := acked[x]], k) == |AckedBy(seen + {x}, acked, k)| {
        Put(a, i, acked[x], k);
      }
    }
  }

  /** Sorting the acknowledged indexes and picking the one n/2+1 places from the right gives the
      largest index a majority acknowledged. */
  method SortAndPick(c: set<Id>, acked: map<Id, nat>) returns (r: nat)
    ensures r == CommittedIndex(c, acked)
  {
    var n := |c|;
    if n == 0 { return INFINITE_INDEX; }
    var srt := new nat[n](_ => 0);
    var i, todo := n - 1, c;
    NoneReachAny(srt[..]);
    while todo != {}
      invariant todo <= c && i >= |todo| - 1
      invariant srt.Length == n
      invariant Filled(srt[..], c - todo, acked, i)
      decreases |todo|
    {
      var x :| x in todo;
      FillOne(srt[..], c - todo, acked, i, x);
      assert c - (todo - {x}) == c - todo + {x};
      if x in acked {
        ghost var before := srt[..];
        srt[i] := acked[x];
        assert srt[..] == before[i := acked[x]];
        i := i - 1;
      }
      todo := todo - {x};
    }
    assert c - todo == c;
    ghost var filled := srt[..];
    Sort(srt);
    var pos := n - (n / 2 + 1);
    r := srt[pos];
    PickIsLargest(c, acked, filled, srt[..], pos);
  }

  lemma NoneReachAny(s: seq<nat>)
    requires forall i :: 0 <= i < |s| ==> s[i] == 0
    ensures forall k: nat :: k > 0 ==> Reaching(s, k) == 0
    ensures forall acked, k: nat :: AckedBy({}, acked, k) == {}
  {
    forall k: nat | k > 0 ensures Reaching(s, k) == 0 { NoneReach(s, k); }
  }

  lemma PickIsLargest(c: set<Id>, acked: map<Id, nat>, filled: seq<nat>, srt: seq<nat>, pos: nat)
    requires c != {} && |srt| == |c| && pos == |c| - (|c| / 2 + 1) && Sorted(srt)
    requires multiset(filled) == multiset(srt)
    requires forall k: nat :: k > 0 ==> Reaching(filled, k) == |AckedBy(c, acked, k)|
    ensures srt[pos] == CommittedIndex(c, acked)
  {
    forall k: nat | k > 0 ensures srt[pos] >= k <==> IsCommitted(c, acked, k) {
      ReachingPermuted(filled, srt, k);
      SortedReach(srt, pos, k);
      assert c * AckedBy(c, acked, k) == AckedBy(c, acked, k);
    }
    var r := CommittedIndex(c, acked);
    CommittedExactly(c, acked, srt[pos]);
    if r > 0 { assert IsCommitted(c, acked, r); }
    if srt[pos] == 0 { CommittedExactly(c, acked, 0); }
  }

  // ---------------------------------------------------------------------------------------------
  // Votes
  // ---------------------------------------------------------------------------------------------

  function Granting(c: set<Id>, votes: map<Id, bool>): set<Id> {
    set x | x in c && x in votes && votes[x]
  }

  function Missing(c: set<Id>, votes: map<Id, bool>): set<Id> {
    set x | x in c && x !in votes
  }

  /** Won once a majority granted, lost once no majority can any more. */
  function MajorityVote(c: set<Id>, votes: map<Id, bool>): VoteResult {
    if IsMajority(c, Granting(c, votes)) then VoteWon
    else if IsMajority(c, Granting(c, votes) + Missing(c, votes)) then VotePending
    else VoteLost
  }

  function JointVote(c: JointConfig, votes: map<Id, bool>): VoteResult {
    var r1, r2 := MajorityVote(c.incoming, votes), MajorityVote(c.outgoing, votes);
    if r1 == r2 then r1 else if r1.VoteLost? || r2.VoteLost? then VoteLost else VotePending
  }

  /** votes' adds answers to votes and changes none. */
  ghost predicate Completes(votes: map<Id, bool>, votes': map<Id, bool>) {
    forall x :: x in votes ==> x in votes' && votes'[x] == votes[x]
  }

  /** An election is won exactly when the granting nodes form a quorum, and lost exactly when no
      further votes can make it one. */
  lemma VoteExactly(c: JointConfig, votes: map<Id, bool>)
    ensures JointVote(c, votes).VoteWon? <==> IsQuorum(c, Granting(Voters(c), votes))
    ensures JointVote(c, votes).VoteLost? <==>
              forall votes' :: Completes(votes, votes') ==> !JointVote(c, votes').VoteWon?
  {
    hide MajorityVote, IsMajority, Completes, Granting;
    HalfVote(c.incoming, Voters(c), votes);
    HalfVote(c.outgoing, Voters(c), votes);
    if JointVote(c, votes).VoteLost? {
      forall votes' | Completes(votes, votes') ensures !JointVote(c, votes').VoteWon? {
        Worse(c.incoming, votes, votes');
        Worse(c.outgoing, votes, votes');
      }
    } else {
      var all := AllGrant(Voters(c), votes);
      Best(c.incoming, Voters(c), votes);
      Best(c.outgoing, Voters(c), votes);
      assert JointVote(c, all).VoteWon?;
    }
  }

  /** Every voter that has not answered grants. */
  function AllGrant(voters: set<Id>, votes: map<Id, bool>): map<Id, bool> {
    votes + map x | x in voters && x !in votes :: true
  }

  lemma HalfVote(c: set<Id>, all: set<Id>, votes: map<Id, bool>)
    requires c <= all
    ensures MajorityVote(c, votes).VoteWon? <==> IsMajority(c, Granting(all, votes))
  {
    assert c * Granting(all, votes) == c * Granting(c, votes);
  }

  lemma Best(c: set<Id>, voters: set<Id>, votes: map<Id, bool>)
    requires c <= voters
    ensures Completes(votes, AllGrant(voters, votes))
    ensures MajorityVote(c, votes).VoteLost? || MajorityVote(c, AllGrant(voters, votes)).VoteWon?
  {
    var all := AllGrant(voters, votes);
    assert Granting(c, all) == Granting(c, votes) + Missing(c, votes);
    MajorityGrows2(c, Granting(c, votes), Granting(c, all));
  }

  lemma MajorityGrows2(c: set<Id>, p: set<Id>, q: set<Id>)
    requires p <= q
    ensures IsMajority(c, p) ==> IsMajority(c, q)
  {
    if IsMajority(c, p) { MajorityGrows(c, p, q); }
  }

  lemma Worse(c: set<Id>, votes: map<Id, bool>, votes': map<Id, bool>)
    requires Completes(votes, votes')
    ensures MajorityVote(c, votes).VoteLost? ==> !MajorityVote(c, votes').VoteWon?
  {
    assert Granting(c, votes') <= Granting(c, votes) + Missing(c, votes);
    MajorityGrows2(c, Granting(c, votes'), Granting(c, votes) + Missing(c, votes));
  }

  lemma CountOne(seen: set<Id>, votes: map<Id, bool>, x: Id)
    requires x !in seen
    ensures |Granting(seen + {x}, votes)| == |Granting(seen, votes)| + (if x in votes && votes[x] then 1 else 0)
    ensures |Missing(seen + {x}, votes)| == |Missing(seen, votes)| + (if x in votes then 0 else 1)
  {
    GrantOne(seen, votes, x);
    MissOne(seen, votes, x);
    hide Granting, Missing;
  }

  lemma GrantOne(seen: set<Id>, votes: map<Id, bool>, x: Id)
    requires x !in seen
    ensures Granting(seen + {x}, votes) == Granting(seen, votes) + (if x in votes && votes[x] then {x} else {})
    ensures x !in Granting(seen, votes)
  {
  }

  lemma MissOne(seen: set<Id>, votes: map<Id, bool>, x: Id)
    requires x !in seen
    ensures Missing(seen + {x}, votes) == Missing(seen, votes) + (if x in votes then {} else {x})
    ensures x !in Missing(seen, votes)
  {
  }

  lemma CountAll(c: set<Id>, votes: map<Id, bool>, granted: nat, missing: nat)
    requires c != {} && granted == |Granting(c, votes)| && missing == |Missing(c, votes)|
    ensures granted >= |c| / 2 + 1 <==> MajorityVote(c, votes).VoteWon?
    ensures granted < |c| / 2 + 1 <= granted + missing <==> MajorityVote(c, votes).VotePending?
  {
    assert c * Granting(c, votes) == Granting(c, votes);
    assert c * (Granting(c, votes) + Missing(c, votes)) == Granting(c, votes) + Missing(c, votes);
    assert Granting(c, votes) !! Missing(c, votes);
  }

  /** Counting votes in one pass over the voters. */
  method CountVotes(c: set<Id>, votes: map<Id, bool>) returns (r: VoteResult)
    ensures r == MajorityVote(c, votes)
  {
    hide Granting, Missing, MajorityVote, IsMajority;
    if |c| == 0 { EmptyWins(votes); return VoteWon; }
    var granted, missing, todo := 0, 0, c;
    NothingCounted(votes);
    assert c - todo == {};
    while todo != {}
      invariant todo <= c
      invariant granted == |Granting(c - todo, votes)| && missing == |Missing(c - todo, votes)|
      decreases |todo|
    {
      var x :| x in todo;
      CountOne(c - todo, votes, x);
      assert c - (todo - {x}) == c - todo + {x};
      if x !in votes {
        missing := missing + 1;
      } else if votes[x] {
        granted := granted + 1;
      }
      todo := todo - {x};
    }
    assert c - todo == c;
    CountAll(c, votes, granted, missing);
    var q := |c| / 2 + 1;
    if granted >= q { return VoteWon; }
    if granted + missing >= q { return VotePending; }
    return VoteLost;
  }

  lemma NothingCounted(votes: map<Id, bool>)
    ensures Granting({}, votes) == {} && Missing({}, votes) == {}
  {
  }

  lemma EmptyWins(votes: map<Id, bool>)
    ensures MajorityVote({}, votes) == VoteWon
  {
  }
}
