/** The raft log (raft/log.go): storage and the unstable tail, read as one sequence, and the cursor
    that hands committed entries to the application within a byte budget. */
module RaftLog {
  import opened Types
  import opened Limit
  import opened Unstable

  // ---------------------------------------------------------------------------------------------
  // One sequence out of two
  // ---------------------------------------------------------------------------------------------

  /** The index of the last entry; ents[0] stands for the last compacted entry. */
  function Last(ents: seq<Entry>, u: Tail): nat
    requires ents != []
  {
    if u.entries == [] then ents[0].index + |ents| - 1 else TailEnd(u) - 1
  }

  /** Storage reaches up to the tail, the log reaches past what is compacted, and storage holds
      nothing more than the log once the tail is empty. */
  predicate SplitOK(ents: seq<Entry>, u: Tail) {
    && ents != [] && Contiguous(ents, ents[0].index) && TailOK(u)
    && u.offset <= ents[0].index + |ents| && ents[0].index <= Last(ents, u)
    && (u.entries == [] ==> u.offset == ents[0].index + |ents|)
    && (u.offset <= ents[0].index ==> u.offset > 0 && u.entries != [] && u.entries[ents[0].index - u.offset].term == ents[0].term)
  }

  /** Where each entry of the log lives. */
  function EntryAt(ents: seq<Entry>, u: Tail, i: nat): Entry
    requires SplitOK(ents, u) && ents[0].index < i <= Last(ents, u)
  {
    if i < u.offset then ents[i - ents[0].index] else u.entries[i - u.offset]
  }

  /** The log's entries after the last compacted one. */
  function Joined(ents: seq<Entry>, u: Tail): (r: seq<Entry>)
    requires SplitOK(ents, u)
    ensures |r| == Last(ents, u) - ents[0].index
  {
    var base := ents[0].index;
    seq(Last(ents, u) - base, k requires 0 <= k < Last(ents, u) - base => EntryAt(ents, u, base + 1 + k))
  }

  lemma JoinedAt(ents: seq<Entry>, u: Tail, i: nat)
    requires SplitOK(ents, u) && ents[0].index < i <= Last(ents, u)
    ensures Joined(ents, u)[i - ents[0].index - 1] == EntryAt(ents, u, i)
    ensures EntryAt(ents, u, i).index == i
  {
  }

  lemma JoinedContiguous(ents: seq<Entry>, u: Tail)
    requires SplitOK(ents, u)
    ensures Contiguous(Joined(ents, u), ents[0].index + 1)
  {
    forall k | 0 <= k < |Joined(ents, u)| ensures Joined(ents, u)[k].index == ents[0].index + 1 + k {
      JoinedAt(ents, u, ents[0].index + 1 + k);
    }
  }

  lemma TruncatedAt(u: Tail, more: seq<Entry>, i: nat)
    requires TailOK(u) && more != [] && more[0].index <= TailEnd(u) && Contiguous(more, more[0].index)
    requires Truncated(u, more).offset <= i < TailEnd(Truncated(u, more))
    ensures i >= more[0].index ==> Truncated(u, more).entries[i - Truncated(u, more).offset] == more[i - more[0].index]
    ensures i < more[0].index ==>
              u.offset <= i < TailEnd(u)
              && Truncated(u, more).entries[i - Truncated(u, more).offset] == u.entries[i - u.offset]
  {
    TruncatedOK(u, more);
  }

  /** Appending replaces the log from the first new entry on, wherever the boundary is. */
  lemma AppendJoins(ents: seq<Entry>, u: Tail, more: seq<Entry>)
    requires SplitOK(ents, u) && more != [] && Contiguous(more, more[0].index)
    requires ents[0].index < more[0].index <= Last(ents, u) + 1
    ensures more[0].index <= TailEnd(u) && SplitOK(ents, Truncated(u, more))
    ensures Joined(ents, Truncated(u, more)) == Joined(ents, u)[..more[0].index - ents[0].index - 1] + more
  {
    var u' := Truncated(u, more);
    TruncatedOK(u, more);
    var base, from := ents[0].index, more[0].index;
    if u'.offset <= base { TruncatedAt(u, more, base); }
    hide Truncated, Joined;
    var left, right := Joined(ents, u'), Joined(ents, u)[..from - base - 1] + more;
    assert |left| == |right|;
    forall k | 0 <= k < |left| ensures left[k] == right[k] {
      var i := base + 1 + k;
      JoinedAt(ents, u', i);
      if i >= u'.offset { TruncatedAt(u, more, i); }
      if i < from { JoinedAt(ents, u, i); }
    }
  }

  /** Dropping entries from the tail is invisible when storage holds them. */
  lemma StableJoins(ents: seq<Entry>, u: Tail, index: nat, term: nat)
    requires SplitOK(ents, u) && InStorage(ents, u, index, term)
    ensures SplitOK(ents, Stabilised(u, index, term))
    ensures Joined(ents, Stabilised(u, index, term)) == Joined(ents, u)
  {
    var u' := Stabilised(u, index, term);
    if u' != u {
      StableSplit(ents, u, index, term);
      hide Joined, SplitOK, InStorage, Stabilised;
      var left, right := Joined(ents, u'), Joined(ents, u);
      forall k | 0 <= k < |left| ensures left[k] == right[k] {
        JoinedAt(ents, u', ents[0].index + 1 + k);
        JoinedAt(ents, u, ents[0].index + 1 + k);
        StableAt(ents, u, index, term, ents[0].index + 1 + k);
      }
    }
  }

  lemma StableSplit(ents: seq<Entry>, u: Tail, index: nat, term: nat)
    requires SplitOK(ents, u) && InStorage(ents, u, index, term)
    ensures SplitOK(ents, Stabilised(u, index, term)) && Last(ents, Stabilised(u, index, term)) == Last(ents, u)
  {
  }

  lemma StableAt(ents: seq<Entry>, u: Tail, index: nat, term: nat, i: nat)
    requires SplitOK(ents, u) && InStorage(ents, u, index, term) && ents[0].index < i <= Last(ents, u)
    requires SplitOK(ents, Stabilised(u, index, term)) && Last(ents, Stabilised(u, index, term)) == Last(ents, u)
    ensures EntryAt(ents, Stabilised(u, index, term), i) == EntryAt(ents, u, i)
  {
    if TailTerm(u, index) == Some(term) && u.offset <= i <= index {
      assert ents[i - ents[0].index] == u.entries[i - ents[0].index + ents[0].index - u.offset];
    }
  }

  /** Storage holds every entry that (index, term) would drop from the tail, and nothing past the
      end of the log if that empties it. */
  predicate InStorage(ents: seq<Entry>, u: Tail, index: nat, term: nat)
    requires SplitOK(ents, u)
  {
    TailTerm(u, index) == Some(term) ==>
      && ents[0].index <= index < ents[0].index + |ents|
      && (index + 1 == TailEnd(u) ==> index + 1 == ents[0].index + |ents|)
      && SameRange(ents, ents[0].index, u.entries, u.offset, Max(u.offset, ents[0].index + 1), index + 1)
  }

  /** Two sequences, each starting at a log position, hold the same entries from lo to hi - 1. */
  predicate SameRange(a: seq<Entry>, baseA: nat, b: seq<Entry>, baseB: nat, lo: nat, hi: nat) {
    lo <= hi && baseA <= lo && baseB <= lo && hi - baseA <= |a| && hi - baseB <= |b|
    && forall k :: lo - baseA <= k < hi - baseA ==> a[k] == b[k + baseA - baseB]
  }

  /** Writing entries of the tail to storage is invisible. */
  lemma WriteJoins(ents: seq<Entry>, u: Tail, lo: nat, hi: nat)
    requires SplitOK(ents, u) && u.offset <= lo <= hi <= TailEnd(u) && lo <= ents[0].index + |ents|
    ensures SplitOK(Written(ents, u.entries[lo - u.offset..hi - u.offset]), u)
    ensures Joined(Written(ents, u.entries[lo - u.offset..hi - u.offset]), u) == Joined(ents, u)
  {
    hide Joined;
    var more := u.entries[lo - u.offset..hi - u.offset];
    if more != [] {
      assert more[0] == u.entries[lo - u.offset];
      assert Contiguous(more, lo);
      WrittenOK(ents, more);
      var ents' := Written(ents, more);
      WrittenBelow(ents, more, u.offset);
      hide Written;
      var left, right := Joined(ents', u), Joined(ents, u);
      forall k | 0 <= k < |left| ensures left[k] == right[k] {
        var i := ents[0].index + 1 + k;
        JoinedAt(ents', u, i);
        JoinedAt(ents, u, i);
      }
    }
  }

  lemma WrittenBelow(ents: seq<Entry>, more: seq<Entry>, i: nat)
    requires ents != [] && more != [] && i <= more[0].index <= ents[0].index + |ents|
    ensures |Written(ents, more)| >= more[0].index - ents[0].index
    ensures more[0].index > ents[0].index ==> |Written(ents, more)| >= 1 && i - ents[0].index <= |ents|
    ensures forall k :: 0 <= k < |ents| && ents[0].index + k < i ==> k < |Written(ents, more)| && Written(ents, more)[k] == ents[k]
  {
  }

  // ---------------------------------------------------------------------------------------------
  // Size-limited reads across the boundary
  // ---------------------------------------------------------------------------------------------

  /** Reading the stored part with the whole budget and the rest with what is left gives the
      longest prefix of the two that fits, as reading them as one sequence would. */
  lemma LimitAcross(a: seq<Entry>, b: seq<Entry>, max: nat)
    requires a != []
    ensures LimitSize(a, max) != a ==> LimitSize(a + b, max) == LimitSize(a, max)
    ensures LimitSize(a, max) == a && EntsSize(a) >= max ==> LimitSize(a + b, max) == a
    ensures LimitSize(a, max) == a && EntsSize(a) < max && b != [] ==>
              var rest := LimitSize(b, max - EntsSize(a));
              LimitSize(a + b, max) ==
                if |rest| == 1 && EntsSize(a) + EntsSize(rest) > max then a else a + rest
  {
    var n := Fitting(a, max);
    assert (a + b)[..|a|] == a;
    if n < |a| {
      FittingTight(a, max);
      assert (a + b)[..n] == a[..n] && (a + b)[..n + 1] == a[..n + 1];
      FittingIs(a + b, max, n);
    } else if b != [] {
      assert a[..n] == a;
      assert (a + b)[..|a| + 1] == a + [b[0]];
      SizeOf(a, [b[0]]);
      if EntsSize(a) >= max {
        FittingIs(a + b, max, |a|);
      } else {
        LimitRest(a, b, max);
      }
    } else {
      assert a + b == a;
    }
  }

  lemma LimitRest(a: seq<Entry>, b: seq<Entry>, max: nat)
    requires a != [] && b != [] && EntsSize(a) < max
    ensures var rest := LimitSize(b, max - EntsSize(a));
            LimitSize(a + b, max) ==
              if |rest| == 1 && EntsSize(a) + EntsSize(rest) > max then a else a + rest
  {
    hide EntsSize;
    var left := max - EntsSize(a);
    var k := Fitting(b, left);
    var rest := b[..k];
    assert (a + b)[..|a|] == a;
    assert (a + b)[..|a| + k] == a + rest;
    SizeOf(a, rest);
    if k < |b| {
      FittingTight(b, left);
      assert (a + b)[..|a| + k + 1] == a + b[..k + 1];
      SizeOf(a, b[..k + 1]);
    }
    hide Fitting;
    if k == 1 && EntsSize(a) + EntsSize(rest) > max {
      FittingIs(a + b, max, |a|);
    } else {
      FittingIs(a + b, max, |a| + k);
    }
  }

  /** One entry more than Fitting takes would exceed the limit. */
  lemma {:induction false} FittingTight(ents: seq<Entry>, max: nat)
    requires Fitting(ents, max) < |ents|
    ensures EntsSize(ents[..Fitting(ents, max) + 1]) > max
    decreases |ents|
  {
    var shorter := ents[..|ents| - 1];
    var n := Fitting(ents, max);
    assert n == Fitting(shorter, max);
    if n < |shorter| {
      FittingTight(shorter, max);
      assert shorter[..n + 1] == ents[..n + 1];
    } else {
      assert ents[..n + 1] == ents;
    }
  }

  // ---------------------------------------------------------------------------------------------
  // The log object
  // ---------------------------------------------------------------------------------------------

  /** The size of all batches handed out and not acknowledged. */
  function Outstanding(batches: seq<seq<Entry>>): nat {
    if batches == [] then 0 else EntsSize(batches[0]) + Outstanding(batches[1..])
  }

  function Flatten(batches: seq<seq<Entry>>): seq<Entry> {
    if batches == [] then [] else batches[0] + Flatten(batches[1..])
  }

  lemma {:induction false} BatchesOf(a: seq<seq<Entry>>, b: seq<Entry>)
    ensures Outstanding(a + [b]) == Outstanding(a) + EntsSize(b)
    ensures Flatten(a + [b]) == Flatten(a) + b
  {
    hide EntsSize;
    var all := a + [b];
    if a == [] {
      assert all == [b] && all[1..] == [];
    } else {
      assert all[0] == a[0] && all[1..] == a[1..] + [b];
      BatchesOf(a[1..], b);
      assert (a[0] + Flatten(a[1..])) + b == a[0] + (Flatten(a[1..]) + b);
    }
  }

  lemma OffsetPositive(ents: seq<Entry>, u: Tail)
    requires SplitOK(ents, u)
    ensures u.offset > 0
  {
  }

  /** ents is what comes next in a log of which [lo, hi) is still to be handed out. */
  predicate IsNext(full: seq<Entry>, lo: int, hi: int, ents: seq<Entry>) {
    0 <= lo <= hi <= |full| && ents <= full[lo..hi]
  }

  /** `full` is the log since `start`, and what is left of it after compaction is what storage and
      tail hold. */
  predicate FullOK(full: seq<Entry>, start: nat, ents: seq<Entry>, u: Tail) {
    && SplitOK(ents, u) && start <= ents[0].index
    && |full| == Last(ents, u) - start && Contiguous(full, start + 1)
    && full[ents[0].index - start..] == Joined(ents, u)
  }

  /** The batches not acknowledged yet are the log between the applied and the applying index. */
  predicate CursorOK(full: seq<Entry>, start: nat, applied: nat, applying: nat, batches: seq<seq<Entry>>) {
    && start <= applied <= applying <= start + |full|
    && (forall b :: b in batches ==> b != [])
    && full[applied - start..applying - start] == Flatten(batches)
  }

  /** All batches ever handed out, put together, are the log up to the applying index: every entry once,
      in order, with no gap. */
  predicate HandedOK(full: seq<Entry>, start: nat, applying: nat, handed: seq<seq<Entry>>) {
    start <= applying <= start + |full| && Flatten(handed) == full[..applying - start]
  }

  /** The budget in use is the size of the unacknowledged batches; application pauses only while
      there are some, and always when the budget is used up. */
  predicate BudgetOK(max: nat, size: nat, paused: bool, batches: seq<seq<Entry>>) {
    && max > 0 && size == Outstanding(batches)
    && (!paused ==> size < max)
    && (paused ==> batches != [])
  }

  class RaftLog {
    const storage: MemoryStorage
    const unstable: UnstableLog
    var committed: nat
    var applying: nat
    var applied: nat
    const maxApplyingEntsSize: nat
    var applyingEntsSize: nat
    var applyingEntsPaused: bool

    /** Every entry since the log was opened at index `start`, compacted or not. */
    ghost var full: seq<Entry>
    ghost const start: nat
    /** The batches handed to the application and not acknowledged yet. */
    ghost var batches: seq<seq<Entry>>
    /** Every batch ever handed out. */
    ghost var handed: seq<seq<Entry>>

    ghost predicate Split()
      reads this, storage, unstable
    {
      storage.Valid() && unstable.Valid() && SplitOK(storage.ents, unstable.State())
    }

    /** The entries a reader of the log can see. */
    ghost function Ents(): seq<Entry>
      requires Split()
      reads this, storage, unstable
    {
      Joined(storage.ents, unstable.State())
    }

    ghost function Base(): nat
      requires Split()
      reads this, storage, unstable
    {
      storage.ents[0].index
    }

    ghost function LastOf(): nat
      requires Split()
      reads this, storage, unstable
    {
      Last(storage.ents, unstable.State())
    }

    ghost predicate Valid()
      reads this, storage, unstable
    {
      && Split() && FullOK(full, start, storage.ents, unstable.State())
      && CursorOK(full, start, applied, applying, batches) && HandedOK(full, start, applying, handed)
      && BudgetOK(maxApplyingEntsSize, applyingEntsSize, applyingEntsPaused, batches)
      && Base() <= applied && applying <= committed <= LastOf()
    }

    /** A log over a storage: nothing of it is applied beyond what is compacted. */
    constructor (storage: MemoryStorage, maxSize: nat)
      requires storage.Valid() && maxSize > 0
      ensures Valid() && fresh(unstable) && this.storage == storage
      ensures full == storage.ents[1..] && start == storage.ents[0].index && batches == handed == []
      ensures committed == applying == applied == start && maxApplyingEntsSize == maxSize
    {
      var first := storage.FirstIndex();
      var last := storage.LastIndex();
      this.storage := storage;
      unstable := new UnstableLog(last + 1);
      committed, applying, applied := first - 1, first - 1, first - 1;
      maxApplyingEntsSize, applyingEntsSize, applyingEntsPaused := maxSize, 0, false;
      full, start, batches, handed := storage.ents[1..], storage.ents[0].index, [], [];
      new;
      assert SplitOK(storage.ents, unstable.State());
      forall k | 0 <= k < |Ents()| ensures Ents()[k] == storage.ents[1..][k] {
        JoinedAt(storage.ents, unstable.State(), Base() + 1 + k);
      }
      assert Ents() == full;
      JoinedContiguous(storage.ents, unstable.State());
    }

    method FirstIndex() returns (i: nat)
      requires Split()
      ensures i == Base() + 1
    {
      i := storage.FirstIndex();
    }

    method LastIndex() returns (i: nat)
      requires Split()
      ensures i == Base() + |Ents()|
    {
      var last := unstable.MaybeLastIndex();
      if last.Some? { return last.value; }
      i := storage.LastIndex();
    }

    /** Answers as the one sequence would, wherever the entry lives, from the last compacted entry
        to the last one; a compacted entry is only known if the tail still has it. */
    method Term(i: nat) returns (r: ReadResult<nat>)
      requires Split()
      ensures i > Base() + |Ents()| ==> r == Err(Unavailable)
      ensures Base() < i <= Base() + |Ents()| ==> r == Ok(Ents()[i - Base() - 1].term)
      ensures i == Base() ==> r == Ok(storage.ents[0].term)
      ensures i < Base() && i < unstable.offset ==> r == Err(Compacted)
      ensures unstable.offset <= i < Base() ==> i - unstable.offset < |unstable.entries| && r == Ok(unstable.entries[i - unstable.offset].term)
    {
      var t := unstable.MaybeTerm(i);
      if Base() < i <= LastOf() { JoinedAt(storage.ents, unstable.State(), i); }
      if t.Some? { return Ok(t.value); }
      var first := FirstIndex();
      if i + 1 < first { return Err(Compacted); }
      var last := LastIndex();
      if i > last { return Err(Unavailable); }
      r := storage.Term(i);
    }

    /** Entries lo to hi - 1 of the one sequence, limited in size; reading past the end panics. */
    method Slice(lo: nat, hi: nat, maxSize: nat) returns (r: ReadResult<seq<Entry>>)
      requires Split() && lo <= hi <= Base() + |Ents()| + 1
      ensures lo <= Base() ==> r == Err(Compacted)
      ensures lo > Base() ==> r == Ok(LimitSize(Ents()[lo - Base() - 1..hi - Base() - 1], maxSize))
    {
      hide SplitOK, Joined, Fitting, EntsSize, TailOK, Contiguous;
      var first := FirstIndex();
      if lo < first { return Err(Compacted); }
      ghost var base, ents, u := Base(), storage.ents, unstable.State();
      BoundaryFacts(ents, u);
      if lo == hi { return Ok([]); }
      if lo >= unstable.offset {
        TailSlice(ents, u, lo, hi);
        var tail := unstable.Slice(lo, hi);
        tail := LimitSizeLoop(tail, maxSize);
        return Ok(tail);
      }
      var cut := Min(hi, unstable.offset);
      StoredSlice(ents, u, lo, cut);
      r := storage.Entries(lo, cut, maxSize);
      if hi <= unstable.offset { return; }
      TailSlice(ents, u, cut, hi);
      ghost var a, b := ents[lo - base..cut - base], u.entries[cut - u.offset..hi - u.offset];
      SliceParts(Joined(ents, u), lo - base - 1, cut - base - 1, hi - base - 1);
      LimitAcross(a, b, maxSize);
      if |r.value| < cut - lo { return; }
      assert r.value == a;
      var size := SizeLoop(r.value);
      if size >= maxSize { return; }
      var rest := unstable.Slice(unstable.offset, hi);
      rest := LimitSizeLoop(rest, maxSize - size);
      var restSize := SizeLoop(rest);
      if |rest| == 1 && size + restSize > maxSize { return; }
      return Ok(r.value + rest);
    }

    /** Entries from i on; none past the end. */
    method Entries(i: nat, maxSize: nat) returns (r: ReadResult<seq<Entry>>)
      requires Split()
      ensures i > Base() + |Ents()| ==> r == Ok([])
      ensures i <= Base() ==> r == Err(Compacted)
      ensures Base() < i <= Base() + |Ents()| ==> r == Ok(LimitSize(Ents()[i - Base() - 1..], maxSize))
    {
      hide SplitOK, Joined, LimitSize, Fitting, EntsSize, TailOK, Contiguous, TailEnd;
      var last := LastIndex();
      if i > last { return Ok([]); }
      r := Slice(i, last + 1, maxSize);
      if i > Base() { SliceAll(Ents(), i - Base() - 1); }
    }

    // -------------------------------------------------------------------------------------------
    // Changing the log
    // -------------------------------------------------------------------------------------------

    /** Appends after the commit index; earlier entries would panic. */
    method Append(ents: seq<Entry>) returns (last: nat)
      requires Valid()
      requires ents != [] ==> committed < ents[0].index <= LastOf() + 1 && Contiguous(ents, ents[0].index)
      modifies this, unstable
      ensures Valid() && last == LastOf()
      ensures Ents() == if ents == [] then old(Ents()) else old(Ents())[..ents[0].index - Base() - 1] + ents
      ensures full == if ents == [] then old(full) else old(full)[..ents[0].index - start - 1] + ents
      ensures committed == old(committed) && applying == old(applying) && applied == old(applied)
      ensures batches == old(batches) && handed == old(handed)
      ensures applyingEntsSize == old(applyingEntsSize) && applyingEntsPaused == old(applyingEntsPaused)
      ensures unstable.offset == if ents == [] then old(unstable.offset) else Min(old(unstable.offset), ents[0].index)
      ensures old(unstable.offsetInProgress) == old(unstable.offset) ==> unstable.offsetInProgress == unstable.offset
    {
      hide SplitOK, Joined, Truncated, FullOK, CursorOK, BudgetOK, Contiguous, TailOK;
      if |ents| == 0 {
        last := LastIndex();
        return;
      }
      CursorBounds(full, start, applied, applying, batches);
      AppendFull(full, start, storage.ents, unstable.State(), ents);
      AppendCursor(full, start, applied, applying, batches, ents, ents[0].index - start - 1);
      TruncatedOK(unstable.State(), ents);
      unstable.TruncateAndAppend(ents);
      full := full[..ents[0].index - start - 1] + ents;
      last := LastIndex();
    }

    /** The tail is known to be stored up to (index, term). */
    method StableTo(index: nat, term: nat)
      requires Valid() && InStorage(storage.ents, unstable.State(), index, term)
      modifies unstable
      ensures Valid() && Ents() == old(Ents()) && unstable.State() == Stabilised(old(unstable.State()), index, term)
    {
      StableJoins(storage.ents, unstable.State(), index, term);
      unstable.StableTo(index, term);
    }

    method AcceptUnstable()
      requires Valid()
      modifies unstable
      ensures Valid() && Ents() == old(Ents()) && unstable.State() == Accepted(old(unstable.State()))
    {
      unstable.AcceptInProgress();
      SameEntries(storage.ents, old(unstable.State()), unstable.State());
    }

    /** The application stores what a Ready told it to. */
    method Store(lo: nat, hi: nat)
      requires Valid() && unstable.offset <= lo <= hi <= TailEnd(unstable.State())
      requires lo <= storage.ents[0].index + |storage.ents|
      modifies storage
      ensures Valid() && Ents() == old(Ents())
      ensures storage.ents == Written(old(storage.ents), unstable.entries[lo - unstable.offset..hi - unstable.offset])
    {
      hide SplitOK, Joined, CursorOK, BudgetOK, Contiguous, TailOK, Written, Last;
      BoundaryFacts(storage.ents, unstable.State());
      var more := unstable.entries[lo - unstable.offset..hi - unstable.offset];
      StoreFacts(full, start, storage.ents, unstable.State(), lo, hi);
      storage.Append(more);
    }

    /** The application compacts what it has applied and stored. */
    method Compact(index: nat)
      requires Valid() && index <= applied && index < storage.ents[0].index + |storage.ents|
      requires StoredThrough(storage.ents, unstable.State(), index)
      modifies storage
      ensures Valid() && Base() == Max(old(Base()), index) && Ents() == old(Ents())[Base() - old(Base())..]
      ensures full == old(full) && committed == old(committed)
      ensures storage.ents[0].term == if index > old(Base()) then old(Ents())[index - old(Base()) - 1].term else old(storage.ents[0].term)
    {
      CompactJoins(storage.ents, unstable.State(), index);
      if index > Base() { JoinedAt(storage.ents, unstable.State(), index); }
      ghost var before := Ents();
      var ok := storage.Compact(index);
      if ok {
        assert storage.ents == Shortened(old(storage.ents), index);
        assert full[index - start..] == full[old(Base()) - start..][index - old(Base())..];
      }
    }

    method CommitTo(k: nat)
      requires Valid() && k <= LastOf()
      modifies this`committed
      ensures Valid() && committed == Max(old(committed), k)
    {
      if committed < k { committed := k; }
    }

    // -------------------------------------------------------------------------------------------
    // Applying
    // -------------------------------------------------------------------------------------------

    /** The last committed entry that may be handed out: stored ones only, unless allowed. */
    ghost function Appliable(allowUnstable: bool): nat
      requires Split()
      reads this, storage, unstable
    {
      OffsetPositive(storage.ents, unstable.State());
      if allowUnstable then committed else Min(committed, unstable.offset - 1)
    }

    method MaxAppliableIndex(allowUnstable: bool) returns (hi: nat)
      requires Split()
      ensures hi == Appliable(allowUnstable)
    {
      OffsetPositive(storage.ents, unstable.State());
      hi := committed;
      if !allowUnstable { hi := Min(hi, unstable.offset - 1); }
    }

    /** The next committed entries to apply: those after the ones handed out, as many as fit in the
        budget that is left. The budget is never exhausted without application being paused. */
    method NextCommittedEnts(allowUnstable: bool) returns (ents: seq<Entry>)
      requires Valid()
      ensures Appliable(allowUnstable) <= LastOf() && start <= applying
      ensures ents == if applyingEntsPaused || applying >= Appliable(allowUnstable) then []
                      else LimitSize(full[applying - start..Appliable(allowUnstable) - start], maxApplyingEntsSize - applyingEntsSize)
      ensures IsNext(full, applying - start, committed - start, ents)
    {
      hide SplitOK, Joined, FullOK, CursorOK, HandedOK, Fitting, Contiguous, TailOK, Outstanding, LimitSize, EntsSize, TailEnd, Last, IsNext;
      CursorBounds(full, start, applied, applying, batches);
      FullBounds(full, start, storage.ents, unstable.State());
      NothingNext(full, applying - start, committed - start);
      if applyingEntsPaused { return []; }
      var hi := MaxAppliableIndex(allowUnstable);
      var lo := applying + 1;
      hi := hi + 1;
      if lo >= hi { return []; }
      FullSlice(full, start, storage.ents, unstable.State(), lo, hi);
      var r := Slice(lo, hi, maxApplyingEntsSize - applyingEntsSize);
      ents := r.value;
      LimitPrefix(full, applying - start, hi - 1 - start, committed - start, maxApplyingEntsSize - applyingEntsSize);
    }

    /** The application took these entries. Handing out what was already handed out, or skipping
        entries, is not possible: what is handed out extends what was. Application pauses exactly when the
        budget is used up or something that may be handed out was left. */
    method AcceptApplying(ents: seq<Entry>, allowUnstable: bool)
      requires Valid() && ents != [] && IsNext(full, applying - start, committed - start, ents)
      modifies this
      ensures Valid() && full == old(full) && committed == old(committed) && applied == old(applied)
      ensures applying == old(applying) + |ents|
      ensures applyingEntsSize == old(applyingEntsSize) + EntsSize(ents)
      ensures applyingEntsPaused <==> applyingEntsSize >= maxApplyingEntsSize || applying < Appliable(allowUnstable)
      ensures batches == old(batches) + [ents] && handed == old(handed) + [ents]
    {
      hide SplitOK, Joined, FullOK, CursorOK, BudgetOK, Contiguous, TailOK, EntsSize, Last, Outstanding, Flatten, IsNext;
      AcceptCursor(full, start, applied, applying, committed, batches, ents, storage.ents, unstable.State());
      BatchesOf(handed, ents);
      var size := SizeLoop(ents);
      var i := ents[|ents| - 1].index;
      var hi := MaxAppliableIndex(allowUnstable);
      AcceptBudget(maxApplyingEntsSize, applyingEntsSize, applyingEntsPaused, batches, ents, i < hi);
      applying := i;
      applyingEntsSize := applyingEntsSize + size;
      applyingEntsPaused := applyingEntsSize >= maxApplyingEntsSize || i < hi;
      batches := batches + [ents];
      handed := handed + [ents];
    }

    /** The oldest batch handed out ends at i and has this size. */
    ghost predicate OldestBatch(i: nat, size: nat)
      reads this
    {
      batches != [] && i == applied + |batches[0]| && size == EntsSize(batches[0])
    }

    /** The log was applied through i, which took off `size` of the budget in use. Acknowledging the
        oldest batch keeps what the log promises; any other index, up to the commit index, is taken
        as well. */
    method AppliedTo(i: nat, size: nat)
      requires Split() && applied <= i <= committed
      modifies this
      ensures applied == i && applying == Max(old(applying), i)
      ensures applyingEntsSize == (if old(applyingEntsSize) > size then old(applyingEntsSize) - size else 0)
      ensures applyingEntsPaused <==> applyingEntsSize >= maxApplyingEntsSize
      ensures full == old(full) && committed == old(committed) && handed == old(handed)
      ensures old(Valid() && OldestBatch(i, size)) ==>
                Valid() && applying == old(applying) && batches == old(batches)[1..]
    {
      hide SplitOK, Joined, FullOK, CursorOK, BudgetOK, HandedOK, Contiguous, TailOK, EntsSize, Outstanding;
      ghost var oldest := Valid() && OldestBatch(i, size);
      if oldest {
        AppliedCursor(full, start, applied, applying, batches);
        AppliedBudget(maxApplyingEntsSize, applyingEntsSize, applyingEntsPaused, batches);
      }
      applied := i;
      applying := Max(applying, i);
      if applyingEntsSize > size { applyingEntsSize := applyingEntsSize - size; } else { applyingEntsSize := 0; }
      applyingEntsPaused := applyingEntsSize >= maxApplyingEntsSize;
      if oldest { batches := batches[1..]; }
    }
  }

  // ---------------------------------------------------------------------------------------------
  // Lemmas the object needs
  // ---------------------------------------------------------------------------------------------

  lemma BoundaryFacts(ents: seq<Entry>, u: Tail)
    requires SplitOK(ents, u)
    ensures ents != [] && |Joined(ents, u)| == Last(ents, u) - ents[0].index
    ensures u.offset <= ents[0].index + |ents| && ents[0].index <= Last(ents, u) < Max(TailEnd(u), u.offset)
    ensures |ents| == 1 ==> u.offset <= ents[0].index + 1
  {
  }

  lemma SliceAll(s: seq<Entry>, lo: nat)
    requires lo <= |s|
    ensures s[lo..|s|] == s[lo..]
  {
  }

  lemma SliceParts(s: seq<Entry>, lo: nat, mid: nat, hi: nat)
    requires lo <= mid <= hi <= |s|
    ensures s[lo..hi] == s[lo..mid] + s[mid..hi]
  {
  }

  lemma TailSlice(ents: seq<Entry>, u: Tail, lo: nat, hi: nat)
    requires SplitOK(ents, u) && Max(u.offset, ents[0].index + 1) <= lo <= hi <= Last(ents, u) + 1
    ensures hi <= TailEnd(u)
    ensures Joined(ents, u)[lo - ents[0].index - 1..hi - ents[0].index - 1] == u.entries[lo - u.offset..hi - u.offset]
  {
    var base := ents[0].index;
    var left, right := Joined(ents, u)[lo - base - 1..hi - base - 1], u.entries[lo - u.offset..hi - u.offset];
    forall k | 0 <= k < |left| ensures left[k] == right[k] { JoinedAt(ents, u, lo + k); }
  }

  lemma StoredSlice(ents: seq<Entry>, u: Tail, lo: nat, hi: nat)
    requires SplitOK(ents, u) && ents[0].index < lo <= hi <= Min(u.offset, Last(ents, u) + 1)
    ensures hi <= ents[0].index + |ents|
    ensures Joined(ents, u)[lo - ents[0].index - 1..hi - ents[0].index - 1] == ents[lo - ents[0].index..hi - ents[0].index]
  {
    var base := ents[0].index;
    var left, right := Joined(ents, u)[lo - base - 1..hi - base - 1], ents[lo - base..hi - base];
    forall k | 0 <= k < |left| ensures left[k] == right[k] { JoinedAt(ents, u, lo + k); }
  }

  method SizeLoop(ents: seq<Entry>) returns (size: nat)
    ensures size == EntsSize(ents)
  {
    size := 0;
    var i := 0;
    while i < |ents|
      invariant 0 <= i <= |ents| && size == EntsSize(ents[..i])
    {
      assert ents[..i + 1] == ents[..i] + [ents[i]];
      size := size + EntrySize(ents[i]);
      i := i + 1;
    }
    assert ents[..|ents|] == ents;
  }

  lemma SameEntries(ents: seq<Entry>, u: Tail, u': Tail)
    requires SplitOK(ents, u) && u'.entries == u.entries && u'.offset == u.offset && TailOK(u')
    ensures SplitOK(ents, u') && Joined(ents, u') == Joined(ents, u)
  {
    var left, right := Joined(ents, u'), Joined(ents, u);
    forall k | 0 <= k < |left| ensures left[k] == right[k] {
      JoinedAt(ents, u', ents[0].index + 1 + k);
      JoinedAt(ents, u, ents[0].index + 1 + k);
    }
  }

  /** Storage holds the log's own entry at `index`, and is not left shorter than the tail starts. */
  predicate StoredThrough(ents: seq<Entry>, u: Tail, index: nat)
    requires SplitOK(ents, u)
  {
    ents[0].index < index <= Last(ents, u) ==>
      index < ents[0].index + |ents| && ents[index - ents[0].index].term == EntryAt(ents, u, index).term
  }

  /** What compaction leaves of a storage. */
  function Shortened(ents: seq<Entry>, index: nat): seq<Entry>
    requires ents != [] && ents[0].index < index < ents[0].index + |ents|
  {
    [Entry(index, ents[index - ents[0].index].term, [])] + ents[index + 1 - ents[0].index..]
  }

  /** Compaction removes a prefix of the log and nothing else. */
  lemma CompactJoins(ents: seq<Entry>, u: Tail, index: nat)
    requires SplitOK(ents, u) && StoredThrough(ents, u, index) && index <= Last(ents, u)
    ensures ents[0].index < index ==>
              SplitOK(ents, u) && index < ents[0].index + |ents| && SplitOK(Shortened(ents, index), u)
              && Joined(Shortened(ents, index), u) == Joined(ents, u)[index - ents[0].index..]
  {
    var base := ents[0].index;
    if base < index {
      var short := Shortened(ents, index);
      assert Last(short, u) == Last(ents, u);
      assert u.offset <= index ==> EntryAt(ents, u, index) == u.entries[index - u.offset];
      assert SplitOK(short, u);
      var left, right := Joined(short, u), Joined(ents, u)[index - base..];
      forall k | 0 <= k < |left| ensures left[k] == right[k] {
        JoinedAt(short, u, index + 1 + k);
        JoinedAt(ents, u, index + 1 + k);
      }
    }
  }

  lemma AppendFull(full: seq<Entry>, start: nat, ents: seq<Entry>, u: Tail, more: seq<Entry>)
    requires FullOK(full, start, ents, u) && more != [] && Contiguous(more, more[0].index)
    requires ents[0].index < more[0].index <= Last(ents, u) + 1
    ensures more[0].index <= TailEnd(u) && FullOK(full[..more[0].index - start - 1] + more, start, ents, Truncated(u, more))
    ensures Joined(ents, Truncated(u, more)) == Joined(ents, u)[..more[0].index - ents[0].index - 1] + more
    ensures Last(ents, Truncated(u, more)) == more[0].index + |more| - 1 && SplitOK(ents, Truncated(u, more))
    ensures start <= ents[0].index && more[0].index - start - 1 <= |full|
  {
    hide Joined, Truncated, SplitOK;
    SplitFacts(ents, u);
    AppendJoins(ents, u, more);
    SplitFacts(ents, Truncated(u, more));
    var base, n := ents[0].index, more[0].index - start - 1;
    var full' := full[..n] + more;
    assert full'[base - start..] == full[base - start..][..more[0].index - base - 1] + more;
  }

  lemma SplitFacts(ents: seq<Entry>, u: Tail)
    requires SplitOK(ents, u)
    ensures ents != [] && TailOK(u)
    ensures ents[0].index <= Last(ents, u)
  {
  }

  lemma AppendCursor(full: seq<Entry>, start: nat, applied: nat, applying: nat, batches: seq<seq<Entry>>, more: seq<Entry>, n: nat)
    requires CursorOK(full, start, applied, applying, batches) && applying - start <= n <= |full|
    ensures CursorOK(full[..n] + more, start, applied, applying, batches)
    ensures start <= applying && (full[..n] + more)[..applying - start] == full[..applying - start]
  {
    hide Flatten;
    var full' := full[..n] + more;
    assert full'[applied - start..applying - start] == full[applied - start..applying - start];
  }

  lemma StoreFacts(full: seq<Entry>, start: nat, ents: seq<Entry>, u: Tail, lo: nat, hi: nat)
    requires FullOK(full, start, ents, u) && u.offset <= lo <= hi <= TailEnd(u) && lo <= ents[0].index + |ents|
    ensures var more := u.entries[lo - u.offset..hi - u.offset];
            (more != [] ==> more[0].index <= ents[0].index + |ents| && Contiguous(more, more[0].index))
            && FullOK(full, start, Written(ents, more), u) && Joined(Written(ents, more), u) == Joined(ents, u)
            && Last(Written(ents, more), u) == Last(ents, u) && Written(ents, more)[0] == ents[0]
  {
    WriteJoins(ents, u, lo, hi);
    var more := u.entries[lo - u.offset..hi - u.offset];
    if more != [] {
      assert more[0] == u.entries[lo - u.offset];
      WrittenOK(ents, more);
    }
    hide Joined, Written;
  }

  lemma CursorBounds(full: seq<Entry>, start: nat, applied: nat, applying: nat, batches: seq<seq<Entry>>)
    requires CursorOK(full, start, applied, applying, batches)
    ensures start <= applied <= applying <= start + |full|
  {
  }

  lemma FullBounds(full: seq<Entry>, start: nat, ents: seq<Entry>, u: Tail)
    requires FullOK(full, start, ents, u)
    ensures SplitOK(ents, u) && start <= ents[0].index && |full| == Last(ents, u) - start && |Joined(ents, u)| == Last(ents, u) - ents[0].index
    ensures Contiguous(full, start + 1)
  {
  }

  lemma FullSlice(full: seq<Entry>, start: nat, ents: seq<Entry>, u: Tail, lo: nat, hi: nat)
    requires FullOK(full, start, ents, u) && ents[0].index < lo <= hi <= Last(ents, u) + 1
    ensures Joined(ents, u)[lo - ents[0].index - 1..hi - ents[0].index - 1] == full[lo - 1 - start..hi - 1 - start]
  {
    SplitFacts(ents, u);
    hide SplitOK, Joined;
    var base := ents[0].index;
    assert full[base - start..][lo - base - 1..hi - base - 1] == full[lo - 1 - start..hi - 1 - start];
  }

  lemma NothingNext(full: seq<Entry>, lo: nat, hi: nat)
    requires lo <= hi <= |full|
    ensures IsNext(full, lo, hi, [])
  {
  }

  lemma LimitPrefix(full: seq<Entry>, lo: nat, mid: nat, hi: nat, max: nat)
    requires lo <= mid <= hi <= |full|
    ensures IsNext(full, lo, hi, LimitSize(full[lo..mid], max))
  {
    assert full[lo..hi][..mid - lo] == full[lo..mid];
  }

  lemma AcceptCursor(full: seq<Entry>, start: nat, applied: nat, applying: nat, committed: nat, batches: seq<seq<Entry>>,
                     ents: seq<Entry>, stored: seq<Entry>, u: Tail)
    requires CursorOK(full, start, applied, applying, batches) && ents != [] && FullOK(full, start, stored, u)
    requires IsNext(full, applying - start, committed - start, ents)
    ensures CursorOK(full, start, applied, applying + |ents|, batches + [ents]) && start <= applying && applying + |ents| <= committed
    ensures ents[|ents| - 1].index == applying + |ents|
    ensures applying + |ents| - start <= |full| && full[..applying + |ents| - start] == full[..applying - start] + ents
  {
    hide Flatten, Outstanding, FullOK;
    FullBounds(full, start, stored, u);
    BatchesOf(batches, ents);
    AcceptSeq(full, applied - start, applying - start, committed - start, ents);
    MoreBatches(batches, ents);
  }

  lemma MoreBatches(batches: seq<seq<Entry>>, ents: seq<Entry>)
    requires ents != [] && forall b :: b in batches ==> b != []
    ensures forall b :: b in batches + [ents] ==> b != []
  {
  }

  lemma AcceptSeq(full: seq<Entry>, a: nat, b: nat, n: nat, ents: seq<Entry>)
    requires a <= b <= n <= |full| && ents != [] && ents <= full[b..n]
    ensures b + |ents| <= n && full[b + |ents| - 1] == ents[|ents| - 1]
    ensures full[a..b + |ents|] == full[a..b] + ents
    ensures full[..b + |ents|] == full[..b] + ents
  {
    assert full[b..n][..|ents|] == full[b..b + |ents|];
    assert full[b + |ents| - 1] == full[b..n][|ents| - 1];
  }

  lemma AcceptBudget(max: nat, size: nat, paused: bool, batches: seq<seq<Entry>>, ents: seq<Entry>, more: bool)
    requires BudgetOK(max, size, paused, batches)
    ensures BudgetOK(max, size + EntsSize(ents), size + EntsSize(ents) >= max || more, batches + [ents])
  {
    BatchesOf(batches, ents);
  }

  lemma AppliedCursor(full: seq<Entry>, start: nat, applied: nat, applying: nat, batches: seq<seq<Entry>>)
    requires CursorOK(full, start, applied, applying, batches) && batches != []
    ensures CursorOK(full, start, applied + |batches[0]|, applying, batches[1..])
    ensures applied + |batches[0]| <= applying
  {
    assert Flatten(batches) == batches[0] + Flatten(batches[1..]);
    hide Flatten;
    var a, b := applied - start, applying - start;
    assert full[a..b][|batches[0]|..] == full[a + |batches[0]|..b];
    assert forall x :: x in batches[1..] ==> x in batches;
  }

  lemma AppliedBudget(max: nat, size: nat, paused: bool, batches: seq<seq<Entry>>)
    requires BudgetOK(max, size, paused, batches) && batches != []
    ensures size >= EntsSize(batches[0])
    ensures BudgetOK(max, size - EntsSize(batches[0]), size - EntsSize(batches[0]) >= max, batches[1..])
  {
  }
}
