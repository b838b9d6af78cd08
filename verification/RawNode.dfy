/** The Ready/Advance cycle of raft/rawnode.go on the log, with synchronous storage writes: a Ready
    hands out what is to be stored and what is to be applied, the application stores and applies it,
    and Advance takes the responses that acceptReady prepared. */
module RawNode {
  import opened Types
  import opened Limit
  import opened Unstable
  import RL = RaftLog

  /** What Advance will step: the tail is stored up to an entry, or a batch was applied. */
  datatype StepOnAdvance = AppendResp(index: nat, term: nat) | ApplyResp(ents: seq<Entry>)

  class RawNode {
    const log: RL.RaftLog
    var stepsOnAdvance: seq<StepOnAdvance>

    /** Between cycles nothing is being written or applied, and the tail lies above what is applied. */
    ghost predicate Idle()
      reads this, log, log.storage, log.unstable
    {
      && log.Valid() && stepsOnAdvance == [] && log.batches == []
      && log.unstable.offsetInProgress == log.unstable.offset && log.applied < log.unstable.offset
    }

    /** What is to be applied next: as many of the committed entries that were not handed out as fit the
        limit. */
    ghost function NextBatch(): seq<Entry>
      requires Idle()
      reads this, log, log.storage, log.unstable
    {
      hide RL.SplitOK, RL.FullOK, RL.HandedOK, RL.BudgetOK, RL.Joined, Contiguous;
      RL.CursorBounds(log.full, log.start, log.applied, log.applying, log.batches);
      RL.FullBounds(log.full, log.start, log.storage.ents, log.unstable.State());
      if log.applying >= log.committed then []
      else LimitSize(log.full[log.applying - log.start..log.committed - log.start], log.maxApplyingEntsSize)
    }

    constructor (log: RL.RaftLog)
      requires log.Valid() && log.batches == [] && log.unstable.offsetInProgress == log.unstable.offset
      requires log.applied < log.unstable.offset
      ensures Idle() && this.log == log
    {
      this.log := log;
      stepsOnAdvance := [];
    }

    /** What may happen between cycles keeps the node idle. */
    method Append(ents: seq<Entry>)
      requires Idle()
      requires ents != [] ==> log.committed < ents[0].index <= log.LastOf() + 1 && Contiguous(ents, ents[0].index)
      modifies log, log.unstable
      ensures Idle() && log.handed == old(log.handed) && log.applying == old(log.applying)
      ensures log.full == if ents == [] then old(log.full) else old(log.full)[..ents[0].index - log.start - 1] + ents
    {
      hide RL.SplitOK, RL.FullOK, RL.CursorOK, RL.BudgetOK, RL.HandedOK, Contiguous;
      CursorFacts(log.full, log.start, log.applied, log.applying, log.batches);
      var last := log.Append(ents);
    }

    method CommitTo(k: nat)
      requires Idle() && k <= log.LastOf()
      modifies log`committed
      ensures Idle() && log.committed == Max(old(log.committed), k)
    {
      hide RL.SplitOK, RL.FullOK, RL.CursorOK, RL.BudgetOK, RL.HandedOK;
      log.CommitTo(k);
    }

    method Compact(index: nat)
      requires Idle() && index <= log.applied && index < log.storage.ents[0].index + |log.storage.ents|
      modifies log.storage
      ensures Idle() && log.Base() == Max(old(log.Base()), index)
    {
      hide RL.SplitOK, RL.FullOK, RL.CursorOK, RL.BudgetOK, RL.HandedOK;
      log.Compact(index);
    }

    /** readyWithoutAccept: the unstable entries to store and the committed entries to apply. */
    method ReadyWithoutAccept() returns (entries: seq<Entry>, committedEntries: seq<Entry>)
      requires Idle()
      ensures entries == log.unstable.entries
      ensures committedEntries == NextBatch()
      ensures committedEntries == [] <==> log.applying == log.committed
      ensures RL.IsNext(log.full, log.applying - log.start, log.committed - log.start, committedEntries)
    {
      hide RL.SplitOK, RL.FullOK, RL.CursorOK, RL.HandedOK, RL.BudgetOK, RL.Joined, Contiguous, RL.Last, TailEnd;
      RunningOn(log.maxApplyingEntsSize, log.applyingEntsSize, log.applyingEntsPaused);
      entries := log.unstable.NextEntries();
      committedEntries := log.NextCommittedEnts(true);
    }

    /** acceptReady: what is handed out is marked so, and the responses are queued for Advance. */
    method AcceptReady(entries: seq<Entry>, committedEntries: seq<Entry>)
      requires Idle() && entries == log.unstable.entries
      requires RL.IsNext(log.full, log.applying - log.start, log.committed - log.start, committedEntries)
      modifies this, log, log.unstable
      ensures log.Valid() && log.Ents() == old(log.Ents()) && log.full == old(log.full) && log.committed == old(log.committed)
      ensures log.applied == old(log.applied)
      ensures log.unstable.entries == entries && log.unstable.offset == old(log.unstable.offset)
      ensures log.batches == (if committedEntries == [] then [] else [committedEntries])
      ensures log.handed == old(log.handed) + log.batches
      ensures log.applying == old(log.applying) + |committedEntries|
      ensures stepsOnAdvance == Responses(entries, committedEntries)
    {
      hide RL.SplitOK, RL.FullOK, RL.CursorOK, RL.HandedOK, RL.BudgetOK, RL.Joined, RL.IsNext, Contiguous, TailOK, RL.Last, TailEnd;
      if |entries| > 0 {
        var last := entries[|entries| - 1];
        stepsOnAdvance := stepsOnAdvance + [AppendResp(last.index, last.term)];
      }
      if |committedEntries| > 0 {
        stepsOnAdvance := stepsOnAdvance + [ApplyResp(committedEntries)];
      }
      log.AcceptUnstable();
      if |committedEntries| > 0 {
        log.AcceptApplying(committedEntries, true);
      }
    }

    /** Ready: the unstable entries to store, the committed entries to apply; both are marked as
        handed out, and the responses are queued for Advance. */
    method Ready() returns (entries: seq<Entry>, committedEntries: seq<Entry>)
      requires Idle()
      modifies this, log, log.unstable
      ensures log.Valid() && log.Ents() == old(log.Ents()) && log.full == old(log.full) && log.committed == old(log.committed)
      ensures log.applied == old(log.applied)
      ensures entries == log.unstable.entries == old(log.unstable.entries) && log.unstable.offset == old(log.unstable.offset)
      ensures log.batches == (if committedEntries == [] then [] else [committedEntries])
      ensures log.handed == old(log.handed) + log.batches
      ensures log.applying == old(log.applying) + |committedEntries|
      ensures committedEntries == old(NextBatch()) && (committedEntries == [] <==> old(log.applying) == log.committed)
      ensures stepsOnAdvance == Responses(entries, committedEntries)
    {
      hide RL.SplitOK, RL.FullOK, RL.CursorOK, RL.HandedOK, RL.BudgetOK, RL.Joined, RL.IsNext, RL.Last, Responses;
      entries, committedEntries := ReadyWithoutAccept();
      AcceptReady(entries, committedEntries);
    }

    /** Advance: each queued response takes its entries off the tail, or acknowledges its batch. The
        application stored what it was told to before it calls this. */
    method Advance(ghost entries: seq<Entry>, ghost committedEntries: seq<Entry>)
      requires log.Valid() && stepsOnAdvance == Responses(entries, committedEntries)
      requires entries == log.unstable.entries && log.applied < log.unstable.offset
      requires Holds(log.storage.ents, log.unstable.State())
      requires log.batches == (if committedEntries == [] then [] else [committedEntries])
      modifies this, log, log.unstable
      ensures Idle() && log.unstable.entries == [] && log.Ents() == old(log.Ents())
      ensures log.full == old(log.full) && log.committed == old(log.committed) && log.handed == old(log.handed)
      ensures log.applied == log.applying == old(log.applying)
    {
      hide RL.SplitOK, RL.FullOK, RL.CursorOK, RL.BudgetOK, RL.HandedOK, Contiguous, EntsSize, RL.InStorage, Holds;
      ghost var u, all, first := log.unstable.State(), log.Ents(), if entries == [] then 0 else 1;
      HeldIs(log.storage.ents, u);
      RL.FullBounds(log.full, log.start, log.storage.ents, u);
      LastBatch(log.full, log.start, log.applied, log.applying, log.batches);
      for i := 0 to |stepsOnAdvance|
        invariant log.Valid() && stepsOnAdvance == Responses(entries, committedEntries)
        invariant log.unstable.State() == if i < first then u else Tail([], TailEnd(u), TailEnd(u))
        invariant log.Ents() == all && log.storage.ents == old(log.storage.ents)
        invariant log.full == old(log.full) && log.committed == old(log.committed) && log.handed == old(log.handed)
        invariant log.applying == old(log.applying)
        invariant log.applied == if i > first then log.applying else old(log.applied)
        invariant log.batches == if i > first then [] else old(log.batches)
      {
        match stepsOnAdvance[i] {
          case AppendResp(index, term) => log.StableTo(index, term);
          case ApplyResp(ents) =>
            var size := RL.SizeLoop(ents);
            log.AppliedTo(ents[|ents| - 1].index, size);
        }
      }
      stepsOnAdvance := [];
    }

    /** One cycle of the application's loop (raftharness/harness.go): take a Ready, store its entries,
        apply what is committed, advance. Afterwards the whole log is stored, everything handed out is
        applied, and readers saw no change; entries were handed out unless none were committed. */
    method Cycle() returns (applied: seq<Entry>)
      requires Idle()
      modifies this, log, log.unstable, log.storage
      ensures Idle() && log.unstable.entries == [] && log.Ents() == old(log.Ents())
      ensures log.full == old(log.full) && log.committed == old(log.committed)
      ensures log.handed == old(log.handed) + (if applied == [] then [] else [applied])
      ensures applied == old(NextBatch())
      ensures log.applied == log.applying && (applied == [] <==> old(log.applying) == log.committed)
      ensures applied != [] ==> log.applying > old(log.applying)
    {
      hide RL.SplitOK, RL.FullOK, RL.CursorOK, RL.BudgetOK, RL.HandedOK, Contiguous, Holds, Written;
      var entries;
      entries, applied := Ready();
      ghost var u := log.unstable.State();
      WholeTail(log.storage.ents, u);
      CursorFacts(log.full, log.start, log.applied, log.applying, log.batches);
      RL.FullBounds(log.full, log.start, log.storage.ents, u);
      LastBatch(log.full, log.start, log.applied, log.applying, log.batches);
      StoredHolds(log.storage.ents, u);
      log.Store(log.unstable.offset, log.unstable.offset + |entries|);
      Advance(entries, applied);
    }

    /** Cycles until nothing committed is left: by then the batches handed out are, put together, the
        log up to the commit index, each entry once and in order. */
    method ApplyAll()
      requires Idle()
      modifies this, log, log.unstable, log.storage
      ensures Idle() && log.full == old(log.full) && log.committed == old(log.committed) && log.applied == log.committed
      ensures log.start <= log.committed <= log.start + |log.full|
      ensures RL.Flatten(log.handed) == log.full[..log.committed - log.start]
    {
      hide RL.FullOK, RL.CursorOK, RL.BudgetOK, RL.SplitOK;
      CursorFacts(log.full, log.start, log.applied, log.applying, log.batches);
      while log.applied < log.committed
        invariant Idle() && log.full == old(log.full) && log.committed == old(log.committed) && log.applied == log.applying
        decreases log.committed - log.applied
      {
        var batch := Cycle();
      }
    }
  }

  function Responses(entries: seq<Entry>, committedEntries: seq<Entry>): seq<StepOnAdvance> {
    (if entries == [] then [] else [AppendResp(entries[|entries| - 1].index, entries[|entries| - 1].term)])
    + (if committedEntries == [] then [] else [ApplyResp(committedEntries)])
  }

  /** With nothing outstanding application is not paused. */
  lemma RunningOn(max: nat, size: nat, paused: bool)
    ensures RL.BudgetOK(max, size, paused, []) ==> !paused && size == 0
  {
  }

  lemma CursorFacts(full: seq<Entry>, start: nat, applied: nat, applying: nat, batches: seq<seq<Entry>>)
    requires RL.CursorOK(full, start, applied, applying, batches)
    ensures applied <= applying && (batches == [] ==> applied == applying)
  {
  }

  /** Storage holds the whole tail and nothing past it. */
  predicate Holds(ents: seq<Entry>, u: Tail)
    requires RL.SplitOK(ents, u)
  {
    u.entries != [] ==>
      u.offset > ents[0].index && TailEnd(u) == ents[0].index + |ents| && ents[u.offset - ents[0].index..] == u.entries
  }

  lemma HeldIs(ents: seq<Entry>, u: Tail)
    requires RL.SplitOK(ents, u) && Holds(ents, u)
    ensures u.entries == [] ==> u.inProgress == u.offset
    ensures u.entries != [] ==>
              var e := u.entries[|u.entries| - 1];
              RL.InStorage(ents, u, e.index, e.term)
              && Stabilised(u, e.index, e.term) == Tail([], TailEnd(u), TailEnd(u))
  {
    if u.entries != [] {
      assert forall k :: u.offset - ents[0].index <= k < |ents| ==> ents[k] == ents[u.offset - ents[0].index..][k - (u.offset - ents[0].index)];
    }
  }

  lemma LastBatch(full: seq<Entry>, start: nat, applied: nat, applying: nat, batches: seq<seq<Entry>>)
    requires RL.CursorOK(full, start, applied, applying, batches) && |batches| <= 1 && Contiguous(full, start + 1)
    ensures batches == [] ==> applied == applying
    ensures batches != [] ==> batches[0] != [] && batches[0][|batches[0]| - 1].index == applying == applied + |batches[0]|
  {
    if batches != [] {
      assert RL.Flatten(batches) == batches[0] + RL.Flatten(batches[1..]);
      assert batches[1..] == [];
      assert full[applied - start..applying - start] == batches[0];
      assert batches[0] in batches;
    }
  }

  lemma WholeTail(ents: seq<Entry>, u: Tail)
    requires RL.SplitOK(ents, u)
    ensures TailOK(u) && u.offset <= TailEnd(u) && u.offset <= ents[0].index + |ents|
    ensures u.entries[u.offset - u.offset..TailEnd(u) - u.offset] == u.entries
    ensures u.entries != [] ==> u.entries[0].index <= ents[0].index + |ents|
  {
  }

  /** Once the tail is written, storage holds it. */
  lemma StoredHolds(ents: seq<Entry>, u: Tail)
    requires RL.SplitOK(ents, u) && ents[0].index < u.offset
    ensures u.entries != [] ==> u.entries[0].index <= ents[0].index + |ents|
    ensures RL.SplitOK(Written(ents, u.entries), u) && Holds(Written(ents, u.entries), u)
  {
    assert u.entries[u.offset - u.offset..TailEnd(u) - u.offset] == u.entries;
    RL.WriteJoins(ents, u, u.offset, TailEnd(u));
  }
}
