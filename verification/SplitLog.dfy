/** The node's log as it really is: storage and unstable tail (module RaftLog), beside the node whose log
    is one sequence (module Node). What the node's handlers do to its log is done on the object with the
    same outcome, and what the storage threads report moves the object's boundaries and nothing the node
    sees. */
module SplitLog {
  import opened Types
  import opened Messages
  import opened Unstable
  import opened Node
  import N = Node
  import P = Protocol
  import RL = RaftLog
  import opened RaftObject

  /** The object holds the node's log from its compacted index on, and the node's commit index. */
  ghost predicate Mirrors(log: RL.RaftLog, nd: N.Node)
    reads log, log.storage, log.unstable
  {
    log.Split() && SameLog(nd, log.Base(), log.storage.ents[0].term, log.Ents()) && nd.committed == log.committed
  }

  predicate SameLog(nd: N.Node, base: nat, term: nat, ents: seq<Entry>) {
    && nd.compacted == base <= |nd.log|
    && P.TermAt(nd.log, base) == term && nd.log[base..] == ents
  }

  lemma SameBounds(nd: N.Node, base: nat, term: nat, ents: seq<Entry>)
    requires SameLog(nd, base, term, ents)
    ensures nd.compacted == base && |nd.log| == base + |ents|
  {
  }

  /** The object's commit index is between its compacted and its last index. */
  lemma Bounds(log: RL.RaftLog)
    requires log.Valid()
    ensures log.Base() <= log.committed <= log.LastOf() == log.Base() + |log.Ents()|
  {
    hide RL.SplitOK, RL.Joined, RL.Last, RL.BudgetOK, RL.HandedOK, RL.FullOK;
    RL.CursorBounds(log.full, log.start, log.applied, log.applying, log.batches);
    RL.FullBounds(log.full, log.start, log.storage.ents, log.unstable.State());
  }

  lemma SameTerm(nd: N.Node, base: nat, term: nat, ents: seq<Entry>, i: nat)
    requires SameLog(nd, base, term, ents) && base <= i
    ensures Term(nd, i) == if i > base + |ents| then None else Some(if i == base then term else ents[i - base - 1].term)
  {
  }

  lemma SameAppend(nd: N.Node, base: nat, term: nat, ents: seq<Entry>, more: seq<Entry>)
    requires SameLog(nd, base, term, ents) && more != [] && base < more[0].index <= |nd.log| + 1
    ensures SameLog(nd.(log := nd.log[..more[0].index - 1] + more), base, term, ents[..more[0].index - base - 1] + more)
  {
    var k := more[0].index - 1;
    assert (nd.log[..k] + more)[base..] == nd.log[base..][..k - base] + more;
  }

  /** matchTerm, at or past the compacted index. */
  method MatchTerm(log: RL.RaftLog, ghost nd: N.Node, i: nat, t: nat) returns (matches: bool)
    requires Mirrors(log, nd) && nd.compacted <= i
    ensures matches == N.MatchTerm(nd, i, t)
  {
    hide SameLog, RL.SplitOK, RL.Joined, Term;
    SameBounds(nd, log.Base(), log.storage.ents[0].term, log.Ents());
    SameTerm(nd, log.Base(), log.storage.ents[0].term, log.Ents(), i);
    var r := log.Term(i);
    matches := r.Ok? && r.value == t;
  }

  /** findConflict. */
  method FindConflict(log: RL.RaftLog, ghost nd: N.Node, ents: seq<Entry>) returns (ci: nat)
    requires Mirrors(log, nd) && forall e :: e in ents ==> nd.compacted <= e.index
    ensures ci == N.FindConflict(nd, ents)
  {
    hide Mirrors, N.MatchTerm;
    for i := 0 to |ents|
      invariant N.FindConflict(nd, ents) == N.FindConflict(nd, ents[i..])
    {
      assert ents[i..][1..] == ents[i + 1..];
      var matches := MatchTerm(log, nd, ents[i].index, ents[i].term);
      if !matches { return ents[i].index; }
    }
    return 0;
  }

  /** append, where the node does not panic. */
  method Append(log: RL.RaftLog, ghost nd: N.Node, ents: seq<Entry>)
    requires log.Valid() && Mirrors(log, nd) && !nd.panicked && !AppendLog(nd, ents).panicked
    requires ents != [] ==> Contiguous(ents, ents[0].index)
    modifies log, log.unstable
    ensures log.Valid() && Mirrors(log, AppendLog(nd, ents))
  {
    hide SameLog, RL.SplitOK, RL.Joined, RL.Last, RL.FullOK, RL.CursorOK, RL.HandedOK, RL.BudgetOK, Contiguous;
    Bounds(log);
    SameBounds(nd, log.Base(), log.storage.ents[0].term, log.Ents());
    if ents != [] { SameAppend(nd, log.Base(), log.storage.ents[0].term, log.Ents(), ents); }
    var last := log.Append(ents);
  }

  /** commitTo, where the node does not panic. */
  method CommitTo(log: RL.RaftLog, ghost nd: N.Node, k: nat)
    requires log.Valid() && Mirrors(log, nd) && !nd.panicked && !N.CommitTo(nd, k).panicked
    modifies log`committed
    ensures log.Valid() && Mirrors(log, N.CommitTo(nd, k))
  {
    hide SameLog, RL.SplitOK, RL.Joined, RL.Last, RL.FullOK, RL.CursorOK, RL.HandedOK, RL.BudgetOK;
    Bounds(log);
    SameBounds(nd, log.Base(), log.storage.ents[0].term, log.Ents());
    SameCommit(nd, k, log.Base(), log.storage.ents[0].term, log.Ents());
    if log.committed < k { log.CommitTo(k); }
  }

  lemma SameCommit(nd: N.Node, k: nat, base: nat, term: nat, ents: seq<Entry>)
    requires SameLog(nd, base, term, ents)
    ensures SameLog(nd.(committed := k), base, term, ents)
  {
  }

  /** maybeAppend behind the commit index, where the node does not panic: the object's log and commit
      index become what the node's do, and the answer is the same. */
  method MaybeAppend(log: RL.RaftLog, ghost nd: N.Node, prevIndex: nat, prevTerm: nat, ents: seq<Entry>, commit: nat)
    returns (last: Option<nat>)
    requires log.Valid() && Mirrors(log, nd) && nd.committed <= prevIndex && Contiguous(ents, prevIndex + 1)
    requires !nd.panicked && !N.MaybeAppend(nd, prevIndex, prevTerm, ents, commit).0.panicked
    modifies log, log.unstable
    ensures log.Valid() && Mirrors(log, N.MaybeAppend(nd, prevIndex, prevTerm, ents, commit).0)
    ensures last == N.MaybeAppend(nd, prevIndex, prevTerm, ents, commit).1
  {
    hide SameLog, RL.SplitOK, RL.Joined, RL.Last, RL.FullOK, RL.CursorOK, RL.HandedOK, RL.BudgetOK, N.MatchTerm,
         N.CommitTo, AppendLog, N.FindConflict;
    Bounds(log);
    SameBounds(nd, log.Base(), log.storage.ents[0].term, log.Ents());
    var matches := MatchTerm(log, nd, prevIndex, prevTerm);
    if !matches { return None; }
    var lastNew := prevIndex + |ents|;
    var ci := FindConflict(log, nd, ents);
    ghost var nd1 := nd;
    if ci != 0 {
      ConflictIn(nd, ents, prevIndex);
      var offset := prevIndex + 1;
      nd1 := AppendLog(nd, ents[ci - offset..]);
      Quiet(nd1, Min(commit, lastNew));
      Append(log, nd, ents[ci - offset..]);
    }
    CommitTo(log, nd1, Min(commit, lastNew));
    return Some(lastNew);
  }

  /** A conflict is at one of the entries. */
  lemma {:induction false} ConflictIn(nd: N.Node, ents: seq<Entry>, prev: nat)
    requires Contiguous(ents, prev + 1)
    ensures N.FindConflict(nd, ents) == 0 || prev < N.FindConflict(nd, ents) <= prev + |ents|
    decreases |ents|
  {
    if ents != [] { ConflictIn(nd, ents[1..], prev + 1); }
  }

  /** Committing does not take a panic back. */
  lemma Quiet(nd: N.Node, k: nat)
    ensures nd.panicked ==> N.CommitTo(nd, k).panicked
  {
  }

  // ---------------------------------------------------------------------------------------------
  // The node's handlers, with its log in storage and tail
  // ---------------------------------------------------------------------------------------------

  lemma SameSent(nd: N.Node, m: Message, base: nat, term: nat, ents: seq<Entry>)
    requires SameLog(nd, base, term, ents)
    ensures SameLog(N.Send(nd, m), base, term, ents) && N.Send(nd, m).committed == nd.committed
    ensures nd.panicked ==> N.Send(nd, m).panicked
  {
  }

  /** handleAppendEntries: the object's log follows the node's, whichever way the append is answered. */
  method HandleAppendEntries(raft: Raft, log: RL.RaftLog, m: Message)
    requires m.App? && log.Valid() && Mirrors(log, raft.Value()) && Contiguous(m.ents, m.prevIndex + 1)
    requires !raft.panicked && !N.HandleAppendEntries(raft.Value(), m).panicked
    modifies raft, log, log.unstable
    ensures raft.Value() == N.HandleAppendEntries(old(raft.Value()), m)
    ensures log.Valid() && Mirrors(log, raft.Value())
  {
    hide SameLog, RL.SplitOK, RL.Joined, RL.Last, RL.FullOK, RL.CursorOK, RL.HandedOK, RL.BudgetOK, N.MaybeAppend, N.Send,
         N.FindConflictByTerm;
    ghost var nd := raft.Value();
    AppendPanics(nd, m);
    if m.prevIndex >= log.committed {
      var last := MaybeAppend(log, nd, m.prevIndex, m.prevTerm, m.ents, m.commit);
    }
    AppendSends(nd, m, log.Base(), log.storage.ents[0].term, log.Ents());
    raft.HandleAppendEntries(m);
  }

  /** Handling an append panics if the append does. */
  lemma AppendPanics(nd: N.Node, m: Message)
    requires m.App?
    ensures var nd1 := N.MaybeAppend(nd, m.prevIndex, m.prevTerm, m.ents, m.commit).0;
            m.prevIndex >= nd.committed && nd1.panicked ==> N.HandleAppendEntries(nd, m).panicked || nd.panicked
  {
    hide N.FindConflictByTerm, N.FindConflict, N.MatchTerm, AppendLog, N.CommitTo;
  }

  /** The answer leaves the log as the append left it. */
  lemma AppendSends(nd: N.Node, m: Message, base: nat, term: nat, ents: seq<Entry>)
    requires m.App?
    ensures var nd1 := if m.prevIndex < nd.committed then nd else N.MaybeAppend(nd, m.prevIndex, m.prevTerm, m.ents, m.commit).0;
            SameLog(nd1, base, term, ents) ==>
              SameLog(N.HandleAppendEntries(nd, m), base, term, ents) && N.HandleAppendEntries(nd, m).committed == nd1.committed
  {
    hide N.FindConflictByTerm, N.FindConflict, N.MatchTerm, AppendLog, N.CommitTo;
  }

  /** handleHeartbeat. */
  method HandleHeartbeat(raft: Raft, log: RL.RaftLog, m: Message)
    requires m.Heartbeat? && log.Valid() && Mirrors(log, raft.Value())
    requires !raft.panicked && !N.CommitTo(raft.Value(), m.commit).panicked
    modifies raft, log
    ensures raft.Value() == N.HandleHeartbeat(old(raft.Value()), m)
    ensures log.Valid() && Mirrors(log, raft.Value())
  {
    hide SameLog, RL.SplitOK, RL.Joined, RL.Last, RL.FullOK, RL.CursorOK, RL.HandedOK, RL.BudgetOK, N.CommitTo, N.Send;
    ghost var nd := raft.Value();
    CommitTo(log, nd, m.commit);
    SameSent(N.CommitTo(nd, m.commit), HeartbeatResp(nd.opt.id, m.from, nd.term, m.ctx), log.Base(), log.storage.ents[0].term, log.Ents());
    raft.HandleHeartbeat(m);
  }

  /** appendEntry: the leader's entries, if there is room for them. */
  method AppendEntry(raft: Raft, log: RL.RaftLog, payloads: seq<Bytes>) returns (accepted: bool)
    requires log.Valid() && Mirrors(log, raft.Value())
    requires !raft.panicked && !N.AppendEntry(raft.Value(), payloads).0.panicked
    modifies raft, log, log.unstable
    ensures (raft.Value(), accepted) == N.AppendEntry(old(raft.Value()), payloads)
    ensures log.Valid() && Mirrors(log, raft.Value())
  {
    hide SameLog, RL.SplitOK, RL.Joined, RL.Last, RL.FullOK, RL.CursorOK, RL.HandedOK, RL.BudgetOK, N.AppendEntry;
    ghost var nd := raft.Value();
    var ents := NewEntries(raft.Value(), payloads);
    accepted := raft.AppendEntry(payloads);
    if accepted {
      EntryAppends(nd, payloads);
      Append(log, nd, ents);
      AppendedSends(nd, payloads, log.Base(), log.storage.ents[0].term, log.Ents());
    } else {
      NotAppended(nd, payloads);
    }
  }

  lemma NotAppended(nd: N.Node, payloads: seq<Bytes>)
    requires !N.AppendEntry(nd, payloads).1
    ensures N.AppendEntry(nd, payloads).0 == nd
  {
  }

  /** The stamped entries are consecutive, and appending them panics only if accepting them does. */
  lemma EntryAppends(nd: N.Node, payloads: seq<Bytes>)
    requires N.AppendEntry(nd, payloads).1
    ensures var ents := NewEntries(nd, payloads);
            (ents != [] ==> Contiguous(ents, ents[0].index))
            && (AppendLog(nd, ents).panicked ==> N.AppendEntry(nd, payloads).0.panicked)
  {
  }

  lemma AppendedSends(nd: N.Node, payloads: seq<Bytes>, base: nat, term: nat, ents: seq<Entry>)
    requires N.AppendEntry(nd, payloads).1
    ensures var nd1 := AppendLog(nd, NewEntries(nd, payloads));
            SameLog(nd1, base, term, ents) ==>
              SameLog(N.AppendEntry(nd, payloads).0, base, term, ents) && N.AppendEntry(nd, payloads).0.committed == nd1.committed
  {
  }

  /** maybeCommit. */
  method MaybeCommit(raft: Raft, log: RL.RaftLog) returns (changed: bool)
    requires log.Valid() && Mirrors(log, raft.Value())
    modifies raft, log
    ensures (raft.Value(), changed) == N.MaybeCommit(old(raft.Value()))
    ensures log.Valid() && Mirrors(log, raft.Value())
  {
    hide SameLog, RL.SplitOK, RL.Joined, RL.Last, RL.FullOK, RL.CursorOK, RL.HandedOK, RL.BudgetOK, N.MaybeCommit;
    ghost var nd := raft.Value();
    Bounds(log);
    SameBounds(nd, log.Base(), log.storage.ents[0].term, log.Ents());
    CommitsInLog(nd, log.Base(), log.storage.ents[0].term, log.Ents());
    changed := raft.MaybeCommit();
    log.CommitTo(raft.committed);
  }

  lemma CommitsInLog(nd: N.Node, base: nat, term: nat, ents: seq<Entry>)
    requires SameLog(nd, base, term, ents) && nd.committed <= |nd.log|
    ensures var nd1 := N.MaybeCommit(nd).0;
            SameLog(nd1, base, term, ents) && nd.committed <= nd1.committed <= |nd.log|
  {
  }

  /** The append thread's answer, with no snapshot: it may cut the tail, which the node does not see. In a
      later term it does not even do that. */
  method StorageAppendResp(raft: Raft, log: RL.RaftLog, m: Message, recent: bool)
    requires m.StorageAppendResp? && m.snapshot == 0 && m.term <= raft.term && log.Valid() && Mirrors(log, raft.Value())
    requires m.index != 0 && (m.term == raft.term || m.term == 0) ==>
               RL.InStorage(log.storage.ents, log.unstable.State(), m.index, m.logTerm)
    modifies raft, log.unstable
    ensures raft.Value() == old(raft.Value()) == N.Step(old(raft.Value()), m, recent)
    ensures log.Valid() && Mirrors(log, raft.Value())
    ensures log.unstable.State() == if m.index != 0 && (m.term == raft.term || m.term == 0)
                                    then Stabilised(old(log.unstable.State()), m.index, m.logTerm)
                                    else old(log.unstable.State())
  {
    hide SameLog, RL.SplitOK, RL.Joined, RL.Last, RL.FullOK, RL.CursorOK, RL.HandedOK, RL.BudgetOK, N.Step, RL.InStorage;
    StorageAnswer(raft.Value(), m, recent);
    NothingRestored(raft.Value(), m);
    if m.index != 0 && (m.term == raft.term || m.term == 0) { log.StableTo(m.index, m.logTerm); }
    raft.Step(m, recent);
  }

  lemma NothingRestored(nd: N.Node, m: Message)
    requires m.StorageAppendResp? && m.snapshot == 0
    ensures nd.(restoring := if nd.restoring == m.snapshot then 0 else nd.restoring) == nd
  {
  }

  /** The apply thread's answer: entries up to i, of this size, were applied. The object's cursor and its
      budget move, and the node's count of uncommitted bytes; the log does not. */
  method StorageApplyResp(raft: Raft, log: RL.RaftLog, m: Message, recent: bool, i: nat, size: nat)
    requires m.StorageApplyResp? && log.Split() && Mirrors(log, raft.Value()) && i <= log.committed && log.applied <= log.committed
    modifies raft, log
    ensures raft.Value() == N.ReduceUncommitted(old(raft.Value()), m.size) == N.Step(old(raft.Value()), m, recent)
    ensures Mirrors(log, raft.Value()) && log.applied == Max(old(log.applied), i)
    ensures old(log.Valid() && log.OldestBatch(i, size)) ==> log.Valid()
  {
    hide SameLog, RL.SplitOK, RL.Joined, RL.Last, RL.FullOK, RL.CursorOK, RL.HandedOK, RL.BudgetOK;
    SameReduced(raft.Value(), m.size, log.Base(), log.storage.ents[0].term, log.Ents());
    log.AppliedTo(Max(log.applied, i), size);
    raft.Step(m, recent);
  }

  lemma SameReduced(nd: N.Node, size: nat, base: nat, term: nat, ents: seq<Entry>)
    requires SameLog(nd, base, term, ents)
    ensures SameLog(N.ReduceUncommitted(nd, size), base, term, ents)
  {
  }

  // ---------------------------------------------------------------------------------------------
  // What the application does to its storage
  // ---------------------------------------------------------------------------------------------

  /** Storing entries of the tail does not show. */
  method Store(log: RL.RaftLog, ghost nd: N.Node, lo: nat, hi: nat)
    requires log.Valid() && Mirrors(log, nd) && log.unstable.offset <= lo <= hi <= TailEnd(log.unstable.State())
    requires lo <= log.storage.ents[0].index + |log.storage.ents|
    modifies log.storage
    ensures log.Valid() && Mirrors(log, nd)
  {
    hide SameLog, RL.SplitOK, RL.Joined, RL.Last, RL.CursorOK, RL.HandedOK, RL.BudgetOK, Written;
    RL.StoreFacts(log.full, log.start, log.storage.ents, log.unstable.State(), lo, hi);
    log.Store(lo, hi);
  }

  /** Compacting is the node's moving its compacted index. */
  method Compact(log: RL.RaftLog, ghost nd: N.Node, index: nat)
    requires log.Valid() && Mirrors(log, nd) && index <= log.applied && index < log.storage.ents[0].index + |log.storage.ents|
    requires RL.StoredThrough(log.storage.ents, log.unstable.State(), index)
    modifies log.storage
    ensures log.Valid() && Mirrors(log, nd.(compacted := Max(nd.compacted, index)))
  {
    hide SameLog, RL.SplitOK, RL.Joined, RL.Last, RL.FullOK, RL.CursorOK, RL.HandedOK, RL.BudgetOK, RL.StoredThrough;
    Bounds(log);
    Applied(log);
    SameBounds(nd, log.Base(), log.storage.ents[0].term, log.Ents());
    SameCompact(nd, index, log.Base(), log.storage.ents[0].term, log.Ents());
    log.Compact(index);
  }

  lemma Applied(log: RL.RaftLog)
    requires log.Valid()
    ensures log.applied <= log.committed
  {
    hide RL.SplitOK, RL.Joined, RL.Last, RL.BudgetOK, RL.HandedOK, RL.FullOK;
    RL.CursorBounds(log.full, log.start, log.applied, log.applying, log.batches);
  }

  lemma SameCompact(nd: N.Node, index: nat, base: nat, term: nat, ents: seq<Entry>)
    requires SameLog(nd, base, term, ents) && index <= |nd.log|
    ensures base <= Max(base, index) <= base + |ents|
    ensures SameLog(nd.(compacted := Max(base, index)), Max(base, index),
                    if index > base then ents[index - base - 1].term else term, ents[Max(base, index) - base..])
  {
    if index > base { assert nd.log[index..] == nd.log[base..][index - base..]; }
  }
}
