/** Asynchronous log writes on one node (raft/rawnode.go newStorageAppendMsg and
    newStorageAppendRespMsg, raft/raft.go handling of MsgStorageAppendResp): a storage thread applies
    writes in order and answers later; entries leave the unstable tail only when that is invisible.

    What other nodes do is a fixed history of leader logs: every append the node receives in a term is
    a slice of that term's leader log. */
module AsyncLog {
  import opened Types
  import opened Protocol
  import PL = ProtocolLeader
  import opened Unstable
  import opened RaftLog

  /** MsgStorageAppendResp: the term and the last entry of the log when the write was issued. */
  datatype Resp = Resp(term: nat, index: nat, logTerm: nat)

  /** MsgStorageAppend: entries to store, and what to answer once they are. */
  datatype StorageWrite = StorageWrite(ents: seq<Entry>, resp: Option<Resp>)

  /** `stored` is the storage with its leading dummy entry, `queue` what the storage thread has not
      done yet, `resps` its answers, each of which may be handled late or again. */
  datatype Async = Async(term: nat, tail: Tail, stored: seq<Entry>, queue: seq<StorageWrite>, resps: set<Resp>)

  datatype Action =
    | EnterTerm(t: nat)
    | Append(prev: nat, ents: seq<Entry>)
    | IssueWrite
    | StoreNext
    | Handle(r: Resp)

  /** Storing one write; one that would leave a gap is not possible. */
  function Stored(ents: seq<Entry>, more: seq<Entry>): seq<Entry> {
    if ents != [] && (more != [] ==> more[0].index <= ents[0].index + |ents|) then Written(ents, more) else ents
  }

  /** The storage once the thread has caught up with these writes. */
  function Drained(ents: seq<Entry>, writes: seq<StorageWrite>): seq<Entry>
    decreases |writes|
  {
    if writes == [] then ents else Drained(Stored(ents, writes[0].ents), writes[1..])
  }

  /** The log a reader sees. */
  function Visible(st: Async): seq<Entry>
    requires SplitOK(st.stored, st.tail)
  {
    Joined(st.stored, st.tail)
  }

  /** An append of the node's term: a slice of that term's leader log behind a matching entry. */
  predicate Appends(h: History, st: Async, prev: nat, ents: seq<Entry>) {
    && SplitOK(st.stored, st.tail) && st.stored[0].index == 0
    && st.term in h.reigns && prev <= |Visible(st)| && prev + |ents| <= |h.reigns[st.term].log|
    && TermAt(Visible(st), prev) == TermAt(h.reigns[st.term].log, prev)
    && forall i :: 0 <= i < |ents| ==> ents[i] == h.reigns[st.term].log[prev + i]
  }

  predicate Enabled(h: History, st: Async, a: Action) {
    match a
    case EnterTerm(t) => t > st.term
    case Append(prev, ents) => Appends(h, st, prev, ents)
    case IssueWrite => SplitOK(st.stored, st.tail)
    case StoreNext => st.queue != []
    case Handle(r) => r in st.resps
  }

  /** The response a write issued now asks for: there is one while the tail is not empty. */
  function RespNow(st: Async): Option<Resp> {
    if st.tail.entries == [] then None
    else
      var last := st.tail.entries[|st.tail.entries| - 1];
      Some(Resp(st.term, last.index, last.term))
  }

  function Act(h: History, st: Async, a: Action): Async
    requires Enabled(h, st, a)
  {
    match a
    case EnterTerm(t) => st.(term := t)
    case Append(prev, ents) =>
      var i := PL.FirstConflict(Visible(st), prev, ents, 0);
      if i == |ents| || ents[i].index > TailEnd(st.tail) then st else st.(tail := Truncated(st.tail, ents[i..]))
    case IssueWrite =>
      st.(tail := Accepted(st.tail), queue := st.queue + [StorageWrite(Unwritten(st.tail), RespNow(st))])
    case StoreNext =>
      var w := st.queue[0];
      st.(stored := Stored(st.stored, w.ents), queue := st.queue[1..],
          resps := st.resps + if w.resp.Some? then {w.resp.value} else {})
    case Handle(r) =>
      // A response of an earlier term is ignored; term 0 marks a message as local.
      if 0 < r.term < st.term then st else st.(tail := Stabilised(st.tail, r.index, r.logTerm))
  }

  // ---------------------------------------------------------------------------------------------
  // The invariant
  // ---------------------------------------------------------------------------------------------

  /** The leader logs are those of one history: they match and have positions and positive terms. */
  ghost predicate Leaders(h: History) {
    forall t :: t in h.reigns ==>
      t > 0 && Matched(h, h.reigns[t].log) && Contiguous(h.reigns[t].log, 1)
  }

  /** Writes are gap free. */
  predicate Fit(ents: seq<Entry>, writes: seq<StorageWrite>)
    decreases |writes|
  {
    writes == [] ||
    (ents != [] && (writes[0].ents != [] ==>
       0 < writes[0].ents[0].index <= |ents| && Contiguous(writes[0].ents, writes[0].ents[0].index))
     && Fit(Stored(ents, writes[0].ents), writes[1..]))
  }

  /** No write starts at or below k. */
  predicate Above(writes: seq<StorageWrite>, k: nat) {
    forall w :: w in writes && w.ents != [] ==> w.ents[0].index > k
  }

  predicate AllEmpty(writes: seq<StorageWrite>) {
    forall w :: w in writes ==> w.ents == []
  }

  predicate StorageOK(ents: seq<Entry>) {
    ents != [] && ents[0] == Entry(0, 0, []) && Contiguous(ents, 0)
  }

  /** ents, with its dummy, holds the first k entries of the log. */
  predicate Covers(ents: seq<Entry>, log: seq<Entry>, k: nat) {
    k < |ents| && k <= |log| && ents[1..k + 1] == log[..k]
  }

  /** The entry (index, term) is in the log. */
  predicate InLog(log: seq<Entry>, index: nat, term: nat) {
    0 < index <= |log| && log[index - 1].term == term
  }

  /** A response, when `ents` is the storage it answers for and `later` the writes behind it. One of
      the current term either speaks of entries that storage holds and nothing will overwrite, or of
      an entry that this term's leader does not have and the log will not get back. */
  predicate RespOK(h: History, term: nat, log: seq<Entry>, inProgress: nat, r: Resp, ents: seq<Entry>, later: seq<StorageWrite>) {
    && 0 < r.term <= term && r.index > 0
    && (r.term == term ==>
          Kept(log, inProgress, r, ents, later)
          || (!InLog(log, r.index, r.logTerm) && (term in h.reigns ==> !InLog(h.reigns[term].log, r.index, r.logTerm))))
  }

  predicate Kept(log: seq<Entry>, inProgress: nat, r: Resp, ents: seq<Entry>, later: seq<StorageWrite>) {
    && InLog(log, r.index, r.logTerm) && Covers(ents, log, r.index) && Above(later, r.index)
    && r.index < inProgress
    && (r.index == |log| ==> |ents| == r.index + 1 && AllEmpty(later))
  }

  predicate QueueOK(h: History, term: nat, log: seq<Entry>, inProgress: nat, stored: seq<Entry>, queue: seq<StorageWrite>) {
    forall j :: 0 <= j < |queue| && queue[j].resp.Some? ==>
      RespOK(h, term, log, inProgress, queue[j].resp.value, Drained(stored, queue[..j + 1]), queue[j + 1..])
  }

  predicate RespsOK(h: History, term: nat, log: seq<Entry>, inProgress: nat, stored: seq<Entry>, queue: seq<StorageWrite>, resps: set<Resp>) {
    forall r :: r in resps ==> RespOK(h, term, log, inProgress, r, stored, queue)
  }

  /** Once the thread has caught up, storage holds everything that is being written. */
  predicate DrainOK(log: seq<Entry>, tail: Tail, all: seq<Entry>) {
    tail.inProgress > 0 && Covers(all, log, tail.inProgress - 1)
    && (tail.inProgress == TailEnd(tail) ==> |all| == TailEnd(tail))
  }

  ghost predicate Inv(h: History, st: Async) {
    && Leaders(h) && SplitOK(st.stored, st.tail) && StorageOK(st.stored)
    && st.tail.offset > 0
    && Matched(h, Visible(st))
    && (st.term == 0 ==> st.tail.entries == [])
    && Above(st.queue, st.tail.offset - 1)
    && (st.tail.entries == [] ==> AllEmpty(st.queue))
    && Fit(st.stored, st.queue)
    && DrainOK(Visible(st), st.tail, Drained(st.stored, st.queue))
    && QueueOK(h, st.term, Visible(st), st.tail.inProgress, st.stored, st.queue)
    && RespsOK(h, st.term, Visible(st), st.tail.inProgress, st.stored, st.queue, st.resps)
  }

  // ---------------------------------------------------------------------------------------------
  // Storage and writes
  // ---------------------------------------------------------------------------------------------

  lemma {:induction false} DrainedAppend(ents: seq<Entry>, writes: seq<StorageWrite>, w: StorageWrite)
    ensures Drained(ents, writes + [w]) == Stored(Drained(ents, writes), w.ents)
    decreases |writes|
  {
    if writes == [] {
      assert [] + [w] == [w] && [w][1..] == [];
    } else {
      assert (writes + [w])[1..] == writes[1..] + [w];
      DrainedAppend(Stored(ents, writes[0].ents), writes[1..], w);
    }
  }

  lemma {:induction false} FitAppend(ents: seq<Entry>, writes: seq<StorageWrite>, w: StorageWrite)
    requires Fit(ents, writes) && Drained(ents, writes) != []
    requires w.ents != [] ==>
               0 < w.ents[0].index <= |Drained(ents, writes)| && Contiguous(w.ents, w.ents[0].index)
    ensures Fit(ents, writes + [w])
    decreases |writes|
  {
    if writes == [] {
      assert [] + [w] == [w] && [w][1..] == [];
    } else {
      assert (writes + [w])[1..] == writes[1..] + [w];
      FitAppend(Stored(ents, writes[0].ents), writes[1..], w);
    }
  }

  /** A write that starts above k leaves the first k entries alone. */
  lemma StoredAbove(ents: seq<Entry>, more: seq<Entry>)
    requires StorageOK(ents) && (more != [] ==> 0 < more[0].index <= |ents| && Contiguous(more, more[0].index))
    ensures StorageOK(Stored(ents, more)) && (more == [] ==> Stored(ents, more) == ents)
    ensures more != [] ==> Stored(ents, more) == ents[..more[0].index] + more
  {
    if more != [] { WrittenOK(ents, more); }
  }

  lemma CoversStays(ents: seq<Entry>, more: seq<Entry>, log: seq<Entry>, k: nat)
    requires StorageOK(ents) && (more != [] ==> k < more[0].index <= |ents| && Contiguous(more, more[0].index))
    requires Covers(ents, log, k)
    ensures Covers(Stored(ents, more), log, k)
  {
    StoredAbove(ents, more);
    if more != [] {
      assert Stored(ents, more)[1..k + 1] == ents[1..k + 1];
    }
  }

  /** Any write above the tail's offset is invisible. */
  lemma StoreJoins(ents: seq<Entry>, u: Tail, more: seq<Entry>)
    requires SplitOK(ents, u) && StorageOK(ents)
    requires more != [] ==> u.offset <= more[0].index <= |ents| && Contiguous(more, more[0].index)
    requires u.entries == [] ==> more == []
    ensures SplitOK(Stored(ents, more), u) && StorageOK(Stored(ents, more))
    ensures Joined(Stored(ents, more), u) == Joined(ents, u)
  {
    hide Joined, Written, Stored;
    OffsetPositive(ents, u);
    StoredAbove(ents, more);
    if more != [] {
      var ents' := Stored(ents, more);
      assert forall k :: 0 <= k < u.offset ==> ents'[k] == ents[k];
      StoreSplit(ents, u, ents');
      var left, right := Joined(ents', u), Joined(ents, u);
      forall k | 0 <= k < |left| ensures left[k] == right[k] {
        JoinedAt(ents', u, 1 + k);
        JoinedAt(ents, u, 1 + k);
      }
    }
  }

  lemma StoreSplit(ents: seq<Entry>, u: Tail, ents': seq<Entry>)
    requires SplitOK(ents, u) && StorageOK(ents) && StorageOK(ents') && u.offset <= |ents'| && u.entries != []
    ensures SplitOK(ents', u) && Last(ents', u) == Last(ents, u)
  {
  }

  // ---------------------------------------------------------------------------------------------
  // Every action keeps the invariant
  // ---------------------------------------------------------------------------------------------

  /** Issuing a write neither moves the log nor disturbs what earlier writes stand for. */
  lemma IssueGood(h: History, st: Async)
    requires Inv(h, st)
    ensures Inv(h, Act(h, st, IssueWrite)) && Visible(Act(h, st, IssueWrite)) == Visible(st)
  {
    hide Matched, Leaders, Joined, QueueOK, RespsOK, DrainOK, SplitOK, Fit, StorageOK;
    IssueLog(h, st);
    IssueFits(h, st);
    DrainedOK(st.stored, st.queue);
    IssueDrain(st, Drained(st.stored, st.queue));
    IssueQueue(h, st);
    IssueResps(h, st);
    DrainedAppend(st.stored, st.queue, StorageWrite(Unwritten(st.tail), RespNow(st)));
  }

  lemma IssueLog(h: History, st: Async)
    requires Inv(h, st)
    ensures var u := Accepted(st.tail);
            SplitOK(st.stored, u) && Joined(st.stored, u) == Joined(st.stored, st.tail)
            && u.entries == st.tail.entries && u.offset == st.tail.offset && u.inProgress == TailEnd(st.tail)
            && TailEnd(u) == TailEnd(st.tail) && TailOK(st.tail)
  {
    hide Matched, Leaders, Joined, QueueOK, RespsOK, DrainOK, Fit;
    AcceptedTail(st.stored, st.tail);
    SameEntries(st.stored, st.tail, Accepted(st.tail));
  }

  /** The write is gap free behind the others, starts above the tail's offset, and is empty when the
      tail is. */
  lemma IssueFits(h: History, st: Async)
    requires Inv(h, st)
    ensures var writes := st.queue + [StorageWrite(Unwritten(st.tail), RespNow(st))];
            Fit(st.stored, writes) && Above(writes, st.tail.offset - 1) && (st.tail.entries == [] ==> AllEmpty(writes))
  {
    hide Matched, Leaders, Joined, QueueOK, RespsOK;
    var w := StorageWrite(Unwritten(st.tail), RespNow(st));
    AcceptedTail(st.stored, st.tail);
    UnwrittenIs(st.stored, st.tail);
    FitAppend(st.stored, st.queue, w);
    DrainedOK(st.stored, st.queue);
    assert forall x :: x in st.queue + [w] ==> x in st.queue || x == w;
  }

  lemma AcceptedTail(ents: seq<Entry>, u: Tail)
    requires SplitOK(ents, u)
    ensures TailOK(Accepted(u)) && Accepted(u).entries == u.entries && Accepted(u).offset == u.offset
    ensures Accepted(u).inProgress == TailEnd(u)
    ensures u.entries == [] ==> u.inProgress == TailEnd(u)
  {
  }

  lemma UnwrittenIs(ents: seq<Entry>, u: Tail)
    requires SplitOK(ents, u) && StorageOK(ents)
    ensures Unwritten(u) != [] ==> Unwritten(u)[0].index == u.inProgress && Contiguous(Unwritten(u), u.inProgress)
    ensures |Unwritten(u)| == TailEnd(u) - u.inProgress && u.inProgress > 0
    ensures TailEnd(u) - 1 == |Joined(ents, u)| && Joined(ents, u)[u.inProgress - 1..] == Unwritten(u)
  {
    OffsetPositive(ents, u);
    assert TailEnd(u) - 1 == Last(ents, u);
    var left, right := Joined(ents, u)[u.inProgress - 1..], Unwritten(u);
    forall k | 0 <= k < |left| ensures left[k] == right[k] { JoinedAt(ents, u, u.inProgress + k); }
  }

  lemma {:induction false} DrainedOK(ents: seq<Entry>, writes: seq<StorageWrite>)
    requires StorageOK(ents) && Fit(ents, writes)
    ensures StorageOK(Drained(ents, writes))
    decreases |writes|
  {
    if writes != [] {
      StoredAbove(ents, writes[0].ents);
      DrainedOK(Stored(ents, writes[0].ents), writes[1..]);
    }
  }

  lemma IssueDrain(st: Async, all: seq<Entry>)
    requires SplitOK(st.stored, st.tail) && StorageOK(st.stored) && StorageOK(all) && DrainOK(Visible(st), st.tail, all)
    ensures DrainOK(Visible(st), Accepted(st.tail), Stored(all, Unwritten(st.tail)))
    ensures |Stored(all, Unwritten(st.tail))| == |Visible(st)| + 1
    ensures Covers(Stored(all, Unwritten(st.tail)), Visible(st), |Visible(st)|)
  {
    hide Joined;
    AcceptedTail(st.stored, st.tail);
    UnwrittenIs(st.stored, st.tail);
    var more, log, n := Unwritten(st.tail), Visible(st), st.tail.inProgress - 1;
    StoredAbove(all, more);
    if more != [] {
      assert log == log[..n] + log[n..];
      assert Stored(all, more)[1..] == all[1..n + 1] + more;
    } else {
      assert log[..n] == log;
    }
  }

  lemma IssueQueue(h: History, st: Async)
    requires Inv(h, st)
    ensures QueueOK(h, st.term, Visible(st), TailEnd(st.tail), st.stored, st.queue + [StorageWrite(Unwritten(st.tail), RespNow(st))])
  {
    hide Matched, Leaders, Joined, Fit;
    var w := StorageWrite(Unwritten(st.tail), RespNow(st));
    var q, log, n := st.queue + [w], Visible(st), |st.queue|;
    UnwrittenIs(st.stored, st.tail);
    forall j | 0 <= j <= n && q[j].resp.Some?
      ensures RespOK(h, st.term, log, TailEnd(st.tail), q[j].resp.value, Drained(st.stored, q[..j + 1]), q[j + 1..])
    {
      if j < n {
        assert q[..j + 1] == st.queue[..j + 1] && q[j + 1..] == st.queue[j + 1..] + [w];
        var r := st.queue[j].resp.value;
        RespIssued(h, st, r, Drained(st.stored, st.queue[..j + 1]), st.queue[j + 1..], w);
      } else {
        assert q[..n + 1] == st.queue + [w] && q[n + 1..] == [];
        NewResp(h, st);
      }
    }
  }

  lemma IssueResps(h: History, st: Async)
    requires Inv(h, st)
    ensures RespsOK(h, st.term, Visible(st), TailEnd(st.tail), st.stored, st.queue + [StorageWrite(Unwritten(st.tail), RespNow(st))], st.resps)
  {
    hide Matched, Leaders, Joined, Fit, QueueOK, RespOK;
    var w := StorageWrite(Unwritten(st.tail), RespNow(st));
    UnwrittenIs(st.stored, st.tail);
    forall r | r in st.resps
      ensures RespOK(h, st.term, Visible(st), TailEnd(st.tail), r, st.stored, st.queue + [w])
    {
      RespIssued(h, st, r, st.stored, st.queue, w);
    }
  }

  lemma RespIssued(h: History, st: Async, r: Resp, ents: seq<Entry>, later: seq<StorageWrite>, w: StorageWrite)
    requires SplitOK(st.stored, st.tail) && StorageOK(st.stored) && w.ents == Unwritten(st.tail)
    requires RespOK(h, st.term, Visible(st), st.tail.inProgress, r, ents, later)
    ensures RespOK(h, st.term, Visible(st), TailEnd(st.tail), r, ents, later + [w])
  {
    hide Joined;
    UnwrittenIs(st.stored, st.tail);
    var log := Visible(st);
    if r.term == st.term && Kept(log, st.tail.inProgress, r, ents, later) {
      assert Above(later + [w], r.index);
      assert r.index == |log| ==> AllEmpty(later + [w]);
    }
  }

  lemma NewResp(h: History, st: Async)
    requires Inv(h, st) && RespNow(st).Some?
    ensures RespOK(h, st.term, Visible(st), TailEnd(st.tail), RespNow(st).value,
              Drained(st.stored, st.queue + [StorageWrite(Unwritten(st.tail), RespNow(st))]), [])
  {
    hide Matched, Leaders, Joined, QueueOK, RespsOK;
    var w := StorageWrite(Unwritten(st.tail), RespNow(st));
    DrainedAppend(st.stored, st.queue, w);
    DrainedOK(st.stored, st.queue);
    IssueDrain(st, Drained(st.stored, st.queue));
    UnwrittenIs(st.stored, st.tail);
    JoinedAt(st.stored, st.tail, TailEnd(st.tail) - 1);
  }

  /** Storing the next write is invisible. */
  lemma StoreGood(h: History, st: Async)
    requires Inv(h, st) && st.queue != []
    ensures Inv(h, Act(h, st, StoreNext)) && Visible(Act(h, st, StoreNext)) == Visible(st)
  {
    hide Matched, Leaders, Joined, Kept, InLog;
    var st' := Act(h, st, StoreNext);
    var w := st.queue[0];
    StoreJoins(st.stored, st.tail, w.ents);
    StoreQueue(h, st);
    StoreResps(h, st);
  }

  lemma StoreQueue(h: History, st: Async)
    requires Inv(h, st) && st.queue != []
    ensures QueueOK(h, st.term, Visible(st), st.tail.inProgress, Stored(st.stored, st.queue[0].ents), st.queue[1..])
  {
    hide Matched, Leaders, Joined, Fit, RespOK, RespsOK, DrainOK;
    var q := st.queue[1..];
    var stored := Stored(st.stored, st.queue[0].ents);
    forall j | 0 <= j < |q| && q[j].resp.Some?
      ensures RespOK(h, st.term, Visible(st), st.tail.inProgress, q[j].resp.value, Drained(stored, q[..j + 1]), q[j + 1..])
    {
      assert st.queue[..j + 2][0] == st.queue[0] && st.queue[..j + 2][1..] == q[..j + 1];
      assert st.queue[j + 2..] == q[j + 1..];
      assert st.queue[j + 1] == q[j];
    }
  }

  lemma StoreResps(h: History, st: Async)
    requires Inv(h, st) && st.queue != []
    ensures RespsOK(h, st.term, Visible(st), st.tail.inProgress, Stored(st.stored, st.queue[0].ents), st.queue[1..],
              Act(h, st, StoreNext).resps)
  {
    hide Matched, Leaders, Joined, DrainOK, RespOK;
    var w := st.queue[0];
    var stored := Stored(st.stored, w.ents);
    forall r | r in Act(h, st, StoreNext).resps
      ensures RespOK(h, st.term, Visible(st), st.tail.inProgress, r, stored, st.queue[1..])
    {
      if r in st.resps {
        RespStored(h, st, r);
      } else {
        assert st.queue[..1] == [w] && [w][1..] == [];
        assert Drained(st.stored, [w]) == stored;
      }
    }
  }

  lemma RespStored(h: History, st: Async, r: Resp)
    requires StorageOK(st.stored) && st.queue != [] && Fit(st.stored, st.queue) && SplitOK(st.stored, st.tail)
    requires RespOK(h, st.term, Visible(st), st.tail.inProgress, r, st.stored, st.queue)
    ensures RespOK(h, st.term, Visible(st), st.tail.inProgress, r, Stored(st.stored, st.queue[0].ents), st.queue[1..])
  {
    hide Joined;
    var w, log := st.queue[0], Visible(st);
    if r.term == st.term && Kept(log, st.tail.inProgress, r, st.stored, st.queue) {
      assert w in st.queue;
      CoversStays(st.stored, w.ents, log, r.index);
      StoredAbove(st.stored, w.ents);
      assert forall x :: x in st.queue[1..] ==> x in st.queue;
    }
  }

  /** No ABA: a response is acted on only when every entry it drops from the tail is in storage, and
      then no write still in the queue touches any of them. */
  lemma HandleGood(h: History, st: Async, r: Resp)
    requires Inv(h, st) && r in st.resps
    ensures Inv(h, Act(h, st, Handle(r))) && Visible(Act(h, st, Handle(r))) == Visible(st)
    ensures Act(h, st, Handle(r)).tail != st.tail ==>
              Covers(st.stored, Visible(st), r.index) && Above(st.queue, r.index)
  {
    hide Matched, Leaders, Joined, Fit, QueueOK, DrainOK;
    assert RespOK(h, st.term, Visible(st), st.tail.inProgress, r, st.stored, st.queue);
    hide RespsOK;
    if r.term == st.term && TailTerm(st.tail, r.index) == Some(r.logTerm) {
      JoinedAt(st.stored, st.tail, r.index);
      Dropped(st, r);
      StableJoins(st.stored, st.tail, r.index, r.logTerm);
      HandledDrain(Visible(st), st.tail, r, Drained(st.stored, st.queue));
    }
  }

  lemma Dropped(st: Async, r: Resp)
    requires SplitOK(st.stored, st.tail) && StorageOK(st.stored) && TailTerm(st.tail, r.index) == Some(r.logTerm)
    requires Kept(Visible(st), st.tail.inProgress, r, st.stored, st.queue)
    ensures InStorage(st.stored, st.tail, r.index, r.logTerm)
  {
    hide Joined;
    OffsetPositive(st.stored, st.tail);
    var log := Visible(st);
    assert Last(st.stored, st.tail) == TailEnd(st.tail) - 1 == |log|;
    forall k | st.tail.offset <= k <= r.index ensures st.stored[k] == st.tail.entries[k - st.tail.offset] {
      JoinedAt(st.stored, st.tail, k);
      assert st.stored[1..r.index + 1][k - 1] == log[..r.index][k - 1];
    }
  }

  lemma HandledDrain(log: seq<Entry>, u: Tail, r: Resp, all: seq<Entry>)
    requires TailOK(u) && TailTerm(u, r.index) == Some(r.logTerm) && r.index < u.inProgress && DrainOK(log, u, all)
    ensures DrainOK(log, Stabilised(u, r.index, r.logTerm), all)
    ensures Stabilised(u, r.index, r.logTerm).inProgress == u.inProgress
  {
  }

  // ---------------------------------------------------------------------------------------------
  // Appends
  // ---------------------------------------------------------------------------------------------

  /** What an append that changes the log does: the log becomes a prefix of the leader's, cut at the
      first conflict. */
  lemma AppendFacts(h: History, st: Async, prev: nat, ents: seq<Entry>)
    requires Inv(h, st) && Appends(h, st, prev, ents)
    ensures var log, full, i := Visible(st), h.reigns[st.term].log, PL.FirstConflict(Visible(st), prev, ents, 0);
            prev + i <= |log| && (i < |ents| ==>
              && Contiguous(ents[i..], prev + i + 1) && ents[i].index == prev + i + 1 <= TailEnd(st.tail)
              && SplitOK(st.stored, Truncated(st.tail, ents[i..]))
              && Joined(st.stored, Truncated(st.tail, ents[i..])) == log[..prev + i] + ents[i..] == PL.Grafted(log, prev, ents))
  {
    hide Matched, Joined, QueueOK, RespsOK, DrainOK, Fit;
    var log, full := Visible(st), h.reigns[st.term].log;
    var i := PL.FirstConflict(log, prev, ents, 0);
    forall k | 0 <= k < |ents| ensures ents[k].index == prev + k + 1 { assert ents[k] == full[prev + k]; }
    if i < |ents| {
      var more := ents[i..];
      assert more[0] == ents[i];
      assert Contiguous(more, prev + i + 1);
      assert |log| == Last(st.stored, st.tail);
      AppendJoins(st.stored, st.tail, more);
    }
  }

  lemma AppendGraft(h: History, st: Async, prev: nat, ents: seq<Entry>, log': seq<Entry>)
    requires Leaders(h) && Appends(h, st, prev, ents) && Matched(h, Visible(st)) && log' == PL.Grafted(Visible(st), prev, ents)
    ensures Matched(h, log')
    ensures log' == Visible(st) || Holds(log', h.reigns[st.term].log, |log'|)
  {
    hide Matched, Joined;
    PL.GraftAgrees(h, Visible(st), h.reigns[st.term].log, prev, ents);
  }

  /** Responses after a cut: those at or above it speak of an entry the leader does not have. */
  lemma RespCut(h: History, st: Async, r: Resp, ents: seq<Entry>, later: seq<StorageWrite>, log': seq<Entry>, cut: nat, inProgress: nat)
    requires SplitOK(st.stored, st.tail) && st.term in h.reigns && Matched(h, Visible(st)) && Matched(h, h.reigns[st.term].log)
    requires RespOK(h, st.term, Visible(st), st.tail.inProgress, r, ents, later)
    requires cut <= |Visible(st)| && cut < |log'| && log'[..cut] == Visible(st)[..cut] && inProgress == Min(st.tail.inProgress, cut + 1)
    requires Holds(log', h.reigns[st.term].log, |log'|)
    requires cut < |Visible(st)| ==> Visible(st)[cut].term != log'[cut].term
    ensures RespOK(h, st.term, log', inProgress, r, ents, later)
  {
    hide Matched, Joined;
    var log, full := Visible(st), h.reigns[st.term].log;
    assert log'[cut] == full[cut];
    if r.term == st.term && Kept(log, st.tail.inProgress, r, ents, later) {
      if r.index <= cut {
        assert log'[..r.index] == log'[..cut][..r.index] == log[..cut][..r.index] == log[..r.index];
        assert log'[r.index - 1] == log'[..r.index][r.index - 1];
        assert log[r.index - 1] == log[..r.index][r.index - 1];
      } else if InLog(full, r.index, r.logTerm) {
        PL.SameTerm(h, log, full, r.index);
      }
    }
  }

  /** An append makes the log what the append says, and keeps responses honest. */
  lemma AppendGood(h: History, st: Async, prev: nat, ents: seq<Entry>)
    requires Inv(h, st) && Appends(h, st, prev, ents)
    ensures Inv(h, Act(h, st, Append(prev, ents)))
    ensures Visible(Act(h, st, Append(prev, ents))) == PL.Grafted(Visible(st), prev, ents)
  {
    hide Matched, Joined, Fit, QueueOK, RespsOK, DrainOK, Truncated, PL.Grafted;
    var i := PL.FirstConflict(Visible(st), prev, ents, 0);
    AppendFacts(h, st, prev, ents);
    UnchangedGraft(Visible(st), prev, ents);
    if i < |ents| {
      var more, log' := ents[i..], PL.Grafted(Visible(st), prev, ents);
      AppendGraft(h, st, prev, ents, log');
      CutTail(st.tail, more);
      LeaderPositive(h, st.term, prev, ents, st);
      CutFacts(h, st, prev, ents);
      CutQueue(h, st, log', prev + i, Truncated(st.tail, more).inProgress);
      CutDrain(st, log', prev + i, Truncated(st.tail, more), Drained(st.stored, st.queue));
    }
  }

  lemma UnchangedGraft(log: seq<Entry>, prev: nat, ents: seq<Entry>)
    requires prev <= |log|
    ensures PL.FirstConflict(log, prev, ents, 0) == |ents| ==> PL.Grafted(log, prev, ents) == log
  {
  }

  lemma LeaderPositive(h: History, t: nat, prev: nat, ents: seq<Entry>, st: Async)
    requires Leaders(h) && Appends(h, st, prev, ents)
    ensures st.term > 0 && st.term in h.reigns && Matched(h, h.reigns[st.term].log)
  {
    hide Matched, Joined;
  }

  lemma CutTail(u: Tail, more: seq<Entry>)
    requires TailOK(u) && more != [] && 0 < more[0].index <= TailEnd(u) && Contiguous(more, more[0].index) && u.offset > 0
    ensures var u' := Truncated(u, more);
            TailOK(u') && u'.entries != [] && 0 < u'.offset <= u.offset && TailEnd(u') == more[0].index + |more|
            && u'.inProgress == Min(u.inProgress, more[0].index)
  {
    TruncatedOK(u, more);
  }

  lemma CutFacts(h: History, st: Async, prev: nat, ents: seq<Entry>)
    requires Inv(h, st) && Appends(h, st, prev, ents)
    ensures var log, i := Visible(st), PL.FirstConflict(Visible(st), prev, ents, 0);
            i < |ents| ==>
              var log' := PL.Grafted(log, prev, ents);
              prev + i < |log'| && log'[..prev + i] == log[..prev + i]
              && (prev + i < |log| ==> log[prev + i].term != log'[prev + i].term)
              && Holds(log', h.reigns[st.term].log, |log'|)
  {
    hide Matched, Joined, Fit, QueueOK, RespsOK, DrainOK, Leaders, SplitOK, PL.Grafted, PL.FirstConflict;
    AppendGraft(h, st, prev, ents, PL.Grafted(Visible(st), prev, ents));
    CutPoint(Visible(st), prev, ents);
  }

  lemma CutPoint(log: seq<Entry>, prev: nat, ents: seq<Entry>)
    requires prev <= |log|
    ensures var i, log' := PL.FirstConflict(log, prev, ents, 0), PL.Grafted(log, prev, ents);
            prev + i <= |log|
            && (i < |ents| ==>
                  log' != log && prev + i < |log'| && log'[..prev + i] == log[..prev + i]
                  && (prev + i < |log| ==> log[prev + i].term != log'[prev + i].term))
  {
    var i := PL.FirstConflict(log, prev, ents, 0);
    if i < |ents| { assert PL.Grafted(log, prev, ents)[prev + i] == ents[i]; }
  }

  lemma CutDrain(st: Async, log': seq<Entry>, cut: nat, u': Tail, all: seq<Entry>)
    requires SplitOK(st.stored, st.tail) && DrainOK(Visible(st), st.tail, all)
    requires cut <= |Visible(st)| && cut < |log'| && log'[..cut] == Visible(st)[..cut]
    requires u'.inProgress == Min(st.tail.inProgress, cut + 1) && TailEnd(u') > cut + 1
    ensures DrainOK(log', u', all)
  {
    hide Joined;
    var log, k := Visible(st), u'.inProgress - 1;
    TakeLess(log', log, cut, k);
    assert all[1..][..st.tail.inProgress - 1] == all[1..st.tail.inProgress];
    TakeLess(all[1..], log, st.tail.inProgress - 1, k);
    assert all[1..][..k] == all[1..k + 1];
  }

  /** What agrees on a prefix agrees on a shorter one. */
  lemma TakeLess(a: seq<Entry>, b: seq<Entry>, n: nat, k: nat)
    requires k <= n <= |a| && n <= |b| && a[..n] == b[..n]
    ensures a[..k] == b[..k]
  {
    assert a[..n][..k] == a[..k] && b[..n][..k] == b[..k];
  }

  lemma CutQueue(h: History, st: Async, log': seq<Entry>, cut: nat, inProgress: nat)
    requires Inv(h, st) && st.term in h.reigns && Matched(h, h.reigns[st.term].log)
    requires cut <= |Visible(st)| && cut < |log'| && log'[..cut] == Visible(st)[..cut] && inProgress == Min(st.tail.inProgress, cut + 1)
    requires Holds(log', h.reigns[st.term].log, |log'|)
    requires cut < |Visible(st)| ==> Visible(st)[cut].term != log'[cut].term
    ensures QueueOK(h, st.term, log', inProgress, st.stored, st.queue)
    ensures RespsOK(h, st.term, log', inProgress, st.stored, st.queue, st.resps)
  {
    hide Matched, Joined, Fit, DrainOK, RespOK, Holds;
    forall j | 0 <= j < |st.queue| && st.queue[j].resp.Some?
      ensures RespOK(h, st.term, log', inProgress, st.queue[j].resp.value, Drained(st.stored, st.queue[..j + 1]), st.queue[j + 1..])
    {
      RespCut(h, st, st.queue[j].resp.value, Drained(st.stored, st.queue[..j + 1]), st.queue[j + 1..], log', cut, inProgress);
    }
    forall r | r in st.resps ensures RespOK(h, st.term, log', inProgress, r, st.stored, st.queue) {
      RespCut(h, st, r, st.stored, st.queue, log', cut, inProgress);
    }
  }

  lemma EnterGood(h: History, st: Async, t: nat)
    requires Inv(h, st) && t > st.term
    ensures Inv(h, Act(h, st, EnterTerm(t))) && Visible(Act(h, st, EnterTerm(t))) == Visible(st)
  {
    hide Matched, Joined, Fit, DrainOK, Kept;
  }

  // ---------------------------------------------------------------------------------------------
  // Runs
  // ---------------------------------------------------------------------------------------------

  /** A node that opened a log which is all in storage. */
  ghost predicate Start(h: History, st: Async) {
    && Leaders(h) && StorageOK(st.stored) && Matched(h, st.stored[1..])
    && st.tail == Tail([], |st.stored|, |st.stored|) && st.queue == [] && st.resps == {}
  }

  lemma Starts(h: History, st: Async)
    requires Start(h, st)
    ensures Inv(h, st)
  {
    hide Matched;
    forall k | 0 <= k < |Visible(st)| ensures Visible(st)[k] == st.stored[1..][k] {
      JoinedAt(st.stored, st.tail, 1 + k);
    }
    assert Visible(st) == st.stored[1..];
    assert Visible(st)[..|st.stored| - 1] == Visible(st);
  }

  ghost predicate IsRun(h: History, run: seq<Async>, acts: seq<Action>) {
    && |run| == |acts| + 1 && Start(h, run[0])
    && forall i :: 0 <= i < |acts| ==> Enabled(h, run[i], acts[i]) && run[i + 1] == Act(h, run[i], acts[i])
  }

  lemma {:induction false} RunGood(h: History, run: seq<Async>, acts: seq<Action>, i: nat)
    requires IsRun(h, run, acts) && i < |run|
    ensures Inv(h, run[i])
    decreases i
  {
    hide Inv, Start;
    if i == 0 {
      Starts(h, run[0]);
    } else {
      RunGood(h, run, acts, i - 1);
      ActGood(h, run[i - 1], acts[i - 1]);
    }
  }

  /** Only appends change what a reader sees. */
  lemma ActGood(h: History, st: Async, a: Action)
    requires Inv(h, st) && Enabled(h, st, a)
    ensures Inv(h, Act(h, st, a))
    ensures SplitOK(st.stored, st.tail) && SplitOK(Act(h, st, a).stored, Act(h, st, a).tail)
    ensures Visible(Act(h, st, a)) == if a.Append? then PL.Grafted(Visible(st), a.prev, a.ents) else Visible(st)
  {
    hide Joined, Matched, Leaders, QueueOK, RespsOK, DrainOK, Fit, Stored, Truncated, Stabilised, Unwritten;
    match a
    case EnterTerm(t) => EnterGood(h, st, t);
    case Append(prev, ents) => AppendGood(h, st, prev, ents);
    case IssueWrite => IssueGood(h, st);
    case StoreNext => StoreGood(h, st);
    case Handle(r) => HandleGood(h, st, r);
  }

  /** In every run, storage and tail read as one log, which only appends change: neither the storage
      thread's progress nor the handling of its answers, however late or repeated, is ever visible. */
  lemma OnlyAppendsShow(h: History, run: seq<Async>, acts: seq<Action>, i: nat)
    requires IsRun(h, run, acts) && i < |acts|
    ensures SplitOK(run[i].stored, run[i].tail) && SplitOK(run[i + 1].stored, run[i + 1].tail)
    ensures Visible(run[i + 1]) == if acts[i].Append? then PL.Grafted(Visible(run[i]), acts[i].prev, acts[i].ents) else Visible(run[i])
  {
    hide Inv, Start, Joined, PL.Grafted;
    RunGood(h, run, acts, i);
    ActGood(h, run[i], acts[i]);
  }

  /** No ABA: in every run, entries that an answer removes from the tail are in storage with the very
      values the log has, and no write still queued will touch their positions. */
  lemma NoABA(h: History, run: seq<Async>, acts: seq<Action>, i: nat, r: Resp)
    requires IsRun(h, run, acts) && i < |acts| && acts[i] == Handle(r) && run[i + 1].tail != run[i].tail
    ensures SplitOK(run[i].stored, run[i].tail) && Covers(run[i].stored, Visible(run[i]), r.index) && Above(run[i].queue, r.index)
  {
    hide Inv, Start, Joined;
    RunGood(h, run, acts, i);
    ActGood(h, run[i], acts[i]);
    HandleGood(h, run[i], r);
  }

  /** In every run, the write that is stored next begins where storage ends or before, above its dummy
      entry: no write is lost for leaving a gap. */
  lemma NoGap(h: History, run: seq<Async>, acts: seq<Action>, i: nat)
    requires IsRun(h, run, acts) && i < |acts| && acts[i].StoreNext? && run[i].queue[0].ents != []
    ensures 0 < run[i].queue[0].ents[0].index <= |run[i].stored|
    ensures run[i + 1].stored == Written(run[i].stored, run[i].queue[0].ents)
  {
    hide Start, Written, Leaders, Matched, DrainOK, QueueOK, RespsOK;
    RunGood(h, run, acts, i);
  }

  // ---------------------------------------------------------------------------------------------
  // Everything gets stored
  // ---------------------------------------------------------------------------------------------

  /** The storage thread does all its queued writes. */
  function StoreAll(h: History, st: Async): Async
    decreases |st.queue|
  {
    if st.queue == [] then st else StoreAll(h, Act(h, st, StoreNext))
  }

  lemma {:induction false} StoresAll(h: History, st: Async)
    requires Inv(h, st)
    ensures var r := StoreAll(h, st);
            && Inv(h, r) && r.tail == st.tail && r.term == st.term && r.queue == [] && st.resps <= r.resps
            && SplitOK(st.stored, st.tail) && SplitOK(r.stored, r.tail) && Visible(r) == Visible(st)
            && forall w :: w in st.queue && w.resp.Some? ==> w.resp.value in r.resps
    decreases |st.queue|
  {
    hide Joined, Leaders, Matched, QueueOK, RespsOK, DrainOK, Fit, Stored;
    if st.queue != [] {
      var st1 := Act(h, st, StoreNext);
      StoreGood(h, st);
      StoresAll(h, st1);
      assert st.queue == [st.queue[0]] + st1.queue;
    }
  }

  /** Nothing stays unstable: from any state of any run, if a write is issued, the storage thread catches up,
      and that write's answer is handled, then the tail is empty and storage holds the whole log. */
  lemma FlushEmpties(h: History, run: seq<Async>, acts: seq<Action>, i: nat)
    requires IsRun(h, run, acts) && i < |run| && run[i].tail.entries != []
    ensures SplitOK(run[i].stored, run[i].tail)
    ensures var last := run[i].tail.entries[|run[i].tail.entries| - 1];
            var written := StoreAll(h, Act(h, run[i], IssueWrite));
            var r := Resp(run[i].term, last.index, last.term);
            && Enabled(h, written, Handle(r)) && written.queue == []
            && var st := Act(h, written, Handle(r));
               st.tail.entries == [] && st.stored == [Entry(0, 0, [])] + Visible(run[i])
  {
    hide Start, Joined, Leaders, Matched, QueueOK, RespsOK, DrainOK, Fit, Stored, Unwritten, Stabilised;
    RunGood(h, run, acts, i);
    var st := run[i];
    var st1 := Act(h, st, IssueWrite);
    IssueGood(h, st);
    IssueLog(h, st);
    StoresAll(h, st1);
    var w := StorageWrite(Unwritten(st.tail), RespNow(st));
    assert w in st1.queue;
    var st2 := StoreAll(h, st1);
    var r := RespNow(st).value;
    LastStable(st2.tail);
    HandleGood(h, st2, r);
    Emptied(Act(h, st2, Handle(r)));
  }

  lemma LastStable(u: Tail)
    requires TailOK(u) && u.entries != []
    ensures var last := u.entries[|u.entries| - 1]; Stabilised(u, last.index, last.term).entries == []
  {
  }

  lemma Emptied(st: Async)
    requires SplitOK(st.stored, st.tail) && StorageOK(st.stored) && st.tail.entries == []
    ensures st.stored == [Entry(0, 0, [])] + Visible(st)
  {
    hide Joined, Contiguous;
    var left, right := st.stored, [Entry(0, 0, [])] + Visible(st);
    assert |left| == |right|;
    forall k | 0 < k < |left| ensures left[k] == right[k] { JoinedAt(st.stored, st.tail, k); }
  }

  // ---------------------------------------------------------------------------------------------
  // Such runs exist
  // ---------------------------------------------------------------------------------------------

  function OneLeader(e: Entry): History {
    History(map[1 := Reign(1, 0, [e], 0)], map[], map[])
  }

  lemma WitnessStart(h: History, e: Entry)
    requires e == Entry(1, 1, []) && h == OneLeader(e)
    ensures Start(h, Async(1, Tail([], 1, 1), [Entry(0, 0, [])], [], {}))
  {
    assert [Entry(0, 0, [])][1..] == [];
    assert Matched(h, h.reigns[1].log);
  }

  lemma WitnessAppend(h: History, e: Entry, zero: Entry)
    requires e == Entry(1, 1, []) && zero == Entry(0, 0, []) && h == OneLeader(e)
    ensures var s := Async(1, Tail([], 1, 1), [zero], [], {});
            Enabled(h, s, Append(0, [e])) && Act(h, s, Append(0, [e])) == s.(tail := Tail([e], 1, 1))
  {
    var s := Async(1, Tail([], 1, 1), [zero], [], {});
    assert SplitOK(s.stored, s.tail) && Visible(s) == [];
    assert [] + [e] == [e] && [e][0..] == [e];
  }

  lemma WitnessIssue(h: History, e: Entry, zero: Entry)
    requires e == Entry(1, 1, []) && zero == Entry(0, 0, [])
    ensures var s := Async(1, Tail([e], 1, 1), [zero], [], {});
            Enabled(h, s, IssueWrite)
            && Act(h, s, IssueWrite) == s.(tail := Tail([e], 1, 2), queue := [StorageWrite([e], Some(Resp(1, 1, 1)))])
  {
    assert [e][0..] == [e];
  }

  lemma WitnessStore(h: History, e: Entry, zero: Entry)
    requires e == Entry(1, 1, []) && zero == Entry(0, 0, [])
    ensures var s := Async(1, Tail([e], 1, 2), [zero], [StorageWrite([e], Some(Resp(1, 1, 1)))], {});
            Enabled(h, s, StoreNext) && Act(h, s, StoreNext) == s.(stored := [zero, e], queue := [], resps := {Resp(1, 1, 1)})
  {
    assert [zero][..1] + [e] == [zero, e];
  }

  /** An entry is appended, issued, stored and, once the answer is handled, dropped from the tail. */
  lemma SomeRunDrops() returns (h: History, run: seq<Async>, acts: seq<Action>, r: Resp)
    ensures IsRun(h, run, acts) && |acts| == 4 && acts[3] == Handle(r) && run[4].tail != run[3].tail
  {
    hide Start, Stored, Visible, Appends, SplitOK, Unwritten, Accepted, PL.FirstConflict, Truncated, OneLeader;
    var e, zero := Entry(1, 1, []), Entry(0, 0, []);
    h := OneLeader(e);
    r := Resp(1, 1, 1);
    acts := [Append(0, [e]), IssueWrite, StoreNext, Handle(r)];
    var s3 := Async(1, Tail([e], 1, 2), [zero, e], [], {r});
    run := [Async(1, Tail([], 1, 1), [zero], [], {}), Async(1, Tail([e], 1, 1), [zero], [], {}),
            Async(1, Tail([e], 1, 2), [zero], [StorageWrite([e], Some(r))], {}), s3, s3.(tail := Tail([], 2, 2))];
    WitnessStart(h, e);
    WitnessAppend(h, e, zero);
    WitnessIssue(h, e, zero);
    WitnessStore(h, e, zero);
    assert [e][1..] == [];
    assert Act(h, s3, Handle(r)) == run[4];
  }
}
