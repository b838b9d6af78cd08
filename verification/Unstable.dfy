/** The tail of the log that may not be in storage yet (raft/log_unstable.go), and the in-memory
    storage (raft/storage.go), as values and as the objects that are updated in place. Snapshots are
    not part of this model. */
module Unstable {
  import opened Types
  import opened Limit

  /** entries[i] has log position offset + i; those before inProgress are being written. */
  datatype Tail = Tail(entries: seq<Entry>, offset: nat, inProgress: nat)

  predicate Contiguous(ents: seq<Entry>, first: nat) {
    forall i :: 0 <= i < |ents| ==> ents[i].index == first + i
  }

  predicate TailOK(u: Tail) {
    Contiguous(u.entries, u.offset) && u.offset <= u.inProgress <= u.offset + |u.entries|
  }

  function TailEnd(u: Tail): nat {
    u.offset + |u.entries|
  }

  /** Entries replace the tail from their first index on. */
  function Truncated(u: Tail, ents: seq<Entry>): Tail
    requires ents != [] && ents[0].index <= TailEnd(u)
  {
    var from := ents[0].index;
    if from == TailEnd(u) then u.(entries := u.entries + ents)
    else if from <= u.offset then Tail(ents, from, from)
    else Tail(u.entries[..from - u.offset] + ents, u.offset, Min(u.inProgress, from))
  }

  function TailTerm(u: Tail, i: nat): Option<nat> {
    if u.offset <= i < TailEnd(u) then Some(u.entries[i - u.offset].term) else None
  }

  /** The tail once (index, term) is known to be stable: cut if it holds that entry. */
  function Stabilised(u: Tail, index: nat, term: nat): Tail {
    if TailTerm(u, index) != Some(term) then u
    else Tail(u.entries[index + 1 - u.offset..], index + 1, Max(u.inProgress, index + 1))
  }

  function Accepted(u: Tail): Tail {
    if u.entries == [] then u else u.(inProgress := u.entries[|u.entries| - 1].index + 1)
  }

  /** What still has to be written. */
  function Unwritten(u: Tail): seq<Entry>
    requires TailOK(u)
  {
    u.entries[u.inProgress - u.offset..]
  }

  lemma TruncatedOK(u: Tail, ents: seq<Entry>)
    requires TailOK(u) && ents != [] && ents[0].index <= TailEnd(u) && Contiguous(ents, ents[0].index)
    ensures TailOK(Truncated(u, ents))
    ensures TailEnd(Truncated(u, ents)) == ents[0].index + |ents|
    ensures Truncated(u, ents).offset == Min(u.offset, ents[0].index)
    ensures Truncated(u, ents).inProgress == Min(u.inProgress, Max(ents[0].index, Truncated(u, ents).offset))
  {
  }

  class UnstableLog {
    var entries: seq<Entry>
    var offset: nat
    var offsetInProgress: nat

    ghost predicate Valid()
      reads this
    {
      TailOK(State())
    }

    ghost function State(): Tail
      reads this
    {
      Tail(entries, offset, offsetInProgress)
    }

    constructor (offset: nat)
      ensures Valid() && State() == Tail([], offset, offset)
    {
      entries, this.offset, offsetInProgress := [], offset, offset;
    }

    method MaybeLastIndex() returns (last: Option<nat>)
      requires Valid()
      ensures last == if entries == [] then None else Some(TailEnd(State()) - 1)
    {
      if |entries| != 0 { return Some(offset + |entries| - 1); }
      return None;
    }

    method MaybeTerm(i: nat) returns (term: Option<nat>)
      requires Valid()
      ensures term == TailTerm(State(), i)
    {
      if i < offset { return None; }
      var last := MaybeLastIndex();
      if last.None? || i > last.value { return None; }
      return Some(entries[i - offset].term);
    }

    method NextEntries() returns (ents: seq<Entry>)
      requires Valid()
      ensures ents == Unwritten(State())
    {
      var inProgress := offsetInProgress - offset;
      if |entries| == inProgress { return []; }
      return entries[inProgress..];
    }

    method AcceptInProgress()
      requires Valid()
      modifies this
      ensures Valid() && State() == Accepted(old(State()))
    {
      if |entries| > 0 { offsetInProgress := entries[|entries| - 1].index + 1; }
    }

    method StableTo(index: nat, term: nat)
      requires Valid()
      modifies this
      ensures Valid() && State() == Stabilised(old(State()), index, term)
    {
      var gt := MaybeTerm(index);
      if gt.None? || gt.value != term { return; }
      var num := index + 1 - offset;
      entries := entries[num..];
      offset := index + 1;
      offsetInProgress := Max(offsetInProgress, offset);
    }

    /** Appending past the end of the tail panics. */
    method TruncateAndAppend(ents: seq<Entry>)
      requires Valid() && ents != [] && ents[0].index <= TailEnd(State()) && Contiguous(ents, ents[0].index)
      modifies this
      ensures Valid() && State() == Truncated(old(State()), ents)
    {
      var from := ents[0].index;
      if from == offset + |entries| {
        entries := entries + ents;
      } else if from <= offset {
        entries := ents;
        offset := from;
        offsetInProgress := offset;
      } else {
        var keep := entries[..from - offset];
        entries := keep + ents;
        offsetInProgress := Min(offsetInProgress, from);
      }
    }

    method Slice(lo: nat, hi: nat) returns (ents: seq<Entry>)
      requires Valid() && offset <= lo <= hi <= TailEnd(State())
      ensures ents == entries[lo - offset..hi - offset]
    {
      ents := entries[lo - offset..hi - offset];
    }
  }

  // ---------------------------------------------------------------------------------------------
  // Storage
  // ---------------------------------------------------------------------------------------------

  datatype ReadError = Compacted | Unavailable

  datatype ReadResult<+T> = Ok(value: T) | Err(error: ReadError)

  /** Written entries replace everything from their first index on; what is compacted already is
      skipped. ents[0] stands for the last compacted entry. */
  function Written(ents: seq<Entry>, more: seq<Entry>): seq<Entry>
    requires ents != [] && (more != [] ==> more[0].index <= ents[0].index + |ents|)
  {
    var base := ents[0].index;
    if more == [] || more[0].index + |more| <= base + 1 then ents
    else if more[0].index > base then ents[..more[0].index - base] + more
    else ents[..1] + more[base + 1 - more[0].index..]
  }

  lemma WrittenOK(ents: seq<Entry>, more: seq<Entry>)
    requires ents != [] && Contiguous(ents, ents[0].index)
    requires more != [] ==> more[0].index <= ents[0].index + |ents| && Contiguous(more, more[0].index)
    ensures Written(ents, more) != [] && Written(ents, more)[0] == ents[0]
    ensures Contiguous(Written(ents, more), ents[0].index)
  {
  }

  class MemoryStorage {
    var ents: seq<Entry>

    ghost predicate Valid()
      reads this
    {
      ents != [] && Contiguous(ents, ents[0].index)
    }

    constructor ()
      ensures Valid() && ents == [Entry(0, 0, [])]
    {
      ents := [Entry(0, 0, [])];
    }

    method FirstIndex() returns (i: nat)
      requires Valid()
      ensures i == ents[0].index + 1
    {
      i := ents[0].index + 1;
    }

    method LastIndex() returns (i: nat)
      requires Valid()
      ensures i == ents[0].index + |ents| - 1
    {
      i := ents[0].index + |ents| - 1;
    }

    method Term(i: nat) returns (r: ReadResult<nat>)
      requires Valid()
      ensures r == if i < ents[0].index then Err(Compacted)
                   else if i >= ents[0].index + |ents| then Err(Unavailable)
                   else Ok(ents[i - ents[0].index].term)
    {
      var offset := ents[0].index;
      if i < offset { return Err(Compacted); }
      if i - offset >= |ents| { return Err(Unavailable); }
      return Ok(ents[i - offset].term);
    }

    /** Reading past the last index panics. */
    method Entries(lo: nat, hi: nat, maxSize: nat) returns (r: ReadResult<seq<Entry>>)
      requires Valid() && lo <= hi <= ents[0].index + |ents|
      ensures r == if lo <= ents[0].index then Err(Compacted)
                   else if |ents| == 1 then Err(Unavailable)
                   else Ok(LimitSize(ents[lo - ents[0].index..hi - ents[0].index], maxSize))
    {
      var offset := ents[0].index;
      if lo <= offset { return Err(Compacted); }
      if |ents| == 1 { return Err(Unavailable); }
      var limited := LimitSizeLoop(ents[lo - offset..hi - offset], maxSize);
      return Ok(limited);
    }

    /** False when already compacted that far. Compacting past the last index panics. */
    method Compact(index: nat) returns (ok: bool)
      requires Valid() && index < ents[0].index + |ents|
      modifies this
      ensures Valid() && ok == (index > old(ents)[0].index)
      ensures ok ==> ents[0] == Entry(index, old(ents)[index - old(ents)[0].index].term, [])
                     && ents[1..] == old(ents)[index + 1 - old(ents)[0].index..]
      ensures !ok ==> ents == old(ents)
    {
      var offset := ents[0].index;
      if index <= offset { return false; }
      var i := index - offset;
      ents := [Entry(ents[i].index, ents[i].term, [])] + ents[i + 1..];
      return true;
    }

    /** Leaving a gap panics. */
    method Append(more: seq<Entry>)
      requires Valid()
      requires more != [] ==> more[0].index <= ents[0].index + |ents| && Contiguous(more, more[0].index)
      modifies this
      ensures Valid() && ents == Written(old(ents), more)
    {
      if |more| == 0 { return; }
      var first := ents[0].index + 1;
      var last := more[0].index + |more| - 1;
      if last < first { return; }
      WrittenOK(ents, more);
      var rest := more;
      if first > more[0].index { rest := more[first - more[0].index..]; }
      var offset := rest[0].index - ents[0].index;
      ents := ents[..offset] + rest;
    }
  }
}
