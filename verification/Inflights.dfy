/** The sliding window of unacknowledged appends to one follower (tracker/inflights.go): an abstract
    queue, and the growing ring buffer that refines it. */
module InflightWindow {

  /** One message in flight: the index of its last entry and the size of its payloads. */
  datatype Flight = Flight(index: nat, bytes: nat)

  /** At most `size` messages; no further one once `maxBytes` is reached, if that is not 0. */
  datatype Window = Window(size: nat, maxBytes: nat, flights: seq<Flight>)

  function TotalBytes(fs: seq<Flight>): nat {
    if fs == [] then 0 else TotalBytes(fs[..|fs| - 1]) + fs[|fs| - 1].bytes
  }

  predicate Full(w: Window) {
    |w.flights| == w.size || (w.maxBytes != 0 && TotalBytes(w.flights) >= w.maxBytes)
  }

  function Pushed(w: Window, f: Flight): Window {
    w.(flights := w.flights + [f])
  }

  /** The length of the longest prefix at or below `to`. */
  function Freed(fs: seq<Flight>, to: nat): (n: nat)
    ensures n <= |fs| && (forall k :: 0 <= k < n ==> fs[k].index <= to)
    ensures n < |fs| ==> fs[n].index > to
  {
    if fs == [] || fs[0].index > to then 0 else 1 + Freed(fs[1..], to)
  }

  function Released(w: Window, to: nat): Window {
    w.(flights := w.flights[Freed(w.flights, to)..])
  }

  predicate Increasing(fs: seq<Flight>) {
    forall j, k :: 0 <= j < k < |fs| ==> fs[j].index < fs[k].index
  }

  /** With increasing indexes, exactly the flights above `to` remain, in order. */
  lemma FreeKeepsAbove(w: Window, to: nat)
    requires Increasing(w.flights)
    ensures Increasing(Released(w, to).flights)
    ensures forall f :: f in Released(w, to).flights <==> f in w.flights && f.index > to
  {
    var fs, n := w.flights, Freed(w.flights, to);
    assert fs == fs[..n] + fs[n..];
    assert forall f :: f in fs[..n] ==> f.index <= to;
    forall f | f in fs[n..] ensures f.index > to {
      var k :| 0 <= k < |fs[n..]| && fs[n..][k] == f;
      assert fs[n + k] == f && (k > 0 ==> fs[n].index < fs[n + k].index);
    }
  }

  /** The flights above an index, in their order. */
  function Above(fs: seq<Flight>, to: nat): seq<Flight> {
    if fs == [] then [] else (if fs[0].index > to then [fs[0]] else []) + Above(fs[1..], to)
  }

  lemma {:induction false} AllAbove(fs: seq<Flight>, to: nat)
    requires forall f :: f in fs ==> f.index > to
    ensures Above(fs, to) == fs
  {
    if fs != [] { AllAbove(fs[1..], to); }
  }

  /** What an acknowledgement leaves in the window is what lies above it. */
  lemma {:induction false} ReleasedIs(fs: seq<Flight>, to: nat)
    requires Increasing(fs)
    ensures fs[Freed(fs, to)..] == Above(fs, to)
  {
    if fs == [] {
    } else if fs[0].index > to {
      assert forall f :: f in fs ==> f.index > to by {
        forall f | f in fs ensures f.index > to { var k :| 0 <= k < |fs| && fs[k] == f; }
      }
      AllAbove(fs, to);
    } else {
      ReleasedIs(fs[1..], to);
      assert fs[1 + Freed(fs[1..], to)..] == fs[1..][Freed(fs[1..], to)..];
    }
  }

  lemma {:induction false} BytesOf(a: seq<Flight>, b: seq<Flight>)
    ensures TotalBytes(a + b) == TotalBytes(a) + TotalBytes(b)
  {
    if b == [] {
      assert a + b == a;
    } else {
      assert (a + b)[..|a + b| - 1] == a + b[..|b| - 1];
      BytesOf(a, b[..|b| - 1]);
    }
  }

  // ---------------------------------------------------------------------------------------------
  // The ring
  // ---------------------------------------------------------------------------------------------

  /** Where the k-th element lives. */
  function At(size: nat, start: nat, k: nat): nat {
    if start + k >= size then start + k - size else start + k
  }

  predicate RingOK(buf: seq<Flight>, size: nat, start: nat, count: nat) {
    && |buf| <= size && count <= size
    && (start < size || start == 0)
    && (start + count <= |buf| || |buf| == size)
  }

  function Ring(buf: seq<Flight>, size: nat, start: nat, count: nat): (q: seq<Flight>)
    requires RingOK(buf, size, start, count)
    ensures |q| == count
  {
    seq(count, k requires 0 <= k < count => buf[At(size, start, k)])
  }

  /** Writing the slot after the last element appends it; no live slot is overwritten. */
  lemma RingAdd(buf: seq<Flight>, size: nat, start: nat, count: nat, f: Flight)
    requires RingOK(buf, size, start, count) && count < size && At(size, start, count) < |buf|
    ensures RingOK(buf[At(size, start, count) := f], size, start, count + 1)
    ensures Ring(buf[At(size, start, count) := f], size, start, count + 1) == Ring(buf, size, start, count) + [f]
  {
  }

  /** Growing copies the live elements to where the larger ring expects them. */
  lemma RingGrow(buf: seq<Flight>, buf': seq<Flight>, size: nat, start: nat, count: nat)
    requires RingOK(buf, size, start, count) && |buf| < size && |buf| <= |buf'| <= size && buf'[..|buf|] == buf
    ensures RingOK(buf', size, start, count)
    ensures Ring(buf', size, start, count) == Ring(buf, size, start, count)
  {
    forall k | 0 <= k < count ensures buf'[At(size, start, k)] == buf[At(size, start, k)] {
      assert buf'[..|buf|][start + k] == buf[start + k];
    }
  }

  lemma RingDrop(buf: seq<Flight>, size: nat, start: nat, count: nat, i: nat)
    requires RingOK(buf, size, start, count) && i < count
    ensures RingOK(buf, size, At(size, start, i), count - i)
    ensures Ring(buf, size, At(size, start, i), count - i) == Ring(buf, size, start, count)[i..]
  {
  }

  lemma FreedIs(fs: seq<Flight>, to: nat, n: nat)
    requires n <= |fs| && (forall k :: 0 <= k < n ==> fs[k].index <= to)
    requires n < |fs| ==> fs[n].index > to
    ensures Freed(fs, to) == n
  {
  }

  /** Where the ring starts once its first i elements are gone. */
  function StartAfter(size: nat, start: nat, count: nat, i: nat): nat {
    if i == count then 0 else At(size, start, i)
  }

  lemma RingFree(buf: seq<Flight>, size: nat, start: nat, count: nat, to: nat, i: nat)
    requires RingOK(buf, size, start, count) && i <= count
    requires forall k :: 0 <= k < i ==> Ring(buf, size, start, count)[k].index <= to
    requires i < count ==> Ring(buf, size, start, count)[i].index > to
    ensures RingOK(buf, size, StartAfter(size, start, count, i), count - i)
    ensures Ring(buf, size, StartAfter(size, start, count, i), count - i) == Ring(buf, size, start, count)[i..]
    ensures Freed(Ring(buf, size, start, count), to) == i
    ensures TotalBytes(Ring(buf, size, start, count)) ==
            TotalBytes(Ring(buf, size, start, count)[..i]) + TotalBytes(Ring(buf, size, start, count)[i..])
  {
    var fs := Ring(buf, size, start, count);
    FreedIs(fs, to, i);
    assert fs == fs[..i] + fs[i..];
    BytesOf(fs[..i], fs[i..]);
    if i < count { RingDrop(buf, size, start, count, i); }
  }

  lemma RingSlot(buf: seq<Flight>, size: nat, start: nat, count: nat, i: nat)
    requires RingOK(buf, size, start, count) && i < count
    ensures At(size, start, i) < |buf| && Ring(buf, size, start, count)[i] == buf[At(size, start, i)]
    ensures At(size, start, i + 1) == (if At(size, start, i) + 1 >= size then At(size, start, i) + 1 - size else At(size, start, i) + 1)
  {
  }

  lemma BytesNext(fs: seq<Flight>, i: nat)
    requires i < |fs|
    ensures TotalBytes(fs[..i + 1]) == TotalBytes(fs[..i]) + fs[i].bytes
  {
    assert fs[..i + 1][..i] == fs[..i];
  }

  lemma StartAt(size: nat, start: nat, buf: seq<Flight>, count: nat)
    requires RingOK(buf, size, start, count)
    ensures At(size, start, 0) == start
  {
  }

  lemma EmptyFree(w: Window, to: nat)
    requires w.flights == []
    ensures Released(w, to) == w
  {
  }

  lemma NoBytes(fs: seq<Flight>)
    ensures TotalBytes(fs[..0]) == 0
  {
  }

  class Inflights {
    var start: nat
    var count: nat
    var bytes: nat
    const size: nat
    const maxBytes: nat
    var buffer: array<Flight>

    ghost predicate Valid()
      reads this, buffer
    {
      RingOK(buffer[..], size, start, count) && bytes == TotalBytes(Contents().flights)
    }

    /** The abstract queue this buffer holds. */
    ghost function Contents(): (w: Window)
      requires RingOK(buffer[..], size, start, count)
      reads this, buffer
      ensures |w.flights| == count
    {
      Window(size, maxBytes, Ring(buffer[..], size, start, count))
    }

    constructor (size: nat, maxBytes: nat)
      ensures Valid() && fresh(buffer)
      ensures Contents() == Window(size, maxBytes, [])
    {
      this.size, this.maxBytes := size, maxBytes;
      start, count, bytes := 0, 0, 0;
      buffer := new Flight[0];
    }

    method IsFull() returns (full: bool)
      requires Valid()
      ensures full == Full(Contents())
    {
      full := count == size || (maxBytes != 0 && bytes >= maxBytes);
    }

    /** Callers check for room first; adding to a full window panics. */
    method Add(index: nat, bytes: nat)
      requires Valid() && !Full(Contents())
      modifies this, buffer
      ensures Valid() && (buffer == old(buffer) || fresh(buffer))
      ensures Contents() == Pushed(old(Contents()), Flight(index, bytes))
    {
      ghost var before := Contents();
      var next := start + count;
      if next >= size { next := next - size; }
      if next >= buffer.Length { Grow(); }
      ghost var was := buffer[..];
      assert Contents() == before && next == At(size, start, count);
      RingAdd(was, size, start, count, Flight(index, bytes));
      buffer[next] := Flight(index, bytes);
      count := count + 1;
      this.bytes := this.bytes + bytes;
      assert buffer[..] == was[next := Flight(index, bytes)];
      BytesOf(before.flights, [Flight(index, bytes)]);
      hide RingOK, At;
    }

    /** Doubles the buffer, up to size. */
    method Grow()
      requires Valid() && buffer.Length < size
      modifies this`buffer
      ensures Valid() && fresh(buffer) && old(buffer).Length < buffer.Length
      ensures Contents() == old(Contents())
    {
      var newSize := buffer.Length * 2;
      if newSize == 0 {
        newSize := 1;
      } else if newSize > size {
        newSize := size;
      }
      var newBuffer := new Flight[newSize](_ => Flight(0, 0));
      forall k | 0 <= k < buffer.Length { newBuffer[k] := buffer[k]; }
      assert newBuffer[..buffer.Length] == buffer[..];
      RingGrow(buffer[..], newBuffer[..], size, start, count);
      ghost var before := Contents();
      buffer := newBuffer;
      assert Contents() == before;
    }

    /** Frees the longest prefix of flights at or below `to`. */
    method FreeLE(to: nat)
      requires Valid()
      modifies this
      ensures Valid() && buffer == old(buffer)
      ensures Contents() == Released(old(Contents()), to)
    {
      hide RingOK, Ring, At, TotalBytes, Freed;
      if count == 0 { EmptyFree(Contents(), to); return; }
      ghost var buf := buffer[..];
      ghost var fs := Ring(buf, size, start, count);
      RingSlot(buf, size, start, count, 0);
      StartAt(size, start, buf, count);
      if to < buffer[start].index { FreedIs(fs, to, 0); return; }
      var idx, i, freed := start, 0, 0;
      NoBytes(fs);
      while i < count && to >= buffer[idx].index
        modifies {}
        invariant 0 <= i <= count && idx == At(size, start, i)
        invariant i < count ==> idx < |buf| && buf[idx] == fs[i]
        invariant freed == TotalBytes(fs[..i])
        invariant forall k :: 0 <= k < i ==> fs[k].index <= to
      {
        BytesNext(fs, i);
        freed := freed + buffer[idx].bytes;
        RingSlot(buf, size, start, count, i);
        idx := idx + 1;
        if idx >= size { idx := idx - size; }
        i := i + 1;
        if i < count { RingSlot(buf, size, start, count, i); }
      }
      RingFree(buf, size, start, count, to, i);
      count, bytes := count - i, bytes - freed;
      start := if count == 0 then 0 else idx;
    }

    method Reset()
      requires Valid()
      modifies this
      ensures Valid() && buffer == old(buffer)
      ensures Contents() == Window(size, maxBytes, [])
    {
      start, count, bytes := 0, 0, 0;
    }
  }
}
