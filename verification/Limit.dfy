/** Sizes of entries and the size limit on reads (raft/util.go). */
module Limit {
  import opened Types

  /** Bytes of a base-128 varint. */
  function VarintSize(n: nat): (r: nat)
    ensures r >= 1
  {
    if n < 128 then 1 else 1 + VarintSize(n / 128)
  }

  /** The encoded size of an entry: its term, its index and, when there is any, its data, each
      behind a one-byte tag. */
  function EntrySize(e: Entry): (r: nat)
    ensures r > 0
  {
    1 + VarintSize(e.term) + 1 + VarintSize(e.index)
    + (if e.data == [] then 0 else 1 + VarintSize(|e.data|) + |e.data|)
  }

  function EntsSize(ents: seq<Entry>): (r: nat)
    ensures ents != [] ==> r > 0
  {
    if ents == [] then 0 else EntsSize(ents[..|ents| - 1]) + EntrySize(ents[|ents| - 1])
  }

  function PayloadsSize(payloads: seq<Bytes>): nat {
    if payloads == [] then 0 else |payloads[0]| + PayloadsSize(payloads[1..])
  }

  function Payloads(ents: seq<Entry>): seq<Bytes> {
    seq(|ents|, i requires 0 <= i < |ents| => ents[i].data)
  }

  lemma {:induction false} SizeOf(a: seq<Entry>, b: seq<Entry>)
    ensures EntsSize(a + b) == EntsSize(a) + EntsSize(b)
  {
    if b == [] {
      assert a + b == a;
    } else {
      assert (a + b)[..|a + b| - 1] == a + b[..|b| - 1];
      SizeOf(a, b[..|b| - 1]);
    }
  }

  /** Longer prefixes are strictly larger. */
  lemma SizeGrows(ents: seq<Entry>, i: nat, j: nat)
    requires i < j <= |ents|
    ensures EntsSize(ents[..i]) < EntsSize(ents[..j])
  {
    assert ents[..j] == ents[..i] + ents[i..j];
    SizeOf(ents[..i], ents[i..j]);
  }

  /** How many leading entries fit in `max` bytes, and at least one. */
  function Fitting(ents: seq<Entry>, max: nat): (n: nat)
    ensures n <= |ents| && (ents != [] ==> n > 0)
    ensures n > 1 ==> EntsSize(ents[..n]) <= max
  {
    if |ents| <= 1 then |ents|
    else if EntsSize(ents) <= max then assert ents[..|ents|] == ents; |ents|
    else
      var n := Fitting(ents[..|ents| - 1], max);
      assert ents[..|ents| - 1][..n] == ents[..n];
      n
  }

  function LimitSize(ents: seq<Entry>, max: nat): (r: seq<Entry>)
    ensures r <= ents && (ents != [] ==> r != [])
  {
    ents[..Fitting(ents, max)]
  }

  /** Fitting is the longest such prefix: one entry more would exceed the limit. */
  lemma {:induction false} FittingIs(ents: seq<Entry>, max: nat, n: nat)
    requires 0 < n <= |ents|
    requires n > 1 ==> EntsSize(ents[..n]) <= max
    requires n < |ents| ==> EntsSize(ents[..n + 1]) > max
    ensures Fitting(ents, max) == n
    decreases |ents|
  {
    assert ents[..|ents|] == ents;
    if n < |ents| {
      if n + 1 < |ents| { SizeGrows(ents, n + 1, |ents|); }
      var shorter := ents[..|ents| - 1];
      assert shorter[..n] == ents[..n];
      if n < |shorter| { assert shorter[..n + 1] == ents[..n + 1]; }
      FittingIs(shorter, max, n);
    }
  }

  /** limitSize adds up sizes until one entry too many. */
  method LimitSizeLoop(ents: seq<Entry>, max: nat) returns (r: seq<Entry>)
    ensures r == LimitSize(ents, max)
  {
    if |ents| == 0 { return ents; }
    var size, limit := EntrySize(ents[0]), 1;
    assert ents[..1] == [ents[0]];
    while limit < |ents|
      invariant 1 <= limit <= |ents|
      invariant size == EntsSize(ents[..limit])
      invariant limit > 1 ==> size <= max
    {
      size := size + EntrySize(ents[limit]);
      assert ents[..limit + 1] == ents[..limit] + [ents[limit]];
      if size > max {
        FittingIs(ents, max, limit);
        return ents[..limit];
      }
      limit := limit + 1;
    }
    assert ents[..|ents|] == ents;
    FittingIs(ents, max, |ents|);
    return ents;
  }
}
