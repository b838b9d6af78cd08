/** Equality of retained unknown fields and of messages (raftpb/plain_wire.go, plain_clone.go): two
    runs of records are equal when, field number by field number, the records are the same in the same
    order; how different numbers interleave does not matter. */
module UnknownFields {
  import opened Types
  import opened Wire
  import opened WireLoops

  /** The first record: its field number and its length, tag included. */
  function FirstField(x: Bytes): (r: Option<(nat, nat)>)
    ensures r.Some? ==> 0 < r.value.1 <= |x| && 1 <= r.value.0 <= MAX_INT32
  {
    match DecTag(x)
    case None => None
    case Some((num, typ, n)) =>
      match Skip(num, typ, x[n..], RECURSION_LIMIT)
      case None => None
      case Some(m) => Some((num, n + m))
  }

  /** Whole records, as decoding retains them. */
  predicate Whole(x: Bytes)
    decreases |x|
  {
    x == [] || (FirstField(x).Some? && Whole(x[FirstField(x).value.1..]))
  }

  /** The records with one number, in order. */
  function Records(x: Bytes, num: nat): Bytes
    requires Whole(x)
    decreases |x|
  {
    if x == [] then []
    else
      var (f, n) := FirstField(x).value;
      (if f == num then x[..n] else []) + Records(x[n..], num)
  }

  ghost predicate SameRecords(x: Bytes, y: Bytes)
    requires Whole(x) && Whole(y)
  {
    forall num: nat :: Records(x, num) == Records(y, num)
  }

  // ---------------------------------------------------------------------------------------------
  // The same records take the same space
  // ---------------------------------------------------------------------------------------------

  /** The length of the records with numbers below n. */
  function Total(x: Bytes, n: nat): nat
    requires Whole(x)
  {
    if n == 0 then 0 else |Records(x, n - 1)| + Total(x, n - 1)
  }

  lemma {:induction false} TotalSplit(x: Bytes, n: nat)
    requires Whole(x) && x != []
    ensures var (f, k) := FirstField(x).value; Total(x, n) == Total(x[k..], n) + (if f < n then k else 0)
  {
    hide FirstField;
    if n > 0 { TotalSplit(x, n - 1); }
  }

  lemma {:induction false} TotalIsLength(x: Bytes)
    requires Whole(x)
    ensures Total(x, MAX_INT32 + 1) == |x|
    decreases |x|
  {
    hide Total;
    if x == [] {
      TotalNone(MAX_INT32 + 1);
    } else {
      TotalSplit(x, MAX_INT32 + 1);
      TotalIsLength(x[FirstField(x).value.1..]);
    }
  }

  lemma {:induction false} TotalNone(n: nat)
    ensures Total([], n) == 0
  {
    if n > 0 { TotalNone(n - 1); }
  }

  lemma {:induction false} SameTotal(x: Bytes, y: Bytes, n: nat)
    requires Whole(x) && Whole(y) && SameRecords(x, y)
    ensures Total(x, n) == Total(y, n)
  {
    if n > 0 { SameTotal(x, y, n - 1); }
  }

  lemma SameLength(x: Bytes, y: Bytes)
    requires Whole(x) && Whole(y) && SameRecords(x, y)
    ensures |x| == |y|
  {
    TotalIsLength(x);
    TotalIsLength(y);
    SameTotal(x, y, MAX_INT32 + 1);
  }

  // ---------------------------------------------------------------------------------------------
  // The loops
  // ---------------------------------------------------------------------------------------------

  method ConsumeField(x: Bytes) returns (num: nat, n: int)
    ensures FirstField(x) == (if n < 0 then None else Some((num, n)))
  {
    hide Skip, DecTag;
    var f, typ, k := ConsumeTag(x);
    if k < 0 { return 0, -1; }
    var m := ConsumeFieldValue(f, typ, x[k..], RECURSION_LIMIT);
    if m < 0 { return 0, -1; }
    return f, k + m;
  }

  method UnknownFieldRecords(x: Bytes, num: nat) returns (out: Bytes)
    requires Whole(x)
    ensures out == Records(x, num)
  {
    hide FirstField;
    var rest := x;
    out := [];
    while |rest| > 0
      invariant Whole(rest) && out + Records(rest, num) == Records(x, num)
      decreases |rest|
    {
      var f, n := ConsumeField(rest);
      if f == num {
        assert out + rest[..n] + Records(rest[n..], num) == out + (rest[..n] + Records(rest[n..], num));
        out := out + rest[..n];
      }
      rest := rest[n..];
    }
  }

  lemma FirstRecord(x: Bytes)
    requires Whole(x) && x != []
    ensures FirstField(x).Some? && Whole(x[FirstField(x).value.1..])
    ensures Records(x, FirstField(x).value.0) != []
    ensures forall num: nat :: num != FirstField(x).value.0 ==> Records(x, num) == Records(x[FirstField(x).value.1..], num)
  {
  }

  /** equalUnknown compares lengths, then bytes, then the records of every number found in x, and looks
      for numbers of y that x lacks. That decides exactly whether the records agree. */
  method EqualUnknown(x: Bytes, y: Bytes) returns (eq: bool)
    requires Whole(x) && Whole(y)
    ensures eq <==> SameRecords(x, y)
  {
    hide FirstField, Records;
    if |x| != |y| {
      if SameRecords(x, y) { SameLength(x, y); }
      return false;
    }
    if x == y { return true; }
    var rest := x;
    while |rest| > 0
      invariant Whole(rest)
      invariant forall num: nat :: Records(rest, num) == Records(x, num) || Records(x, num) == Records(y, num)
      decreases |rest|
    {
      FirstRecord(rest);
      var f, n := ConsumeField(rest);
      var a := UnknownFieldRecords(x, f);
      var b := UnknownFieldRecords(y, f);
      if a != b { return false; }
      rest := rest[n..];
    }
    NoRecords();
    assert forall num: nat :: Records(x, num) == [] || Records(x, num) == Records(y, num);
    rest := y;
    while |rest| > 0
      invariant Whole(rest)
      invariant forall num: nat :: Records(rest, num) == Records(y, num) || Records(x, num) == Records(y, num)
      invariant forall num: nat :: Records(rest, num) != [] ==> Records(y, num) != []
      decreases |rest|
    {
      FirstRecord(rest);
      var f, n := ConsumeField(rest);
      var a := UnknownFieldRecords(x, f);
      if |a| == 0 { return false; }
      rest := rest[n..];
    }
    return true;
  }

  lemma NoRecords()
    ensures forall num: nat :: Records([], num) == []
  {
  }
}
