/** The protobuf wire format as raftpb/plain_wire.go reads and writes it: base-128 varints, tags,
    length-delimited records, and skipping fields, groups included. */
module Wire {
  import opened Types
  import opened Limit

  const VARINT := 0
  const FIXED64 := 1
  const BYTES := 2
  const START_GROUP := 3
  const END_GROUP := 4
  const FIXED32 := 5

  const MAX_FIELD: nat := 0x1FFF_FFFF
  const MAX_INT32: nat := 0x7FFF_FFFF
  const RECURSION_LIMIT: nat := 10000
  const UINT64: nat := 0x1_0000_0000_0000_0000

  /** A value read, and how many bytes it took. */
  datatype Parsed = Parsed(value: nat, len: nat)

  // ---------------------------------------------------------------------------------------------
  // Varints
  // ---------------------------------------------------------------------------------------------

  /** Least significant seven bits first, all bytes but the last with the top bit set. */
  function EncVarint(v: nat): (b: Bytes)
    ensures |b| == VarintSize(v) && |b| > 0
  {
    if v < 128 then [v] else [v % 128 + 128] + EncVarint(v / 128)
  }

  /** What fits in a 64-bit varint from its i-th byte on: the tenth byte holds one bit. */
  function Cap(i: nat): (c: nat)
    requires i <= 9
    ensures c >= 2
    decreases 9 - i
  {
    if i == 9 then 2 else 128 * Cap(i + 1)
  }

  lemma CapZero()
    ensures Cap(0) == UINT64
  {
    assert Cap(8) == 256;
    assert Cap(7) == 32768;
    assert Cap(6) == 4194304;
    assert Cap(5) == 536870912;
    assert Cap(4) == 68719476736;
    assert Cap(3) == 8796093022208;
    assert Cap(2) == 1125899906842624;
    assert Cap(1) == 144115188075855872;
  }

  /** Reading a varint of which i bytes were read: at most ten bytes, the tenth below 2. */
  function DecVarint(b: Bytes, i: nat): (r: Option<Parsed>)
    requires i <= 9
    ensures r.Some? ==> 0 < r.value.len <= |b| && r.value.value < Cap(i)
    decreases 9 - i
  {
    if b == [] then None
    else if i == 9 then if b[0] < 2 then Some(Parsed(b[0], 1)) else None
    else if b[0] < 128 then Some(Parsed(b[0], 1))
    else match DecVarint(b[1..], i + 1)
      case None => None
      case Some(p) => Some(Parsed(b[0] - 128 + 128 * p.value, p.len + 1))
  }

  /** A varint reads back, whatever follows it. */
  lemma {:induction false} VarintRoundTrip(v: nat, i: nat, rest: Bytes)
    requires i <= 9 && v < Cap(i)
    ensures DecVarint(EncVarint(v) + rest, i) == Some(Parsed(v, |EncVarint(v)|))
    decreases v
  {
    var b := EncVarint(v) + rest;
    if v >= 128 {
      VarintRoundTrip(v / 128, i + 1, rest);
      assert b[1..] == EncVarint(v / 128) + rest;
    }
  }

  /** The number whose base-128 digits, least significant first, are the low seven bits of each byte. */
  function Digits(b: Bytes): nat {
    if b == [] then 0 else b[0] % 128 + 128 * Digits(b[1..])
  }

  /** A varint is the value's base-128 digits with none to spare; the top bit is set on all but the last. */
  lemma {:induction false} VarintIs(v: nat)
    ensures var b := EncVarint(v); Digits(b) == v && b[|b| - 1] < 128 && (|b| > 1 ==> b[|b| - 1] != 0)
    ensures forall i :: 0 <= i < |EncVarint(v)| - 1 ==> EncVarint(v)[i] >= 128
    decreases v
  {
    if v >= 128 {
      VarintIs(v / 128);
      assert EncVarint(v)[1..] == EncVarint(v / 128);
      assert EncVarint(v)[0] % 128 == v % 128;
    }
  }

  /** Only the bytes of the varint matter. */
  lemma {:induction false} VarintPrefix(b: Bytes, i: nat, rest: Bytes)
    requires i <= 9 && DecVarint(b, i).Some?
    ensures DecVarint(b[..DecVarint(b, i).value.len] + rest, i) == DecVarint(b, i)
    decreases 9 - i
  {
    var n := DecVarint(b, i).value.len;
    var c := b[..n] + rest;
    if i < 9 && b[0] >= 128 {
      VarintPrefix(b[1..], i + 1, rest);
      assert c[1..] == b[1..][..n - 1] + rest;
    }
  }

  /** A varint never reads as zero bytes, and what was read re-encodes to a varint of the same
      value. */
  lemma ValueFits(b: Bytes)
    requires DecVarint(b, 0).Some?
    ensures DecVarint(b, 0).value.value < UINT64
  {
    CapZero();
  }

  // ---------------------------------------------------------------------------------------------
  // Records
  // ---------------------------------------------------------------------------------------------

  function EncTag(num: nat, typ: nat): Bytes
    requires typ < 8
  {
    EncVarint(num * 8 + typ)
  }

  /** A length-delimited value: its bytes, and how many were read with the length. */
  function DecBytes(b: Bytes): (r: Option<(Bytes, nat)>)
    ensures r.Some? ==> 0 < r.value.1 <= |b| && |r.value.0| < r.value.1 && r.value.0 == b[r.value.1 - |r.value.0|..r.value.1]
  {
    match DecVarint(b, 0)
    case None => None
    case Some(p) =>
      if p.value > |b| - p.len then None
      else Some((b[p.len..p.len + p.value], p.len + p.value))
  }

  function EncBytes(v: Bytes): Bytes {
    EncVarint(|v|) + v
  }

  lemma BytesRoundTrip(v: Bytes, rest: Bytes)
    requires |v| < UINT64
    ensures DecBytes(EncBytes(v) + rest) == Some((v, |EncBytes(v)|))
  {
    CapZero();
    assert EncBytes(v) + rest == EncVarint(|v|) + (v + rest);
    VarintRoundTrip(|v|, 0, v + rest);
  }

  lemma BytesPrefix(b: Bytes, rest: Bytes)
    requires DecBytes(b).Some?
    ensures DecBytes(b[..DecBytes(b).value.1] + rest) == DecBytes(b)
  {
    hide DecVarint;
    var p := DecVarint(b, 0).value;
    var n := DecBytes(b).value.1;
    var c := b[..n] + rest;
    VarintPrefix(b, 0, b[p.len..n] + rest);
    Regroup(b, p.len, n, rest);
  }

  lemma Regroup(b: Bytes, k: nat, n: nat, rest: Bytes)
    requires k <= n <= |b|
    ensures b[..n] + rest == b[..k] + (b[k..n] + rest) && (b[..n] + rest)[k..n] == b[k..n]
  {
  }

  /** A tag inside a group: a field number below 1 or above 2^31 - 1 is refused. */
  function DecTag(b: Bytes): (r: Option<(nat, nat, nat)>)
    ensures r.Some? ==> r.value.1 < 8 && 0 < r.value.2 <= |b|
  {
    match DecVarint(b, 0)
    case None => None
    case Some(p) =>
      var num := p.value / 8;
      if num > MAX_INT32 || num < 1 then None else Some((num, p.value % 8, p.len))
  }

  /** How many bytes the value of a field takes; None when it is malformed or nested too deep. */
  function Skip(num: nat, typ: nat, b: Bytes, depth: int): (r: Option<nat>)
    ensures r.Some? ==> r.value <= |b|
    decreases |b|, 1
  {
    if typ == VARINT then if DecVarint(b, 0).Some? then Some(DecVarint(b, 0).value.len) else None
    else if typ == FIXED32 then if |b| < 4 then None else Some(4)
    else if typ == FIXED64 then if |b| < 8 then None else Some(8)
    else if typ == BYTES then if DecBytes(b).Some? then Some(DecBytes(b).value.1) else None
    else if typ == START_GROUP then if depth < 0 then None else SkipGroup(num, b, depth)
    else None
  }

  /** The fields of a group up to and with its end tag. */
  function SkipGroup(num: nat, b: Bytes, depth: int): (r: Option<nat>)
    ensures r.Some? ==> r.value <= |b|
    decreases |b|, 0
  {
    match DecTag(b)
    case None => None
    case Some((num2, typ2, n)) =>
      if typ2 == END_GROUP then if num == num2 then Some(n) else None
      else match Skip(num2, typ2, b[n..], depth - 1)
        case None => None
        case Some(m) =>
          match SkipGroup(num, b[n + m..], depth)
          case None => None
          case Some(k) => Some(n + m + k)
  }

  lemma TagPrefix(b: Bytes, rest: Bytes)
    requires DecTag(b).Some?
    ensures DecTag(b[..DecTag(b).value.2] + rest) == DecTag(b)
  {
    VarintPrefix(b, 0, rest);
  }

  /** Skipping only looks at the bytes it skips. */
  lemma {:induction false} SkipPrefix(num: nat, typ: nat, b: Bytes, depth: int, rest: Bytes)
    requires Skip(num, typ, b, depth).Some?
    ensures Skip(num, typ, b[..Skip(num, typ, b, depth).value] + rest, depth) == Skip(num, typ, b, depth)
    decreases |b|, 1
  {
    if typ == VARINT {
      VarintPrefix(b, 0, rest);
    } else if typ == BYTES {
      BytesPrefix(b, rest);
    } else if typ == START_GROUP {
      GroupPrefix(num, b, depth, rest);
    }
  }

  lemma {:induction false} GroupPrefix(num: nat, b: Bytes, depth: int, rest: Bytes)
    requires SkipGroup(num, b, depth).Some?
    ensures SkipGroup(num, b[..SkipGroup(num, b, depth).value] + rest, depth) == SkipGroup(num, b, depth)
    decreases |b|, 0
  {
    hide DecTag, Skip, DecVarint, SkipGroup;
    var total := SkipGroup(num, b, depth).value;
    var c := b[..total] + rest;
    GroupTag(num, b, depth);
    var (num2, typ2, n) := DecTag(b).value;
    TagPrefix(b, b[n..total] + rest);
    FromPrefix(b, 0, n, total, rest);
    if typ2 == END_GROUP {
      GroupClosed(num, c, depth, n);
    } else {
      GroupUnfold(num, b, depth);
      var m := Skip(num2, typ2, b[n..], depth - 1).value;
      SkipPrefix(num2, typ2, b[n..], depth - 1, b[n + m..total] + rest);
      FromPrefix(b, n, n + m, total, rest);
      GroupPrefix(num, b[n + m..], depth, rest);
      FromPrefix(b, n + m, total, total, rest);
      GroupFold(num, c, depth, num2, typ2, n, m, total - n - m);
    }
  }

  lemma GroupTag(num: nat, b: Bytes, depth: int)
    requires SkipGroup(num, b, depth).Some?
    ensures DecTag(b).Some? && DecTag(b).value.2 <= SkipGroup(num, b, depth).value
    ensures DecTag(b).value.1 == END_GROUP ==> DecTag(b).value.0 == num && SkipGroup(num, b, depth).value == DecTag(b).value.2
  {
    hide Skip, DecTag, DecVarint;
  }

  lemma GroupClosed(num: nat, c: Bytes, depth: int, n: nat)
    requires DecTag(c) == Some((num, END_GROUP, n))
    ensures SkipGroup(num, c, depth) == Some(n)
  {
    hide Skip, DecTag, DecVarint;
  }

  lemma GroupUnfold(num: nat, b: Bytes, depth: int)
    requires SkipGroup(num, b, depth).Some? && DecTag(b).Some? && DecTag(b).value.1 != END_GROUP
    ensures var (num2, typ2, n) := DecTag(b).value;
            Skip(num2, typ2, b[n..], depth - 1).Some?
            && SkipGroup(num, b[n + Skip(num2, typ2, b[n..], depth - 1).value..], depth)
               == Some(SkipGroup(num, b, depth).value - n - Skip(num2, typ2, b[n..], depth - 1).value)
  {
    hide Skip, DecTag, DecVarint;
  }

  lemma GroupFold(num: nat, c: Bytes, depth: int, num2: nat, typ2: nat, n: nat, m: nat, k: nat)
    requires DecTag(c) == Some((num2, typ2, n)) && typ2 != END_GROUP
    requires Skip(num2, typ2, c[n..], depth - 1) == Some(m) && SkipGroup(num, c[n + m..], depth) == Some(k)
    ensures SkipGroup(num, c, depth) == Some(n + m + k)
  {
    hide Skip, DecTag, DecVarint;
  }

  /** What a prefix of b followed by rest looks like from an inner position on. */
  lemma FromPrefix(b: Bytes, lo: nat, mid: nat, total: nat, rest: Bytes)
    requires lo <= mid <= total <= |b|
    ensures (b[..total] + rest)[lo..] == b[lo..][..mid - lo] + (if mid == total then rest else b[mid..total] + rest)
    ensures lo == 0 ==> b[..total] + rest == b[..mid] + (b[mid..total] + rest)
  {
    if mid == total { assert b[mid..total] + rest == rest; }
  }
}
