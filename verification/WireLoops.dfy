/** The loops of raftpb/plain_wire.go and plain_codec.go, each equal to the function that specifies
    it. A slice that only grows or is only cut from the front is a sequence here. */
module WireLoops {
  import opened Types
  import opened Limit
  import opened Wire
  import opened Codec

  /** The value of a bit pattern shifted left by 7 * i. */
  function Pow(i: nat): (p: nat)
    ensures p > 0
  {
    if i == 0 then 1 else 128 * Pow(i - 1)
  }

  /** What the whole varint is once its first i bytes were read as v and the rest reads as tail. */
  function Grown(v: nat, i: nat, tail: Option<Parsed>): Option<Parsed> {
    match tail
    case None => None
    case Some(p) => Some(Parsed(v + p.value * Pow(i), p.len + i))
  }

  /** One byte read by the loop at position i: its sum stays within 64 bits, and either it was the
      last byte or its top bit is taken off again. */
  lemma VarintStep(b: Bytes, v: nat, i: nat)
    requires i < 9 && i < |b| && v < Pow(i)
    ensures v + b[i] * Pow(i) < UINT64
    ensures b[i] < 128 ==> Grown(v, i, DecVarint(b[i..], i)) == Some(Parsed(v + b[i] * Pow(i), i + 1))
    ensures b[i] >= 128 ==> 0 <= v + b[i] * Pow(i) - 128 * Pow(i) < Pow(i + 1)
    ensures b[i] >= 128 ==> Grown(v, i, DecVarint(b[i..], i))
                            == Grown(v + b[i] * Pow(i) - 128 * Pow(i), i + 1, DecVarint(b[i + 1..], i + 1))
  {
    PowFits(i);
    Below(v, b[i], Pow(i));
    assert Pow(i + 1) == 128 * Pow(i);
    if b[i] >= 128 {
      Minus(b[i], Pow(i));
      Below(v, b[i] - 128, Pow(i));
      GrownNext(b, v, i);
    }
  }

  lemma GrownNext(b: Bytes, v: nat, i: nat)
    requires i < 9 && i < |b| && b[i] >= 128
    ensures Grown(v, i, DecVarint(b[i..], i)) == Grown(v + (b[i] - 128) * Pow(i), i + 1, DecVarint(b[i + 1..], i + 1))
  {
    assert b[i..][1..] == b[i + 1..];
    var tail := DecVarint(b[i + 1..], i + 1);
    if tail.Some? { Distribute(b[i] - 128, tail.value.value, Pow(i)); }
  }

  lemma PowFits(i: nat)
    requires i <= 8
    ensures 256 * Pow(i) <= UINT64
  {
    assert Pow(0) == 1 && Pow(1) == 0x80 && Pow(2) == 0x4000 && Pow(3) == 0x20_0000 && Pow(4) == 0x1000_0000;
    assert Pow(5) == 0x8_0000_0000 && Pow(6) == 0x400_0000_0000 && Pow(7) == 0x2_0000_0000_0000;
    assert Pow(8) == 0x100_0000_0000_0000;
  }

  lemma Distribute(a: nat, b: nat, c: nat)
    ensures (a + 128 * b) * c == a * c + b * (128 * c)
  {
  }

  lemma Below(v: nat, y: nat, p: nat)
    requires v < p && y < 256
    ensures v + y * p < 256 * p
    ensures y < 128 ==> v + y * p < 128 * p
  {
    assert (255 - y) * p >= 0;
    if y < 128 { assert (127 - y) * p >= 0; }
  }

  lemma Minus(y: nat, p: nat)
    requires y >= 128
    ensures y * p - 128 * p == (y - 128) * p >= 0
  {
  }

  /** The tenth byte is refused from 2 on, which is when its sum would leave 64 bits. */
  lemma VarintTenth(b: Bytes, v: nat)
    requires 9 < |b| && v < Pow(9)
    ensures v + b[9] * Pow(9) < UINT64 <==> b[9] < 2
    ensures Grown(v, 9, DecVarint(b[9..], 9)) == if b[9] < 2 then Some(Parsed(v + b[9] * Pow(9), 10)) else None
  {
    PowFits(8);
    assert Pow(9) == 0x8000_0000_0000_0000;
  }

  /** A sum of 64-bit words. */
  function Word(x: nat): (w: nat)
    ensures w < UINT64 && (x < UINT64 ==> w == x)
  {
    x % UINT64
  }

  /** consumeVarint: the length is negative when the varint is cut short or does not fit in 64 bits.
      Sums wrap around at 64 bits; only that of a tenth byte that is refused does. */
  method ConsumeVarint(b: Bytes) returns (v: nat, n: int)
    ensures DecVarint(b, 0) == (if n < 0 then None else Some(Parsed(v, n)))
  {
    hide Pow, DecVarint, Word;
    VarintStart(b);
    v, n := 0, -1;
    var i := 0;
    while i < 10
      invariant 0 <= i <= 9 && i <= |b| && v < Pow(i)
      invariant DecVarint(b, 0) == Grown(v, i, DecVarint(b[i..], i))
    {
      if |b| <= i {
        VarintEmpty(i);
        return 0, -1;
      }
      var y := b[i];
      if i == 9 {
        VarintTenth(b, v);
        v := Word(v + y * Pow(9));
        if y < 2 { return v, 10; }
        return 0, -1;
      }
      VarintStep(b, v, i);
      v := Word(v + y * Pow(i));
      if y < 0x80 { return v, i + 1; }
      v := v - 0x80 * Pow(i);
      i := i + 1;
    }
    n := -1;
  }

  lemma VarintStart(b: Bytes)
    ensures Pow(0) == 1 && b[0..] == b && Grown(0, 0, DecVarint(b, 0)) == DecVarint(b, 0)
  {
  }

  lemma VarintEmpty(i: nat)
    requires i <= 9
    ensures DecVarint([], i) == None
  {
  }

  /** sizeVarint. */
  method SizeVarint(v: nat) returns (n: nat)
    requires v < UINT64
    ensures n == VarintSize(v)
  {
    CapZero();
    var w: nat, i: nat := v, 0;
    n := 1;
    while i < 9 && w >= 0x80
      invariant 0 <= i <= 9 && w < Cap(i)
      invariant VarintSize(v) == n - 1 + VarintSize(w)
    {
      w := w / 128;
      n := n + 1;
      i := i + 1;
    }
  }

  /** appendVarint. */
  method AppendVarint(b: Bytes, v: nat) returns (r: Bytes)
    requires v < UINT64
    ensures r == b + EncVarint(v)
  {
    CapZero();
    var w: nat, i: nat := v, 0;
    r := b;
    while i < 9 && w >= 0x80
      invariant 0 <= i <= 9 && w < Cap(i)
      invariant r + EncVarint(w) == b + EncVarint(v)
    {
      assert EncVarint(w) == [w % 128 + 128] + EncVarint(w / 128);
      r := r + [w % 128 + 128];
      w := w / 128;
      i := i + 1;
    }
    r := r + [w];
  }

  /** The one-byte and two-byte fast paths in front of consumeVarint agree with it. */
  method FastVarint(b: Bytes) returns (v: nat, n: int)
    ensures DecVarint(b, 0) == (if n < 0 then None else Some(Parsed(v, n)))
  {
    if |b| >= 1 && b[0] < 0x80 {
      return b[0], 1;
    } else if |b| >= 2 && b[1] < 128 {
      assert DecVarint(b[1..], 1) == Some(Parsed(b[1], 1));
      v := b[1];
      v := b[0] % 128 + v * 128;
      return v, 2;
    } else {
      v, n := ConsumeVarint(b);
    }
  }

  /** consumeBytes. */
  method ConsumeBytes(b: Bytes) returns (v: Bytes, n: int)
    ensures DecBytes(b) == (if n < 0 then None else Some((v, n)))
  {
    var m, k := ConsumeVarint(b);
    if k < 0 { return [], -1; }
    if m > |b| - k { return [], -1; }
    return b[k..k + m], k + m;
  }

  /** consumeTag. */
  method ConsumeTag(b: Bytes) returns (num: nat, typ: nat, n: int)
    ensures DecTag(b) == (if n < 0 then None else Some((num, typ, n)))
    ensures n >= 0 ==> 0 < n <= |b|
  {
    var v, k := ConsumeVarint(b);
    if k < 0 { return 0, 0, -1; }
    if v / 8 > MAX_INT32 || v / 8 < 1 { return 0, 0, -1; }
    return v / 8, v % 8, k;
  }

  /** The outcome of a skip whose first `done` bytes are behind. */
  function Behind(done: nat, r: Option<nat>): Option<nat> {
    if r.None? then None else Some(done + r.value)
  }

  lemma GroupStep(num: nat, b: Bytes, depth: int, num2: nat, typ2: nat, k: nat, m: nat)
    requires DecTag(b) == Some((num2, typ2, k)) && typ2 != END_GROUP && Skip(num2, typ2, b[k..], depth - 1) == Some(m)
    ensures SkipGroup(num, b, depth) == Behind(k + m, SkipGroup(num, b[k..][m..], depth))
  {
    hide Skip, DecTag;
    assert b[k..][m..] == b[k + m..];
  }

  lemma SkipCases(num: nat, typ: nat, b: Bytes, depth: int)
    ensures Skip(num, VARINT, b, depth) == if DecVarint(b, 0).Some? then Some(DecVarint(b, 0).value.len) else None
    ensures Skip(num, FIXED32, b, depth) == if |b| < 4 then None else Some(4)
    ensures Skip(num, FIXED64, b, depth) == if |b| < 8 then None else Some(8)
    ensures Skip(num, BYTES, b, depth) == if DecBytes(b).Some? then Some(DecBytes(b).value.1) else None
    ensures Skip(num, START_GROUP, b, depth) == if depth < 0 then None else Behind(0, SkipGroup(num, b, depth))
    ensures typ !in {VARINT, FIXED32, FIXED64, BYTES, START_GROUP} ==> Skip(num, typ, b, depth) == None
  {
    hide SkipGroup, DecVarint, DecBytes;
  }

  predicate TagFails(num: nat, b: Bytes, depth: int) {
    match DecTag(b)
    case None => true
    case Some((num2, typ2, k)) =>
      if typ2 == END_GROUP then num != num2 else Skip(num2, typ2, b[k..], depth - 1) == None
  }

  lemma GroupEnds(num: nat, b: Bytes, depth: int)
    ensures b == [] || TagFails(num, b, depth) ==> SkipGroup(num, b, depth) == None
    ensures DecTag(b).Some? && DecTag(b).value.1 == END_GROUP && DecTag(b).value.0 == num ==>
              SkipGroup(num, b, depth) == Some(DecTag(b).value.2)
  {
    hide Skip;
  }

  /** consumeFieldValueD: the fields of a group are skipped in a loop, nested groups by recursion. */
  method ConsumeFieldValue(num: nat, typ: nat, b: Bytes, depth: int) returns (n: int)
    ensures Skip(num, typ, b, depth) == (if n < 0 then None else Some(n))
    decreases |b|, 1
  {
    hide Skip, SkipGroup, DecTag, DecVarint, DecBytes;
    SkipCases(num, typ, b, depth);
    if typ == VARINT {
      var v;
      v, n := ConsumeVarint(b);
      return;
    }
    if typ == FIXED32 { return if |b| < 4 then -1 else 4; }
    if typ == FIXED64 { return if |b| < 8 then -1 else 8; }
    if typ == BYTES {
      var v;
      v, n := ConsumeBytes(b);
      return;
    }
    if typ == START_GROUP {
      if depth < 0 { return -1; }
      var rest := b;
      while |rest| > 0
        invariant |rest| <= |b| && Skip(num, typ, b, depth) == Behind(|b| - |rest|, SkipGroup(num, rest, depth))
        decreases |rest|
      {
        GroupEnds(num, rest, depth);
        var num2, typ2, k := ConsumeTag(rest);
        if k < 0 { return -1; }
        if typ2 == END_GROUP {
          if num != num2 { return -1; }
          return |b| - |rest[k..]|;
        }
        var m := ConsumeFieldValue(num2, typ2, rest[k..], depth - 1);
        if m < 0 { return -1; }
        GroupStep(num, rest, depth, num2, typ2, k, m);
        rest := rest[k..][m..];
      }
      GroupEnds(num, rest, depth);
      return -1;
    }
    return -1;
  }

  /** consumePackedUint64, over the payload of the record: the numbers are appended to s. */
  method ConsumePacked(b: Bytes, s: seq<nat>) returns (out: seq<nat>, ok: bool)
    ensures ok == Packed(b).Some?
    ensures out == if ok then s + Packed(b).value else s
  {
    hide Packed, DecVarint;
    var p := b;
    out := s;
    PackedEnds(s, b);
    while |p| > 0
      invariant Appended(s, Packed(b)) == Appended(out, Packed(p))
      decreases |p|
    {
      var v, k := FastVarint(p);
      PackedStep(out, p);
      if k < 0 { return s, false; }
      out := out + [v];
      p := p[k..];
    }
    PackedEnds(out, p);
    return out, true;
  }

  function Appended(s: seq<nat>, r: Option<seq<nat>>): Option<seq<nat>> {
    if r.None? then None else Some(s + r.value)
  }

  lemma PackedEnds(s: seq<nat>, b: Bytes)
    ensures b == [] ==> Appended(s, Packed(b)) == Some(s)
  {
    if b == [] { assert s + [] == s; }
  }

  lemma PackedStep(s: seq<nat>, b: Bytes)
    requires b != []
    ensures DecVarint(b, 0).None? ==> Packed(b).None?
    ensures DecVarint(b, 0).Some? ==>
              Appended(s, Packed(b)) == Appended(s + [DecVarint(b, 0).value.value], Packed(b[DecVarint(b, 0).value.len..]))
  {
    hide DecVarint;
    if DecVarint(b, 0).Some? {
      var p := DecVarint(b, 0).value;
      var later := Packed(b[p.len..]);
      if later.Some? { assert s + ([p.value] + later.value) == s + [p.value] + later.value; }
    }
  }

  // ---------------------------------------------------------------------------------------------
  // Messages
  // ---------------------------------------------------------------------------------------------

  /** UnmarshalMessage: one field of the buffer after the other is stored in the receiver, merged into
      it, or retained. */
  method UnmarshalMessage(x: Msg, b: Bytes, depth: int) returns (r: Res)
    requires depth >= 0
    ensures r == Decode(x, b, depth)
    decreases |b|, 2
  {
    hide Skip, DecVarint, Take, EncTag;
    var d := depth - 1;
    if d < 0 { return TooDeep; }
    var m, rest := x, b;
    while |rest| > 0
      invariant |rest| <= |b|
      invariant Loop(m, rest, d) == Decode(x, b, depth)
      decreases |rest|
    {
      var tag, k := FastVarint(rest);
      if k < 0 { return Malformed; }
      var num, typ := tag / 8, tag % 8;
      if num < 1 || num > MAX_FIELD || typ == END_GROUP { return Malformed; }
      rest := rest[k..];
      var taken := TakeField(m, num, typ, rest, d);
      match taken
      case Failed(e) => return e;
      case Took(m1, n) =>
        if n > |rest| { return Malformed; }
        m, rest := m1, rest[n..];
      case NotTaken =>
        var n := ConsumeFieldValue(num, typ, rest, RECURSION_LIMIT);
        if n < 0 { return Malformed; }
        var tagBytes := AppendTag(m.unknown, num, typ);
        m := m.(unknown := tagBytes + rest[..n]);
        rest := rest[n..];
    }
    return Done(m);
  }

  method AppendTag(b: Bytes, num: nat, typ: nat) returns (r: Bytes)
    requires num <= MAX_INT32 && typ < 8
    ensures r == b + EncTag(num, typ)
  {
    r := AppendVarint(b, num * 8 + typ);
  }

  method TakeField(m: Msg, num: nat, typ: nat, b: Bytes, d: nat) returns (r: Taken)
    ensures r == Take(m, num, typ, b, d)
    decreases |b|, 3
  {
    hide Decode, Packed, DecVarint;
    var i := Index(m.t, num);
    if i.None? { return NotTaken; }
    var k := Fields(m.t)[i.value].kind;
    if i.value >= |m.slots| || !Accepts(k, typ) { return NotTaken; }
    var s := m.slots[i.value];
    if typ == VARINT {
      var v, n := FastVarint(b);
      if n < 0 { return Failed(Malformed); }
      return Took(WithSlot(m, i.value, WithVarint(k, s, v)), n);
    }
    var v, n := ConsumeBytes(b);
    if n < 0 { return Failed(Malformed); }
    match k {
      case Data => return Took(WithSlot(m, i.value, Raw(v)), n);
      case U64s =>
        var vs, ok := ConsumePacked(v, if s.Nums? then s.ns else []);
        return if ok then Took(WithSlot(m, i.value, Nums(vs)), n) else Failed(Malformed);
      case Sub(t) =>
        var x := UnmarshalMessage(if s.One? then s.m else Empty(t), v, d);
        return if x.Done? then Took(WithSlot(m, i.value, One(x.m)), n) else Failed(x);
      case Subs(t) =>
        var x := UnmarshalMessage(Empty(t), v, d);
        return if x.Done? then Took(WithSlot(m, i.value, Many((if s.Many? then s.ms else []) + [x.m])), n) else Failed(x);
      case _ => return NotTaken;
    }
  }
}
