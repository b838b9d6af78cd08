/** How long a decoded message is when it is encoded again: at most twice what was decoded. Packed
    numbers are written one by one, negative enum values in ten bytes, and the length of a submessage may
    take a byte more; everything else takes no more than it did. */
module CodecBound {
  import opened Types
  import opened Limit
  import opened Wire
  import opened Codec

  // ---------------------------------------------------------------------------------------------
  // Varints
  // ---------------------------------------------------------------------------------------------

  /** Doubling adds at most a byte. */
  lemma {:induction false} SizeDoubles(x: nat, y: nat)
    requires y <= 2 * x + 1
    ensures VarintSize(y) <= VarintSize(x) + 1
    decreases x
  {
    if y >= 128 && x >= 128 {
      SizeDoubles(x / 128, y / 128);
    } else if y >= 128 {
      assert y / 128 < 128;
    }
  }

  lemma {:induction false} SizeGrows(x: nat, y: nat)
    requires x <= y
    ensures 1 <= VarintSize(x) <= VarintSize(y)
    decreases y
  {
    if x >= 128 {
      SizeGrows(x / 128, y / 128);
    } else if y >= 128 {
      SizeGrows(0, y / 128);
    }
  }

  /** The encoding is the shortest there is. */
  lemma {:induction false} Shortest(b: Bytes, i: nat)
    requires i <= 9 && DecVarint(b, i).Some?
    ensures VarintSize(DecVarint(b, i).value.value) <= DecVarint(b, i).value.len
    decreases 9 - i
  {
    if i < 9 && b[0] >= 128 {
      Shortest(b[1..], i + 1);
      var p, q := DecVarint(b, i).value, DecVarint(b[1..], i + 1).value;
      assert p.value == b[0] - 128 + 128 * q.value && p.value / 128 == q.value;
    }
  }

  lemma WordSize(v: nat)
    requires v < UINT64
    ensures VarintSize(v) <= 10
  {
    SizeGrows(v, UINT64 - 1);
    assert VarintSize(0x1) == 1 && VarintSize(0xFF) == 2 && VarintSize(0x7FFF) == 3 && VarintSize(0x3F_FFFF) == 4;
    assert VarintSize(0x1FFF_FFFF) == 5 && VarintSize(0xF_FFFF_FFFF) == 6 && VarintSize(0x7FF_FFFF_FFFF) == 7;
    assert VarintSize(0x3_FFFF_FFFF_FFFF) == 8 && VarintSize(0x1FF_FFFF_FFFF_FFFF) == 9;
    assert VarintSize(0xFFFF_FFFF_FFFF_FFFF) == 10;
  }

  /** An enum value was read from half as many bytes as it is written in, or more. */
  lemma EnumSize(v: nat)
    ensures VarintSize(EncEnum(DecEnum(v))) <= 2 * VarintSize(v)
  {
    var i := DecEnum(v);
    if i < 0 {
      WordSize(EncEnum(i));
      assert v >= 0x8000_0000;
      SizeGrows(0x8000_0000, v);
      assert VarintSize(0x8) == 1 && VarintSize(0x400) == 2 && VarintSize(0x2_0000) == 3 && VarintSize(0x100_0000) == 4;
      assert VarintSize(0x8000_0000) == 5;
    } else {
      SizeGrows(i, v);
    }
  }

  // ---------------------------------------------------------------------------------------------
  // Slots
  // ---------------------------------------------------------------------------------------------

  /** What one field takes. */
  function SlotSize(s: Slot): nat {
    match s
    case Unset => 0
    case Int(v) => 1 + VarintSize(EncEnum(v))
    case Num(v) => 1 + VarintSize(v)
    case Bit(v) => 1 + VarintSize(if v then 1 else 0)
    case Raw(v) => 1 + SizeBytes(|v|)
    case Nums(vs) => SizeNums(vs)
    case One(x) => 1 + SizeBytes(Size(x))
    case Many(xs) => SizeMany(xs)
  }

  lemma SizeStep(m: Msg, i: nat)
    requires i < |m.slots| && i < |Fields(m.t)|
    ensures SizeSlots(m, i) == SlotSize(m.slots[i]) + SizeSlots(m, i + 1)
  {
  }

  /** Setting one field changes the size by what that field takes. */
  lemma {:induction false} SetSize(m: Msg, i: nat, s: Slot, j: nat)
    requires i < |m.slots| && i < |Fields(m.t)|
    ensures SizeSlots(WithSlot(m, i, s), j) + (if j <= i then SlotSize(m.slots[i]) else 0)
            == SizeSlots(m, j) + if j <= i then SlotSize(s) else 0
    decreases if j <= |m.slots| then |m.slots| - j else 0
  {
    hide SlotSize;
    if j < |m.slots| && j < |Fields(m.t)| {
      SizeStep(m, j);
      SizeStep(WithSlot(m, i, s), j);
      SetSize(m, i, s, j + 1);
    }
  }

  lemma NoFields(m: Msg, j: nat)
    ensures j >= |Fields(m.t)| ==> SizeSlots(m, j) == 0
  {
  }

  lemma EmptySize(t: TypeId)
    ensures Size(Empty(t)) == 0
  {
    EmptyFrom(t, 0);
  }

  lemma {:induction false} EmptyFrom(t: TypeId, j: nat)
    ensures SizeSlots(Empty(t), j) == 0
    decreases if j <= |Fields(t)| then |Fields(t)| - j else 0
  {
    hide Fields, SizeSlots;
    NoFields(Empty(t), j);
    if j < |Fields(t)| {
      SizeStep(Empty(t), j);
      EmptyFrom(t, j + 1);
    }
  }

  lemma {:induction false} NumsSize(a: seq<nat>, b: seq<nat>)
    ensures SizeNums(a + b) == SizeNums(a) + SizeNums(b)
  {
    if a == [] {
      assert a + b == b;
    } else {
      NumsSize(a[1..], b);
      assert (a + b)[1..] == a[1..] + b;
    }
  }

  lemma {:induction false} ManySize(xs: seq<Msg>, x: Msg)
    ensures SizeMany(xs + [x]) == SizeMany(xs) + 1 + SizeBytes(Size(x))
    decreases |xs|
  {
    hide Size;
    if xs == [] {
      assert xs + [x] == [x] && [x][1..] == [];
    } else {
      ManySize(xs[1..], x);
      assert (xs + [x])[1..] == xs[1..] + [x];
    }
  }

  lemma {:induction false} PackedSize(p: Bytes)
    requires Packed(p).Some?
    ensures SizeNums(Packed(p).value) <= 2 * |p|
    decreases |p|
  {
    hide DecVarint;
    if p != [] {
      var v := DecVarint(p, 0).value;
      Shortest(p, 0);
      PackedSize(p[v.len..]);
      assert ([v.value] + Packed(p[v.len..]).value)[1..] == Packed(p[v.len..]).value;
    }
  }

  // ---------------------------------------------------------------------------------------------
  // Decoding
  // ---------------------------------------------------------------------------------------------

  /** Decoding adds at most twice what it reads. */
  lemma {:induction false} DecodeSize(m: Msg, b: Bytes, d: nat)
    requires Decode(m, b, d).Done?
    ensures Size(Decode(m, b, d).m) <= Size(m) + 2 * |b|
    decreases |b|, 2
  {
    hide Loop, Size;
    LoopSize(m, b, d - 1);
  }

  lemma {:induction false} LoopSize(m: Msg, b: Bytes, d: nat)
    requires Loop(m, b, d).Done?
    ensures Size(Loop(m, b, d).m) <= Size(m) + 2 * |b|
    decreases |b|, 1
  {
    hide Take, Skip, DecVarint, Size;
    if b != [] {
      var p := DecVarint(b, 0).value;
      var num, typ, rest := p.value / 8, p.value % 8, b[p.len..];
      var taken := Take(m, num, typ, rest, d);
      Shortest(b, 0);
      if taken.Took? {
        TakeSize(m, num, typ, rest, d);
        LoopSize(taken.m, rest[taken.len..], d);
      } else {
        var n := Skip(num, typ, rest, RECURSION_LIMIT).value;
        var m1 := m.(unknown := m.unknown + EncTag(num, typ) + rest[..n]);
        RetainSize(m, m1.unknown);
        assert |EncTag(num, typ)| <= p.len;
        LoopSize(m1, rest[n..], d);
      }
    }
  }

  lemma RetainSize(m: Msg, u: Bytes)
    ensures Size(m.(unknown := u)) == Size(m) - |m.unknown| + |u|
  {
    SlotsAlone(m, m.(unknown := u), 0);
  }

  lemma {:induction false} SlotsAlone(m: Msg, m': Msg, j: nat)
    requires m'.t == m.t && m'.slots == m.slots
    ensures SizeSlots(m', j) == SizeSlots(m, j)
    decreases if j <= |m.slots| then |m.slots| - j else 0
  {
    hide SlotSize;
    if j < |m.slots| && j < |Fields(m.t)| {
      SizeStep(m, j);
      SizeStep(m', j);
      SlotsAlone(m, m', j + 1);
    }
  }

  lemma {:induction false} TakeSize(m: Msg, num: nat, typ: nat, b: Bytes, d: nat)
    requires Take(m, num, typ, b, d).Took?
    ensures Size(Take(m, num, typ, b, d).m) <= Size(m) + 2 + 2 * Take(m, num, typ, b, d).len
    decreases |b|, 3
  {
    hide DecVarint, TakeBytes, WithVarint, SlotSize;
    var i := Index(m.t, num).value;
    var k := Fields(m.t)[i].kind;
    if typ == VARINT {
      var p := DecVarint(b, 0).value;
      Shortest(b, 0);
      VarintSlotSize(k, m.slots[i], p.value);
      SetSize(m, i, WithVarint(k, m.slots[i], p.value), 0);
    } else {
      var (v, n) := DecBytes(b).value;
      LengthSize(b);
      TakeBytesSize(m, i, v, n, d);
    }
  }

  lemma VarintSlotSize(k: Kind, s: Slot, v: nat)
    requires VarintKind(k)
    ensures SlotSize(WithVarint(k, s, v)) <= SlotSize(s) + 1 + 2 * VarintSize(v)
  {
    SizeGrows(0, v);
    match k
    case Enum => EnumSize(v);
    case U64s =>
      NumsSize(if s.Nums? then s.ns else [], [v]);
      assert [v][1..] == [];
    case _ =>
  }

  lemma LengthSize(b: Bytes)
    requires DecBytes(b).Some?
    ensures SizeBytes(|DecBytes(b).value.0|) <= DecBytes(b).value.1
  {
    Shortest(b, 0);
  }

  lemma {:induction false} TakeBytesSize(m: Msg, i: nat, v: Bytes, n: nat, d: nat)
    requires i < |m.slots| && i < |Fields(m.t)| && SizeBytes(|v|) <= n
    requires TakeBytes(m, i, Fields(m.t)[i].kind, v, n, d).Took?
    ensures TakeBytes(m, i, Fields(m.t)[i].kind, v, n, d).len == n
    ensures Size(TakeBytes(m, i, Fields(m.t)[i].kind, v, n, d).m) <= Size(m) + 2 + 2 * n
    decreases |v|, 4
  {
    hide Decode, Packed;
    var k, s := Fields(m.t)[i].kind, m.slots[i];
    var s' := TakeBytes(m, i, k, v, n, d).m.slots[i];
    match k {
      case Data =>
      case U64s =>
        PackedSize(v);
        NumsSize(if s.Nums? then s.ns else [], Packed(v).value);
      case Sub(t) =>
        var into := if s.One? then s.m else Empty(t);
        DecodeSize(into, v, d);
        EmptySize(t);
        SubSize(Size(into), Size(s'.m), |v|);
      case Subs(t) =>
        DecodeSize(Empty(t), v, d);
        EmptySize(t);
        SubSize(0, Size(Decode(Empty(t), v, d).m), |v|);
        ManySize(if s.Many? then s.ms else [], Decode(Empty(t), v, d).m);
    }
    assert SlotSize(s') <= SlotSize(s) + 2 + 2 * n;
    SetSize(m, i, s', 0);
  }

  /** The length of a submessage that grows may take one byte more than the lengths it grows from. */
  lemma SubSize(a: nat, c: nat, n: nat)
    requires c <= a + 2 * n
    ensures SizeBytes(c) <= (if a == 0 then 0 else SizeBytes(a)) + 1 + 2 * SizeBytes(n)
    ensures SizeBytes(c) <= SizeBytes(a) + 1 + 2 * SizeBytes(n)
  {
    SizeDoubles(n, 2 * n);
    SizeGrows(0, n);
    SizeGrows(0, a);
    if a >= 2 * n {
      SizeDoubles(a, c);
    } else {
      SizeDoubles(2 * n, c);
    }
    if a == 0 { SizeGrows(c, 2 * n); }
  }
}
