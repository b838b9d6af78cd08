/** SizeMessage, MarshalAppend, mergeMessage and EqualMessage as the generated code runs them, field
    after field, with a loop over every repeated field. */
module MessageLoops {
  import opened Types
  import opened Wire
  import opened Codec
  import opened CodecRoundTrip
  import opened WireLoops
  import opened UnknownFields

  // ---------------------------------------------------------------------------------------------
  // Size and encoding
  // ---------------------------------------------------------------------------------------------

  predicate SlotFits(s: Slot) {
    match s
    case Int(i) => MIN_INT32 <= i <= MAX_INT32
    case Num(n) => n < UINT64
    case Nums(ns) => AllFit(ns)
    case _ => true
  }

  /** What a caller of Marshal has in hand: values of the fields' widths, and lengths that fit. */
  predicate Fits(m: Msg)
    decreases m, 0
  {
    && |Enc(m)| < UINT64 && |m.slots| == |Fields(m.t)|
    && forall i :: 0 <= i < |m.slots| ==> SlotFits(m.slots[i]) && FitsIn(m.slots[i])
  }

  predicate FitsIn(s: Slot)
    decreases s, 1
  {
    match s
    case Raw(v) => |v| < UINT64
    case One(x) => Fits(x)
    case Many(xs) => forall x :: x in xs ==> Fits(x)
    case _ => true
  }

  /** SizeMessage adds up exactly the bytes MarshalAppend will append. */
  method SizeMessage(m: Msg) returns (n: nat)
    requires Fits(m)
    ensures n == |Enc(m)|
    decreases m, 1
  {
    hide EncSlots, Enc, Fits, FitsIn, Here;
    FitsFacts(m);
    n := 0;
    for i := 0 to |m.slots|
      invariant n + |EncSlots(m, i)| == |EncSlots(m, 0)|
    {
      FitsSlot(m, i);
      EncSplit(m, i);
      var k := SizeField(m, i);
      n := n + k;
    }
    EncSlotsEnd(m);
    n := n + |m.unknown|;
  }

  lemma FitsFacts(m: Msg)
    requires Fits(m)
    ensures |m.slots| == |Fields(m.t)| && Enc(m) == EncSlots(m, 0) + m.unknown && |Enc(m)| < UINT64
  {
  }

  lemma FitsSlot(m: Msg, i: nat)
    requires Fits(m) && i < |m.slots|
    ensures SlotFits(m.slots[i]) && FitsIn(m.slots[i])
  {
  }

  lemma TagSizes(t: TypeId, i: nat)
    requires i < |Fields(t)|
    ensures |EncTag(Fields(t)[i].num, VARINT)| == 1 == |EncTag(Fields(t)[i].num, BYTES)|
    ensures Fields(t)[i].num <= MAX_FIELD
  {
  }

  method SizeField(m: Msg, i: nat) returns (n: nat)
    requires i < |m.slots| == |Fields(m.t)| && SlotFits(m.slots[i]) && FitsIn(m.slots[i])
    ensures n == |Here(m, i)|
    decreases m, 0
  {
    hide EncTag, EncVarint, Enc, Fits;
    TagSizes(m.t, i);
    match m.slots[i] {
      case Unset => n := 0;
      case Int(v) => EnumBack(v); n := SizeVarint(EncEnum(v)); n := 1 + n;
      case Num(v) => n := SizeVarint(v); n := 1 + n;
      case Bit(v) => n := SizeVarint(if v then 1 else 0); n := 1 + n;
      case Raw(v) => n := SizeVarint(|v|); n := 1 + n + |v|;
      case Nums(vs) =>
        n := 0;
        ghost var num := Fields(m.t)[i].num;
        for j := 0 to |vs|
          invariant n + |EncNums(num, vs[j..])| == |EncNums(num, vs)|
        {
          assert vs[j..][1..] == vs[j + 1..];
          var k := SizeVarint(vs[j]);
          n := n + 1 + k;
        }
      case One(x) =>
        FitsFacts(x);
        var k := SizeMessage(x);
        n := SizeVarint(k);
        n := 1 + n + k;
      case Many(xs) =>
        n := 0;
        ghost var num := Fields(m.t)[i].num;
        for j := 0 to |xs|
          invariant n + |EncMany(num, xs[j..])| == |EncMany(num, xs)|
        {
          assert xs[j..][1..] == xs[j + 1..];
          assert xs[j] in xs;
          FitsFacts(xs[j]);
          var k := SizeMessage(xs[j]);
          var l := SizeVarint(k);
          n := n + 1 + l + k;
        }
    }
  }

  /** MarshalAppend: the fields in number order, then the retained bytes. */
  method MarshalAppend(m: Msg, b: Bytes) returns (r: Bytes)
    requires Fits(m)
    ensures r == b + Enc(m)
    decreases m, 1
  {
    hide EncSlots, Enc, Fits, FitsIn, Here;
    FitsFacts(m);
    r := b;
    for i := 0 to |m.slots|
      invariant r + EncSlots(m, i) == b + EncSlots(m, 0)
    {
      FitsSlot(m, i);
      EncSplit(m, i);
      assert r + (Here(m, i) + EncSlots(m, i + 1)) == r + Here(m, i) + EncSlots(m, i + 1);
      r := MarshalField(m, i, r);
    }
    EncSlotsEnd(m);
    assert r + [] == r;
    r := r + m.unknown;
  }

  method MarshalField(m: Msg, i: nat, b: Bytes) returns (r: Bytes)
    requires i < |m.slots| == |Fields(m.t)| && SlotFits(m.slots[i]) && FitsIn(m.slots[i])
    ensures r == b + Here(m, i)
    decreases m, 0
  {
    hide EncTag, EncVarint, Enc, Fits, EncMany, EncNums, EncBytes;
    TagSizes(m.t, i);
    var num := Fields(m.t)[i].num;
    match m.slots[i] {
      case Unset => r := b; assert b + [] == b;
      case Int(v) => EnumBack(v); r := MarshalVarint(num, EncEnum(v), b);
      case Num(v) => r := MarshalVarint(num, v, b);
      case Bit(v) => r := MarshalVarint(num, if v then 1 else 0, b);
      case Raw(v) => r := MarshalLength(num, |v|, b); JoinLength(b, num, v); r := r + v;
      case Nums(vs) => r := MarshalNums(num, vs, b);
      case One(x) => r := MarshalOne(num, x, b);
      case Many(xs) => r := MarshalMany(num, xs, b);
    }
  }

  method MarshalVarint(num: nat, v: nat, b: Bytes) returns (r: Bytes)
    requires num <= MAX_FIELD && v < UINT64
    ensures r == b + (EncTag(num, VARINT) + EncVarint(v))
  {
    hide EncTag, EncVarint;
    r := AppendTag(b, num, VARINT);
    r := AppendVarint(r, v);
  }

  method MarshalLength(num: nat, n: nat, b: Bytes) returns (r: Bytes)
    requires num <= MAX_FIELD && n < UINT64
    ensures r == b + (EncTag(num, BYTES) + EncVarint(n))
  {
    hide EncTag, EncVarint;
    r := AppendTag(b, num, BYTES);
    r := AppendVarint(r, n);
  }

  lemma JoinLength(b: Bytes, num: nat, v: Bytes)
    ensures b + (EncTag(num, BYTES) + EncVarint(|v|)) + v == b + (EncTag(num, BYTES) + EncBytes(v))
  {
    hide EncTag, EncVarint;
  }

  lemma Assoc(a: Bytes, b: Bytes, c: Bytes)
    ensures a + b + c == a + (b + c)
  {
  }

  method MarshalNums(num: nat, vs: seq<nat>, b: Bytes) returns (r: Bytes)
    requires num <= MAX_FIELD && AllFit(vs)
    ensures r == b + EncNums(num, vs)
  {
    hide EncTag, EncVarint;
    r := b;
    for j := 0 to |vs|
      invariant r + EncNums(num, vs[j..]) == b + EncNums(num, vs)
    {
      assert vs[j..][1..] == vs[j + 1..];
      Assoc(r, EncTag(num, VARINT) + EncVarint(vs[j]), EncNums(num, vs[j + 1..]));
      r := MarshalVarint(num, vs[j], r);
    }
  }

  method MarshalOne(num: nat, x: Msg, b: Bytes) returns (r: Bytes)
    requires num <= MAX_FIELD && Fits(x)
    ensures r == b + (EncTag(num, BYTES) + EncBytes(Enc(x)))
    decreases x, 2
  {
    hide EncTag, EncVarint, Enc, Fits, EncBytes;
    FitsFacts(x);
    var k := SizeMessage(x);
    r := MarshalLength(num, k, b);
    JoinLength(b, num, Enc(x));
    r := MarshalAppend(x, r);
  }

  method MarshalMany(num: nat, xs: seq<Msg>, b: Bytes) returns (r: Bytes)
    requires num <= MAX_FIELD && forall x :: x in xs ==> Fits(x)
    ensures r == b + EncMany(num, xs)
    decreases xs, 0
  {
    hide EncTag, EncBytes, Enc, Fits;
    r := b;
    for j := 0 to |xs|
      invariant r + EncMany(num, xs[j..]) == b + EncMany(num, xs)
    {
      assert xs[j..][1..] == xs[j + 1..];
      Assoc(r, EncTag(num, BYTES) + EncBytes(Enc(xs[j])), EncMany(num, xs[j + 1..]));
      r := MarshalOne(num, xs[j], r);
    }
  }

  // ---------------------------------------------------------------------------------------------
  // Equality
  // ---------------------------------------------------------------------------------------------

  /** Retained bytes are whole records. */
  lemma {:induction false} RetainedWhole(t: TypeId, u: Bytes)
    requires Retained(t, u)
    ensures Whole(u)
    decreases |u|
  {
    hide Skip, EncTag, DecVarint;
    if u != [] {
      var p := DecVarint(u, 0).value;
      RetainedWhole(t, u[p.len..][Skip(p.value / 8, p.value % 8, u[p.len..], RECURSION_LIMIT).value..]);
      FirstOf(t, u);
    }
  }

  lemma FirstOf(t: TypeId, u: Bytes)
    requires Retained(t, u) && u != []
    ensures DecVarint(u, 0).Some? && FirstField(u).Some?
    ensures var p := DecVarint(u, 0).value;
            Skip(p.value / 8, p.value % 8, u[p.len..], RECURSION_LIMIT).Some?
            && u[FirstField(u).value.1..] == u[p.len..][Skip(p.value / 8, p.value % 8, u[p.len..], RECURSION_LIMIT).value..]
  {
    hide Skip, EncTag, DecVarint;
  }

  ghost predicate SameUnknown(x: Bytes, y: Bytes) {
    Whole(x) && Whole(y) && SameRecords(x, y)
  }

  /** Equal messages: the same fields set to equal values, repeated fields equal element by element,
      and retained records that agree number by number. */
  ghost predicate Equal(x: Msg, y: Msg)
    decreases x, 1
  {
    x.t == y.t && |x.slots| == |y.slots| && SameUnknown(x.unknown, y.unknown)
    && forall i :: 0 <= i < |x.slots| ==> EqualSlot(x.slots[i], y.slots[i])
  }

  ghost predicate EqualSlot(a: Slot, b: Slot)
    decreases a, 0
  {
    if a.One? && b.One? then Equal(a.m, b.m)
    else if a.Many? && b.Many? then |a.ms| == |b.ms| && forall i :: 0 <= i < |a.ms| ==> Equal(a.ms[i], b.ms[i])
    else a == b
  }

  /** Two messages equal to a third are equal. */
  lemma {:induction false} EqualTwists(x: Msg, y: Msg, z: Msg)
    requires Equal(x, y) && Equal(x, z)
    ensures Equal(y, z)
    decreases x, 1
  {
    hide Whole, SameRecords, EqualSlot;
    SameTwists(x.unknown, y.unknown, z.unknown);
    forall i | 0 <= i < |y.slots| ensures EqualSlot(y.slots[i], z.slots[i]) {
      EqualSlotTwists(x.slots[i], y.slots[i], z.slots[i]);
    }
  }

  lemma SameTwists(x: Bytes, y: Bytes, z: Bytes)
    requires SameUnknown(x, y) && SameUnknown(x, z)
    ensures SameUnknown(y, z)
  {
    hide Whole, Records;
  }

  lemma {:induction false} EqualSlotTwists(a: Slot, b: Slot, c: Slot)
    requires EqualSlot(a, b) && EqualSlot(a, c)
    ensures EqualSlot(b, c)
    decreases a, 0
  {
    hide Equal;
    if a.One? { EqualTwists(a.m, b.m, c.m); }
    if a.Many? {
      forall i | 0 <= i < |b.ms| ensures Equal(b.ms[i], c.ms[i]) {
        EqualTwists(a.ms[i], b.ms[i], c.ms[i]);
      }
    }
  }

  /** A valid message equals itself. */
  lemma {:induction false} EqualSelf(x: Msg, d: nat)
    requires Valid(x, d)
    ensures Equal(x, x)
    decreases d
  {
    hide Whole, Retained;
    RetainedWhole(x.t, x.unknown);
    forall i | 0 <= i < |x.slots| ensures EqualSlot(x.slots[i], x.slots[i]) {
      var s := x.slots[i];
      assert ValidIn(s, d - 1);
      if s.One? { EqualSelf(s.m, d - 1); }
      if s.Many? {
        assert AllValid(s.ms, d - 1);
        forall j | 0 <= j < |s.ms| ensures Equal(s.ms[j], s.ms[j]) { assert s.ms[j] in s.ms; EqualSelf(s.ms[j], d - 1); }
      }
    }
  }

  /** Equal is an equivalence on valid messages. */
  lemma EqualLaws(x: Msg, y: Msg, z: Msg, d: nat)
    requires Valid(x, d) && Valid(y, d) && Valid(z, d)
    ensures Equal(x, x)
    ensures Equal(x, y) <==> Equal(y, x)
    ensures Equal(x, y) && Equal(y, z) ==> Equal(x, z)
  {
    hide Valid, Equal;
    EqualSelf(x, d);
    EqualSelf(y, d);
    if Equal(x, y) { EqualTwists(x, y, x); }
    if Equal(y, x) {
      EqualTwists(y, x, y);
      if Equal(y, z) { EqualTwists(y, x, z); }
    }
  }

  /** No bytes were retained, here or in any submessage. */
  ghost predicate Bare(x: Msg)
    decreases x, 1
  {
    x.unknown == [] && forall i :: 0 <= i < |x.slots| ==> BareSlot(x.slots[i])
  }

  ghost predicate BareSlot(s: Slot)
    decreases s, 0
  {
    if s.One? then Bare(s.m) else s.Many? ==> forall i :: 0 <= i < |s.ms| ==> Bare(s.ms[i])
  }

  /** Without retained bytes equal messages are the same, field by field. */
  lemma {:induction false} EqualIsSame(x: Msg, y: Msg, d: nat)
    requires Valid(x, d) && Bare(x) && Bare(y)
    ensures Equal(x, y) <==> x == y
  {
    hide Valid, Equal, Bare;
    EqualSelf(x, d);
    if Equal(x, y) { SameFields(x, y); }
  }

  lemma {:induction false} SameFields(x: Msg, y: Msg)
    requires Equal(x, y) && Bare(x) && Bare(y)
    ensures x == y
    decreases x, 1
  {
    hide EqualSlot, BareSlot, SameUnknown;
    forall i | 0 <= i < |x.slots| ensures x.slots[i] == y.slots[i] { SameSlots(x.slots[i], y.slots[i]); }
  }

  lemma {:induction false} SameSlots(a: Slot, b: Slot)
    requires EqualSlot(a, b) && BareSlot(a) && BareSlot(b)
    ensures a == b
    decreases a, 0
  {
    hide Equal, Bare;
    if a.One? && b.One? { SameFields(a.m, b.m); }
    if a.Many? && b.Many? {
      forall i | 0 <= i < |a.ms| ensures a.ms[i] == b.ms[i] { SameFields(a.ms[i], b.ms[i]); }
    }
  }

  /** EqualMessage decides Equal. */
  method EqualMessage(x: Msg, y: Msg, ghost d: nat) returns (eq: bool)
    requires Valid(x, d) && Valid(y, d)
    ensures eq <==> Equal(x, y)
    decreases d, 1
  {
    hide Valid, Whole, ValidIn, EqualSlot, SameRecords, KindOK, Retained;
    ValidShape(x, d);
    ValidShape(y, d);
    RetainedWhole(x.t, x.unknown);
    RetainedWhole(y.t, y.unknown);
    if x.t != y.t { return false; }
    for i := 0 to |x.slots|
      invariant forall j :: 0 <= j < i ==> EqualSlot(x.slots[j], y.slots[j])
    {
      var same := EqualField(x.slots[i], y.slots[i], d - 1);
      if !same { return false; }
    }
    eq := EqualUnknown(x.unknown, y.unknown);
  }

  method EqualField(a: Slot, b: Slot, ghost d: nat) returns (eq: bool)
    requires ValidIn(a, d) && ValidIn(b, d)
    ensures eq <==> EqualSlot(a, b)
    decreases d, 2
  {
    hide Valid, Equal;
    if a.One? && b.One? {
      eq := EqualMessage(a.m, b.m, d);
    } else if a.Many? && b.Many? {
      if |a.ms| != |b.ms| { return false; }
      for i := 0 to |a.ms|
        invariant forall j :: 0 <= j < i ==> Equal(a.ms[j], b.ms[j])
      {
        assert a.ms[i] in a.ms && b.ms[i] in b.ms;
        var same := EqualMessage(a.ms[i], b.ms[i], d);
        if !same { return false; }
      }
      eq := true;
    } else {
      eq := a == b;
    }
  }
}
