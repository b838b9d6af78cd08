/** Decoding what was encoded gives the message back; what decodes, re-encodes and decodes to the same
    message. */
module CodecRoundTrip {
  import opened Types
  import opened Wire
  import opened Codec

  const MIN_INT32: int := -0x8000_0000

  // ---------------------------------------------------------------------------------------------
  // Valid messages
  // ---------------------------------------------------------------------------------------------

  predicate AllFit(vs: seq<nat>) {
    forall i :: 0 <= i < |vs| ==> vs[i] < UINT64
  }

  predicate AllOf(ms: seq<Msg>, t: TypeId) {
    forall i :: 0 <= i < |ms| ==> ms[i].t == t
  }

  predicate KindOK(k: Kind, s: Slot) {
    match k
    case Enum => s.Unset? || (s.Int? && MIN_INT32 <= s.i <= MAX_INT32)
    case U64 => s.Unset? || (s.Num? && s.n < UINT64)
    case Flag => s.Unset? || s.Bit?
    case Data => s.Unset? || s.Raw?
    case U64s => s.Nums? && AllFit(s.ns)
    case Sub(t) => s.Unset? || (s.One? && s.m.t == t)
    case Subs(t) => s.Many? && AllOf(s.ms, t)
  }

  /** A field of this number and wire type is one the type takes. */
  predicate Known(t: TypeId, num: nat, typ: nat) {
    Index(t, num).Some? && Accepts(Fields(t)[Index(t, num).value].kind, typ)
  }

  /** Retained bytes: canonical tags of fields the type does not take, each with a well-formed
      value. */
  predicate Retained(t: TypeId, u: Bytes)
    decreases |u|
  {
    u == [] ||
    match DecVarint(u, 0)
    case None => false
    case Some(p) =>
      var num, typ, rest := p.value / 8, p.value % 8, u[p.len..];
      && 1 <= num <= MAX_FIELD && typ != END_GROUP && u[..p.len] == EncTag(num, typ) && !Known(t, num, typ)
      && match Skip(num, typ, rest, RECURSION_LIMIT)
         case None => false
         case Some(n) => Retained(t, rest[n..])
  }

  predicate Shaped(m: Msg) {
    |m.slots| == |Fields(m.t)| && forall i :: 0 <= i < |m.slots| ==> KindOK(Fields(m.t)[i].kind, m.slots[i])
  }

  /** A message whose fields have the right types, whose unknown bytes are retained ones, and which is
      nested at most d deep. */
  predicate Valid(m: Msg, d: nat)
    decreases d, 1, 0
  {
    d > 0 && Shaped(m) && Retained(m.t, m.unknown) && forall i :: 0 <= i < |m.slots| ==> ValidIn(m.slots[i], d - 1)
  }

  /** The messages in a field are valid. */
  predicate ValidIn(s: Slot, d: nat)
    decreases d, 2, 0
  {
    match s
    case One(x) => Valid(x, d)
    case Many(xs) => AllValid(xs, d)
    case _ => true
  }

  predicate AllValid(xs: seq<Msg>, d: nat)
    decreases d, 1, 1
  {
    forall x :: x in xs ==> Valid(x, d)
  }

  predicate ValidFrom(m: Msg, i: nat, d: nat) {
    forall j :: i <= j < |m.slots| ==> ValidIn(m.slots[j], d)
  }

  // ---------------------------------------------------------------------------------------------
  // One field
  // ---------------------------------------------------------------------------------------------

  lemma IndexOf(t: TypeId, i: nat)
    requires i < |Fields(t)|
    ensures Index(t, Fields(t)[i].num) == Some(i) && 1 <= Fields(t)[i].num < 16
  {
    var fs := Fields(t);
    assert forall j :: 0 <= j < |fs| ==> fs[j].num == j + 1;
    IndexAt(fs, i, 0);
  }

  lemma {:induction false} IndexAt(fs: seq<Field>, i: nat, j: nat)
    requires j <= i < |fs| && forall k :: 0 <= k < |fs| ==> fs[k].num == k + 1
    ensures IndexFrom(fs, fs[i].num, j) == Some(i)
    decreases i - j
  {
    if j < i { IndexAt(fs, i, j + 1); }
  }

  lemma TagBack(num: nat, typ: nat, rest: Bytes)
    requires 1 <= num <= MAX_FIELD && typ < 8
    ensures DecVarint(EncTag(num, typ) + rest, 0) == Some(Parsed(num * 8 + typ, |EncTag(num, typ)|))
    ensures (num * 8 + typ) / 8 == num && (num * 8 + typ) % 8 == typ
    ensures (EncTag(num, typ) + rest)[|EncTag(num, typ)|..] == rest
  {
    CapZero();
    VarintRoundTrip(num * 8 + typ, 0, rest);
  }

  /** What the loop does once one field was looked at. */
  function AfterTake(m: Msg, num: nat, typ: nat, rest: Bytes, d: nat, taken: Taken): Res
    requires typ < 8
  {
    match taken
    case Failed(e) => e
    case Took(m1, n) => if n <= |rest| then Loop(m1, rest[n..], d) else Malformed
    case NotTaken =>
      match Skip(num, typ, rest, RECURSION_LIMIT)
      case None => Malformed
      case Some(n) => Loop(m.(unknown := m.unknown + EncTag(num, typ) + rest[..n]), rest[n..], d)
  }

  /** The loop on a field with a canonical tag. */
  lemma LoopField(m: Msg, num: nat, typ: nat, rest: Bytes, d: nat)
    requires 1 <= num <= MAX_FIELD && typ < 8 && typ != END_GROUP
    ensures Loop(m, EncTag(num, typ) + rest, d) == AfterTake(m, num, typ, rest, d, Take(m, num, typ, rest, d))
  {
    hide Take, Skip, EncTag, DecVarint;
    TagBack(num, typ, rest);
  }

  lemma LoopVarint(m: Msg, i: nat, v: nat, rest: Bytes, d: nat)
    requires i < |m.slots| == |Fields(m.t)| && VarintKind(Fields(m.t)[i].kind) && v < UINT64
    ensures Loop(m, EncTag(Fields(m.t)[i].num, VARINT) + EncVarint(v) + rest, d)
            == Loop(WithSlot(m, i, WithVarint(Fields(m.t)[i].kind, m.slots[i], v)), rest, d)
  {
    hide Loop, EncTag, Skip;
    var num := Fields(m.t)[i].num;
    assert EncTag(num, VARINT) + EncVarint(v) + rest == EncTag(num, VARINT) + (EncVarint(v) + rest);
    IndexOf(m.t, i);
    LoopField(m, num, VARINT, EncVarint(v) + rest, d);
    CapZero();
    VarintRoundTrip(v, 0, rest);
    hide DecVarint;
    assert (EncVarint(v) + rest)[|EncVarint(v)|..] == rest;
  }

  function AfterBytes(taken: Taken, rest: Bytes, d: nat): Res {
    match taken
    case Failed(e) => e
    case Took(m, n) => Loop(m, rest, d)
    case NotTaken => Malformed
  }

  lemma LoopBytes(m: Msg, i: nat, v: Bytes, rest: Bytes, d: nat)
    requires i < |m.slots| == |Fields(m.t)| && Accepts(Fields(m.t)[i].kind, BYTES) && |v| < UINT64
    ensures Loop(m, EncTag(Fields(m.t)[i].num, BYTES) + EncBytes(v) + rest, d)
            == AfterBytes(TakeBytes(m, i, Fields(m.t)[i].kind, v, |EncBytes(v)|, d), rest, d)
  {
    hide Loop, EncTag, Skip, DecVarint, Decode, EncBytes;
    var num := Fields(m.t)[i].num;
    assert EncTag(num, BYTES) + EncBytes(v) + rest == EncTag(num, BYTES) + (EncBytes(v) + rest);
    IndexOf(m.t, i);
    LoopField(m, num, BYTES, EncBytes(v) + rest, d);
    BytesRoundTrip(v, rest);
    hide DecBytes;
    assert (EncBytes(v) + rest)[|EncBytes(v)|..] == rest;
  }

  lemma EnumBack(i: int)
    requires MIN_INT32 <= i <= MAX_INT32
    ensures EncEnum(i) < UINT64 && DecEnum(EncEnum(i)) == i
  {
    if i < 0 {
      assert (i + UINT64) % 0x1_0000_0000 == i + 0x1_0000_0000;
    }
  }

  lemma {:induction false} NumsBack(m: Msg, i: nat, pre: seq<nat>, vs: seq<nat>, rest: Bytes, d: nat)
    requires i < |m.slots| == |Fields(m.t)| && Fields(m.t)[i].kind.U64s? && AllFit(vs)
    ensures Loop(WithSlot(m, i, Nums(pre)), EncNums(Fields(m.t)[i].num, vs) + rest, d)
            == Loop(WithSlot(m, i, Nums(pre + vs)), rest, d)
    decreases |vs|
  {
    hide Loop, EncTag, EncVarint;
    var num := Fields(m.t)[i].num;
    if vs == [] {
      assert pre + vs == pre && [] + rest == rest;
    } else {
      var tail := EncNums(num, vs[1..]) + rest;
      assert EncNums(num, vs) + rest == EncTag(num, VARINT) + EncVarint(vs[0]) + tail;
      LoopVarint(WithSlot(m, i, Nums(pre)), i, vs[0], tail, d);
      assert WithSlot(WithSlot(m, i, Nums(pre)), i, Nums(pre + [vs[0]])) == WithSlot(m, i, Nums(pre + [vs[0]]));
      NumsBack(m, i, pre + [vs[0]], vs[1..], rest, d);
      assert pre + [vs[0]] + vs[1..] == pre + vs;
    }
  }

  // ---------------------------------------------------------------------------------------------
  // Retained bytes
  // ---------------------------------------------------------------------------------------------

  /** Retained bytes are retained again, unchanged. */
  lemma {:induction false} RetainedBack(m: Msg, u: Bytes, d: nat)
    requires |m.slots| == |Fields(m.t)| && Retained(m.t, u)
    ensures Loop(m, u, d) == Done(m.(unknown := m.unknown + u))
    decreases |u|
  {
    hide DecVarint, EncTag, Skip;
    if u == [] {
      assert m.unknown + u == m.unknown;
    } else {
      var p := DecVarint(u, 0).value;
      var num, typ, rest := p.value / 8, p.value % 8, u[p.len..];
      var n := Skip(num, typ, rest, RECURSION_LIMIT).value;
      NotKnown(m, num, typ, rest, d);
      var m1 := m.(unknown := m.unknown + EncTag(num, typ) + rest[..n]);
      RetainedBack(m1, rest[n..], d);
      Rejoin(m.unknown, u, p.len, n);
    }
  }

  lemma NotKnown(m: Msg, num: nat, typ: nat, b: Bytes, d: nat)
    requires |m.slots| == |Fields(m.t)| && !Known(m.t, num, typ)
    ensures Take(m, num, typ, b, d) == NotTaken
  {
  }

  lemma Rejoin(a: Bytes, u: Bytes, k: nat, n: nat)
    requires k + n <= |u|
    ensures a + u[..k] + u[k..][..n] + u[k..][n..] == a + u
  {
  }

  // ---------------------------------------------------------------------------------------------
  // Merging
  // ---------------------------------------------------------------------------------------------

  /** The numbers, the messages and the message already in a slot, if any. */
  function NumsIn(s: Slot): seq<nat> {
    if s.Nums? then s.ns else []
  }

  function ManyIn(s: Slot): seq<Msg> {
    if s.Many? then s.ms else []
  }

  function OneIn(s: Slot, t: TypeId): Msg {
    if s.One? then s.m else Empty(t)
  }

  /** mergeMessage: y merged into x. Set fields replace, submessages merge, repeated fields and unknown
      bytes are appended. */
  function Merge(x: Msg, y: Msg): Msg
    decreases y, 1
  {
    Msg(x.t,
        seq(|x.slots|, i requires 0 <= i < |x.slots| => if i < |y.slots| then MergeSlot(x.slots[i], y.slots[i]) else x.slots[i]),
        x.unknown + y.unknown)
  }

  function MergeSlot(a: Slot, b: Slot): Slot
    decreases b, 0
  {
    match b
    case Unset => a
    case Nums(ns) => Nums(NumsIn(a) + ns)
    case One(y) => One(Merge(OneIn(a, y.t), y))
    case Many(ys) => Many(ManyIn(a) + CloneAll(ys))
    case _ => b
  }

  /** CloneMessage of each: each is merged into a new message. */
  function CloneAll(ys: seq<Msg>): seq<Msg>
    decreases ys, 0
  {
    if ys == [] then [] else [Merge(Empty(ys[0].t), ys[0])] + CloneAll(ys[1..])
  }

  /** A clone equals what it was cloned from. */
  lemma {:induction false} CloneSame(m: Msg, d: nat)
    requires Valid(m, d)
    ensures Merge(Empty(m.t), m) == m
    decreases d, 1
  {
    hide MergeSlot, KindOK, Retained, EmptySlot, ValidIn;
    var c := Merge(Empty(m.t), m);
    forall i | 0 <= i < |m.slots| ensures c.slots[i] == m.slots[i] {
      SlotSame(Fields(m.t)[i].kind, m.slots[i], d - 1);
    }
    assert [] + m.unknown == m.unknown;
  }

  lemma {:induction false} SlotSame(k: Kind, s: Slot, d: nat)
    requires KindOK(k, s) && ValidIn(s, d)
    ensures MergeSlot(EmptySlot(k), s) == s
    decreases d, 3, 0
  {
    hide Valid, Merge, Retained;
    match s {
      case One(y) => CloneSame(y, d);
      case Many(ys) => CloneAllSame(ys, d); assert [] + ys == ys;
      case Nums(ns) => assert [] + ns == ns;
      case _ =>
    }
  }

  lemma {:induction false} CloneAllSame(ys: seq<Msg>, d: nat)
    requires AllValid(ys, d)
    ensures CloneAll(ys) == ys
    decreases d, 2, |ys|
  {
    hide Valid, Merge;
    if ys != [] {
      assert ys[0] in ys;
      CloneSame(ys[0], d);
      CloneAllSame(ys[1..], d);
    }
  }

  // ---------------------------------------------------------------------------------------------
  // Whole messages
  // ---------------------------------------------------------------------------------------------

  /** x with the first i fields of y merged into it. */
  function Partial(x: Msg, y: Msg, i: nat): Msg
    requires i <= |x.slots| == |y.slots|
  {
    Msg(x.t, Merge(x, y).slots[..i] + x.slots[i..], x.unknown)
  }

  lemma PartialNext(x: Msg, y: Msg, i: nat)
    requires i < |x.slots| == |y.slots|
    ensures Partial(x, y, i + 1) == WithSlot(Partial(x, y, i), i, MergeSlot(x.slots[i], y.slots[i]))
    ensures Partial(x, y, i) == WithSlot(Partial(x, y, i), i, x.slots[i])
    ensures Partial(x, y, i).slots[i] == x.slots[i]
    ensures |Partial(x, y, i).slots| == |x.slots| && Partial(x, y, i).t == x.t
  {
    hide MergeSlot;
  }

  lemma PartialEnds(x: Msg, y: Msg)
    requires |x.slots| == |y.slots|
    ensures Partial(x, y, 0) == x
    ensures |Partial(x, y, |x.slots|).slots| == |x.slots| && Partial(x, y, |x.slots|).t == x.t
    ensures Partial(x, y, |x.slots|).unknown == x.unknown
    ensures Partial(x, y, |x.slots|).(unknown := x.unknown + y.unknown) == Merge(x, y)
  {
    hide MergeSlot;
  }

  /** Decoding the encoding of a valid message into another of its type merges it, unless it is nested
      deeper than allowed. */
  lemma {:induction false} DecodeEnc(x: Msg, dx: nat, y: Msg, deep: nat, d: nat)
    requires Valid(x, dx) && y.t == x.t && Valid(y, deep) && |Enc(y)| < UINT64
    ensures Decode(x, Enc(y), d) == if Valid(y, d) then Done(Merge(x, y)) else TooDeep
    decreases deep, 2, 0
  {
    hide Loop, EncSlots, Retained, KindOK, Merge, Partial;
    ValidShape(x, dx);
    ValidShape(y, deep);
    assert Enc(y) == EncSlots(y, 0) + y.unknown;
    if d > 0 {
      SlotsBack(x, dx, y, deep, d - 1, 0);
      PartialEnds(x, y);
      assert Valid(y, d) <==> ValidFrom(y, 0, d - 1);
    }
  }

  lemma {:induction false} SlotsBack(x: Msg, dx: nat, y: Msg, deep: nat, d: nat, i: nat)
    requires Valid(x, dx) && y.t == x.t && Valid(y, deep) && i <= |y.slots| && |EncSlots(y, i)| < UINT64
    ensures |x.slots| == |y.slots|
    ensures Loop(Partial(x, y, i), EncSlots(y, i) + y.unknown, d) == if ValidFrom(y, i, d) then Done(Merge(x, y)) else TooDeep
    decreases deep, 1, |y.slots| - i
  {
    hide Loop, ValidIn, ValidFrom, Retained, Valid, Here, EncSlots, Merge, KindOK, Partial;
    ValidShape(x, dx);
    ValidShape(y, deep);
    ValidFromNext(y, i, d);
    if i == |y.slots| {
      EncSlotsEnd(y);
      assert [] + y.unknown == y.unknown;
      PartialEnds(x, y);
      RetainedBack(Partial(x, y, i), y.unknown, d);
    } else {
      var rest := EncSlots(y, i + 1) + y.unknown;
      EncSplit(y, i);
      SlotBack(x, dx, y, deep, d, i, rest);
      SlotsBack(x, dx, y, deep, d, i + 1);
      assert Here(y, i) + EncSlots(y, i + 1) + y.unknown == Here(y, i) + rest;
    }
  }

  lemma ValidFromNext(m: Msg, i: nat, d: nat)
    requires i <= |m.slots|
    ensures ValidFrom(m, i, d) <==> i == |m.slots| || (ValidIn(m.slots[i], d) && ValidFrom(m, i + 1, d))
  {
    hide ValidIn;
  }

  lemma ValidShape(m: Msg, d: nat)
    requires Valid(m, d)
    ensures Shaped(m) && Retained(m.t, m.unknown) && d > 0 && ValidFrom(m, 0, d - 1)
  {
  }

  /** The encoding of one field. */
  function Here(m: Msg, i: nat): Bytes
    requires i < |m.slots| == |Fields(m.t)|
  {
    var num := Fields(m.t)[i].num;
    match m.slots[i]
    case Unset => []
    case Int(v) => EncTag(num, VARINT) + EncVarint(EncEnum(v))
    case Num(v) => EncTag(num, VARINT) + EncVarint(v)
    case Bit(v) => EncTag(num, VARINT) + EncVarint(if v then 1 else 0)
    case Raw(v) => EncTag(num, BYTES) + EncBytes(v)
    case Nums(vs) => EncNums(num, vs)
    case One(x) => EncTag(num, BYTES) + EncBytes(Enc(x))
    case Many(xs) => EncMany(num, xs)
  }

  lemma EncSlotsEnd(m: Msg)
    ensures EncSlots(m, |m.slots|) == []
  {
  }

  lemma EncSplit(m: Msg, i: nat)
    requires i < |m.slots| == |Fields(m.t)|
    ensures EncSlots(m, i) == Here(m, i) + EncSlots(m, i + 1)
  {
  }

  /** Reading back one field. */
  lemma {:induction false} SlotBack(x: Msg, dx: nat, y: Msg, deep: nat, d: nat, i: nat, rest: Bytes)
    requires Valid(x, dx) && y.t == x.t && Valid(y, deep) && i < |y.slots| && |y.slots| == |Fields(y.t)| && |Here(y, i)| < UINT64
    ensures |x.slots| == |y.slots|
    ensures Loop(Partial(x, y, i), Here(y, i) + rest, d)
            == if ValidIn(y.slots[i], d) then Loop(Partial(x, y, i + 1), rest, d) else TooDeep
    decreases deep, 0, 0
  {
    hide Loop, Valid, EncTag, EncVarint, EncBytes, Enc, EncMany, EncNums, Decode, Partial, Merge, CloneAll, Retained;
    ValidShape(x, dx);
    ValidShape(y, deep);
    PartialNext(x, y, i);
    var k, s, p, was := Fields(y.t)[i].kind, y.slots[i], Partial(x, y, i), x.slots[i];
    assert KindOK(k, s) && ValidIn(s, deep - 1) && KindOK(k, was);
    match s
    case Unset => assert [] + rest == rest;
    case Int(v) => EnumBack(v); LoopVarint(p, i, EncEnum(v), rest, d);
    case Num(v) => LoopVarint(p, i, v, rest, d);
    case Bit(v) => LoopVarint(p, i, if v then 1 else 0, rest, d);
    case Raw(v) => BytesLength(Fields(y.t)[i].num, v); LoopBytes(p, i, v, rest, d);
    case Nums(vs) => NumsBack(p, i, NumsIn(was), vs, rest, d);
    case One(z) =>
      BytesLength(Fields(y.t)[i].num, Enc(z));
      LoopBytes(p, i, Enc(z), rest, d);
      OneInValid(was, z.t, dx - 1);
      DecodeEnc(OneIn(was, z.t), if was.One? then dx - 1 else 1, z, deep - 1, d);
    case Many(zs) =>
      ManyBack(p, i, k.t, ManyIn(was), zs, rest, deep - 1, d);
  }

  lemma BytesLength(num: nat, v: Bytes)
    ensures |v| <= |EncTag(num, BYTES) + EncBytes(v)|
  {
  }

  lemma {:induction false} ManyBack(m: Msg, i: nat, t: TypeId, pre: seq<Msg>, xs: seq<Msg>, rest: Bytes, deep: nat, d: nat)
    requires i < |m.slots| == |Fields(m.t)| && Fields(m.t)[i].kind == Subs(t) && |EncMany(Fields(m.t)[i].num, xs)| < UINT64
    requires AllOf(xs, t) && AllValid(xs, deep)
    ensures Loop(WithSlot(m, i, Many(pre)), EncMany(Fields(m.t)[i].num, xs) + rest, d)
            == if AllValid(xs, d) then Loop(WithSlot(m, i, Many(pre + CloneAll(xs))), rest, d) else TooDeep
    decreases deep, 3, |xs|
  {
    hide Loop, Valid, EncTag, EncVarint, EncBytes, Enc, Decode, Merge, AllValid, WithSlot;
    AllValidNext(xs, deep);
    AllValidNext(xs, d);
    var num := Fields(m.t)[i].num;
    if xs == [] {
      assert pre + CloneAll(xs) == pre && [] + rest == rest;
    } else {
      var x := xs[0];
      var here, later, c := EncTag(num, BYTES) + EncBytes(Enc(x)), EncMany(num, xs[1..]), Merge(Empty(t), x);
      BytesLength(num, Enc(x));
      assert here + later + rest == here + (later + rest);
      OneMoreBack(m, i, t, pre, x, later + rest, deep, d);
      ManyBack(m, i, t, pre + [c], xs[1..], rest, deep, d);
      assert pre + [c] + CloneAll(xs[1..]) == pre + CloneAll(xs);
    }
  }

  lemma {:induction false} OneMoreBack(m: Msg, i: nat, t: TypeId, pre: seq<Msg>, x: Msg, tail: Bytes, deep: nat, d: nat)
    requires i < |m.slots| == |Fields(m.t)| && Fields(m.t)[i].kind == Subs(t) && |Enc(x)| < UINT64
    requires x.t == t && Valid(x, deep)
    ensures Loop(WithSlot(m, i, Many(pre)), EncTag(Fields(m.t)[i].num, BYTES) + EncBytes(Enc(x)) + tail, d)
            == if Valid(x, d) then Loop(WithSlot(m, i, Many(pre + [Merge(Empty(t), x)])), tail, d) else TooDeep
    decreases deep, 2, 1
  {
    hide Loop, Valid, EncTag, EncVarint, EncBytes, Enc, Decode, Merge;
    LoopBytes(WithSlot(m, i, Many(pre)), i, Enc(x), tail, d);
    OneInValid(Unset, t, 1);
    DecodeEnc(Empty(t), 1, x, deep, d);
    var c := Merge(Empty(t), x);
    assert WithSlot(WithSlot(m, i, Many(pre)), i, Many(pre + [c])) == WithSlot(m, i, Many(pre + [c]));
  }

  lemma AllValidNext(xs: seq<Msg>, d: nat)
    ensures AllValid(xs, d) <==> xs == [] || (Valid(xs[0], d) && AllValid(xs[1..], d))
  {
    hide Valid;
    if xs != [] { assert forall y :: y in xs <==> y == xs[0] || y in xs[1..]; }
  }

  lemma OneInValid(s: Slot, t: TypeId, d: nat)
    requires ValidIn(s, d)
    ensures Valid(OneIn(s, t), if s.One? then d else 1)
  {
  }
}
