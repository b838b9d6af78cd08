/** Whatever decodes is a valid message, so it re-encodes and decodes to itself; and decoding is
    merging: a message decoded on top of another, or after it in one buffer, is merged into it. */
module CodecStable {
  import opened Types
  import opened Wire
  import opened Codec
  import opened CodecRoundTrip
  import opened CodecBound

  // ---------------------------------------------------------------------------------------------
  // Retained bytes grow by whole records
  // ---------------------------------------------------------------------------------------------

  lemma RetainedRecord(t: TypeId, num: nat, typ: nat, b: Bytes, n: nat)
    requires 1 <= num <= MAX_FIELD && typ < 8 && typ != END_GROUP && !Known(t, num, typ)
    requires Skip(num, typ, b, RECURSION_LIMIT) == Some(n)
    ensures Retained(t, EncTag(num, typ) + b[..n])
  {
    hide Skip, EncTag, DecVarint;
    TagBack(num, typ, b[..n]);
    SkipPrefix(num, typ, b, RECURSION_LIMIT, []);
    assert b[..n] + [] == b[..n];
    var u := EncTag(num, typ) + b[..n];
    var p := DecVarint(u, 0).value;
    assert u[p.len..] == b[..n] && u[..p.len] == EncTag(num, typ);
    assert b[..n][n..] == [];
  }

  lemma {:induction false} RetainedAppend(t: TypeId, u: Bytes, w: Bytes)
    requires Retained(t, u) && Retained(t, w)
    ensures Retained(t, u + w)
    decreases |u|
  {
    hide Skip, EncTag, DecVarint;
    if u == [] {
      assert u + w == w;
    } else {
      var p := DecVarint(u, 0).value;
      var num, typ, rest := p.value / 8, p.value % 8, u[p.len..];
      var n := Skip(num, typ, rest, RECURSION_LIMIT).value;
      var uw := u + w;
      assert uw == u[..p.len] + (rest + w);
      VarintPrefix(u, 0, rest + w);
      SkipPrefix(num, typ, rest, RECURSION_LIMIT, rest[n..] + w);
      assert rest + w == rest[..n] + (rest[n..] + w);
      assert uw[p.len..] == rest + w && uw[..p.len] == u[..p.len];
      assert (rest + w)[n..] == rest[n..] + w;
      RetainedAppend(t, rest[n..], w);
    }
  }

  // ---------------------------------------------------------------------------------------------
  // Decoding yields valid messages
  // ---------------------------------------------------------------------------------------------

  lemma EmptyValid(t: TypeId, d: nat)
    requires d > 0
    ensures Valid(Empty(t), d)
  {
  }

  lemma VarintSlotValid(k: Kind, s: Slot, v: nat)
    requires VarintKind(k) && KindOK(k, s) && v < UINT64
    ensures KindOK(k, WithVarint(k, s, v)) && !WithVarint(k, s, v).One? && !WithVarint(k, s, v).Many?
  {
  }

  lemma {:induction false} PackedFits(p: Bytes)
    requires Packed(p).Some?
    ensures AllFit(Packed(p).value)
    decreases |p|
  {
    if p != [] {
      ValueFits(p);
      PackedFits(p[DecVarint(p, 0).value.len..]);
    }
  }

  /** Setting a field to a valid value of its kind. */
  lemma SlotSet(m: Msg, i: nat, s: Slot, d: nat)
    requires d > 0 && Valid(m, d) && i < |m.slots| && KindOK(Fields(m.t)[i].kind, s) && ValidIn(s, d - 1)
    ensures Valid(WithSlot(m, i, s), d)
  {
    hide ValidIn, Retained, KindOK;
    var m1 := WithSlot(m, i, s);
    assert forall j :: 0 <= j < |m1.slots| ==> m1.slots[j] == if j == i then s else m.slots[j];
  }

  lemma Slots(m: Msg, d: nat, i: nat)
    requires d > 0 && Valid(m, d) && i < |m.slots|
    ensures |m.slots| == |Fields(m.t)| && KindOK(Fields(m.t)[i].kind, m.slots[i]) && ValidIn(m.slots[i], d - 1)
  {
  }

  lemma {:induction false} DecodeValid(m: Msg, b: Bytes, d: nat)
    requires d > 0 && Valid(m, d) && Decode(m, b, d).Done?
    ensures Decode(m, b, d).m.t == m.t && Valid(Decode(m, b, d).m, d)
    decreases |b|, 2
  {
    hide Valid, Loop;
    LoopValid(m, b, d - 1);
  }

  lemma {:induction false} LoopValid(m: Msg, b: Bytes, d: nat)
    requires Valid(m, d + 1) && Loop(m, b, d).Done?
    ensures Loop(m, b, d).m.t == m.t && Valid(Loop(m, b, d).m, d + 1)
    decreases |b|, 1
  {
    hide Valid, Take, Skip, EncTag, DecVarint;
    if b != [] {
      var p := DecVarint(b, 0).value;
      var num, typ, rest := p.value / 8, p.value % 8, b[p.len..];
      var taken := Take(m, num, typ, rest, d);
      if taken.Took? {
        TakeValid(m, num, typ, rest, d);
        LoopValid(taken.m, rest[taken.len..], d);
      } else {
        var n := Skip(num, typ, rest, RECURSION_LIMIT).value;
        RetainValid(m, num, typ, rest, d, n);
        LoopValid(m.(unknown := m.unknown + EncTag(num, typ) + rest[..n]), rest[n..], d);
      }
    }
  }

  lemma RetainValid(m: Msg, num: nat, typ: nat, b: Bytes, d: nat, n: nat)
    requires Valid(m, d + 1) && 1 <= num <= MAX_FIELD && typ < 8 && typ != END_GROUP
    requires Take(m, num, typ, b, d) == NotTaken && Skip(num, typ, b, RECURSION_LIMIT) == Some(n)
    ensures Valid(m.(unknown := m.unknown + EncTag(num, typ) + b[..n]), d + 1)
  {
    hide Skip, EncTag, Retained, ValidIn;
    TakenIfKnown(m, num, typ, b, d);
    RetainedRecord(m.t, num, typ, b, n);
    RetainedAppend(m.t, m.unknown, EncTag(num, typ) + b[..n]);
    assert m.unknown + EncTag(num, typ) + b[..n] == m.unknown + (EncTag(num, typ) + b[..n]);
  }

  /** A field the type takes is never retained. */
  lemma TakenIfKnown(m: Msg, num: nat, typ: nat, b: Bytes, d: nat)
    requires |m.slots| == |Fields(m.t)| && Take(m, num, typ, b, d) == NotTaken
    ensures !Known(m.t, num, typ)
  {
    hide Decode, Packed, DecVarint;
  }

  lemma {:induction false} TakeValid(m: Msg, num: nat, typ: nat, b: Bytes, d: nat)
    requires Valid(m, d + 1) && Take(m, num, typ, b, d).Took?
    ensures Take(m, num, typ, b, d).m.t == m.t && Valid(Take(m, num, typ, b, d).m, d + 1)
    decreases |b|, 3
  {
    hide Valid, ValidIn, KindOK, WithVarint, DecVarint, TakeBytes, DecBytes;
    var i := Index(m.t, num).value;
    Slots(m, d + 1, i);
    var k := Fields(m.t)[i].kind;
    if typ == VARINT {
      var v := DecVarint(b, 0).value.value;
      ValueFits(b);
      VarintSlotValid(k, m.slots[i], v);
      PlainValid(WithVarint(k, m.slots[i], v), d);
      SlotSet(m, i, WithVarint(k, m.slots[i], v), d + 1);
    } else {
      var (v, n) := DecBytes(b).value;
      TakeBytesValid(m, i, v, n, d);
    }
  }

  lemma PlainValid(s: Slot, d: nat)
    requires !s.One? && !s.Many?
    ensures ValidIn(s, d)
  {
  }

  lemma {:induction false} TakeBytesValid(m: Msg, i: nat, v: Bytes, n: nat, d: nat)
    requires Valid(m, d + 1) && i < |m.slots| == |Fields(m.t)|
    requires TakeBytes(m, i, Fields(m.t)[i].kind, v, n, d).Took?
    ensures TakeBytes(m, i, Fields(m.t)[i].kind, v, n, d).m.t == m.t
    ensures Valid(TakeBytes(m, i, Fields(m.t)[i].kind, v, n, d).m, d + 1)
    decreases |v|, 4
  {
    hide Valid, Decode, Packed, DecVarint;
    Slots(m, d + 1, i);
    var k, s := Fields(m.t)[i].kind, m.slots[i];
    match k {
      case Data => SlotSet(m, i, Raw(v), d + 1);
      case U64s =>
        PackedFits(v);
        SlotSet(m, i, Nums(s.ns + Packed(v).value), d + 1);
      case Sub(t) =>
        DecodeDepth(if s.One? then s.m else Empty(t), v, d);
        EmptyValid(t, d);
        DecodeValid(if s.One? then s.m else Empty(t), v, d);
        SlotSet(m, i, One(Decode(if s.One? then s.m else Empty(t), v, d).m), d + 1);
      case Subs(t) =>
        DecodeDepth(Empty(t), v, d);
        EmptyValid(t, d);
        DecodeValid(Empty(t), v, d);
        SlotSet(m, i, Many(s.ms + [Decode(Empty(t), v, d).m]), d + 1);
      case _ =>
    }
  }

  lemma DecodeDepth(m: Msg, b: Bytes, d: nat)
    requires Decode(m, b, d).Done?
    ensures d > 0
  {
  }

  /** What decodes is valid, and re-encodes, to at most twice as many bytes, to what decodes to the same
      message, retained fields included. A buffer's length is a signed 64-bit number. */
  lemma Reencode(t: TypeId, b: Bytes)
    requires Unmarshal(t, b).Done?
    ensures Unmarshal(t, b).m.t == t && Valid(Unmarshal(t, b).m, RECURSION_LIMIT)
    ensures |Enc(Unmarshal(t, b).m)| <= 2 * |b|
    ensures |b| < UINT64 / 2 || |Enc(Unmarshal(t, b).m)| < UINT64 ==>
              Unmarshal(t, Enc(Unmarshal(t, b).m)) == Unmarshal(t, b)
  {
    hide Decode, Valid, Enc, Merge, Size;
    DecodeSize(Empty(t), b, RECURSION_LIMIT);
    EmptySize(t);
    SizeIsLength(Unmarshal(t, b).m);
    EmptyValid(t, RECURSION_LIMIT);
    DecodeValid(Empty(t), b, RECURSION_LIMIT);
    var m := Unmarshal(t, b).m;
    if |Enc(m)| < UINT64 { RoundTrip(m, RECURSION_LIMIT); }
  }

  /** Decoding the encoding of a valid message gives it back exactly when it is nested no deeper than
      the limit, and is otherwise refused as too deep. */
  lemma RoundTrip(m: Msg, deep: nat)
    requires Valid(m, deep) && |Enc(m)| < UINT64
    ensures Unmarshal(m.t, Enc(m)) == if Valid(m, 10000) then Done(m) else TooDeep
  {
    hide Decode, Valid, Enc, Merge;
    EmptyValid(m.t, 1);
    DecodeEnc(Empty(m.t), 1, m, deep, RECURSION_LIMIT);
    CloneSame(m, deep);
  }

  // ---------------------------------------------------------------------------------------------
  // Concatenation
  // ---------------------------------------------------------------------------------------------

  lemma TakePrefix(m: Msg, num: nat, typ: nat, a: Bytes, b: Bytes, d: nat)
    requires Take(m, num, typ, a, d).Took?
    ensures Take(m, num, typ, a, d).len <= |a|
    ensures Take(m, num, typ, a + b, d) == Take(m, num, typ, a, d)
  {
    hide TakeBytes, WithVarint, DecVarint, DecBytes;
    if typ == VARINT {
      var n := DecVarint(a, 0).value.len;
      VarintPrefix(a, 0, a[n..] + b);
      assert a + b == a[..n] + (a[n..] + b);
    } else {
      var n := DecBytes(a).value.1;
      TakeBytesLen(m, Index(m.t, num).value, Fields(m.t)[Index(m.t, num).value].kind, DecBytes(a).value.0, n, d);
      BytesPrefix(a, a[n..] + b);
      assert a + b == a[..n] + (a[n..] + b);
    }
  }

  lemma TakeBytesLen(m: Msg, i: nat, k: Kind, v: Bytes, n: nat, d: nat)
    requires i < |m.slots| && TakeBytes(m, i, k, v, n, d).Took?
    ensures TakeBytes(m, i, k, v, n, d).len == n
  {
    hide Decode, Packed;
  }

  /** Whether a field is taken depends on its number and wire type alone. */
  lemma NotTakenPrefix(m: Msg, num: nat, typ: nat, a: Bytes, b: Bytes, d: nat)
    requires |m.slots| == |Fields(m.t)| && Take(m, num, typ, a, d) == NotTaken
    ensures Take(m, num, typ, b, d) == NotTaken
  {
    TakenIfKnown(m, num, typ, a, d);
    NotKnown(m, num, typ, b, d);
  }

  lemma JoinAt(a: Bytes, k: nat, b: Bytes)
    requires k <= |a|
    ensures a + b == a[..k] + (a[k..] + b) && (a + b)[..k] == a[..k] && (a + b)[k..] == a[k..] + b
  {
  }

  lemma {:induction false} LoopAppend(m: Msg, a: Bytes, b: Bytes, d: nat)
    requires Valid(m, d + 1) && Loop(m, a, d).Done?
    ensures Loop(m, a + b, d) == Loop(Loop(m, a, d).m, b, d)
    decreases |a|
  {
    hide Valid, Take, Skip, EncTag, DecVarint;
    if a == [] {
      assert a + b == b;
    } else {
      var p := DecVarint(a, 0).value;
      VarintPrefix(a, 0, a[p.len..] + b);
      JoinAt(a, p.len, b);
      var num, typ, rest := p.value / 8, p.value % 8, a[p.len..];
      var taken := Take(m, num, typ, rest, d);
      if taken.Took? {
        TakePrefix(m, num, typ, rest, b, d);
        TakeValid(m, num, typ, rest, d);
        JoinAt(rest, taken.len, b);
        LoopAppend(taken.m, rest[taken.len..], b, d);
      } else {
        var n := Skip(num, typ, rest, RECURSION_LIMIT).value;
        ValidSlots(m, d + 1);
        NotTakenPrefix(m, num, typ, rest, rest + b, d);
        SkipPrefix(num, typ, rest, RECURSION_LIMIT, rest[n..] + b);
        JoinAt(rest, n, b);
        RetainValid(m, num, typ, rest, d, n);
        LoopAppend(m.(unknown := m.unknown + EncTag(num, typ) + rest[..n]), rest[n..], b, d);
      }
    }
  }

  lemma ValidSlots(m: Msg, d: nat)
    requires Valid(m, d)
    ensures |m.slots| == |Fields(m.t)|
  {
  }

  /** Decoding one buffer after another is decoding them joined. */
  lemma Concatenation(t: TypeId, a: Bytes, b: Bytes)
    requires Unmarshal(t, a).Done?
    ensures Unmarshal(t, a + b) == Decode(Unmarshal(t, a).m, b, RECURSION_LIMIT)
  {
    hide Loop, Valid;
    EmptyValid(t, RECURSION_LIMIT);
    LoopAppend(Empty(t), a, b, RECURSION_LIMIT - 1);
  }

  /** Joining the encodings of two messages encodes their merge. */
  lemma JoinIsMerge(x: Msg, y: Msg)
    requires Valid(x, RECURSION_LIMIT) && Valid(y, RECURSION_LIMIT) && x.t == y.t && |Enc(x)| < UINT64 && |Enc(y)| < UINT64
    ensures Unmarshal(x.t, Enc(x) + Enc(y)) == Done(Merge(x, y))
  {
    hide Decode, Valid, Enc, Merge;
    RoundTrip(x, RECURSION_LIMIT);
    Concatenation(x.t, Enc(x), Enc(y));
    DecodeEnc(x, RECURSION_LIMIT, y, RECURSION_LIMIT, RECURSION_LIMIT);
  }
}
