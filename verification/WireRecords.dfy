/** Fields a message type does not know: how long each kind of record is, groups included, and that a whole
    record is retained as it came (raftpb/plain_wire.go). */
module WireRecords {
  import opened Types
  import opened Wire
  import opened Codec
  import opened CodecRoundTrip

  /** A field of any number: the five kinds of value the wire format has. */
  datatype Rec =
    | Varint(num: nat, value: nat)
    | Fixed64(num: nat, bytes: Bytes)
    | Delimited(num: nat, bytes: Bytes)
    | Group(num: nat, body: seq<Rec>)
    | Fixed32(num: nat, bytes: Bytes)

  predicate Formed(r: Rec) {
    && 1 <= r.num <= 0x7FFF_FFFF
    && match r
       case Varint(_, v) => v < 0x1_0000_0000_0000_0000
       case Fixed64(_, b) => |b| == 8
       case Delimited(_, b) => |b| < 0x1_0000_0000_0000_0000
       case Group(_, body) => AllFormed(body)
       case Fixed32(_, b) => |b| == 4
  }

  predicate AllFormed(rs: seq<Rec>) {
    rs == [] || (Formed(rs[0]) && AllFormed(rs[1..]))
  }

  function TypeOf(r: Rec): (t: nat) {
    match r
    case Varint(_, _) => 0
    case Fixed64(_, _) => 1
    case Delimited(_, _) => 2
    case Group(_, _) => 3
    case Fixed32(_, _) => 5
  }

  /** What stands behind the tag; a group ends with a tag of its own number. */
  function Value(r: Rec): Bytes
    decreases r, 0
  {
    match r
    case Varint(_, v) => EncVarint(v)
    case Fixed64(_, b) => b
    case Delimited(_, b) => EncVarint(|b|) + b
    case Group(num, body) => All(body) + EncVarint(num * 8 + 4)
    case Fixed32(_, b) => b
  }

  function Record(r: Rec): Bytes
    decreases r, 1
  {
    EncVarint(r.num * 8 + TypeOf(r)) + Value(r)
  }

  function All(rs: seq<Rec>): Bytes {
    if rs == [] then [] else Record(rs[0]) + All(rs[1..])
  }

  /** How many groups stand inside one another. */
  function Nest(r: Rec): nat {
    match r
    case Group(_, body) => 1 + Deepest(body)
    case _ => 0
  }

  function Deepest(rs: seq<Rec>): nat {
    if rs == [] then 0 else Max(Nest(rs[0]), Deepest(rs[1..]))
  }

  /** Inside a group, field numbers go up to 2^31 - 1. */
  lemma TagReads(num: nat, typ: nat, rest: Bytes)
    requires typ < 8 && num * 8 + typ < 0x1_0000_0000_0000_0000
    ensures DecTag(EncVarint(num * 8 + typ) + rest)
            == if 1 <= num <= 0x7FFF_FFFF then Some((num, typ, |EncVarint(num * 8 + typ)|)) else None
  {
    hide EncVarint, DecVarint;
    CapZero();
    VarintRoundTrip(num * 8 + typ, 0, rest);
    Parts(num, typ);
  }

  lemma Parts(num: nat, typ: nat)
    requires typ < 8
    ensures (num * 8 + typ) / 8 == num && (num * 8 + typ) % 8 == typ
  {
  }

  /** A value is skipped exactly when no more groups stand inside one another than the depth left
      allows, whatever follows it. */
  lemma {:induction false} SkipValue(r: Rec, rest: Bytes, depth: int)
    requires Formed(r) && depth >= -1
    ensures Skip(r.num, TypeOf(r), Value(r) + rest, depth) == if Nest(r) <= depth + 1 then Some(|Value(r)|) else None
    decreases r, 0
  {
    hide DecVarint, EncVarint, SkipGroup, All, Deepest;
    match r
    case Varint(_, v) =>
      CapZero();
      VarintRoundTrip(v, 0, rest);
    case Delimited(_, b) =>
      BytesRoundTrip(b, rest);
    case Group(num, body) =>
      if depth >= 0 { SkipBody(num, body, rest, depth); }
      assert Value(r) + rest == All(body) + (EncVarint(num * 8 + 4) + rest);
    case _ =>
  }

  lemma {:induction false} SkipBody(num: nat, body: seq<Rec>, rest: Bytes, depth: nat)
    requires 1 <= num <= 0x7FFF_FFFF && AllFormed(body)
    ensures SkipGroup(num, All(body) + (EncVarint(num * 8 + 4) + rest), depth)
            == if Deepest(body) <= depth then Some(|All(body) + EncVarint(num * 8 + 4)|) else None
    decreases body, 1
  {
    hide DecTag, Skip, SkipGroup, EncVarint, Formed, Nest, Value, TypeOf, Record;
    var end := EncVarint(num * 8 + 4) + rest;
    var b := All(body) + end;
    if body == [] {
      assert b == end;
      TagReads(num, 4, rest);
      GroupClosed(num, b, depth, |EncVarint(num * 8 + 4)|);
    } else {
      var r := body[0];
      var more := All(body[1..]) + end;
      Kinds(r);
      Apart(r, All(body[1..]), end);
      TagReads(r.num, TypeOf(r), Value(r) + more);
      SkipValue(r, more, depth - 1);
      SkipBody(num, body[1..], rest, depth);
      var n, m := |EncVarint(r.num * 8 + TypeOf(r))|, |Value(r)|;
      if Nest(r) > depth {
        Refused(num, b, depth, r.num, TypeOf(r), n);
      } else if Deepest(body[1..]) > depth {
        RefusedLater(num, b, depth, r.num, TypeOf(r), n, m);
      } else {
        GroupFold(num, b, depth, r.num, TypeOf(r), n, m, |All(body[1..]) + EncVarint(num * 8 + 4)|);
      }
    }
  }

  /** The first record, cut into its tag, its value and the rest. */
  lemma Apart(r: Rec, later: Bytes, end: Bytes)
    ensures var tag := EncVarint(r.num * 8 + TypeOf(r));
            var b := Record(r) + later + end;
            |Record(r)| == |tag| + |Value(r)| && b == tag + (Value(r) + (later + end))
            && b[|tag|..] == Value(r) + (later + end) && b[|tag| + |Value(r)|..] == later + end
  {
    hide EncVarint, Value, TypeOf;
  }

  lemma Refused(num: nat, c: Bytes, depth: int, num2: nat, typ2: nat, n: nat)
    requires DecTag(c) == Some((num2, typ2, n)) && typ2 != 4 && Skip(num2, typ2, c[n..], depth - 1) == None
    ensures SkipGroup(num, c, depth) == None
  {
    hide Skip, DecTag;
  }

  lemma RefusedLater(num: nat, c: Bytes, depth: int, num2: nat, typ2: nat, n: nat, m: nat)
    requires DecTag(c) == Some((num2, typ2, n)) && typ2 != 4
    requires Skip(num2, typ2, c[n..], depth - 1) == Some(m) && SkipGroup(num, c[n + m..], depth) == None
    ensures SkipGroup(num, c, depth) == None
  {
    hide Skip, DecTag;
  }

  lemma Kinds(r: Rec)
    requires Formed(r)
    ensures 1 <= r.num <= 0x7FFF_FFFF && TypeOf(r) < 8 && TypeOf(r) != 4
  {
  }

  lemma {:induction false} Unknown(t: TypeId, num: nat)
    requires num >= 16
    ensures Index(t, num) == None
  {
    if Index(t, num).Some? { IndexOf(t, Index(t, num).value); }
  }

  /** A record of a number no type uses is retained byte for byte, unless more than 10001 groups stand
      inside one another. */
  lemma RecordKept(t: TypeId, r: Rec)
    requires Formed(r) && 16 <= r.num <= 0x1FFF_FFFF
    ensures Unmarshal(t, Record(r)) == if Nest(r) <= 10001 then Done(Empty(t).(unknown := Record(r))) else Malformed
  {
    hide EncTag, DecVarint, EncVarint, Skip, Value, Nest, Formed, Index;
    Kinds(r);
    Unknown(t, r.num);
    SkipValue(r, [], 10000);
    assert Value(r) + [] == Value(r);
    LoopField(Empty(t), r.num, TypeOf(r), Value(r), 9999);
    TagIs(r.num, TypeOf(r));
    assert [] + Record(r) == Record(r);
    assert Value(r)[..|Value(r)|] == Value(r) && Value(r)[|Value(r)|..] == [];
    RecordLong(r);
  }

  lemma TagIs(num: nat, typ: nat)
    requires typ < 8
    ensures EncTag(num, typ) == EncVarint(num * 8 + typ)
  {
  }

  lemma RecordLong(r: Rec)
    ensures Record(r) != []
  {
  }

  /** A field whose number is 0 or above 2^29 - 1, and an end of group that nothing began, make the
      whole message malformed. */
  lemma BadTag(t: TypeId, num: nat, typ: nat, rest: Bytes)
    requires typ < 8 && num * 8 + typ < 0x1_0000_0000_0000_0000 && (num < 1 || num > 0x1FFF_FFFF || typ == 4)
    ensures Unmarshal(t, EncVarint(num * 8 + typ) + rest) == Malformed
  {
    hide EncVarint, DecVarint, Loop;
    CapZero();
    VarintRoundTrip(num * 8 + typ, 0, rest);
    LoopRefuses(Empty(t), EncVarint(num * 8 + typ) + rest, 9999, num * 8 + typ);
  }

  lemma LoopRefuses(m: Msg, b: Bytes, d: nat, tag: nat)
    requires DecVarint(b, 0).Some? && DecVarint(b, 0).value.value == tag
    requires tag / 8 < 1 || tag / 8 > 0x1FFF_FFFF || tag % 8 == 4
    ensures Loop(m, b, d) == Malformed
  {
    hide DecVarint, Take, Skip;
  }
}
