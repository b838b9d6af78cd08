/** The protobuf codec of the nine raftpb message types (raftpb/plain_codec.go). The generated code
    has one shape for all types; here that shape is written once, over each type's list of fields. */
module Codec {
  import opened Types
  import opened Limit
  import opened Wire

  datatype TypeId =
    | TEntry | TMetadata | TSnapshot | TMessage | THardState | TConfState | TConfChange | TChangeSingle | TConfChangeV2

  datatype Kind = Enum | U64 | Flag | Data | U64s | Sub(t: TypeId) | Subs(t: TypeId)

  datatype Field = Field(num: nat, kind: Kind)

  /** The fields of each type, in field-number order. */
  function Fields(t: TypeId): seq<Field> {
    match t
    case TEntry => [Field(1, Enum), Field(2, U64), Field(3, U64), Field(4, Data)]
    case TMetadata => [Field(1, Sub(TConfState)), Field(2, U64), Field(3, U64)]
    case TSnapshot => [Field(1, Data), Field(2, Sub(TMetadata))]
    case TMessage =>
      [Field(1, Enum), Field(2, U64), Field(3, U64), Field(4, U64), Field(5, U64), Field(6, U64), Field(7, Subs(TEntry)),
       Field(8, U64), Field(9, Sub(TSnapshot)), Field(10, Flag), Field(11, U64), Field(12, Data), Field(13, U64),
       Field(14, Subs(TMessage))]
    case THardState => [Field(1, U64), Field(2, U64), Field(3, U64)]
    case TConfState => [Field(1, U64s), Field(2, U64s), Field(3, U64s), Field(4, U64s), Field(5, Flag)]
    case TConfChange => [Field(1, U64), Field(2, Enum), Field(3, U64), Field(4, Data)]
    case TChangeSingle => [Field(1, Enum), Field(2, U64)]
    case TConfChangeV2 => [Field(1, Enum), Field(2, Subs(TChangeSingle)), Field(3, Data)]
  }

  /** The value of one field. Optional fields may be unset; repeated ones are sequences. */
  datatype Slot =
    | Unset | Int(i: int) | Num(n: nat) | Bit(b: bool) | Raw(data: Bytes)
    | Nums(ns: seq<nat>) | One(m: Msg) | Many(ms: seq<Msg>)

  /** A message: its fields' values, and the bytes of fields it did not know. */
  datatype Msg = Msg(t: TypeId, slots: seq<Slot>, unknown: Bytes)

  function EmptySlot(k: Kind): Slot {
    match k
    case U64s => Nums([])
    case Subs(_) => Many([])
    case _ => Unset
  }

  function EmptySlots(t: TypeId): (s: seq<Slot>)
    ensures |s| == |Fields(t)|
  {
    seq(|Fields(t)|, i requires 0 <= i < |Fields(t)| => EmptySlot(Fields(t)[i].kind))
  }

  function Empty(t: TypeId): Msg {
    Msg(t, EmptySlots(t), [])
  }

  // ---------------------------------------------------------------------------------------------
  // Encoding
  // ---------------------------------------------------------------------------------------------

  /** An int32 enum value, sign-extended to 64 bits. */
  function EncEnum(i: int): nat {
    if i < 0 then if i + UINT64 < 0 then 0 else i + UINT64 else i
  }

  /** The low 32 bits of a varint as an int32. */
  function DecEnum(v: nat): int {
    var low := v % 0x1_0000_0000;
    if low >= 0x8000_0000 then low - 0x1_0000_0000 else low
  }

  function Enc(m: Msg): Bytes
    decreases m, |m.slots| + 1
  {
    EncSlots(m, 0) + m.unknown
  }

  /** The fields from the i-th on. */
  function EncSlots(m: Msg, i: nat): Bytes
    decreases m, if i <= |m.slots| then |m.slots| - i else 0
  {
    if i >= |m.slots| || i >= |Fields(m.t)| then []
    else
      var num := Fields(m.t)[i].num;
      var here :=
        match m.slots[i]
        case Unset => []
        case Int(v) => EncTag(num, VARINT) + EncVarint(EncEnum(v))
        case Num(v) => EncTag(num, VARINT) + EncVarint(v)
        case Bit(v) => EncTag(num, VARINT) + EncVarint(if v then 1 else 0)
        case Raw(v) => EncTag(num, BYTES) + EncBytes(v)
        case Nums(vs) => EncNums(num, vs)
        case One(x) => EncTag(num, BYTES) + EncBytes(Enc(x))
        case Many(xs) => EncMany(num, xs);
      here + EncSlots(m, i + 1)
  }

  function EncNums(num: nat, vs: seq<nat>): Bytes {
    if vs == [] then [] else EncTag(num, VARINT) + EncVarint(vs[0]) + EncNums(num, vs[1..])
  }

  function EncMany(num: nat, xs: seq<Msg>): Bytes
    decreases xs, 0
  {
    if xs == [] then [] else EncTag(num, BYTES) + EncBytes(Enc(xs[0])) + EncMany(num, xs[1..])
  }

  // ---------------------------------------------------------------------------------------------
  // Sizes
  // ---------------------------------------------------------------------------------------------

  function SizeBytes(n: nat): nat {
    VarintSize(n) + n
  }

  function Size(m: Msg): nat
    decreases m, |m.slots| + 1
  {
    SizeSlots(m, 0) + |m.unknown|
  }

  function SizeSlots(m: Msg, i: nat): nat
    decreases m, if i <= |m.slots| then |m.slots| - i else 0
  {
    if i >= |m.slots| || i >= |Fields(m.t)| then 0
    else
      var here :=
        match m.slots[i]
        case Unset => 0
        case Int(v) => 1 + VarintSize(EncEnum(v))
        case Num(v) => 1 + VarintSize(v)
        case Bit(v) => 1 + VarintSize(if v then 1 else 0)
        case Raw(v) => 1 + SizeBytes(|v|)
        case Nums(vs) => SizeNums(vs)
        case One(x) => 1 + SizeBytes(Size(x))
        case Many(xs) => SizeMany(xs);
      here + SizeSlots(m, i + 1)
  }

  function SizeNums(vs: seq<nat>): nat {
    if vs == [] then 0 else 1 + VarintSize(vs[0]) + SizeNums(vs[1..])
  }

  function SizeMany(xs: seq<Msg>): nat
    decreases xs, 0
  {
    if xs == [] then 0 else 1 + SizeBytes(Size(xs[0])) + SizeMany(xs[1..])
  }

  /** Every field number is below 16, so every tag takes one byte. */
  lemma TagSize(t: TypeId, i: nat, typ: nat)
    requires i < |Fields(t)| && typ < 8
    ensures |EncTag(Fields(t)[i].num, typ)| == 1
  {
  }

  /** SizeMessage is the length of what MarshalAppend appends. */
  lemma {:induction false} SizeIsLength(m: Msg)
    ensures Size(m) == |Enc(m)|
    decreases m, |m.slots| + 1
  {
    SizeSlotsIsLength(m, 0);
  }

  lemma {:induction false} SizeSlotsIsLength(m: Msg, i: nat)
    ensures SizeSlots(m, i) == |EncSlots(m, i)|
    decreases m, if i <= |m.slots| then |m.slots| - i else 0
  {
    if i < |m.slots| && i < |Fields(m.t)| {
      TagSize(m.t, i, VARINT);
      TagSize(m.t, i, BYTES);
      SizeSlotsIsLength(m, i + 1);
      match m.slots[i]
      case Nums(vs) => SizeNumsIsLength(Fields(m.t)[i].num, vs);
      case One(x) => SizeIsLength(x);
      case Many(xs) => SizeManyIsLength(Fields(m.t)[i].num, xs);
      case _ =>
    }
  }

  lemma {:induction false} SizeNumsIsLength(num: nat, vs: seq<nat>)
    requires |EncTag(num, VARINT)| == 1
    ensures SizeNums(vs) == |EncNums(num, vs)|
  {
    if vs != [] { SizeNumsIsLength(num, vs[1..]); }
  }

  lemma {:induction false} SizeManyIsLength(num: nat, xs: seq<Msg>)
    requires |EncTag(num, BYTES)| == 1
    ensures SizeMany(xs) == |EncMany(num, xs)|
    decreases xs, 0
  {
    if xs != [] {
      SizeIsLength(xs[0]);
      SizeManyIsLength(num, xs[1..]);
    }
  }

  /** A normal log entry as a message: its type unset, and its data set when there is any. */
  function EntryMsg(e: Entry): Msg {
    Msg(TEntry, [Unset, Num(e.term), Num(e.index), if e.data == [] then Unset else Raw(e.data)], [])
  }

  /** The sizes the log's byte limits count are those of the encoding. */
  lemma EntrySizeIsLength(e: Entry)
    ensures EntrySize(e) == |Enc(EntryMsg(e))|
  {
    var m := EntryMsg(e);
    SizeIsLength(m);
    assert SizeSlots(m, 4) == 0;
    assert SizeSlots(m, 3) == if e.data == [] then 0 else 1 + SizeBytes(|e.data|);
    assert SizeSlots(m, 2) == 1 + VarintSize(e.index) + SizeSlots(m, 3);
    assert SizeSlots(m, 1) == 1 + VarintSize(e.term) + SizeSlots(m, 2);
    assert SizeSlots(m, 0) == SizeSlots(m, 1);
  }

  // ---------------------------------------------------------------------------------------------
  // Decoding
  // ---------------------------------------------------------------------------------------------

  datatype Res = Done(m: Msg) | Malformed | TooDeep

  /** What became of one field: it was taken, it is to be retained as unknown, or decoding failed. */
  datatype Taken = Took(m: Msg, len: nat) | NotTaken | Failed(error: Res)

  /** The position of a field number in a type, from the i-th field on. */
  function IndexFrom(fs: seq<Field>, num: nat, i: nat): (r: Option<nat>)
    ensures r.Some? ==> i <= r.value < |fs| && fs[r.value].num == num
    ensures r.None? ==> forall j :: i <= j < |fs| ==> fs[j].num != num
    decreases |fs| - i
  {
    if i >= |fs| then None else if fs[i].num == num then Some(i) else IndexFrom(fs, num, i + 1)
  }

  function Index(t: TypeId, num: nat): Option<nat> {
    IndexFrom(Fields(t), num, 0)
  }

  predicate VarintKind(k: Kind) {
    k.Enum? || k.U64? || k.Flag? || k.U64s?
  }

  predicate BytesKind(k: Kind) {
    k.Data? || k.Sub? || k.Subs?
  }

  /** A field of this kind is read from this wire type; repeated numbers may come packed. */
  predicate Accepts(k: Kind, typ: nat) {
    (typ == VARINT && VarintKind(k)) || (typ == BYTES && (BytesKind(k) || k.U64s?))
  }

  function WithVarint(k: Kind, s: Slot, v: nat): Slot {
    match k
    case Enum => Int(DecEnum(v))
    case U64 => Num(v)
    case Flag => Bit(v != 0)
    case U64s => Nums((if s.Nums? then s.ns else []) + [v])
    case _ => s
  }

  /** The numbers of a packed field. */
  function Packed(p: Bytes): Option<seq<nat>> {
    if p == [] then Some([])
    else match DecVarint(p, 0)
      case None => None
      case Some(v) =>
        match Packed(p[v.len..])
        case None => None
        case Some(vs) => Some([v.value] + vs)
  }

  function WithSlot(m: Msg, i: nat, s: Slot): Msg
    requires i < |m.slots|
  {
    m.(slots := m.slots[i := s])
  }

  /** UnmarshalMessage: parses b and merges it into m. Each level of nesting uses up one of depth. */
  function Decode(m: Msg, b: Bytes, depth: nat): Res
    decreases |b|, 2
  {
    if depth == 0 then TooDeep else Loop(m, b, depth - 1)
  }

  function Loop(m: Msg, b: Bytes, d: nat): Res
    decreases |b|, 1
  {
    if b == [] then Done(m)
    else match DecVarint(b, 0)
      case None => Malformed
      case Some(p) =>
        var num, typ, rest := p.value / 8, p.value % 8, b[p.len..];
        if num < 1 || num > MAX_FIELD || typ == END_GROUP then Malformed
        else match Take(m, num, typ, rest, d)
          case Failed(e) => e
          case Took(m1, n) => if n <= |rest| then Loop(m1, rest[n..], d) else Malformed
          case NotTaken =>
            match Skip(num, typ, rest, RECURSION_LIMIT)
            case None => Malformed
            case Some(n) => Loop(m.(unknown := m.unknown + EncTag(num, typ) + rest[..n]), rest[n..], d)
  }

  function Take(m: Msg, num: nat, typ: nat, b: Bytes, d: nat): (r: Taken)
    ensures r.Failed? ==> !r.error.Done?
    decreases |b|, 3
  {
    match Index(m.t, num)
    case None => NotTaken
    case Some(i) =>
      var k := Fields(m.t)[i].kind;
      if i >= |m.slots| || !Accepts(k, typ) then NotTaken
      else if typ == VARINT then
        match DecVarint(b, 0)
        case None => Failed(Malformed)
        case Some(p) => Took(WithSlot(m, i, WithVarint(k, m.slots[i], p.value)), p.len)
      else
        match DecBytes(b)
        case None => Failed(Malformed)
        case Some((v, n)) => TakeBytes(m, i, k, v, n, d)
  }

  /** A length-delimited value: raw bytes replace, a submessage merges, a repeated one appends. */
  function TakeBytes(m: Msg, i: nat, k: Kind, v: Bytes, n: nat, d: nat): (r: Taken)
    requires i < |m.slots|
    ensures r.Failed? ==> !r.error.Done?
    decreases |v|, 4
  {
    var s := m.slots[i];
    match k
    case Data => Took(WithSlot(m, i, Raw(v)), n)
    case U64s =>
      (match Packed(v)
       case None => Failed(Malformed)
       case Some(vs) => Took(WithSlot(m, i, Nums((if s.Nums? then s.ns else []) + vs)), n))
    case Sub(t) =>
      (match Decode(if s.One? then s.m else Empty(t), v, d)
       case Done(x) => Took(WithSlot(m, i, One(x)), n)
       case e => Failed(e))
    case Subs(t) =>
      (match Decode(Empty(t), v, d)
       case Done(x) => Took(WithSlot(m, i, Many((if s.Many? then s.ms else []) + [x])), n)
       case e => Failed(e))
    case _ => NotTaken
  }

  /** proto.Unmarshal: into an empty message, with the default limit on nesting. */
  function Unmarshal(t: TypeId, b: Bytes): Res {
    Decode(Empty(t), b, RECURSION_LIMIT)
  }
}
