/** The wire format of the nine message types by the names of their fields: which tag byte each field is
    written behind (raftpb/plain_codec.go, the MarshalAppend methods), and that decoding gives each value
    back to the field of that name. Nothing here is stated through the codec's table of fields. */
module Schema {
  import opened Types
  import opened Wire
  import opened Codec
  import opened CodecRoundTrip
  import opened CodecStable

  // ---------------------------------------------------------------------------------------------
  // The messages, field by field; None is a field that is not set
  // ---------------------------------------------------------------------------------------------

  datatype PbEntry = PbEntry(kind: Option<int>, term: Option<nat>, index: Option<nat>, data: Option<Bytes>, unknown: Bytes)

  datatype PbConfState = PbConfState(voters: seq<nat>, learners: seq<nat>, votersOutgoing: seq<nat>, learnersNext: seq<nat>,
                                     autoLeave: Option<bool>, unknown: Bytes)

  datatype PbMetadata = PbMetadata(confState: Option<PbConfState>, index: Option<nat>, term: Option<nat>, unknown: Bytes)

  datatype PbSnapshot = PbSnapshot(data: Option<Bytes>, metadata: Option<PbMetadata>, unknown: Bytes)

  datatype PbMessage = PbMessage(kind: Option<int>, to: Option<nat>, from: Option<nat>, term: Option<nat>, logTerm: Option<nat>,
                                 index: Option<nat>, entries: seq<PbEntry>, commit: Option<nat>, snapshot: Option<PbSnapshot>,
                                 reject: Option<bool>, rejectHint: Option<nat>, context: Option<Bytes>, vote: Option<nat>,
                                 responses: seq<PbMessage>, unknown: Bytes)

  datatype PbHardState = PbHardState(term: Option<nat>, vote: Option<nat>, commit: Option<nat>, unknown: Bytes)

  datatype PbConfChange = PbConfChange(id: Option<nat>, kind: Option<int>, nodeId: Option<nat>, context: Option<Bytes>, unknown: Bytes)

  datatype PbChangeSingle = PbChangeSingle(kind: Option<int>, nodeId: Option<nat>, unknown: Bytes)

  datatype PbConfChangeV2 = PbConfChangeV2(transition: Option<int>, changes: seq<PbChangeSingle>, context: Option<Bytes>, unknown: Bytes)

  // ---------------------------------------------------------------------------------------------
  // The same messages as the codec holds them
  // ---------------------------------------------------------------------------------------------

  function OfEnum(o: Option<int>): Slot { if o.None? then Unset else Int(o.value) }

  function OfNum(o: Option<nat>): Slot { if o.None? then Unset else Num(o.value) }

  function OfBool(o: Option<bool>): Slot { if o.None? then Unset else Bit(o.value) }

  function OfBytes(o: Option<Bytes>): Slot { if o.None? then Unset else Raw(o.value) }

  function OfEntry(x: PbEntry): Msg {
    Msg(TEntry, [OfEnum(x.kind), OfNum(x.term), OfNum(x.index), OfBytes(x.data)], x.unknown)
  }

  function OfConfState(x: PbConfState): Msg {
    Msg(TConfState, [Nums(x.voters), Nums(x.learners), Nums(x.votersOutgoing), Nums(x.learnersNext), OfBool(x.autoLeave)], x.unknown)
  }

  function OfMaybeConf(o: Option<PbConfState>): Slot {
    if o.None? then Unset else One(OfConfState(o.value))
  }

  function OfMetadata(x: PbMetadata): Msg {
    Msg(TMetadata, [OfMaybeConf(x.confState), OfNum(x.index), OfNum(x.term)], x.unknown)
  }

  function OfMaybeMeta(o: Option<PbMetadata>): Slot {
    if o.None? then Unset else One(OfMetadata(o.value))
  }

  function OfSnapshot(x: PbSnapshot): Msg {
    Msg(TSnapshot, [OfBytes(x.data), OfMaybeMeta(x.metadata)], x.unknown)
  }

  function OfMessage(x: PbMessage): Msg {
    Msg(TMessage,
        [OfEnum(x.kind), OfNum(x.to), OfNum(x.from), OfNum(x.term), OfNum(x.logTerm), OfNum(x.index), Many(OfEntries(x.entries)),
         OfNum(x.commit), OfMaybe(x.snapshot), OfBool(x.reject),
         OfNum(x.rejectHint), OfBytes(x.context), OfNum(x.vote), Many(OfMessages(x.responses))],
        x.unknown)
  }

  function OfMaybe(o: Option<PbSnapshot>): Slot {
    if o.None? then Unset else One(OfSnapshot(o.value))
  }

  function OfEntries(xs: seq<PbEntry>): seq<Msg> {
    if xs == [] then [] else [OfEntry(xs[0])] + OfEntries(xs[1..])
  }

  function OfMessages(xs: seq<PbMessage>): seq<Msg> {
    if xs == [] then [] else [OfMessage(xs[0])] + OfMessages(xs[1..])
  }

  function OfHardState(x: PbHardState): Msg {
    Msg(THardState, [OfNum(x.term), OfNum(x.vote), OfNum(x.commit)], x.unknown)
  }

  function OfConfChange(x: PbConfChange): Msg {
    Msg(TConfChange, [OfNum(x.id), OfEnum(x.kind), OfNum(x.nodeId), OfBytes(x.context)], x.unknown)
  }

  function OfChangeSingle(x: PbChangeSingle): Msg {
    Msg(TChangeSingle, [OfEnum(x.kind), OfNum(x.nodeId)], x.unknown)
  }

  function OfChanges(xs: seq<PbChangeSingle>): seq<Msg> {
    if xs == [] then [] else [OfChangeSingle(xs[0])] + OfChanges(xs[1..])
  }

  function OfConfChangeV2(x: PbConfChangeV2): Msg {
    Msg(TConfChangeV2, [OfEnum(x.transition), Many(OfChanges(x.changes)), OfBytes(x.context)], x.unknown)
  }

  // ---------------------------------------------------------------------------------------------
  // The wire, byte for byte
  // ---------------------------------------------------------------------------------------------

  function NumField(tag: byte, o: Option<nat>): Bytes {
    if o.None? then [] else [tag] + EncVarint(o.value)
  }

  /** A negative enum value is written as the 64-bit word it extends to. */
  function EnumField(tag: byte, o: Option<int>): Bytes {
    if o.None? then [] else [tag] + EncVarint(if o.value >= 0 then o.value else Word(o.value))
  }

  function Word(v: int): nat {
    if v + 0x1_0000_0000_0000_0000 >= 0 then v + 0x1_0000_0000_0000_0000 else 0
  }

  function BoolField(tag: byte, o: Option<bool>): Bytes {
    if o.None? then [] else [tag, if o.value then 1 else 0]
  }

  function BytesField(tag: byte, o: Option<Bytes>): Bytes {
    if o.None? then [] else Framed(tag, o.value)
  }

  function Framed(tag: byte, b: Bytes): Bytes { [tag] + EncVarint(|b|) + b }

  function Repeated(tag: byte, vs: seq<nat>): Bytes {
    if vs == [] then [] else [tag] + EncVarint(vs[0]) + Repeated(tag, vs[1..])
  }

  function WireEntry(x: PbEntry): Bytes {
    EnumField(0x08, x.kind) + NumField(0x10, x.term) + NumField(0x18, x.index) + BytesField(0x22, x.data) + x.unknown
  }

  function WireConfState(x: PbConfState): Bytes {
    Repeated(0x08, x.voters) + Repeated(0x10, x.learners) + Repeated(0x18, x.votersOutgoing) + Repeated(0x20, x.learnersNext)
    + BoolField(0x28, x.autoLeave) + x.unknown
  }

  function ConfStateField(tag: byte, o: Option<PbConfState>): Bytes {
    if o.None? then [] else Framed(tag, WireConfState(o.value))
  }

  function WireMetadata(x: PbMetadata): Bytes {
    ConfStateField(0x0a, x.confState) + NumField(0x10, x.index) + NumField(0x18, x.term) + x.unknown
  }

  function MetadataField(tag: byte, o: Option<PbMetadata>): Bytes {
    if o.None? then [] else Framed(tag, WireMetadata(o.value))
  }

  function WireSnapshot(x: PbSnapshot): Bytes {
    BytesField(0x0a, x.data) + MetadataField(0x12, x.metadata) + x.unknown
  }

  function WireMessage(x: PbMessage): Bytes {
    EnumField(0x08, x.kind) + NumField(0x10, x.to) + NumField(0x18, x.from) + NumField(0x20, x.term) + NumField(0x28, x.logTerm)
    + NumField(0x30, x.index) + WireEntries(x.entries) + NumField(0x40, x.commit)
    + SnapshotField(0x4a, x.snapshot) + BoolField(0x50, x.reject) + NumField(0x58, x.rejectHint)
    + BytesField(0x62, x.context) + NumField(0x68, x.vote)
    + WireMessages(x.responses) + x.unknown
  }

  function SnapshotField(tag: byte, o: Option<PbSnapshot>): Bytes {
    if o.None? then [] else Framed(tag, WireSnapshot(o.value))
  }

  function WireEntries(xs: seq<PbEntry>): Bytes {
    if xs == [] then [] else Framed(0x3a, WireEntry(xs[0])) + WireEntries(xs[1..])
  }

  function WireMessages(xs: seq<PbMessage>): Bytes {
    if xs == [] then [] else Framed(0x72, WireMessage(xs[0])) + WireMessages(xs[1..])
  }

  function WireHardState(x: PbHardState): Bytes {
    NumField(0x08, x.term) + NumField(0x10, x.vote) + NumField(0x18, x.commit) + x.unknown
  }

  function WireConfChange(x: PbConfChange): Bytes {
    NumField(0x08, x.id) + EnumField(0x10, x.kind) + NumField(0x18, x.nodeId) + BytesField(0x22, x.context) + x.unknown
  }

  function WireChangeSingle(x: PbChangeSingle): Bytes {
    EnumField(0x08, x.kind) + NumField(0x10, x.nodeId) + x.unknown
  }

  function WireChanges(xs: seq<PbChangeSingle>): Bytes {
    if xs == [] then [] else Framed(0x12, WireChangeSingle(xs[0])) + WireChanges(xs[1..])
  }

  function WireConfChangeV2(x: PbConfChangeV2): Bytes {
    EnumField(0x08, x.transition) + WireChanges(x.changes) + BytesField(0x1a, x.context) + x.unknown
  }

  // ---------------------------------------------------------------------------------------------
  // Encoding writes these bytes
  // ---------------------------------------------------------------------------------------------

  /** What one slot is written as behind a one-byte tag; `num` is the tag without its wire type. */
  function SlotBytes(num: nat, s: Slot): Bytes {
    match s
    case Unset => []
    case Int(v) => EncTag(num, VARINT) + EncVarint(EncEnum(v))
    case Num(v) => EncTag(num, VARINT) + EncVarint(v)
    case Bit(v) => EncTag(num, VARINT) + EncVarint(if v then 1 else 0)
    case Raw(v) => EncTag(num, BYTES) + EncBytes(v)
    case Nums(vs) => EncNums(num, vs)
    case One(x) => EncTag(num, BYTES) + EncBytes(Enc(x))
    case Many(xs) => EncMany(num, xs)
  }

  lemma Next(m: Msg, i: nat)
    requires i < |m.slots| && i < |Fields(m.t)|
    ensures EncSlots(m, i) == SlotBytes(Fields(m.t)[i].num, m.slots[i]) + EncSlots(m, i + 1)
  {
  }

  lemma Last(m: Msg, i: nat)
    requires i >= |m.slots|
    ensures EncSlots(m, i) == []
  {
  }

  /** A tag of one byte. */
  lemma Tag(num: nat, typ: nat)
    requires num < 16 && typ < 8
    ensures EncTag(num, typ) == [num * 8 + typ]
  {
  }

  lemma NumBytes(num: nat, o: Option<nat>)
    requires num < 16
    ensures SlotBytes(num, OfNum(o)) == NumField(num * 8, o)
  {
    Tag(num, VARINT);
  }

  lemma EnumBytes(num: nat, o: Option<int>)
    requires num < 16
    ensures SlotBytes(num, OfEnum(o)) == EnumField(num * 8, o)
  {
    Tag(num, VARINT);
  }

  lemma BoolBytes(num: nat, o: Option<bool>)
    requires num < 16
    ensures SlotBytes(num, OfBool(o)) == BoolField(num * 8, o)
  {
    Tag(num, VARINT);
  }

  lemma RawBytes(num: nat, o: Option<Bytes>)
    requires num < 16
    ensures SlotBytes(num, OfBytes(o)) == BytesField(num * 8 + 2, o)
  {
    Tag(num, BYTES);
  }

  lemma OneBytes(num: nat, x: Msg)
    requires num < 16
    ensures SlotBytes(num, One(x)) == Framed(num * 8 + 2, Enc(x))
  {
    Tag(num, BYTES);
  }

  lemma {:induction false} NumsBytes(num: nat, vs: seq<nat>)
    requires num < 16
    ensures SlotBytes(num, Nums(vs)) == Repeated(num * 8, vs)
  {
    Tag(num, VARINT);
    if vs != [] { NumsBytes(num, vs[1..]); }
  }

  /** The first of several submessages, and the rest. */
  lemma ManyBytes(num: nat, x: Msg, xs: seq<Msg>)
    requires num < 16
    ensures SlotBytes(num, Many([x] + xs)) == Framed(num * 8 + 2, Enc(x)) + SlotBytes(num, Many(xs))
  {
    Tag(num, BYTES);
    assert ([x] + xs)[1..] == xs;
  }

  /** Entry. */
  lemma EntryWire(x: PbEntry)
    ensures Enc(OfEntry(x)) == WireEntry(x)
  {
    hide EncSlots, SlotBytes, EncVarint, OfNum, OfEnum, OfBytes, NumField, EnumField, BytesField;
    var m := OfEntry(x);
    Next(m, 0);
    Next(m, 1);
    Next(m, 2);
    Next(m, 3);
    Last(m, 4);
    EnumBytes(1, x.kind);
    NumBytes(2, x.term);
    NumBytes(3, x.index);
    RawBytes(4, x.data);
  }

  lemma ConfStateWire(x: PbConfState)
    ensures Enc(OfConfState(x)) == WireConfState(x)
  {
    hide EncSlots, SlotBytes, EncVarint, OfBool, Repeated, BoolField;
    var m := OfConfState(x);
    Next(m, 0);
    Next(m, 1);
    Next(m, 2);
    Next(m, 3);
    Next(m, 4);
    Last(m, 5);
    NumsBytes(1, x.voters);
    NumsBytes(2, x.learners);
    NumsBytes(3, x.votersOutgoing);
    NumsBytes(4, x.learnersNext);
    BoolBytes(5, x.autoLeave);
  }

  lemma MetadataWire(x: PbMetadata)
    ensures Enc(OfMetadata(x)) == WireMetadata(x)
  {
    hide EncSlots, SlotBytes, EncVarint, OfNum, NumField, ConfStateField, OfMaybeConf;
    var m := OfMetadata(x);
    Next(m, 0);
    Next(m, 1);
    Next(m, 2);
    Last(m, 3);
    MaybeConfState(x.confState);
    NumBytes(2, x.index);
    NumBytes(3, x.term);
  }

  lemma MaybeConfState(o: Option<PbConfState>)
    ensures SlotBytes(1, OfMaybeConf(o)) == ConfStateField(0x0a, o)
  {
    hide WireConfState, OfConfState, Framed;
    if o.Some? {
      ConfStateWire(o.value);
      OneBytes(1, OfConfState(o.value));
    }
  }

  lemma SnapshotWire(x: PbSnapshot)
    ensures Enc(OfSnapshot(x)) == WireSnapshot(x)
  {
    hide EncSlots, SlotBytes, EncVarint, OfBytes, BytesField, MetadataField, OfMaybeMeta;
    var m := OfSnapshot(x);
    Next(m, 0);
    Next(m, 1);
    Last(m, 2);
    RawBytes(1, x.data);
    MaybeMetadata(x.metadata);
  }

  lemma MaybeMetadata(o: Option<PbMetadata>)
    ensures SlotBytes(2, OfMaybeMeta(o)) == MetadataField(0x12, o)
  {
    hide WireMetadata, OfMetadata, Framed;
    if o.Some? {
      MetadataWire(o.value);
      OneBytes(2, OfMetadata(o.value));
    }
  }

  lemma {:induction false} EntriesWire(xs: seq<PbEntry>)
    ensures SlotBytes(7, Many(OfEntries(xs))) == WireEntries(xs)
  {
    hide WireEntry, OfEntry, Framed;
    if xs != [] {
      EntriesWire(xs[1..]);
      EntryWire(xs[0]);
      ManyBytes(7, OfEntry(xs[0]), OfEntries(xs[1..]));
    }
  }

  lemma {:induction false} MessagesWire(xs: seq<PbMessage>)
    ensures SlotBytes(14, Many(OfMessages(xs))) == WireMessages(xs)
    decreases xs, 0
  {
    hide WireMessage, OfMessage, Framed;
    if xs != [] {
      MessagesWire(xs[1..]);
      MessageWire(xs[0]);
      ManyBytes(14, OfMessage(xs[0]), OfMessages(xs[1..]));
    }
  }

  lemma {:induction false} MessageWire(x: PbMessage)
    ensures Enc(OfMessage(x)) == WireMessage(x)
    decreases x, 1
  {
    MessageHead(x);
    MessageTail(x);
    MessageSplit(x);
  }

  /** The fields before the snapshot. */
  function Head(x: PbMessage): Bytes {
    EnumField(0x08, x.kind) + NumField(0x10, x.to) + NumField(0x18, x.from) + NumField(0x20, x.term) + NumField(0x28, x.logTerm)
    + NumField(0x30, x.index) + WireEntries(x.entries) + NumField(0x40, x.commit)
  }

  /** The fields from the snapshot on. */
  function Tail(x: PbMessage): Bytes {
    SnapshotField(0x4a, x.snapshot) + BoolField(0x50, x.reject) + NumField(0x58, x.rejectHint)
    + BytesField(0x62, x.context) + NumField(0x68, x.vote)
    + WireMessages(x.responses)
  }

  lemma MessageSplit(x: PbMessage)
    ensures WireMessage(x) == Head(x) + Tail(x) + x.unknown
  {
    hide EnumField, NumField, BoolField, BytesField, SnapshotField, WireEntries, WireMessages;
  }

  lemma MessageHead(x: PbMessage)
    ensures EncSlots(OfMessage(x), 0) == Head(x) + EncSlots(OfMessage(x), 8)
  {
    hide EncSlots, SlotBytes, EncVarint, OfNum, OfEnum, OfBool, OfBytes, OfMaybe, OfEntries, OfMessages, NumField, EnumField, WireEntries;
    var m := OfMessage(x);
    Next(m, 0);
    Next(m, 1);
    Next(m, 2);
    Next(m, 3);
    Next(m, 4);
    Next(m, 5);
    Next(m, 6);
    Next(m, 7);
    EnumBytes(1, x.kind);
    NumBytes(2, x.to);
    NumBytes(3, x.from);
    NumBytes(4, x.term);
    NumBytes(5, x.logTerm);
    NumBytes(6, x.index);
    EntriesWire(x.entries);
    NumBytes(8, x.commit);
  }

  lemma MessageTail(x: PbMessage)
    ensures EncSlots(OfMessage(x), 8) == Tail(x)
    decreases x, 0
  {
    hide EncSlots, SlotBytes, EncVarint, OfNum, OfEnum, OfBool, OfBytes, OfMaybe, OfEntries, OfMessages, NumField, BoolField,
         BytesField, SnapshotField, WireMessages;
    var m := OfMessage(x);
    Next(m, 8);
    Next(m, 9);
    Next(m, 10);
    Next(m, 11);
    Next(m, 12);
    Next(m, 13);
    Last(m, 14);
    MaybeSnapshot(x.snapshot);
    BoolBytes(10, x.reject);
    NumBytes(11, x.rejectHint);
    RawBytes(12, x.context);
    NumBytes(13, x.vote);
    MessagesWire(x.responses);
  }

  lemma MaybeSnapshot(o: Option<PbSnapshot>)
    ensures SlotBytes(9, OfMaybe(o)) == SnapshotField(0x4a, o)
  {
    hide WireSnapshot, OfSnapshot, Framed;
    if o.Some? {
      SnapshotWire(o.value);
      OneBytes(9, OfSnapshot(o.value));
    }
  }

  lemma HardStateWire(x: PbHardState)
    ensures Enc(OfHardState(x)) == WireHardState(x)
  {
    hide EncSlots, SlotBytes, EncVarint, OfNum, NumField;
    var m := OfHardState(x);
    Next(m, 0);
    Next(m, 1);
    Next(m, 2);
    Last(m, 3);
    NumBytes(1, x.term);
    NumBytes(2, x.vote);
    NumBytes(3, x.commit);
  }

  lemma ConfChangeWire(x: PbConfChange)
    ensures Enc(OfConfChange(x)) == WireConfChange(x)
  {
    hide EncSlots, SlotBytes, EncVarint, OfNum, OfEnum, OfBytes, NumField, EnumField, BytesField;
    var m := OfConfChange(x);
    Next(m, 0);
    Next(m, 1);
    Next(m, 2);
    Next(m, 3);
    Last(m, 4);
    NumBytes(1, x.id);
    EnumBytes(2, x.kind);
    NumBytes(3, x.nodeId);
    RawBytes(4, x.context);
  }

  lemma ChangeSingleWire(x: PbChangeSingle)
    ensures Enc(OfChangeSingle(x)) == WireChangeSingle(x)
  {
    hide EncSlots, SlotBytes, EncVarint, OfNum, OfEnum, NumField, EnumField;
    var m := OfChangeSingle(x);
    Next(m, 0);
    Next(m, 1);
    Last(m, 2);
    EnumBytes(1, x.kind);
    NumBytes(2, x.nodeId);
  }

  lemma {:induction false} ChangesWire(xs: seq<PbChangeSingle>)
    ensures SlotBytes(2, Many(OfChanges(xs))) == WireChanges(xs)
  {
    hide WireChangeSingle, OfChangeSingle, Framed;
    if xs != [] {
      ChangesWire(xs[1..]);
      ChangeSingleWire(xs[0]);
      ManyBytes(2, OfChangeSingle(xs[0]), OfChanges(xs[1..]));
    }
  }

  lemma ConfChangeV2Wire(x: PbConfChangeV2)
    ensures Enc(OfConfChangeV2(x)) == WireConfChangeV2(x)
  {
    hide EncSlots, SlotBytes, EncVarint, OfEnum, OfBytes, OfChanges, EnumField, BytesField, WireChanges;
    var m := OfConfChangeV2(x);
    Next(m, 0);
    Next(m, 1);
    Next(m, 2);
    Last(m, 3);
    EnumBytes(1, x.transition);
    ChangesWire(x.changes);
    RawBytes(3, x.context);
  }

  // ---------------------------------------------------------------------------------------------
  // Decoding gives the fields back by name
  // ---------------------------------------------------------------------------------------------

  predicate NumFits(o: Option<nat>) { o.None? || o.value < 0x1_0000_0000_0000_0000 }

  predicate EnumFits(o: Option<int>) { o.None? || -0x8000_0000 <= o.value <= 0x7FFF_FFFF }

  predicate AllNumsFit(vs: seq<nat>) { forall i :: 0 <= i < |vs| ==> vs[i] < 0x1_0000_0000_0000_0000 }

  /** Messages with nothing unknown in them, whose numbers fit their fields, nested at most d deep. */
  predicate PlainEntry(x: PbEntry, d: nat) {
    d > 0 && EnumFits(x.kind) && NumFits(x.term) && NumFits(x.index) && x.unknown == []
  }

  predicate PlainConfState(x: PbConfState, d: nat) {
    && d > 0 && x.unknown == []
    && AllNumsFit(x.voters) && AllNumsFit(x.learners) && AllNumsFit(x.votersOutgoing) && AllNumsFit(x.learnersNext)
  }

  predicate PlainMetadata(x: PbMetadata, d: nat) {
    d > 0 && (x.confState.Some? ==> PlainConfState(x.confState.value, d - 1)) && NumFits(x.index) && NumFits(x.term) && x.unknown == []
  }

  predicate PlainSnapshot(x: PbSnapshot, d: nat) {
    d > 0 && (x.metadata.Some? ==> PlainMetadata(x.metadata.value, d - 1)) && x.unknown == []
  }

  predicate PlainMaybe(o: Option<PbSnapshot>, d: nat) {
    o.Some? ==> PlainSnapshot(o.value, d)
  }

  predicate PlainEntries(xs: seq<PbEntry>, d: nat) {
    forall i :: 0 <= i < |xs| ==> PlainEntry(xs[i], d)
  }

  predicate PlainMessage(x: PbMessage, d: nat)
    decreases x, 1
  {
    && d > 0 && x.unknown == []
    && EnumFits(x.kind) && NumFits(x.to) && NumFits(x.from) && NumFits(x.term) && NumFits(x.logTerm) && NumFits(x.index)
    && PlainEntries(x.entries, d - 1)
    && NumFits(x.commit) && PlainMaybe(x.snapshot, d - 1) && NumFits(x.rejectHint) && NumFits(x.vote)
    && PlainMessages(x.responses, d - 1)
  }

  predicate PlainMessages(xs: seq<PbMessage>, d: nat)
    decreases xs, 0
  {
    forall i :: 0 <= i < |xs| ==> PlainMessage(xs[i], d)
  }

  predicate PlainHardState(x: PbHardState) {
    NumFits(x.term) && NumFits(x.vote) && NumFits(x.commit) && x.unknown == []
  }

  predicate PlainConfChange(x: PbConfChange) {
    NumFits(x.id) && EnumFits(x.kind) && NumFits(x.nodeId) && x.unknown == []
  }

  predicate PlainChangeSingle(x: PbChangeSingle, d: nat) {
    d > 0 && EnumFits(x.kind) && NumFits(x.nodeId) && x.unknown == []
  }

  predicate PlainConfChangeV2(x: PbConfChangeV2, d: nat) {
    d > 0 && EnumFits(x.transition) && (forall i :: 0 <= i < |x.changes| ==> PlainChangeSingle(x.changes[i], d - 1)) && x.unknown == []
  }

  /** A valid message is read back from its encoding. */
  lemma ReadsBack(m: Msg, w: Bytes)
    requires Valid(m, 10000) && Enc(m) == w && |w| < 0x1_0000_0000_0000_0000
    ensures Unmarshal(m.t, w) == Done(m)
  {
    hide Valid, Enc;
    RoundTrip(m, 10000);
  }

  lemma SmallValid(m: Msg, d: nat)
    requires d > 0 && Shaped(m) && m.unknown == [] && forall i :: 0 <= i < |m.slots| ==> !m.slots[i].One? && !m.slots[i].Many?
    ensures Valid(m, d)
  {
    hide Shaped;
  }

  lemma EntryValid(x: PbEntry, d: nat)
    requires PlainEntry(x, d)
    ensures Valid(OfEntry(x), d) && OfEntry(x).t == TEntry
  {
    hide Valid;
    SmallValid(OfEntry(x), d);
  }

  lemma ConfStateValid(x: PbConfState, d: nat)
    requires PlainConfState(x, d)
    ensures Valid(OfConfState(x), d) && OfConfState(x).t == TConfState
  {
    hide Valid;
    SmallValid(OfConfState(x), d);
  }

  lemma MetadataValid(x: PbMetadata, d: nat)
    requires PlainMetadata(x, d)
    ensures Valid(OfMetadata(x), d) && OfMetadata(x).t == TMetadata
  {
    hide OfConfState, PlainConfState;
    if x.confState.Some? { ConfStateValid(x.confState.value, d - 1); }
  }

  lemma SnapshotValid(x: PbSnapshot, d: nat)
    requires PlainSnapshot(x, d)
    ensures Valid(OfSnapshot(x), d) && OfSnapshot(x).t == TSnapshot
  {
    hide OfMetadata, PlainMetadata;
    if x.metadata.Some? { MetadataValid(x.metadata.value, d - 1); }
  }

  lemma MaybeValid(o: Option<PbSnapshot>, d: nat)
    requires PlainMaybe(o, d)
    ensures ValidIn(OfMaybe(o), d) && KindOK(Sub(TSnapshot), OfMaybe(o))
  {
    hide OfSnapshot, PlainSnapshot, Valid;
    if o.Some? { SnapshotValid(o.value, d); }
  }

  lemma {:induction false} EntriesValid(xs: seq<PbEntry>, d: nat)
    requires PlainEntries(xs, d)
    ensures ValidIn(Many(OfEntries(xs)), d) && KindOK(Subs(TEntry), Many(OfEntries(xs)))
  {
    hide OfEntry, PlainEntry, Valid;
    if xs != [] {
      EntryValid(xs[0], d);
      EntriesValid(xs[1..], d);
    }
  }

  lemma {:induction false} MessagesValid(xs: seq<PbMessage>, d: nat)
    requires PlainMessages(xs, d)
    ensures ValidIn(Many(OfMessages(xs)), d) && KindOK(Subs(TMessage), Many(OfMessages(xs)))
    decreases xs, 0
  {
    hide OfMessage, PlainMessage, Valid;
    if xs != [] {
      MessageValid(xs[0], d);
      MessagesValid(xs[1..], d);
    }
  }

  lemma {:induction false} MessageValid(x: PbMessage, d: nat)
    requires PlainMessage(x, d)
    ensures Valid(OfMessage(x), d) && OfMessage(x).t == TMessage
    decreases x, 1
  {
    hide Shaped, ValidIn, OfMaybe, OfEntries, OfMessages, PlainMaybe, PlainEntries, PlainMessages, KindOK, AllOf;
    EntriesValid(x.entries, d - 1);
    MaybeValid(x.snapshot, d - 1);
    MessagesValid(x.responses, d - 1);
    MessageShaped(x, d);
    forall i | 0 <= i < 14 && i != 6 && i != 8 && i != 13 ensures ValidIn(OfMessage(x).slots[i], d - 1) {
      PlainValid(OfMessage(x).slots[i], d - 1);
    }
  }

  lemma MessageShaped(x: PbMessage, d: nat)
    requires PlainMessage(x, d) && KindOK(Subs(TEntry), Many(OfEntries(x.entries)))
    requires KindOK(Sub(TSnapshot), OfMaybe(x.snapshot)) && KindOK(Subs(TMessage), Many(OfMessages(x.responses)))
    ensures Shaped(OfMessage(x)) && OfMessage(x).t == TMessage
  {
    hide KindOK, OfMaybe, OfEntries, OfMessages, OfEnum, OfNum, OfBool, OfBytes, PlainMaybe, PlainEntries, PlainMessages, NumFits, EnumFits;
    EnumKind(x.kind);
    NumKind(x.to);
    NumKind(x.from);
    NumKind(x.term);
    NumKind(x.logTerm);
    NumKind(x.index);
    NumKind(x.commit);
    BoolKind(x.reject);
    NumKind(x.rejectHint);
    DataKind(x.context);
    NumKind(x.vote);
  }

  lemma NumKind(o: Option<nat>)
    requires NumFits(o)
    ensures KindOK(U64, OfNum(o))
  {
  }

  lemma EnumKind(o: Option<int>)
    requires EnumFits(o)
    ensures KindOK(Enum, OfEnum(o))
  {
  }

  lemma BoolKind(o: Option<bool>)
    ensures KindOK(Flag, OfBool(o))
  {
  }

  lemma DataKind(o: Option<Bytes>)
    ensures KindOK(Data, OfBytes(o))
  {
  }

  lemma {:induction false} ChangesValid(xs: seq<PbChangeSingle>, d: nat)
    requires forall i :: 0 <= i < |xs| ==> PlainChangeSingle(xs[i], d)
    ensures ValidIn(Many(OfChanges(xs)), d) && KindOK(Subs(TChangeSingle), Many(OfChanges(xs)))
  {
    hide Valid;
    if xs != [] {
      SmallValid(OfChangeSingle(xs[0]), d);
      ChangesValid(xs[1..], d);
    }
  }

  lemma EntryReads(x: PbEntry)
    requires PlainEntry(x, 10000) && |WireEntry(x)| < 0x1_0000_0000_0000_0000
    ensures Unmarshal(TEntry, WireEntry(x)) == Done(OfEntry(x))
  {
    hide WireEntry, PlainEntry, OfEntry, Valid, Enc;
    EntryValid(x, 10000);
    EntryWire(x);
    ReadsBack(OfEntry(x), WireEntry(x));
  }

  lemma ConfStateReads(x: PbConfState)
    requires PlainConfState(x, 10000) && |WireConfState(x)| < 0x1_0000_0000_0000_0000
    ensures Unmarshal(TConfState, WireConfState(x)) == Done(OfConfState(x))
  {
    hide WireConfState, PlainConfState, OfConfState, Valid, Enc;
    ConfStateValid(x, 10000);
    ConfStateWire(x);
    ReadsBack(OfConfState(x), WireConfState(x));
  }

  lemma MetadataReads(x: PbMetadata)
    requires PlainMetadata(x, 10000) && |WireMetadata(x)| < 0x1_0000_0000_0000_0000
    ensures Unmarshal(TMetadata, WireMetadata(x)) == Done(OfMetadata(x))
  {
    hide WireMetadata, PlainMetadata, OfMetadata, Valid, Enc;
    MetadataValid(x, 10000);
    MetadataWire(x);
    ReadsBack(OfMetadata(x), WireMetadata(x));
  }

  lemma SnapshotReads(x: PbSnapshot)
    requires PlainSnapshot(x, 10000) && |WireSnapshot(x)| < 0x1_0000_0000_0000_0000
    ensures Unmarshal(TSnapshot, WireSnapshot(x)) == Done(OfSnapshot(x))
  {
    hide WireSnapshot, PlainSnapshot, OfSnapshot, Valid, Enc;
    SnapshotValid(x, 10000);
    SnapshotWire(x);
    ReadsBack(OfSnapshot(x), WireSnapshot(x));
  }

  lemma MessageReads(x: PbMessage)
    requires PlainMessage(x, 10000) && |WireMessage(x)| < 0x1_0000_0000_0000_0000
    ensures Unmarshal(TMessage, WireMessage(x)) == Done(OfMessage(x))
  {
    hide WireMessage, PlainMessage, OfMessage, Valid, Enc;
    MessageValid(x, 10000);
    MessageWire(x);
    ReadsBack(OfMessage(x), WireMessage(x));
  }

  lemma HardStateReads(x: PbHardState)
    requires PlainHardState(x) && |WireHardState(x)| < 0x1_0000_0000_0000_0000
    ensures Unmarshal(THardState, WireHardState(x)) == Done(OfHardState(x))
  {
    hide WireHardState, Valid, Enc;
    SmallValid(OfHardState(x), 10000);
    HardStateWire(x);
    ReadsBack(OfHardState(x), WireHardState(x));
  }

  lemma ConfChangeReads(x: PbConfChange)
    requires PlainConfChange(x) && |WireConfChange(x)| < 0x1_0000_0000_0000_0000
    ensures Unmarshal(TConfChange, WireConfChange(x)) == Done(OfConfChange(x))
  {
    hide WireConfChange, Valid, Enc;
    SmallValid(OfConfChange(x), 10000);
    ConfChangeWire(x);
    ReadsBack(OfConfChange(x), WireConfChange(x));
  }

  lemma ChangeSingleReads(x: PbChangeSingle)
    requires PlainChangeSingle(x, 10000) && |WireChangeSingle(x)| < 0x1_0000_0000_0000_0000
    ensures Unmarshal(TChangeSingle, WireChangeSingle(x)) == Done(OfChangeSingle(x))
  {
    hide WireChangeSingle, Valid, Enc;
    SmallValid(OfChangeSingle(x), 10000);
    ChangeSingleWire(x);
    ReadsBack(OfChangeSingle(x), WireChangeSingle(x));
  }

  lemma ConfChangeV2Reads(x: PbConfChangeV2)
    requires PlainConfChangeV2(x, 10000) && |WireConfChangeV2(x)| < 0x1_0000_0000_0000_0000
    ensures Unmarshal(TConfChangeV2, WireConfChangeV2(x)) == Done(OfConfChangeV2(x))
  {
    hide WireConfChangeV2, OfChanges, AllOf, Enc;
    ChangesValid(x.changes, 9999);
    ConfChangeV2Wire(x);
    ReadsBack(OfConfChangeV2(x), WireConfChangeV2(x));
  }

  // ---------------------------------------------------------------------------------------------
  // Log entries, and what one buffer after another reads as
  // ---------------------------------------------------------------------------------------------

  /** A normal log entry on the wire: its term behind 0x10, its index behind 0x18, and its data, when it
      has any, behind 0x22. */
  lemma LogEntryWire(e: Entry)
    requires e.term < 0x1_0000_0000_0000_0000 && e.index < 0x1_0000_0000_0000_0000
    requires |EncVarint(e.term)| + |EncVarint(e.index)| + |EncBytes(e.data)| < 0x1_0000_0000_0000_0000 - 3
    ensures var w := [0x10] + EncVarint(e.term) + [0x18] + EncVarint(e.index) + (if e.data == [] then [] else [0x22] + EncBytes(e.data));
            Enc(EntryMsg(e)) == w && Unmarshal(TEntry, w) == Done(EntryMsg(e))
  {
    hide Valid, Enc, EncVarint;
    var x := PbEntry(None, Some(e.term), Some(e.index), if e.data == [] then None else Some(e.data), []);
    var w := [0x10] + EncVarint(e.term) + [0x18] + EncVarint(e.index) + (if e.data == [] then [] else [0x22] + EncBytes(e.data));
    assert WireEntry(x) == w;
    EntryWire(x);
    EntryReads(x);
  }
}
