/** What the nine message types read as, by the names of their fields, when one encoding follows another in a
    buffer, and from bytes an encoder of this codec would not write (raftpb/plain_codec.go). */
module SchemaJoin {
  import opened Types
  import opened Wire
  import opened Codec
  import opened CodecRoundTrip
  import opened CodecStable
  import opened Schema

  // ---------------------------------------------------------------------------------------------
  // One message after another: the last value of a field wins, repeated fields follow one another,
  // and submessages are joined in turn
  // ---------------------------------------------------------------------------------------------

  function Later<T>(a: Option<T>, b: Option<T>): Option<T> { if b.Some? then b else a }

  function JoinEntry(x: PbEntry, y: PbEntry): PbEntry {
    PbEntry(Later(x.kind, y.kind), Later(x.term, y.term), Later(x.index, y.index), Later(x.data, y.data), x.unknown + y.unknown)
  }

  function JoinConfState(x: PbConfState, y: PbConfState): PbConfState {
    PbConfState(x.voters + y.voters, x.learners + y.learners, x.votersOutgoing + y.votersOutgoing, x.learnersNext + y.learnersNext,
                Later(x.autoLeave, y.autoLeave), x.unknown + y.unknown)
  }

  function JoinMetadata(x: PbMetadata, y: PbMetadata): PbMetadata {
    PbMetadata(if x.confState.Some? && y.confState.Some? then Some(JoinConfState(x.confState.value, y.confState.value))
               else Later(x.confState, y.confState),
               Later(x.index, y.index), Later(x.term, y.term), x.unknown + y.unknown)
  }

  function JoinSnapshot(x: PbSnapshot, y: PbSnapshot): PbSnapshot {
    PbSnapshot(Later(x.data, y.data),
               if x.metadata.Some? && y.metadata.Some? then Some(JoinMetadata(x.metadata.value, y.metadata.value))
               else Later(x.metadata, y.metadata),
               x.unknown + y.unknown)
  }

  function JoinMessage(x: PbMessage, y: PbMessage): PbMessage {
    PbMessage(Later(x.kind, y.kind), Later(x.to, y.to), Later(x.from, y.from), Later(x.term, y.term), Later(x.logTerm, y.logTerm),
              Later(x.index, y.index), x.entries + y.entries, Later(x.commit, y.commit),
              if x.snapshot.Some? && y.snapshot.Some? then Some(JoinSnapshot(x.snapshot.value, y.snapshot.value))
              else Later(x.snapshot, y.snapshot),
              Later(x.reject, y.reject), Later(x.rejectHint, y.rejectHint), Later(x.context, y.context), Later(x.vote, y.vote),
              x.responses + y.responses, x.unknown + y.unknown)
  }

  lemma NumJoins(a: Option<nat>, b: Option<nat>)
    ensures MergeSlot(OfNum(a), OfNum(b)) == OfNum(Later(a, b))
  {
  }

  lemma EnumJoins(a: Option<int>, b: Option<int>)
    ensures MergeSlot(OfEnum(a), OfEnum(b)) == OfEnum(Later(a, b))
  {
  }

  lemma BoolJoins(a: Option<bool>, b: Option<bool>)
    ensures MergeSlot(OfBool(a), OfBool(b)) == OfBool(Later(a, b))
  {
  }

  lemma DataJoins(a: Option<Bytes>, b: Option<Bytes>)
    ensures MergeSlot(OfBytes(a), OfBytes(b)) == OfBytes(Later(a, b))
  {
  }

  lemma NumsJoin(a: seq<nat>, b: seq<nat>)
    ensures MergeSlot(Nums(a), Nums(b)) == Nums(a + b)
  {
  }

  /** Merging is slot by slot. */
  lemma MergeIs(x: Msg, y: Msg, z: Msg)
    requires |x.slots| == |y.slots| == |z.slots| && z.t == x.t && z.unknown == x.unknown + y.unknown
    requires forall i :: 0 <= i < |x.slots| ==> MergeSlot(x.slots[i], y.slots[i]) == z.slots[i]
    ensures Merge(x, y) == z
  {
    hide MergeSlot;
    assert Merge(x, y).slots == z.slots;
  }

  lemma EntryJoins(x: PbEntry, y: PbEntry)
    ensures Merge(OfEntry(x), OfEntry(y)) == OfEntry(JoinEntry(x, y))
  {
    hide MergeSlot, Merge, OfEnum, OfNum, OfBytes;
    EnumJoins(x.kind, y.kind);
    NumJoins(x.term, y.term);
    NumJoins(x.index, y.index);
    DataJoins(x.data, y.data);
    MergeIs(OfEntry(x), OfEntry(y), OfEntry(JoinEntry(x, y)));
  }

  lemma ConfStateJoins(x: PbConfState, y: PbConfState)
    ensures Merge(OfConfState(x), OfConfState(y)) == OfConfState(JoinConfState(x, y))
  {
    hide MergeSlot, Merge, OfBool;
    NumsJoin(x.voters, y.voters);
    NumsJoin(x.learners, y.learners);
    NumsJoin(x.votersOutgoing, y.votersOutgoing);
    NumsJoin(x.learnersNext, y.learnersNext);
    BoolJoins(x.autoLeave, y.autoLeave);
    MergeIs(OfConfState(x), OfConfState(y), OfConfState(JoinConfState(x, y)));
  }

  /** A submessage that is set on both sides is merged, and one that is set on one side is kept. */
  lemma OneJoins(a: Msg, b: Msg, d: nat)
    requires Valid(b, d)
    ensures MergeSlot(One(a), One(b)) == One(Merge(a, b)) && MergeSlot(Unset, One(b)) == One(b) && MergeSlot(One(a), Unset) == One(a)
  {
    hide Merge, Valid;
    CloneSame(b, d);
  }

  lemma ConfSlotJoins(a: Option<PbConfState>, b: Option<PbConfState>, d: nat)
    requires b.Some? ==> PlainConfState(b.value, d)
    ensures MergeSlot(OfMaybeConf(a), OfMaybeConf(b))
            == OfMaybeConf(if a.Some? && b.Some? then Some(JoinConfState(a.value, b.value)) else Later(a, b))
  {
    hide Merge, MergeSlot, Valid, OfConfState, PlainConfState, JoinConfState;
    if b.Some? {
      ConfStateValid(b.value, d);
      OneJoins(if a.Some? then OfConfState(a.value) else OfConfState(b.value), OfConfState(b.value), d);
      if a.Some? { ConfStateJoins(a.value, b.value); }
    } else {
      UnsetJoins(OfMaybeConf(a));
    }
  }

  lemma UnsetJoins(s: Slot)
    ensures MergeSlot(s, Unset) == s
  {
  }

  lemma MetadataJoins(x: PbMetadata, y: PbMetadata, d: nat)
    requires PlainMetadata(y, d)
    ensures Merge(OfMetadata(x), OfMetadata(y)) == OfMetadata(JoinMetadata(x, y))
  {
    hide MergeSlot, Merge, OfNum, OfConfState, PlainConfState, JoinConfState;
    ConfSlotJoins(x.confState, y.confState, d - 1);
    NumJoins(x.index, y.index);
    NumJoins(x.term, y.term);
    MergeIs(OfMetadata(x), OfMetadata(y), OfMetadata(JoinMetadata(x, y)));
  }

  lemma MetaSlotJoins(a: Option<PbMetadata>, b: Option<PbMetadata>, d: nat)
    requires b.Some? ==> PlainMetadata(b.value, d)
    ensures MergeSlot(OfMaybeMeta(a), OfMaybeMeta(b))
            == OfMaybeMeta(if a.Some? && b.Some? then Some(JoinMetadata(a.value, b.value)) else Later(a, b))
  {
    hide Merge, MergeSlot, Valid, OfMetadata, PlainMetadata, JoinMetadata;
    if b.Some? {
      MetadataValid(b.value, d);
      OneJoins(if a.Some? then OfMetadata(a.value) else OfMetadata(b.value), OfMetadata(b.value), d);
      if a.Some? { MetadataJoins(a.value, b.value, d); }
    } else {
      UnsetJoins(OfMaybeMeta(a));
    }
  }

  lemma SnapshotJoins(x: PbSnapshot, y: PbSnapshot, d: nat)
    requires PlainSnapshot(y, d)
    ensures Merge(OfSnapshot(x), OfSnapshot(y)) == OfSnapshot(JoinSnapshot(x, y))
  {
    hide MergeSlot, Merge, OfBytes, OfMetadata, PlainMetadata, JoinMetadata;
    DataJoins(x.data, y.data);
    MetaSlotJoins(x.metadata, y.metadata, d - 1);
    MergeIs(OfSnapshot(x), OfSnapshot(y), OfSnapshot(JoinSnapshot(x, y)));
  }

  lemma SnapSlotJoins(a: Option<PbSnapshot>, b: Option<PbSnapshot>, d: nat)
    requires PlainMaybe(b, d)
    ensures MergeSlot(OfMaybe(a), OfMaybe(b))
            == OfMaybe(if a.Some? && b.Some? then Some(JoinSnapshot(a.value, b.value)) else Later(a, b))
  {
    hide Merge, MergeSlot, Valid, OfSnapshot, PlainSnapshot, JoinSnapshot;
    if b.Some? {
      SnapshotValid(b.value, d);
      OneJoins(if a.Some? then OfSnapshot(a.value) else OfSnapshot(b.value), OfSnapshot(b.value), d);
      if a.Some? { SnapshotJoins(a.value, b.value, d); }
    } else {
      UnsetJoins(OfMaybe(a));
    }
  }

  /** Repeated submessages are cloned behind those that are there. */
  lemma ManyJoin(a: seq<Msg>, b: seq<Msg>, d: nat)
    requires AllValid(b, d)
    ensures MergeSlot(Many(a), Many(b)) == Many(a + b)
  {
    hide Merge, Valid, CloneAll;
    ClonesSame(b, d);
  }

  lemma {:induction false} ClonesSame(ms: seq<Msg>, d: nat)
    requires AllValid(ms, d)
    ensures CloneAll(ms) == ms
  {
    hide Merge, Valid;
    if ms != [] {
      assert ms[0] in ms;
      CloneSame(ms[0], d);
      ClonesSame(ms[1..], d);
    }
  }

  lemma {:induction false} EntriesOf(a: seq<PbEntry>, b: seq<PbEntry>)
    ensures OfEntries(a + b) == OfEntries(a) + OfEntries(b)
  {
    hide OfEntry;
    if a == [] {
      assert a + b == b;
    } else {
      assert (a + b)[1..] == a[1..] + b;
      EntriesOf(a[1..], b);
    }
  }

  lemma {:induction false} MessagesOf(a: seq<PbMessage>, b: seq<PbMessage>)
    ensures OfMessages(a + b) == OfMessages(a) + OfMessages(b)
  {
    hide OfMessage;
    if a == [] {
      assert a + b == b;
    } else {
      assert (a + b)[1..] == a[1..] + b;
      MessagesOf(a[1..], b);
    }
  }

  lemma EntriesJoin(a: seq<PbEntry>, b: seq<PbEntry>, d: nat)
    requires PlainEntries(b, d)
    ensures MergeSlot(Many(OfEntries(a)), Many(OfEntries(b))) == Many(OfEntries(a + b))
  {
    hide OfEntries, MergeSlot, Valid, AllOf;
    EntriesValid(b, d);
    ManyJoin(OfEntries(a), OfEntries(b), d);
    EntriesOf(a, b);
  }

  lemma MessagesJoin(a: seq<PbMessage>, b: seq<PbMessage>, d: nat)
    requires PlainMessages(b, d)
    ensures MergeSlot(Many(OfMessages(a)), Many(OfMessages(b))) == Many(OfMessages(a + b))
  {
    hide OfMessages, PlainMessages, MergeSlot, Valid, AllOf;
    MessagesValid(b, d);
    ManyJoin(OfMessages(a), OfMessages(b), d);
    MessagesOf(a, b);
  }

  lemma MessageJoins(x: PbMessage, y: PbMessage, d: nat)
    requires PlainMessage(y, d)
    ensures Merge(OfMessage(x), OfMessage(y)) == OfMessage(JoinMessage(x, y))
  {
    hide MergeSlot, Merge, OfEnum, OfNum, OfBool, OfBytes, OfMaybe, OfEntries, OfMessages, PlainMaybe, PlainEntries, PlainMessages,
         NumFits, EnumFits, JoinSnapshot, Later;
    EnumJoins(x.kind, y.kind);
    NumJoins(x.to, y.to);
    NumJoins(x.from, y.from);
    NumJoins(x.term, y.term);
    NumJoins(x.logTerm, y.logTerm);
    NumJoins(x.index, y.index);
    EntriesJoin(x.entries, y.entries, d - 1);
    NumJoins(x.commit, y.commit);
    SnapSlotJoins(x.snapshot, y.snapshot, d - 1);
    BoolJoins(x.reject, y.reject);
    NumJoins(x.rejectHint, y.rejectHint);
    DataJoins(x.context, y.context);
    NumJoins(x.vote, y.vote);
    MessagesJoin(x.responses, y.responses, d - 1);
    MergeIs(OfMessage(x), OfMessage(y), OfMessage(JoinMessage(x, y)));
  }

  /** Two messages one after the other in a buffer read as one: every field that the second sets is the
      second's, its entries and responses follow the first's, and the snapshots are joined. */
  lemma MessagesRead(x: PbMessage, y: PbMessage)
    requires PlainMessage(x, 10000) && PlainMessage(y, 10000)
    requires |WireMessage(x)| < 0x1_0000_0000_0000_0000 && |WireMessage(y)| < 0x1_0000_0000_0000_0000
    ensures Unmarshal(TMessage, WireMessage(x) + WireMessage(y)) == Done(OfMessage(JoinMessage(x, y)))
  {
    hide WireMessage, PlainMessage, OfMessage, JoinMessage, Valid, Enc, Merge;
    MessageWire(x);
    MessageWire(y);
    MessageValid(x, 10000);
    MessageValid(y, 10000);
    MessageJoins(x, y, 10000);
    JoinIsMerge(OfMessage(x), OfMessage(y));
  }

  lemma EntriesRead(x: PbEntry, y: PbEntry)
    requires PlainEntry(x, 10000) && PlainEntry(y, 10000)
    requires |WireEntry(x)| < 0x1_0000_0000_0000_0000 && |WireEntry(y)| < 0x1_0000_0000_0000_0000
    ensures Unmarshal(TEntry, WireEntry(x) + WireEntry(y)) == Done(OfEntry(JoinEntry(x, y)))
  {
    hide WireEntry, PlainEntry, OfEntry, JoinEntry, Valid, Enc, Merge;
    EntryWire(x);
    EntryWire(y);
    EntryValid(x, 10000);
    EntryValid(y, 10000);
    EntryJoins(x, y);
    JoinIsMerge(OfEntry(x), OfEntry(y));
  }

  // ---------------------------------------------------------------------------------------------
  // Bytes no encoder here writes
  // ---------------------------------------------------------------------------------------------

  /** Varints one after another. */
  function Varints(vs: seq<nat>): Bytes {
    if vs == [] then [] else EncVarint(vs[0]) + Varints(vs[1..])
  }

  lemma {:induction false} PackedReads(vs: seq<nat>)
    requires AllNumsFit(vs)
    ensures Packed(Varints(vs)) == Some(vs)
  {
    hide EncVarint, DecVarint;
    if vs != [] {
      CapZero();
      VarintRoundTrip(vs[0], 0, Varints(vs[1..]));
      PackedReads(vs[1..]);
      var b := Varints(vs);
      assert b[|EncVarint(vs[0])|..] == Varints(vs[1..]);
      assert [vs[0]] + vs[1..] == vs;
    }
  }

  /** A configuration's four lists are also read packed: the numbers of the list whose tag stands before
      the length, in order. */
  lemma PackedList(k: nat, vs: seq<nat>)
    requires 1 <= k <= 4 && AllNumsFit(vs) && |Varints(vs)| < 0x1_0000_0000_0000_0000
    ensures Unmarshal(TConfState, [k * 8 + 2] + EncBytes(Varints(vs)))
            == Done(OfConfState(PbConfState(if k == 1 then vs else [], if k == 2 then vs else [], if k == 3 then vs else [],
                                            if k == 4 then vs else [], None, [])))
  {
    hide EncVarint, DecVarint, Loop, EncTag, EncBytes, Packed, Varints;
    var m, p := Empty(TConfState), Varints(vs);
    PackedReads(vs);
    Tag(k, BYTES);
    LoopBytes(m, k - 1, p, [], 9999);
    assert [k * 8 + 2] + EncBytes(p) + [] == [k * 8 + 2] + EncBytes(p);
    LoopEnds(Msg(TConfState, m.slots[k - 1 := Nums([] + vs)], []), 9999);
    assert [] + vs == vs;
  }

  lemma LoopEnds(m: Msg, d: nat)
    ensures Loop(m, [], d) == Done(m)
  {
  }

  /** Any varint that is not 0 reads as true. */
  lemma TruthReads(v: nat)
    requires v < 0x1_0000_0000_0000_0000
    ensures Unmarshal(TConfState, [0x28] + EncVarint(v)) == Done(OfConfState(PbConfState([], [], [], [], Some(v != 0), [])))
  {
    hide EncVarint, DecVarint, Loop, EncTag;
    var m := Empty(TConfState);
    Tag(5, VARINT);
    LoopVarint(m, 4, v, [], 9999);
    assert [0x28] + EncVarint(v) + [] == [0x28] + EncVarint(v);
    LoopEnds(WithSlot(m, 4, Bit(v != 0)), 9999);
  }

  /** An enum is the 32-bit number whose low bits the varint has. */
  lemma EnumReads(v: nat, i: int)
    requires v < 0x1_0000_0000_0000_0000 && -0x8000_0000 <= i <= 0x7FFF_FFFF && (v - i) % 0x1_0000_0000 == 0
    ensures Unmarshal(TChangeSingle, [0x08] + EncVarint(v)) == Done(OfChangeSingle(PbChangeSingle(Some(i), None, [])))
  {
    hide EncVarint, DecVarint, Loop, EncTag;
    var m := Empty(TChangeSingle);
    Tag(1, VARINT);
    LowBits(v, i);
    LoopVarint(m, 0, v, [], 9999);
    assert [0x08] + EncVarint(v) + [] == [0x08] + EncVarint(v);
    LoopEnds(WithSlot(m, 0, Int(i)), 9999);
  }

  lemma LowBits(v: nat, i: int)
    requires -0x8000_0000 <= i <= 0x7FFF_FFFF && (v - i) % 0x1_0000_0000 == 0
    ensures DecEnum(v) == i
  {
  }
}
