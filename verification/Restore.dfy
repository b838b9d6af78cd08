/** Rebuilding a configuration from its ConfState (confchange/restore.go). */
module Restore {
  import opened Types
  import opened Quorum
  import opened ConfChange
  import Changer

  /** What a snapshot says of the configuration. */
  datatype ConfState = ConfState(voters: seq<Id>, learners: seq<Id>, votersOutgoing: seq<Id>, learnersNext: seq<Id>, autoLeave: bool)

  function SetOf(ids: seq<Id>): set<Id> {
    set x | x in ids
  }

  predicate Distinct(ids: seq<Id>) {
    forall i, j :: 0 <= i < j < |ids| ==> ids[i] != ids[j]
  }

  function Changes(kind: ChangeKind, ids: seq<Id>): (ccs: seq<Change>)
    ensures |ccs| == |ids| && forall i :: 0 <= i < |ids| ==> ccs[i] == Change(kind, ids[i])
  {
    seq(|ids|, i requires 0 <= i < |ids| => Change(kind, ids[i]))
  }

  /** The changes that build the outgoing half, and those that then build the rest. */
  function ToChanges(cs: ConfState): (seq<Change>, seq<Change>) {
    (Changes(AddNode, cs.votersOutgoing),
     Changes(RemoveNode, cs.votersOutgoing) + Changes(AddNode, cs.voters)
     + Changes(AddLearner, cs.learners) + Changes(AddLearner, cs.learnersNext))
  }

  /** Each change as a simple one, until one is refused. */
  function OneByOne(t: Tracker, ccs: seq<Change>): Result
    decreases |ccs|
  {
    if ccs == [] then Ok(t)
    else match Simple(t, [ccs[0]])
      case Err(e) => Err(e)
      case Ok(u) => OneByOne(u, ccs[1..])
  }

  function Restored(t: Tracker, cs: ConfState): Result {
    var (out, inc) := ToChanges(cs);
    if out == [] then OneByOne(t, inc)
    else match OneByOne(t, out)
      case Err(e) => Err(e)
      case Ok(u) => EnterJoint(u, cs.autoLeave, inc)
  }

  /** A ConfState a cluster can be in. */
  predicate StateOK(cs: ConfState) {
    && Distinct(cs.voters) && Distinct(cs.learners) && Distinct(cs.votersOutgoing) && Distinct(cs.learnersNext)
    && 0 !in cs.voters && 0 !in cs.learners && 0 !in cs.votersOutgoing && 0 !in cs.learnersNext
    && cs.voters != []
    && SetOf(cs.learners) !! SetOf(cs.voters) && SetOf(cs.learners) !! SetOf(cs.votersOutgoing)
    && SetOf(cs.learnersNext) <= SetOf(cs.votersOutgoing) && SetOf(cs.learnersNext) !! SetOf(cs.voters)
    && (cs.votersOutgoing == [] ==> cs.learnersNext == [] && !cs.autoLeave)
  }

  /** The configuration a ConfState describes. */
  function Described(cs: ConfState): Config {
    Config(JointConfig(SetOf(cs.voters), SetOf(cs.votersOutgoing)), SetOf(cs.learners), SetOf(cs.learnersNext), cs.autoLeave)
  }

  // ---------------------------------------------------------------------------------------------
  // Lists of like changes
  // ---------------------------------------------------------------------------------------------

  lemma {:induction false} EffectsOf(cfg: Config, a: seq<Change>, b: seq<Change>)
    ensures Effects(cfg, a + b) == Effects(Effects(cfg, a), b)
    decreases |a|
  {
    hide Effect;
    if a == [] {
      assert a + b == b;
    } else {
      assert (a + b)[1..] == a[1..] + b;
      EffectsOf(Effect(cfg, a[0]), a[1..], b);
    }
  }

  lemma SetFrom(ids: seq<Id>)
    requires ids != []
    ensures SetOf(ids) == {ids[0]} + SetOf(ids[1..])
  {
    assert ids == [ids[0]] + ids[1..];
  }

  /** Adding voters that are no learners of any kind. */
  lemma {:induction false} AddVoters(cfg: Config, ids: seq<Id>)
    requires 0 !in ids && SetOf(ids) !! cfg.learners && SetOf(ids) !! cfg.learnersNext
    ensures Effects(cfg, Changes(AddNode, ids)) == WithIncoming(cfg, cfg.voters.incoming + SetOf(ids))
    decreases |ids|
  {
    if ids == [] {
      assert cfg.voters.incoming + SetOf(ids) == cfg.voters.incoming;
    } else {
      SetFrom(ids);
      assert ids[0] in SetOf(ids);
      var cfg1 := Effect(cfg, Change(AddNode, ids[0]));
      assert cfg.learners - {ids[0]} == cfg.learners && cfg.learnersNext - {ids[0]} == cfg.learnersNext;
      assert cfg1 == WithIncoming(cfg, cfg.voters.incoming + {ids[0]});
      assert Changes(AddNode, ids)[1..] == Changes(AddNode, ids[1..]);
      AddVoters(cfg1, ids[1..]);
      assert cfg.voters.incoming + {ids[0]} + SetOf(ids[1..]) == cfg.voters.incoming + SetOf(ids);
    }
  }

  lemma {:induction false} RemoveVoters(cfg: Config, ids: seq<Id>)
    requires 0 !in ids && SetOf(ids) !! cfg.learners && SetOf(ids) !! cfg.learnersNext
    ensures Effects(cfg, Changes(RemoveNode, ids)) == WithIncoming(cfg, cfg.voters.incoming - SetOf(ids))
    decreases |ids|
  {
    if ids == [] {
      assert cfg.voters.incoming - SetOf(ids) == cfg.voters.incoming;
    } else {
      SetFrom(ids);
      assert ids[0] in SetOf(ids);
      var cfg1 := Effect(cfg, Change(RemoveNode, ids[0]));
      assert cfg.learners - {ids[0]} == cfg.learners && cfg.learnersNext - {ids[0]} == cfg.learnersNext;
      assert cfg1 == WithIncoming(cfg, cfg.voters.incoming - {ids[0]});
      assert Changes(RemoveNode, ids)[1..] == Changes(RemoveNode, ids[1..]);
      RemoveVoters(cfg1, ids[1..]);
      assert cfg.voters.incoming - {ids[0]} - SetOf(ids[1..]) == cfg.voters.incoming - SetOf(ids);
    }
  }

  /** Adding learners that do not vote in the incoming half: at once, or staged while they vote in
      the outgoing one. */
  lemma {:induction false} AddLearners(cfg: Config, ids: seq<Id>, staged: bool)
    requires 0 !in ids && SetOf(ids) !! cfg.voters.incoming && SetOf(ids) !! cfg.learners && Distinct(ids)
    requires if staged then SetOf(ids) <= cfg.voters.outgoing else SetOf(ids) !! cfg.voters.outgoing
    ensures Effects(cfg, Changes(AddLearner, ids)) ==
              if staged then cfg.(learnersNext := cfg.learnersNext + SetOf(ids)) else cfg.(learners := cfg.learners + SetOf(ids))
    decreases |ids|
  {
    if ids == [] {
      assert cfg.learnersNext + SetOf(ids) == cfg.learnersNext && cfg.learners + SetOf(ids) == cfg.learners;
    } else {
      SetFrom(ids);
      var id := ids[0];
      assert id in SetOf(ids);
      assert id !in ids[1..];
      var cfg1 := Effect(cfg, Change(AddLearner, id));
      assert cfg.voters.incoming - {id} == cfg.voters.incoming;
      assert cfg1 == if staged then cfg.(learnersNext := cfg.learnersNext + {id}) else cfg.(learners := cfg.learners + {id});
      assert Changes(AddLearner, ids)[1..] == Changes(AddLearner, ids[1..]);
      AddLearners(cfg1, ids[1..], staged);
      assert cfg.learnersNext + {id} + SetOf(ids[1..]) == cfg.learnersNext + SetOf(ids);
      assert cfg.learners + {id} + SetOf(ids[1..]) == cfg.learners + SetOf(ids);
    }
  }

  // ---------------------------------------------------------------------------------------------
  // One by one
  // ---------------------------------------------------------------------------------------------

  lemma OneEffect(cfg: Config, cc: Change)
    ensures Effects(cfg, [cc]) == Effect(cfg, cc)
  {
    assert [cc][1..] == [];
  }

  /** Adding a voter, or a learner when there is a voter already, is always accepted. */
  lemma AcceptedOne(t: Tracker, cc: Change)
    requires WellFormed(t) && !Joint(t.cfg) && cc.node != 0
    requires cc.kind.AddNode? || (cc.kind.AddLearner? && cc.node !in t.cfg.voters.incoming && t.cfg.voters.incoming != {})
    ensures Simple(t, [cc]).Ok? && WellFormed(Simple(t, [cc]).t) && Simple(t, [cc]).t.cfg == Effect(t.cfg, cc)
    ensures !Joint(Simple(t, [cc]).t.cfg)
  {
    hide WellFormed, Simple;
    SimpleKeeps(t, [cc]);
    OneEffect(t.cfg, cc);
    var a, b := t.cfg.voters.incoming, Effect(t.cfg, cc).voters.incoming;
    if cc.kind.AddNode? {
      assert b == a + {cc.node} && a - b == {};
      assert b - a <= {cc.node};
      Cardinality(b - a, {cc.node});
    } else {
      assert b == a && a - b == {} && b - a == {};
    }
  }

  lemma {:induction false} AcceptedAll(t: Tracker, ccs: seq<Change>)
    requires WellFormed(t) && !Joint(t.cfg)
    requires forall cc :: cc in ccs ==> cc.node != 0
    requires VotersFirst(ccs) && (t.cfg.voters.incoming != {} || ccs == [] || ccs[0].kind.AddNode?)
    requires forall cc :: cc in ccs && cc.kind.AddLearner? ==> cc.node !in t.cfg.voters.incoming && Change(AddNode, cc.node) !in ccs
    ensures OneByOne(t, ccs).Ok? && WellFormed(OneByOne(t, ccs).t) && OneByOne(t, ccs).t.cfg == Effects(t.cfg, ccs)
    ensures !Joint(OneByOne(t, ccs).t.cfg)
    decreases |ccs|
  {
    hide WellFormed, Simple;
    if ccs != [] {
      assert ccs[0] in ccs;
      AcceptedOne(t, ccs[0]);
      var u := Simple(t, [ccs[0]]).t;
      assert forall cc :: cc in ccs[1..] ==> cc in ccs;
      AcceptedAll(u, ccs[1..]);
    }
  }

  /** Voters are added before learners, and nothing else happens. */
  predicate VotersFirst(ccs: seq<Change>) {
    (forall cc :: cc in ccs ==> cc.kind.AddNode? || cc.kind.AddLearner?)
    && forall i, j :: 0 <= i < j < |ccs| && ccs[j].kind.AddNode? ==> ccs[i].kind.AddNode?
  }

  // ---------------------------------------------------------------------------------------------
  // The round trip
  // ---------------------------------------------------------------------------------------------

  /** What the incoming changes make of the configuration they start from. */
  lemma IncomingEffects(cs: ConfState, cfg: Config)
    requires StateOK(cs) && cfg.learners == {} && cfg.learnersNext == {}
    requires cfg.voters == JointConfig(SetOf(cs.votersOutgoing), SetOf(cs.votersOutgoing)) && !cfg.autoLeave
    ensures Effects(cfg, ToChanges(cs).1) == Described(cs).(autoLeave := false)
  {
    hide Effects, Changes;
    var a, b := Changes(RemoveNode, cs.votersOutgoing), Changes(AddNode, cs.voters);
    var c, d := Changes(AddLearner, cs.learners), Changes(AddLearner, cs.learnersNext);
    EffectsOf(cfg, a + b + c, d);
    EffectsOf(cfg, a + b, c);
    EffectsOf(cfg, a, b);
    RemoveVoters(cfg, cs.votersOutgoing);
    var cfg1 := WithIncoming(cfg, cfg.voters.incoming - SetOf(cs.votersOutgoing));
    assert cfg1.voters.incoming == {};
    AddVoters(cfg1, cs.voters);
    var cfg2 := WithIncoming(cfg1, cfg1.voters.incoming + SetOf(cs.voters));
    assert cfg2.voters.incoming == SetOf(cs.voters);
    AddLearners(cfg2, cs.learners, false);
    var cfg3 := cfg2.(learners := cfg2.learners + SetOf(cs.learners));
    assert cfg3.learners == SetOf(cs.learners);
    AddLearners(cfg3, cs.learnersNext, true);
    assert cfg3.learnersNext + SetOf(cs.learnersNext) == SetOf(cs.learnersNext);
  }

  lemma SimpleRestore(t: Tracker, cs: ConfState)
    requires StateOK(cs) && cs.votersOutgoing == [] && WellFormed(t) && t.cfg == Config(JointConfig({}, {}), {}, {}, false)
    ensures Restored(t, cs).Ok? && WellFormed(Restored(t, cs).t) && Restored(t, cs).t.cfg == Described(cs)
  {
    hide WellFormed, Simple, Effects;
    var inc := ToChanges(cs).1;
    assert inc == Changes(AddNode, cs.voters) + Changes(AddLearner, cs.learners);
    forall cc | cc in inc && cc.kind.AddLearner? ensures Change(AddNode, cc.node) !in inc {
      assert cc.node in SetOf(cs.learners);
      assert Change(AddNode, cc.node) in inc ==> cc.node in SetOf(cs.voters);
    }
    AcceptedAll(t, inc);
    IncomingEffects(cs, t.cfg);
  }

  lemma OutgoingBuilt(t: Tracker, cs: ConfState)
    requires StateOK(cs) && WellFormed(t) && t.cfg == Config(JointConfig({}, {}), {}, {}, false)
    ensures var r := OneByOne(t, ToChanges(cs).0);
            r.Ok? && WellFormed(r.t) && r.t.cfg == Config(JointConfig(SetOf(cs.votersOutgoing), {}), {}, {}, false)
  {
    hide WellFormed, Simple, Effects;
    AcceptedAll(t, ToChanges(cs).0);
    AddVoters(t.cfg, cs.votersOutgoing);
    assert {} + SetOf(cs.votersOutgoing) == SetOf(cs.votersOutgoing);
  }

  lemma JointRestore(t: Tracker, cs: ConfState)
    requires StateOK(cs) && cs.votersOutgoing != [] && WellFormed(t) && t.cfg == Config(JointConfig({}, {}), {}, {}, false)
    ensures Restored(t, cs).Ok? && WellFormed(Restored(t, cs).t) && Restored(t, cs).t.cfg == Described(cs)
  {
    hide WellFormed, EnterJoint, Effects, OneByOne;
    OutgoingBuilt(t, cs);
    var u := OneByOne(t, ToChanges(cs).0).t;
    var both := u.cfg.(voters := JointConfig(u.cfg.voters.incoming, u.cfg.voters.incoming));
    assert cs.votersOutgoing[0] in SetOf(cs.votersOutgoing);
    assert cs.voters[0] in SetOf(cs.voters);
    EnterJointKeeps(u, cs.autoLeave, ToChanges(cs).1);
    IncomingEffects(cs, both);
    AllKnown(cs);
  }

  lemma AllKnown(cs: ConfState)
    ensures Known(ToChanges(cs).1)
  {
  }

  /** Restoring a well-formed ConfState from an empty tracker succeeds and gives the configuration it
      describes. */
  lemma RestoreRoundTrip(cs: ConfState, lastIndex: nat, maxInflight: nat, maxBytes: nat)
    requires StateOK(cs)
    ensures var r := Restored(EmptyTracker(lastIndex, maxInflight, maxBytes), cs);
            r.Ok? && WellFormed(r.t) && r.t.cfg == Described(cs)
  {
    var t := EmptyTracker(lastIndex, maxInflight, maxBytes);
    EmptyIsWellFormed(lastIndex, maxInflight, maxBytes);
    if cs.votersOutgoing == [] { SimpleRestore(t, cs); } else { JointRestore(t, cs); }
  }

  // ---------------------------------------------------------------------------------------------
  // ConfState
  // ---------------------------------------------------------------------------------------------

  predicate Ascending(ids: seq<Id>) {
    forall i, j :: 0 <= i < j < |ids| ==> ids[i] < ids[j]
  }

  /** The ids of a set in increasing order. */
  method Slice(ids: set<Id>) returns (s: seq<Id>)
    ensures Ascending(s) && SetOf(s) == ids
  {
    hide Ascending, SetOf, Below;
    s := [];
    var todo := ids;
    NothingYet(ids);
    while todo != {}
      invariant Below(s, todo, ids) && Ascending(s)
      decreases |todo|
    {
      var x := Least(todo);
      TakeLeast(s, todo, ids, x);
      s, todo := s + [x], todo - {x};
    }
    AllTaken(s, ids);
  }

  /** s holds what is not in todo, all of it smaller than what is. */
  predicate Below(s: seq<Id>, todo: set<Id>, ids: set<Id>) {
    SetOf(s) + todo == ids && forall x, y :: x in s && y in todo ==> x < y
  }

  lemma NothingYet(ids: set<Id>)
    ensures Below([], ids, ids) && Ascending([])
  {
  }

  lemma TakeLeast(s: seq<Id>, todo: set<Id>, ids: set<Id>, x: Id)
    requires Below(s, todo, ids) && Ascending(s) && x in todo && forall y :: y in todo ==> x <= y
    ensures Below(s + [x], todo - {x}, ids) && Ascending(s + [x])
  {
    forall i, j | 0 <= i < j < |s + [x]| ensures (s + [x])[i] < (s + [x])[j] { assert s[i] in s; }
    assert SetOf(s + [x]) == SetOf(s) + {x};
  }

  lemma AllTaken(s: seq<Id>, ids: set<Id>)
    requires Below(s, {}, ids)
    ensures SetOf(s) == ids
  {
  }

  method Least(ids: set<Id>) returns (x: Id)
    requires ids != {}
    ensures x in ids && forall y :: y in ids ==> x <= y
  {
    x :| x in ids;
    var todo := ids - {x};
    while todo != {}
      invariant todo <= ids && x in ids && forall y :: y in ids && y !in todo ==> x <= y
      decreases |todo|
    {
      var y :| y in todo;
      if y < x { x := y; }
      todo := todo - {y};
    }
  }

  /** The ConfState of a configuration. */
  method ToConfState(cfg: Config) returns (cs: ConfState)
    ensures Described(cs) == cfg
    ensures Ascending(cs.voters) && Ascending(cs.learners) && Ascending(cs.votersOutgoing) && Ascending(cs.learnersNext)
  {
    var voters := Slice(cfg.voters.incoming);
    var learners := Slice(cfg.learners);
    var outgoing := Slice(cfg.voters.outgoing);
    var next := Slice(cfg.learnersNext);
    cs := ConfState(voters, learners, outgoing, next, cfg.autoLeave);
  }

  /** Equivalent: equal once every list is sorted, that is, as multisets. */
  predicate Equivalent(a: ConfState, b: ConfState) {
    && multiset(a.voters) == multiset(b.voters) && multiset(a.learners) == multiset(b.learners)
    && multiset(a.votersOutgoing) == multiset(b.votersOutgoing) && multiset(a.learnersNext) == multiset(b.learnersNext)
    && a.autoLeave == b.autoLeave
  }

  lemma {:induction false} DistinctMultiset(ids: seq<Id>)
    requires Distinct(ids)
    ensures multiset(ids) == multiset(SetOf(ids))
    decreases |ids|
  {
    if ids != [] {
      SetFrom(ids);
      assert ids == [ids[0]] + ids[1..];
      assert ids[0] !in ids[1..];
      DistinctMultiset(ids[1..]);
      assert multiset(SetOf(ids)) == multiset(SetOf(ids[1..])) + multiset{ids[0]};
    }
  }

  /** Restoring a well-formed ConfState and reading the configuration back gives an equivalent
      ConfState, so the final assertion of newRaft and of snapshot restore holds. */
  lemma RestoreEquivalent(cs: ConfState, back: ConfState, lastIndex: nat, maxInflight: nat, maxBytes: nat)
    requires StateOK(cs)
    requires Restored(EmptyTracker(lastIndex, maxInflight, maxBytes), cs).Ok? ==>
               Described(back) == Restored(EmptyTracker(lastIndex, maxInflight, maxBytes), cs).t.cfg
    requires Ascending(back.voters) && Ascending(back.learners) && Ascending(back.votersOutgoing) && Ascending(back.learnersNext)
    ensures Equivalent(cs, back)
  {
    RestoreRoundTrip(cs, lastIndex, maxInflight, maxBytes);
    hide StateOK, Restored, WellFormed;
    Lists(cs);
    forall ids | ids in {back.voters, back.learners, back.votersOutgoing, back.learnersNext} ensures Distinct(ids) { }
    DistinctMultiset(back.voters);
    DistinctMultiset(back.learners);
    DistinctMultiset(back.votersOutgoing);
    DistinctMultiset(back.learnersNext);
  }

  lemma Lists(cs: ConfState)
    requires StateOK(cs)
    ensures multiset(cs.voters) == multiset(SetOf(cs.voters)) && multiset(cs.learners) == multiset(SetOf(cs.learners))
    ensures multiset(cs.votersOutgoing) == multiset(SetOf(cs.votersOutgoing))
    ensures multiset(cs.learnersNext) == multiset(SetOf(cs.learnersNext))
  {
    DistinctMultiset(cs.voters);
    DistinctMultiset(cs.learners);
    DistinctMultiset(cs.votersOutgoing);
    DistinctMultiset(cs.learnersNext);
  }

  // ---------------------------------------------------------------------------------------------
  // The loops
  // ---------------------------------------------------------------------------------------------

  /** Appends one change for each id. */
  method Extend(ccs: seq<Change>, kind: ChangeKind, ids: seq<Id>) returns (r: seq<Change>)
    ensures r == ccs + Changes(kind, ids)
  {
    r := ccs;
    for i := 0 to |ids|
      invariant r == ccs + Changes(kind, ids[..i])
    {
      r := r + [Change(kind, ids[i])];
      assert Changes(kind, ids[..i + 1]) == Changes(kind, ids[..i]) + [Change(kind, ids[i])];
    }
    assert ids[..|ids|] == ids;
  }

  /** toConfChangeSingle. */
  method Build(cs: ConfState) returns (out: seq<Change>, inc: seq<Change>)
    ensures (out, inc) == ToChanges(cs)
  {
    out := Extend([], AddNode, cs.votersOutgoing);
    assert [] + Changes(AddNode, cs.votersOutgoing) == Changes(AddNode, cs.votersOutgoing);
    inc := Extend([], RemoveNode, cs.votersOutgoing);
    assert [] + Changes(RemoveNode, cs.votersOutgoing) == Changes(RemoveNode, cs.votersOutgoing);
    inc := Extend(inc, AddNode, cs.voters);
    inc := Extend(inc, AddLearner, cs.learners);
    inc := Extend(inc, AddLearner, cs.learnersNext);
  }

  /** Runs each change as a simple one, each on the tracker the one before left. */
  method Chain(t: Tracker, ccs: seq<Change>) returns (r: Result)
    ensures r == OneByOne(t, ccs)
  {
    r := Ok(t);
    var i := 0;
    while i < |ccs|
      invariant 0 <= i <= |ccs| && r.Ok? && OneByOne(t, ccs) == OneByOne(r.t, ccs[i..])
    {
      assert ccs[i..][0] == ccs[i] && ccs[i..][1..] == ccs[i + 1..];
      r := Changer.DoSimple(r.t, [ccs[i]]);
      if r.Err? { return; }
      i := i + 1;
    }
  }

  method DoRestore(t: Tracker, cs: ConfState) returns (r: Result)
    ensures r == Restored(t, cs)
  {
    var out, inc := Build(cs);
    if |out| == 0 {
      r := Chain(t, inc);
    } else {
      r := Chain(t, out);
      if r.Ok? { r := Changer.DoEnterJoint(r.t, cs.autoLeave, inc); }
    }
  }
}
