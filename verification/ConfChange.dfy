/** Configuration changes (confchange/confchange.go): adding, demoting and removing nodes, one at a
    time or through a joint configuration. A nil map and an empty one are the same set here. */
module ConfChange {
  import opened Types
  import opened Quorum
  import opened InflightWindow
  import opened PeerProgress

  datatype Config = Config(voters: JointConfig, learners: set<Id>, learnersNext: set<Id>, autoLeave: bool)

  datatype ChangeKind = AddNode | AddLearner | RemoveNode | UpdateNode | Unknown

  datatype Change = Change(kind: ChangeKind, node: Id)

  /** The tracker: a configuration, the progress of every tracked node, and the limits new progress
      is created with. */
  datatype Tracker = Tracker(cfg: Config, trk: map<Id, Peer>, lastIndex: nat, maxInflight: nat, maxBytes: nat)

  datatype ChangeError =
    | AlreadyJoint | NotJoint | ZeroVoters | JointSimple | TwoVoters | RemovedAll | UnexpectedKind | Inconsistent

  datatype Result = Ok(t: Tracker) | Err(error: ChangeError)

  predicate Joint(cfg: Config) {
    cfg.voters.outgoing != {}
  }

  function EmptyTracker(lastIndex: nat, maxInflight: nat, maxBytes: nat): Tracker {
    Tracker(Config(JointConfig({}, {}), {}, {}, false), map[], lastIndex, maxInflight, maxBytes)
  }

  // ---------------------------------------------------------------------------------------------
  // Single changes
  // ---------------------------------------------------------------------------------------------

  function WithIncoming(cfg: Config, ids: set<Id>): Config {
    cfg.(voters := cfg.voters.(incoming := ids))
  }

  /** Progress for a node that was not tracked. */
  function Init(t: Tracker, id: Id, learner: bool): Tracker {
    var pr := Peer(0, Max(t.lastIndex, 1), 0, Probe, 0, true, false, Window(t.maxInflight, t.maxBytes, []), learner);
    var cfg := if learner then t.cfg.(learners := t.cfg.learners + {id})
               else WithIncoming(t.cfg, t.cfg.voters.incoming + {id});
    t.(cfg := cfg, trk := t.trk[id := pr])
  }

  function MakeVoter(t: Tracker, id: Id): Tracker {
    if id !in t.trk then Init(t, id, false)
    else
      var cfg := WithIncoming(t.cfg, t.cfg.voters.incoming + {id});
      t.(cfg := cfg.(learners := cfg.learners - {id}, learnersNext := cfg.learnersNext - {id}),
         trk := t.trk[id := t.trk[id].(learner := false)])
  }

  function Remove(t: Tracker, id: Id): Tracker {
    if id !in t.trk then t
    else
      var cfg := WithIncoming(t.cfg, t.cfg.voters.incoming - {id});
      t.(cfg := cfg.(learners := cfg.learners - {id}, learnersNext := cfg.learnersNext - {id}),
         trk := if id in t.cfg.voters.outgoing then t.trk else t.trk - {id})
  }

  /** A learner at once, or staged to become one while the node still votes in the outgoing half. */
  function MakeLearner(t: Tracker, id: Id): Tracker {
    if id !in t.trk then Init(t, id, true)
    else if t.trk[id].learner then t
    else
      var pr := t.trk[id];
      var u := Remove(t, id);
      if id in u.cfg.voters.outgoing then
        u.(trk := u.trk[id := pr], cfg := u.cfg.(learnersNext := u.cfg.learnersNext + {id}))
      else
        u.(trk := u.trk[id := pr.(learner := true)], cfg := u.cfg.(learners := u.cfg.learners + {id}))
  }

  /** Node 0 marks a change that is to be ignored. */
  function ApplyOne(t: Tracker, cc: Change): Tracker {
    if cc.node == 0 then t
    else match cc.kind
      case AddNode => MakeVoter(t, cc.node)
      case AddLearner => MakeLearner(t, cc.node)
      case RemoveNode => Remove(t, cc.node)
      case _ => t
  }

  function ApplyAll(t: Tracker, ccs: seq<Change>): Result
    decreases |ccs|
  {
    if ccs == [] then if t.cfg.voters.incoming == {} then Err(RemovedAll) else Ok(t)
    else if ccs[0].node != 0 && ccs[0].kind.Unknown? then Err(UnexpectedKind)
    else ApplyAll(ApplyOne(t, ccs[0]), ccs[1..])
  }

  // ---------------------------------------------------------------------------------------------
  // The changer
  // ---------------------------------------------------------------------------------------------

  /** checkInvariants. */
  predicate Consistent(t: Tracker) {
    var cfg := t.cfg;
    && Voters(cfg.voters) + cfg.learners + cfg.learnersNext <= t.trk.Keys
    && (forall id :: id in cfg.learnersNext ==> id in cfg.voters.outgoing && id in t.trk && !t.trk[id].learner)
    && (forall id :: id in cfg.learners ==> id !in Voters(cfg.voters) && id in t.trk && t.trk[id].learner)
    && (!Joint(cfg) ==> cfg.learnersNext == {} && !cfg.autoLeave)
  }

  function Checked(t: Tracker): Result {
    if Consistent(t) then Ok(t) else Err(Inconsistent)
  }

  /** The changer works on a copy of the tracker, which does not keep AutoLeave. */
  function Copied(t: Tracker): Tracker {
    t.(cfg := t.cfg.(autoLeave := false))
  }

  function SymDiff(a: set<Id>, b: set<Id>): nat {
    |a - b| + |b - a|
  }

  function Simple(t: Tracker, ccs: seq<Change>): Result {
    var u := Copied(t);
    if !Consistent(u) then Err(Inconsistent)
    else if Joint(u.cfg) then Err(JointSimple)
    else match ApplyAll(u, ccs)
      case Err(e) => Err(e)
      case Ok(v) =>
        if SymDiff(t.cfg.voters.incoming, v.cfg.voters.incoming) > 1 then Err(TwoVoters) else Checked(v)
  }

  function EnterJoint(t: Tracker, autoLeave: bool, ccs: seq<Change>): Result {
    var u := Copied(t);
    if !Consistent(u) then Err(Inconsistent)
    else if Joint(u.cfg) then Err(AlreadyJoint)
    else if u.cfg.voters.incoming == {} then Err(ZeroVoters)
    else match ApplyAll(u.(cfg := u.cfg.(voters := JointConfig(u.cfg.voters.incoming, u.cfg.voters.incoming))), ccs)
      case Err(e) => Err(e)
      case Ok(v) => Checked(v.(cfg := v.cfg.(autoLeave := autoLeave)))
  }

  function LeaveJoint(t: Tracker): Result {
    var u := Copied(t);
    if !Consistent(u) then Err(Inconsistent)
    else if !Joint(u.cfg) then Err(NotJoint)
    else Checked(Left(u))
  }

  /** Staged learners become learners, and nodes only the outgoing half had are dropped. */
  function Left(u: Tracker): Tracker {
    var learners := u.cfg.learners + u.cfg.learnersNext;
    var dropped := u.cfg.voters.outgoing - u.cfg.voters.incoming - learners;
    u.(cfg := Config(JointConfig(u.cfg.voters.incoming, {}), learners, {}, false),
       trk := map id | id in u.trk && id !in dropped ::
                if id in u.cfg.learnersNext then u.trk[id].(learner := true) else u.trk[id])
  }

  // ---------------------------------------------------------------------------------------------
  // Well-formedness
  // ---------------------------------------------------------------------------------------------

  /** Exactly the voters and learners are tracked, learners are marked as such and do not vote, and
      staged learners vote in the outgoing half only. */
  predicate WellFormed(t: Tracker) {
    var cfg := t.cfg;
    && t.trk.Keys == Voters(cfg.voters) + cfg.learners
    && cfg.learners !! Voters(cfg.voters)
    && cfg.learnersNext <= cfg.voters.outgoing && cfg.learnersNext !! cfg.voters.incoming
    && (forall id :: id in t.trk ==> (t.trk[id].learner <==> id in cfg.learners))
    && (!Joint(cfg) ==> cfg.learnersNext == {} && !cfg.autoLeave)
  }

  lemma WellFormedIsConsistent(t: Tracker)
    requires WellFormed(t)
    ensures Consistent(t) && Consistent(Copied(t)) && WellFormed(Copied(t))
  {
  }

  /** What a change does to the configuration, whatever was tracked before. */
  function Effect(cfg: Config, cc: Change): Config {
    var id, inc := cc.node, cfg.voters.incoming;
    if id == 0 then cfg
    else match cc.kind
      case AddNode => WithIncoming(cfg, inc + {id}).(learners := cfg.learners - {id}, learnersNext := cfg.learnersNext - {id})
      case RemoveNode => WithIncoming(cfg, inc - {id}).(learners := cfg.learners - {id}, learnersNext := cfg.learnersNext - {id})
      case AddLearner =>
        if id in cfg.learners then cfg
        else if id in cfg.voters.outgoing then WithIncoming(cfg, inc - {id}).(learnersNext := cfg.learnersNext + {id})
        else WithIncoming(cfg, inc - {id}).(learners := cfg.learners + {id})
      case _ => cfg
  }

  lemma OneChange(t: Tracker, cc: Change)
    requires WellFormed(t)
    ensures WellFormed(ApplyOne(t, cc)) && ApplyOne(t, cc).cfg == Effect(t.cfg, cc)
    ensures ApplyOne(t, cc) == t.(cfg := ApplyOne(t, cc).cfg, trk := ApplyOne(t, cc).trk)
  {
    var id := cc.node;
    if id != 0 {
      match cc.kind
      case AddNode => VoterChange(t, id);
      case RemoveNode => RemoveChange(t, id);
      case AddLearner => LearnerChange(t, id);
      case _ =>
    }
  }

  lemma VoterChange(t: Tracker, id: Id)
    requires WellFormed(t) && id != 0
    ensures WellFormed(MakeVoter(t, id)) && MakeVoter(t, id).cfg == Effect(t.cfg, Change(AddNode, id))
  {
    var u := MakeVoter(t, id);
    if id !in t.trk {
      assert t.cfg.learners - {id} == t.cfg.learners && t.cfg.learnersNext - {id} == t.cfg.learnersNext;
    }
    assert u.trk.Keys == Voters(u.cfg.voters) + u.cfg.learners;
  }

  lemma RemoveChange(t: Tracker, id: Id)
    requires WellFormed(t) && id != 0
    ensures WellFormed(Remove(t, id)) && Remove(t, id).cfg == Effect(t.cfg, Change(RemoveNode, id))
  {
    var u := Remove(t, id);
    if id !in t.trk {
      assert t.cfg.learners - {id} == t.cfg.learners && t.cfg.learnersNext - {id} == t.cfg.learnersNext;
      assert t.cfg.voters.incoming - {id} == t.cfg.voters.incoming;
    }
    assert u.trk.Keys == Voters(u.cfg.voters) + u.cfg.learners;
  }

  lemma LearnerChange(t: Tracker, id: Id)
    requires WellFormed(t) && id != 0
    ensures WellFormed(MakeLearner(t, id)) && MakeLearner(t, id).cfg == Effect(t.cfg, Change(AddLearner, id))
  {
    var u := MakeLearner(t, id);
    if id !in t.trk {
      assert t.cfg.voters.incoming - {id} == t.cfg.voters.incoming;
    } else if !t.trk[id].learner {
      assert t.cfg.learners - {id} == t.cfg.learners;
      assert t.cfg.learnersNext - {id} + {id} == t.cfg.learnersNext + {id};
      assert id !in t.cfg.voters.outgoing ==> t.cfg.learnersNext - {id} == t.cfg.learnersNext;
    }
    assert u.trk.Keys == Voters(u.cfg.voters) + u.cfg.learners;
  }

  function Effects(cfg: Config, ccs: seq<Change>): Config
    decreases |ccs|
  {
    if ccs == [] then cfg else Effects(Effect(cfg, ccs[0]), ccs[1..])
  }

  predicate Known(ccs: seq<Change>) {
    forall cc :: cc in ccs ==> cc.node == 0 || !cc.kind.Unknown?
  }

  /** Applying changes to a well-formed tracker fails only for an unknown kind of change or when no
      voter is left, and its outcome depends on the configuration alone. */
  lemma {:induction false} AllChanges(t: Tracker, ccs: seq<Change>)
    requires WellFormed(t)
    ensures ApplyAll(t, ccs).Ok? <==> Known(ccs) && Effects(t.cfg, ccs).voters.incoming != {}
    ensures ApplyAll(t, ccs).Ok? ==> WellFormed(ApplyAll(t, ccs).t) && ApplyAll(t, ccs).t.cfg == Effects(t.cfg, ccs)
    ensures ApplyAll(t, ccs) != Err(Inconsistent)
    decreases |ccs|
  {
    hide WellFormed, ApplyOne, Effect;
    if ccs != [] {
      assert ccs == [ccs[0]] + ccs[1..];
      OneChange(t, ccs[0]);
      AllChanges(ApplyOne(t, ccs[0]), ccs[1..]);
    }
  }

  lemma {:induction false} OutgoingStays(cfg: Config, ccs: seq<Change>)
    ensures Effects(cfg, ccs).voters.outgoing == cfg.voters.outgoing && Effects(cfg, ccs).autoLeave == cfg.autoLeave
    decreases |ccs|
  {
    if ccs != [] { OutgoingStays(Effect(cfg, ccs[0]), ccs[1..]); }
  }

  // ---------------------------------------------------------------------------------------------
  // Accepted changes stay well formed
  // ---------------------------------------------------------------------------------------------

  /** A simple change is refused exactly when the configuration is joint, a change is unknown, no
      voter would be left or more than one voter would change; its result is well formed. */
  lemma SimpleKeeps(t: Tracker, ccs: seq<Change>)
    requires WellFormed(t)
    ensures Simple(t, ccs).Ok? <==>
              !Joint(t.cfg) && Known(ccs) && Effects(t.cfg, ccs).voters.incoming != {}
              && SymDiff(t.cfg.voters.incoming, Effects(t.cfg, ccs).voters.incoming) <= 1
    ensures Simple(t, ccs).Ok? ==> WellFormed(Simple(t, ccs).t) && Simple(t, ccs).t.cfg == Effects(t.cfg, ccs)
    ensures Simple(t, ccs) != Err(Inconsistent)
  {
    hide WellFormed, Consistent, ApplyAll, Effects;
    WellFormedIsConsistent(t);
    NoAutoLeave(t);
    AllChanges(Copied(t), ccs);
    if ApplyAll(Copied(t), ccs).Ok? { WellFormedIsConsistent(ApplyAll(Copied(t), ccs).t); }
  }

  lemma NoAutoLeave(t: Tracker)
    requires WellFormed(t)
    ensures !Joint(t.cfg) ==> Copied(t) == t
  {
  }

  /** Entering a joint configuration is refused exactly when there is one already, there is no voter
      before or after, or a change is unknown. */
  lemma EnterJointKeeps(t: Tracker, autoLeave: bool, ccs: seq<Change>)
    requires WellFormed(t)
    ensures var both := t.cfg.(voters := JointConfig(t.cfg.voters.incoming, t.cfg.voters.incoming));
            var r := EnterJoint(t, autoLeave, ccs);
            && (r.Ok? <==> !Joint(t.cfg) && t.cfg.voters.incoming != {} && Known(ccs) && Effects(both, ccs).voters.incoming != {})
            && (r.Ok? ==> WellFormed(r.t) && r.t.cfg == Effects(both, ccs).(autoLeave := autoLeave))
            && r != Err(Inconsistent)
  {
    hide ApplyAll, Effects;
    WellFormedIsConsistent(t);
    NoAutoLeave(t);
    if !Joint(t.cfg) && t.cfg.voters.incoming != {} {
      var both := t.(cfg := t.cfg.(voters := JointConfig(t.cfg.voters.incoming, t.cfg.voters.incoming)));
      assert both.trk.Keys == Voters(both.cfg.voters) + both.cfg.learners;
      assert WellFormed(both);
      AllChanges(both, ccs);
      OutgoingStays(both.cfg, ccs);
      if ApplyAll(both, ccs).Ok? {
        var v := ApplyAll(both, ccs).t;
        assert WellFormed(v.(cfg := v.cfg.(autoLeave := autoLeave)));
        WellFormedIsConsistent(v.(cfg := v.cfg.(autoLeave := autoLeave)));
      }
    }
  }

  /** Leaving a joint configuration always succeeds and is well formed. */
  lemma LeaveJointKeeps(t: Tracker)
    requires WellFormed(t)
    ensures LeaveJoint(t).Ok? <==> Joint(t.cfg)
    ensures LeaveJoint(t).Ok? ==>
              WellFormed(LeaveJoint(t).t)
              && LeaveJoint(t).t.cfg == Config(JointConfig(t.cfg.voters.incoming, {}), t.cfg.learners + t.cfg.learnersNext, {}, false)
  {
    WellFormedIsConsistent(t);
    if Joint(t.cfg) {
      var v := Left(Copied(t));
      assert v.trk.Keys == Voters(v.cfg.voters) + v.cfg.learners;
      assert WellFormed(v);
      WellFormedIsConsistent(v);
    }
  }

  /** Well-formedness is more than the consistency check asks for: a consistent joint configuration
      can be left exactly when no staged learner is an incoming voter. */
  lemma LeaveJointExactly(t: Tracker)
    requires Consistent(t) && Joint(t.cfg)
    ensures LeaveJoint(t).Ok? <==> t.cfg.learnersNext !! t.cfg.voters.incoming
  {
    var u := Copied(t);
    var v := Left(u);
    if t.cfg.learnersNext !! t.cfg.voters.incoming {
      assert Voters(v.cfg.voters) + v.cfg.learners + v.cfg.learnersNext <= v.trk.Keys;
      assert Consistent(v);
    } else {
      var id :| id in t.cfg.learnersNext && id in t.cfg.voters.incoming;
      assert id in v.cfg.learners && id in Voters(v.cfg.voters);
    }
  }

  /** A consistent configuration that cannot be left: the conjunct the check omits matters. */
  lemma ConsistentButStuck()
    ensures exists t :: Consistent(t) && Joint(t.cfg) && LeaveJoint(t) == Err(Inconsistent)
  {
    var pr := Peer(0, 1, 0, Probe, 0, true, false, Window(1, 0, []), false);
    var t := Tracker(Config(JointConfig({1}, {1}), {}, {1}, false), map[1 := pr], 0, 1, 0);
    assert Consistent(t) && Joint(t.cfg);
    LeaveJointExactly(t);
    assert 1 in t.cfg.learnersNext && 1 in t.cfg.voters.incoming;
    assert LeaveJoint(t) == Err(Inconsistent);
  }

  // ---------------------------------------------------------------------------------------------
  // Runs of accepted changes
  // ---------------------------------------------------------------------------------------------

  datatype Op = SimpleOp(ccs: seq<Change>) | EnterOp(autoLeave: bool, ccs: seq<Change>) | LeaveOp

  function Operate(t: Tracker, op: Op): Result {
    match op
    case SimpleOp(ccs) => Simple(t, ccs)
    case EnterOp(autoLeave, ccs) => EnterJoint(t, autoLeave, ccs)
    case LeaveOp => LeaveJoint(t)
  }

  /** The tracker after a sequence of operations, each refused one changing nothing. */
  function Operated(t: Tracker, ops: seq<Op>): Tracker
    decreases |ops|
  {
    if ops == [] then t
    else Operated(if Operate(t, ops[0]).Ok? then Operate(t, ops[0]).t else t, ops[1..])
  }

  /** From an empty tracker, any sequence of operations keeps the tracker well formed, and the
      consistency check never refuses one. */
  lemma {:induction false} AlwaysWellFormed(t: Tracker, ops: seq<Op>)
    requires WellFormed(t)
    ensures WellFormed(Operated(t, ops))
    ensures forall op :: Operate(Operated(t, ops), op) != Err(Inconsistent)
    decreases |ops|
  {
    hide WellFormed, Simple, EnterJoint, LeaveJoint, Consistent;
    if ops == [] {
      forall op ensures Operate(t, op) != Err(Inconsistent) { NeverInconsistent(t, op); }
    } else {
      NeverInconsistent(t, ops[0]);
      AlwaysWellFormed(if Operate(t, ops[0]).Ok? then Operate(t, ops[0]).t else t, ops[1..]);
    }
  }

  lemma NeverInconsistent(t: Tracker, op: Op)
    requires WellFormed(t)
    ensures Operate(t, op) != Err(Inconsistent)
    ensures Operate(t, op).Ok? ==> WellFormed(Operate(t, op).t)
  {
    hide WellFormed, Simple, EnterJoint, Consistent;
    match op
    case SimpleOp(ccs) => SimpleKeeps(t, ccs);
    case EnterOp(autoLeave, ccs) => EnterJointKeeps(t, autoLeave, ccs);
    case LeaveOp =>
      LeaveJointKeeps(t);
      WellFormedIsConsistent(t);
  }

  lemma EmptyIsWellFormed(lastIndex: nat, maxInflight: nat, maxBytes: nat)
    ensures WellFormed(EmptyTracker(lastIndex, maxInflight, maxBytes))
  {
  }

  // ---------------------------------------------------------------------------------------------
  // Consecutive configurations overlap
  // ---------------------------------------------------------------------------------------------

  /** What a majority of a leaves of a majority among the nodes a and b have in common. */
  lemma SharedPart(a: set<Id>, b: set<Id>, c: set<Id>, p: set<Id>)
    requires a != {} && IsMajority(a, p) && c == a * b
    ensures 2 * |c * p| + |a - b| > |c|
  {
    assert a == c + (a - b) && c !! (a - b);
    assert |a| == |c| + |a - b|;
    assert a * p <= c * p + (a - b);
    Cardinality(a * p, c * p + (a - b));
    assert (c * p) !! (a - b);
  }

  /** Majorities of two voter sets that differ in at most one node share a voter. */
  lemma CloseMajoritiesMeet(a: set<Id>, b: set<Id>, p: set<Id>, q: set<Id>)
    requires a != {} && b != {} && SymDiff(a, b) <= 1 && IsMajority(a, p) && IsMajority(b, q)
    ensures exists x :: x in p && x in q && x in a && x in b
  {
    var c := a * b;
    assert c == b * a;
    SharedPart(a, b, c, p);
    SharedPart(b, a, c, q);
    hide IsMajority;
    var pc, qc := c * p, c * q;
    Cardinality(pc + qc, c);
    assert |pc + qc| + |pc * qc| == |pc| + |qc|;
    assert |pc * qc| > 0;
    var x :| x in pc * qc;
    assert x in p && x in q && x in a && x in b;
  }

  /** For every accepted operation on a configuration with a voter, any vote that wins the old
      configuration and any that wins the new one share a voter. */
  lemma ConfigsOverlap(t: Tracker, op: Op, p: set<Id>, q: set<Id>)
    requires WellFormed(t) && t.cfg.voters.incoming != {} && Operate(t, op).Ok?
    requires IsQuorum(t.cfg.voters, p) && IsQuorum(Operate(t, op).t.cfg.voters, q)
    ensures exists x :: x in p && x in q && x in Voters(t.cfg.voters)
  {
    hide WellFormed, Simple, EnterJoint, LeaveJoint, IsMajority, Effects;
    match op
    case SimpleOp(ccs) =>
      SimpleKeeps(t, ccs);
      CloseMajoritiesMeet(t.cfg.voters.incoming, Operate(t, op).t.cfg.voters.incoming, p, q);
    case EnterOp(autoLeave, ccs) =>
      EnterJointKeeps(t, autoLeave, ccs);
      OutgoingStays(t.cfg.(voters := JointConfig(t.cfg.voters.incoming, t.cfg.voters.incoming)), ccs);
      MajoritiesMeet(t.cfg.voters.incoming, p, q);
    case LeaveOp =>
      LeaveJointKeeps(t);
      MajoritiesMeet(t.cfg.voters.incoming, p, q);
  }
}
