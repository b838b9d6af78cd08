/** The changer's working copy, edited in place, and the operations that edit it
    (confchange/confchange.go). */
module Changer {
  import opened Types
  import opened Quorum
  import opened InflightWindow
  import opened PeerProgress
  import opened ConfChange

  /** Progress with these nodes marked as learners. */
  function Marked(trk: map<Id, Peer>, ids: set<Id>): map<Id, Peer> {
    map x | x in trk :: if x in ids then trk[x].(learner := true) else trk[x]
  }

  lemma MarkOne(trk: map<Id, Peer>, ids: set<Id>, id: Id)
    requires id in trk && id !in ids
    ensures id in Marked(trk, ids)
    ensures Marked(trk, ids + {id}) == Marked(trk, ids)[id := trk[id].(learner := true)] && Marked(trk, ids)[id] == trk[id]
  {
  }

  lemma MarkNone(trk: map<Id, Peer>)
    ensures Marked(trk, {}) == trk
  {
  }

  class Draft {
    var incoming: set<Id>
    var outgoing: set<Id>
    var learners: set<Id>
    var learnersNext: set<Id>
    var autoLeave: bool
    var trk: map<Id, Peer>
    const lastIndex: nat
    const maxInflight: nat
    const maxBytes: nat

    function State(): Tracker
      reads this
    {
      Tracker(Config(JointConfig(incoming, outgoing), learners, learnersNext, autoLeave), trk, lastIndex, maxInflight, maxBytes)
    }

    /** checkAndCopy without the check: AutoLeave is not copied. */
    constructor Copy(t: Tracker)
      ensures State() == Copied(t)
    {
      incoming, outgoing := t.cfg.voters.incoming, t.cfg.voters.outgoing;
      learners, learnersNext, autoLeave := t.cfg.learners, t.cfg.learnersNext, false;
      trk, lastIndex, maxInflight, maxBytes := t.trk, t.lastIndex, t.maxInflight, t.maxBytes;
    }

    method InitProgress(id: Id, learner: bool)
      modifies this
      ensures State() == Init(old(State()), id, learner)
    {
      if !learner { incoming := incoming + {id}; } else { learners := learners + {id}; }
      trk := trk[id := Peer(0, Max(lastIndex, 1), 0, Probe, 0, true, false, Window(maxInflight, maxBytes, []), learner)];
    }

    method AddVoter(id: Id)
      modifies this
      ensures State() == MakeVoter(old(State()), id)
    {
      if id !in trk {
        InitProgress(id, false);
        return;
      }
      trk := trk[id := trk[id].(learner := false)];
      learners := learners - {id};
      learnersNext := learnersNext - {id};
      incoming := incoming + {id};
    }

    method Drop(id: Id)
      modifies this
      ensures State() == Remove(old(State()), id)
    {
      if id !in trk { return; }
      incoming := incoming - {id};
      learners := learners - {id};
      learnersNext := learnersNext - {id};
      if id !in outgoing { trk := trk - {id}; }
    }

    method AddLearner(id: Id)
      modifies this
      ensures State() == MakeLearner(old(State()), id)
    {
      if id !in trk {
        InitProgress(id, true);
        return;
      }
      var pr := trk[id];
      if pr.learner { return; }
      Drop(id);
      trk := trk[id := pr];
      if id in outgoing {
        learnersNext := learnersNext + {id};
      } else {
        trk := trk[id := pr.(learner := true)];
        learners := learners + {id};
      }
    }

    /** Applies the changes in order; an unknown one stops it. */
    method Apply(ccs: seq<Change>) returns (err: Option<ChangeError>)
      modifies this
      ensures err == if ApplyAll(old(State()), ccs).Ok? then None else Some(ApplyAll(old(State()), ccs).error)
      ensures err.None? ==> State() == ApplyAll(old(State()), ccs).t
    {
      var i := 0;
      while i < |ccs|
        invariant 0 <= i <= |ccs|
        invariant ApplyAll(old(State()), ccs) == ApplyAll(State(), ccs[i..])
      {
        var cc := ccs[i];
        assert ccs[i..][0] == cc && ccs[i..][1..] == ccs[i + 1..];
        if cc.node != 0 {
          match cc.kind
          case AddNode => AddVoter(cc.node);
          case AddLearner => AddLearner(cc.node);
          case RemoveNode => Drop(cc.node);
          case UpdateNode =>
          case Unknown => return Some(UnexpectedKind);
        }
        i := i + 1;
      }
      assert ccs[i..] == [];
      if incoming == {} { return Some(RemovedAll); }
      return None;
    }

    /** Staged learners become learners. */
    method InsertStaged()
      requires learnersNext <= trk.Keys
      modifies this
      ensures learners == old(learners) + old(learnersNext) && learnersNext == {}
      ensures incoming == old(incoming) && outgoing == old(outgoing) && autoLeave == old(autoLeave)
      ensures trk == Marked(old(trk), old(learnersNext))
    {
      hide Marked;
      var todo := learnersNext;
      MarkNone(trk);
      assert learnersNext - todo == {};
      while todo != {}
        modifies this`learners, this`trk
        invariant todo <= learnersNext
        invariant learners == old(learners) + (learnersNext - todo)
        invariant trk == Marked(old(trk), learnersNext - todo)
        decreases |todo|
      {
        var id :| id in todo;
        MarkOne(old(trk), learnersNext - todo, id);
        assert learnersNext - (todo - {id}) == learnersNext - todo + {id};
        learners := learners + {id};
        trk := trk[id := trk[id].(learner := true)];
        todo := todo - {id};
      }
      assert learnersNext - todo == learnersNext;
      learnersNext := {};
    }

    /** Nodes only the outgoing half had are dropped. */
    method DropOutgoing()
      modifies this
      ensures trk == old(trk) - (outgoing - incoming - learners)
      ensures incoming == old(incoming) && outgoing == old(outgoing) && learners == old(learners)
      ensures learnersNext == old(learnersNext) && autoLeave == old(autoLeave)
    {
      var todo := outgoing;
      while todo != {}
        modifies this`trk
        invariant todo <= outgoing
        invariant forall x :: x in trk <==> x in old(trk) && (x !in outgoing || x in todo || x in incoming || x in learners)
        invariant forall x :: x in trk ==> trk[x] == old(trk)[x]
        decreases |todo|
      {
        var id :| id in todo;
        if id !in incoming && id !in learners { trk := trk - {id}; }
        todo := todo - {id};
      }
    }

    method Leave()
      requires learnersNext <= trk.Keys
      modifies this
      ensures State() == Left(old(State()))
    {
      InsertStaged();
      DropOutgoing();
      outgoing := {};
      autoLeave := false;
      assert trk == Left(old(State())).trk;
    }
  }

  lemma VotersAre(c: JointConfig)
    ensures forall id :: id in Voters(c) <==> id in c.incoming || id in c.outgoing
  {
  }

  /** checkInvariants, one set of ids after another. */
  method CheckInvariants(t: Tracker) returns (ok: bool)
    ensures ok == Consistent(t)
  {
    hide Voters;
    VotersAre(t.cfg.voters);
    var cfg := t.cfg;
    var todo := Voters(cfg.voters) + cfg.learners + cfg.learnersNext;
    while todo != {}
      invariant todo <= Voters(cfg.voters) + cfg.learners + cfg.learnersNext
      invariant Voters(cfg.voters) + cfg.learners + cfg.learnersNext - todo <= t.trk.Keys
      decreases |todo|
    {
      var id :| id in todo;
      if id !in t.trk { return false; }
      todo := todo - {id};
    }
    todo := cfg.learnersNext;
    while todo != {}
      invariant todo <= cfg.learnersNext
      invariant forall id :: id in cfg.learnersNext - todo ==> id in cfg.voters.outgoing && id in t.trk && !t.trk[id].learner
      decreases |todo|
    {
      var id :| id in todo;
      if id !in cfg.voters.outgoing || t.trk[id].learner { return false; }
      todo := todo - {id};
    }
    todo := cfg.learners;
    while todo != {}
      invariant todo <= cfg.learners
      invariant forall id :: id in cfg.learners - todo ==> id !in Voters(cfg.voters) && id in t.trk && t.trk[id].learner
      decreases |todo|
    {
      var id :| id in todo;
      if id in cfg.voters.outgoing || id in cfg.voters.incoming || !t.trk[id].learner { return false; }
      todo := todo - {id};
    }
    if !Joint(cfg) && (cfg.learnersNext != {} || cfg.autoLeave) { return false; }
    return true;
  }

  method CountMissing(l: set<Id>, r: set<Id>) returns (n: nat)
    ensures n == |l - r|
  {
    n := 0;
    var todo := l;
    ghost var seen: set<Id> := {};
    while todo != {}
      invariant seen !! todo && seen + todo == l && n == |seen - r|
      decreases |todo|
    {
      var id :| id in todo;
      MissOne(seen, r, id);
      if id !in r { n := n + 1; }
      todo, seen := todo - {id}, seen + {id};
    }
    assert seen == l;
  }

  lemma MissOne(seen: set<Id>, r: set<Id>, id: Id)
    requires id !in seen
    ensures |seen + {id} - r| == |seen - r| + if id in r then 0 else 1
  {
    assert seen + {id} - r == seen - r + if id in r then {} else {id};
  }

  method CountSymDiff(l: set<Id>, r: set<Id>) returns (n: nat)
    ensures n == SymDiff(l, r)
  {
    n := CountMissing(l, r);
    var m := CountMissing(r, l);
    n := n + m;
  }

  method DoSimple(t: Tracker, ccs: seq<Change>) returns (r: Result)
    ensures r == Simple(t, ccs)
  {
    var draft := new Draft.Copy(t);
    var ok := CheckInvariants(draft.State());
    if !ok { return Err(Inconsistent); }
    if Joint(draft.State().cfg) { return Err(JointSimple); }
    var err := draft.Apply(ccs);
    if err.Some? { return Err(err.value); }
    var n := CountSymDiff(t.cfg.voters.incoming, draft.incoming);
    if n > 1 { return Err(TwoVoters); }
    ok := CheckInvariants(draft.State());
    return if ok then Ok(draft.State()) else Err(Inconsistent);
  }

  method DoEnterJoint(t: Tracker, autoLeave: bool, ccs: seq<Change>) returns (r: Result)
    ensures r == EnterJoint(t, autoLeave, ccs)
  {
    var draft := new Draft.Copy(t);
    var ok := CheckInvariants(draft.State());
    if !ok { return Err(Inconsistent); }
    if Joint(draft.State().cfg) { return Err(AlreadyJoint); }
    if |draft.incoming| == 0 { return Err(ZeroVoters); }
    draft.outgoing := draft.incoming;
    var err := draft.Apply(ccs);
    if err.Some? { return Err(err.value); }
    draft.autoLeave := autoLeave;
    ok := CheckInvariants(draft.State());
    return if ok then Ok(draft.State()) else Err(Inconsistent);
  }

  method DoLeaveJoint(t: Tracker) returns (r: Result)
    ensures r == LeaveJoint(t)
  {
    var draft := new Draft.Copy(t);
    var ok := CheckInvariants(draft.State());
    if !ok { return Err(Inconsistent); }
    if !Joint(draft.State().cfg) { return Err(NotJoint); }
    draft.Leave();
    ok := CheckInvariants(draft.State());
    return if ok then Ok(draft.State()) else Err(Inconsistent);
  }
}
