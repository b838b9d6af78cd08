/** What configuration changes do to the progress of the tracked nodes (confchange/confchange.go): a node that
    is never dropped on the way keeps all that was known of it, and any other starts afresh. */
module ConfProgress {
  import opened Types
  import opened Quorum
  import opened InflightWindow
  import opened PeerProgress
  import opened ConfChange
  import Restore

  function Members(cfg: Config): set<Id> {
    cfg.voters.incoming + cfg.voters.outgoing + cfg.learners
  }

  /** The node is part of the configuration before the changes and after each of them. */
  predicate Stays(cfg: Config, ccs: seq<Change>, id: Id)
    decreases |ccs|
  {
    id in Members(cfg) && (ccs == [] || Stays(Effect(cfg, ccs[0]), ccs[1..], id))
  }

  /** What a leader assumes of a node it has just begun to track. */
  function Fresh(t: Tracker, learner: bool): Peer {
    Peer(0, if t.lastIndex < 1 then 1 else t.lastIndex, 0, Probe, 0, true, false, Window(t.maxInflight, t.maxBytes, []), learner)
  }

  /** Each node of the new tracker: as before but for the learner mark, or fresh. */
  ghost predicate Carried(t: Tracker, cfg: Config, ccs: seq<Change>, u: Tracker) {
    && u.trk.Keys == Members(u.cfg)
    && forall id :: id in u.trk ==>
         u.trk[id] == (if Stays(cfg, ccs, id) && id in t.trk then t.trk[id] else Fresh(t, false)).(learner := id in u.cfg.learners)
  }

  lemma OneCarried(t: Tracker, cc: Change, id: Id)
    requires WellFormed(t) && id in ApplyOne(t, cc).trk
    ensures var u := ApplyOne(t, cc);
            u.trk[id] == (if id in t.trk then t.trk[id] else Fresh(t, false)).(learner := id in u.cfg.learners)
  {
    OneChange(t, cc);
    var n := cc.node;
    if id in t.trk && id != n {
      assert id in t.cfg.learners <==> id in ApplyOne(t, cc).cfg.learners;
      assert ApplyOne(t, cc).trk[id] == t.trk[id];
    }
  }

  lemma {:induction false} AllCarried(t: Tracker, ccs: seq<Change>, id: Id)
    requires WellFormed(t) && ApplyAll(t, ccs).Ok? && id in ApplyAll(t, ccs).t.trk
    ensures var u := ApplyAll(t, ccs).t;
            u.trk[id] == (if Stays(t.cfg, ccs, id) && id in t.trk then t.trk[id] else Fresh(t, false)).(learner := id in u.cfg.learners)
    decreases |ccs|
  {
    hide WellFormed, ApplyOne, Effect;
    AllChanges(t, ccs);
    Keys(t);
    Marked(ApplyAll(t, ccs).t, id);
    if ccs != [] {
      var s := ApplyOne(t, ccs[0]);
      OneChange(t, ccs[0]);
      Keys(s);
      AllCarried(s, ccs[1..], id);
      if id in s.trk { OneCarried(t, ccs[0], id); }
    }
  }

  lemma Keys(t: Tracker)
    requires WellFormed(t)
    ensures t.trk.Keys == Members(t.cfg)
  {
  }

  lemma Marked(t: Tracker, id: Id)
    requires WellFormed(t) && id in t.trk
    ensures t.trk[id].learner <==> id in t.cfg.learners
  {
  }

  lemma Carry(t: Tracker, ccs: seq<Change>)
    requires WellFormed(t) && ApplyAll(t, ccs).Ok?
    ensures Carried(t, t.cfg, ccs, ApplyAll(t, ccs).t)
  {
    hide WellFormed, ApplyAll, Stays;
    AllChanges(t, ccs);
    Keys(ApplyAll(t, ccs).t);
    forall id | id in ApplyAll(t, ccs).t.trk
      ensures var u := ApplyAll(t, ccs).t;
              u.trk[id] == (if Stays(t.cfg, ccs, id) && id in t.trk then t.trk[id] else Fresh(t, false)).(learner := id in u.cfg.learners)
    {
      AllCarried(t, ccs, id);
    }
  }

  /** An accepted simple change keeps the progress of every node it does not drop, but for the learner
      mark, and begins afresh with the others. */
  lemma SimpleCarries(t: Tracker, ccs: seq<Change>)
    requires WellFormed(t) && Simple(t, ccs).Ok?
    ensures Carried(t, t.cfg, ccs, Simple(t, ccs).t)
  {
    hide WellFormed, Consistent, ApplyAll, Carried;
    NoAutoLeave(t);
    Carry(t, ccs);
  }

  /** So does entering a joint configuration, where every voter stays: it votes in the outgoing half. */
  lemma EnterJointCarries(t: Tracker, autoLeave: bool, ccs: seq<Change>)
    requires WellFormed(t) && EnterJoint(t, autoLeave, ccs).Ok?
    ensures var both := t.cfg.(voters := JointConfig(t.cfg.voters.incoming, t.cfg.voters.incoming));
            Carried(t, both, ccs, EnterJoint(t, autoLeave, ccs).t)
            && forall id :: id in t.cfg.voters.incoming ==> Stays(both, ccs, id)
  {
    hide Consistent, ApplyAll, Stays;
    NoAutoLeave(t);
    var both := t.(cfg := t.cfg.(voters := JointConfig(t.cfg.voters.incoming, t.cfg.voters.incoming)));
    assert WellFormed(both);
    Carry(both, ccs);
    forall id | id in t.cfg.voters.incoming ensures Stays(both.cfg, ccs, id) { VoterStays(both.cfg, ccs, id); }
  }

  lemma {:induction false} VoterStays(cfg: Config, ccs: seq<Change>, id: Id)
    requires id in cfg.voters.outgoing
    ensures Stays(cfg, ccs, id)
    decreases |ccs|
  {
    if ccs != [] { VoterStays(Effect(cfg, ccs[0]), ccs[1..], id); }
  }

  /** Leaving a joint configuration keeps the progress of all that remain. */
  lemma LeaveJointCarries(t: Tracker)
    requires WellFormed(t) && LeaveJoint(t).Ok?
    ensures Carried(t, t.cfg, [], LeaveJoint(t).t) && forall id :: id in LeaveJoint(t).t.trk ==> id in t.trk
  {
    LeaveJointKeeps(t);
    var u := LeaveJoint(t).t;
    Keys(u);
    forall id | id in u.trk ensures id in t.trk && u.trk[id] == t.trk[id].(learner := id in u.cfg.learners) {
      Marked(t, id);
    }
  }

  // ---------------------------------------------------------------------------------------------
  // A restored tracker
  // ---------------------------------------------------------------------------------------------

  ghost predicate AllFresh(t: Tracker) {
    forall id :: id in t.trk ==> t.trk[id] == Fresh(t, id in t.cfg.learners)
  }

  predicate SameLimits(t: Tracker, u: Tracker) {
    u.lastIndex == t.lastIndex && u.maxInflight == t.maxInflight && u.maxBytes == t.maxBytes
  }

  lemma {:induction false} LimitsStay(t: Tracker, ccs: seq<Change>)
    requires WellFormed(t) && ApplyAll(t, ccs).Ok?
    ensures SameLimits(t, ApplyAll(t, ccs).t)
    decreases |ccs|
  {
    hide WellFormed, ApplyOne;
    if ccs != [] {
      OneChange(t, ccs[0]);
      LimitsStay(ApplyOne(t, ccs[0]), ccs[1..]);
    }
  }

  lemma FreshStays(t: Tracker, cfg: Config, ccs: seq<Change>, u: Tracker)
    requires AllFresh(t) && Carried(t, cfg, ccs, u) && SameLimits(t, u)
    ensures AllFresh(u)
  {
    hide Stays;
  }

  lemma SimpleFresh(t: Tracker, ccs: seq<Change>)
    requires WellFormed(t) && AllFresh(t) && Simple(t, ccs).Ok?
    ensures AllFresh(Simple(t, ccs).t) && SameLimits(t, Simple(t, ccs).t)
  {
    hide WellFormed, Consistent, ApplyAll, Carried, AllFresh;
    NoAutoLeave(t);
    SimpleCarries(t, ccs);
    LimitsStay(t, ccs);
    FreshStays(t, t.cfg, ccs, Simple(t, ccs).t);
  }

  lemma {:induction false} EachFresh(t: Tracker, ccs: seq<Change>)
    requires WellFormed(t) && AllFresh(t) && Restore.OneByOne(t, ccs).Ok?
    ensures var u := Restore.OneByOne(t, ccs).t; WellFormed(u) && AllFresh(u) && SameLimits(t, u)
    decreases |ccs|
  {
    hide WellFormed, AllFresh, Simple;
    if ccs != [] {
      SimpleKeeps(t, [ccs[0]]);
      SimpleFresh(t, [ccs[0]]);
      EachFresh(Simple(t, [ccs[0]]).t, ccs[1..]);
    }
  }

  lemma EnterFresh(t: Tracker, autoLeave: bool, ccs: seq<Change>)
    requires WellFormed(t) && AllFresh(t) && EnterJoint(t, autoLeave, ccs).Ok?
    ensures AllFresh(EnterJoint(t, autoLeave, ccs).t) && SameLimits(t, EnterJoint(t, autoLeave, ccs).t)
  {
    hide Consistent, ApplyAll, Carried, AllFresh, Stays;
    NoAutoLeave(t);
    EnterJointCarries(t, autoLeave, ccs);
    var both := t.(cfg := t.cfg.(voters := JointConfig(t.cfg.voters.incoming, t.cfg.voters.incoming)));
    assert WellFormed(both);
    LimitsStay(both, ccs);
    FreshStays(t, both.cfg, ccs, EnterJoint(t, autoLeave, ccs).t);
  }

  /** Whatever is restored from a ConfState into an empty tracker, every node starts afresh. */
  lemma RestoredFresh(lastIndex: nat, maxInflight: nat, maxBytes: nat, cs: Restore.ConfState)
    requires Restore.Restored(EmptyTracker(lastIndex, maxInflight, maxBytes), cs).Ok?
    ensures var t := EmptyTracker(lastIndex, maxInflight, maxBytes);
            var u := Restore.Restored(t, cs).t;
            SameLimits(t, u) && forall id :: id in u.trk ==> u.trk[id] == Fresh(t, id in u.cfg.learners)
  {
    hide EnterJoint, Restore.OneByOne;
    var t := EmptyTracker(lastIndex, maxInflight, maxBytes);
    EmptyIsWellFormed(lastIndex, maxInflight, maxBytes);
    hide WellFormed;
    var (out, inc) := Restore.ToChanges(cs);
    if out == [] {
      EachFresh(t, inc);
    } else {
      EachFresh(t, out);
      EnterFresh(Restore.OneByOne(t, out).t, cs.autoLeave, inc);
    }
  }
}
