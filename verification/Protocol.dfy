/** The safety argument for Raft, stated over what matters of a node for safety: its term, vote,
    role, log and commit index, the responses it counted, the messages it holds back until its state
    is durable, and its durable state. The concrete node (module Node) is shown to move only by the
    steps treated here.

    The argument is one inductive invariant over the cluster and a history of the run:
    the log of every leader term (a "reign"), the log every candidate stood with (a "bid"), and the
    state of the cluster when each read was queued (a "mark"). */
module Protocol {
  import opened Types
  import opened Quorum
  import opened Messages

  datatype Role = Follower | Candidate | Leader

  /** What survives a crash: HardState and the stored entries. */
  datatype Disk = Disk(term: nat, vote: Id, log: seq<Entry>, commit: nat)

  /** The volatile state of one node. `acked` and `granted` are the match indexes a leader and the
      votes a candidate recorded; `queued` counts the reads a leader queued in its term and
      `readAcks` how many of them each peer confirmed; `out` holds the messages that leave with the
      next durable write. */
  datatype View = View(term: nat, vote: Id, role: Role, log: seq<Entry>, commit: nat,
                       acked: map<Id, nat>, granted: set<Id>,
                       queued: nat, readAcks: map<Id, nat>, out: set<Message>)

  /** What the volatile state of a single node cannot change: the voters, the disks, the writes under
      way and the messages that left a node. Messages are never removed, so each may be lost, delayed,
      reordered or delivered many times. */
  datatype Stable = Stable(cfg: JointConfig, disks: map<Id, Disk>, writes: map<Id, Write>, net: set<Message>)

  /** A Ready on its way to disk: the state to write, and the messages that leave once it is written.
      A node with none under way counts as writing what is on disk already. */
  datatype Write = Write(disk: Disk, out: set<Message>)

  /** One leader term: who led, the length of its log when elected, its log, its commit index. */
  datatype Reign = Reign(leader: Id, base: nat, log: seq<Entry>, commit: nat)

  datatype Bid = Bid(id: Id, term: nat)

  /** The pos-th read queued by the leader of `term`. */
  datatype Read = Read(term: nat, pos: nat)

  /** When a read was queued: the index it carries, every node's commit index, and the nodes whose
      durable term was already past the leader's. */
  datatype Mark = Mark(index: nat, commits: map<Id, nat>, blocked: set<Id>)

  datatype History = History(reigns: map<nat, Reign>, bids: map<Bid, seq<Entry>>,
                             marks: map<Read, Mark>)

  // ---------------------------------------------------------------------------------------------
  // Logs
  // ---------------------------------------------------------------------------------------------

  function TermAt(log: seq<Entry>, i: nat): nat
    requires i <= |log|
  {
    if i == 0 then 0 else log[i - 1].term
  }

  function LastTerm(log: seq<Entry>): nat {
    TermAt(log, |log|)
  }

  /** Both logs hold the first k entries, and hold the same ones. */
  ghost predicate Holds(a: seq<Entry>, b: seq<Entry>, k: nat) {
    k <= |a| && k <= |b| && forall i :: 0 <= i < k ==> a[i] == b[i]
  }

  ghost predicate TermsBelow(log: seq<Entry>, t: nat) {
    forall i :: 0 <= i < |log| ==> log[i].term <= t
  }

  /** Log matching in its strong form: every entry, with all that precedes it, is in the log of the
      leader term that created it. */
  ghost predicate Matched(h: History, log: seq<Entry>) {
    forall i :: 0 <= i < |log| ==>
      log[i].term in h.reigns && Holds(log, h.reigns[log[i].term].log, i + 1)
  }

  /** An entry position holding an entry of the leader's own term. */
  ghost predicate Own(h: History, t: nat, i: nat) {
    t in h.reigns && h.reigns[t].base < i <= |h.reigns[t].log|
  }

  // ---------------------------------------------------------------------------------------------
  // Acknowledgements and what a quorum can still commit
  // ---------------------------------------------------------------------------------------------

  predicate IsAck(m: Message, n: Id, t: nat, k: nat) {
    m.AppResp? && m.from == n && m.term == t && !m.reject && m.index >= k
  }

  /** The leader of t counts its whole log as acknowledged by itself from the start. */
  ghost predicate SelfAck(h: History, n: Id, t: nat, k: nat) {
    t in h.reigns && h.reigns[t].leader == n && k <= h.reigns[t].base
  }

  ghost predicate AckSent(s: Stable, h: History, n: Id, t: nat, k: nat) {
    SelfAck(h, n, t, k) || exists m :: m in s.net && IsAck(m, n, t, k)
  }

  ghost predicate AckKnown(s: Stable, h: History, n: Id, v: View, t: nat, k: nat) {
    AckSent(s, h, n, t, k) || exists m :: m in v.out && IsAck(m, n, t, k)
  }

  /** A quorum has acknowledged position i of t, durably. */
  ghost predicate Chosen(s: Stable, h: History, t: nat, i: nat) {
    exists q :: IsQuorum(s.cfg, q) && AllAcked(s, h, q, t, i)
  }

  ghost predicate AllAcked(s: Stable, h: History, q: set<Id>, t: nat, i: nat) {
    forall n :: n in q ==> n in s.disks && AckSent(s, h, n, t, i)
  }

  ghost predicate CanAck(s: Stable, h: History, n: Id, t: nat, i: nat) {
    n in s.disks && (s.disks[n].term <= t || AckSent(s, h, n, t, i))
  }

  /** A quorum has acknowledged position i of t or still could. Only shrinks over a run. */
  ghost predicate Choosable(s: Stable, h: History, t: nat, i: nat) {
    exists q :: IsQuorum(s.cfg, q) && AllCanAck(s, h, q, t, i)
  }

  ghost predicate AllCanAck(s: Stable, h: History, q: set<Id>, t: nat, i: nat) {
    forall n :: n in q ==> CanAck(s, h, n, t, i)
  }

  /** The first k entries are under the commit index of some leader term up to t. */
  ghost predicate CommitOK(h: History, log: seq<Entry>, k: nat, t: nat) {
    k == 0 ||
    exists t0: nat :: t0 in h.reigns && t0 <= t && k <= h.reigns[t0].commit && Holds(log, h.reigns[t0].log, k)
  }

  /** A leader's commit index is backed by a chosen position of its own or an earlier term. */
  ghost predicate ReignSafe(s: Stable, h: History, t: nat)
    requires t in h.reigns
  {
    var r := h.reigns[t];
    r.commit == 0 ||
    exists t0: nat, j: nat :: t0 <= t && Own(h, t0, j) && r.commit <= j && Chosen(s, h, t0, j)
                    && Holds(r.log, h.reigns[t0].log, r.commit)
  }

  // ---------------------------------------------------------------------------------------------
  // Messages
  // ---------------------------------------------------------------------------------------------

  /** Message types stamped with the sender's term. */
  predicate Firm(m: Message) {
    m.App? || m.AppResp? || m.Vote? || m.VoteResp? || m.Heartbeat? || m.HeartbeatResp?
  }

  /** n's candidacy in term t left the node, so it was durable. */
  ghost predicate Launched(s: Stable, n: Id, t: nat) {
    exists m :: m in s.net && m.from == n && (m.Vote? || (m.VoteResp? && !m.reject && m.to == n)) && m.term == t
  }

  ghost predicate SliceOf(r: Reign, prevIndex: nat, prevTerm: nat, ents: seq<Entry>) {
    && prevIndex + |ents| <= |r.log|
    && prevTerm == TermAt(r.log, prevIndex)
    && forall i :: 0 <= i < |ents| ==> ents[i] == r.log[prevIndex + i]
  }

  ghost predicate Unblocked(h: History, n: Id, t: nat, pos: nat) {
    forall p: nat :: p <= pos && Read(t, p) in h.marks ==> n !in h.marks[Read(t, p)].blocked
  }

  ghost predicate MsgOK(s: Stable, h: History, m: Message) {
    match m
    case App(from, to, t, prevIndex, prevTerm, ents, commit) =>
      from != to && t in h.reigns && h.reigns[t].leader == from && commit <= h.reigns[t].commit
      && SliceOf(h.reigns[t], prevIndex, prevTerm, ents)
    case AppResp(from, to, t, index, reject, _, _) =>
      if reject then from != to else index == 0 || (t in h.reigns && index <= |h.reigns[t].log|)
    case Vote(from, _, t, lastIndex, lastTerm, _) =>
      Bid(from, t) in h.bids
      && lastIndex == |h.bids[Bid(from, t)]| && lastTerm == LastTerm(h.bids[Bid(from, t)])
    case VoteResp(from, to, t, reject) =>
      reject || (Bid(to, t) in h.bids && (to == from || Launched(s, to, t)))
    case Heartbeat(from, to, t, commit, ctx) =>
      from != to && t in h.reigns && h.reigns[t].leader == from && commit <= h.reigns[t].commit
      && (commit == 0 || AckSent(s, h, to, t, commit))
      && (ctx == 0 || Read(t, ctx) in h.marks)
    case HeartbeatResp(from, to, t, ctx) =>
      from != to && (ctx == 0 || (Read(t, ctx) in h.marks && Unblocked(h, from, t, ctx)))
    case Snap(from, to, t, index, snapTerm, covered) =>
      from != to && t in h.reigns && h.reigns[t].leader == from && index <= h.reigns[t].commit
      && index == |covered| && snapTerm == LastTerm(covered) && Holds(covered, h.reigns[t].log, index)
    case PreVote(_, _, t, _, _) => t > 0
    case Prop(_, _, payloads) => payloads != []
    case TransferLeader(_, to, t) => t == 0 || (t in h.reigns && h.reigns[t].leader == to)
    case _ => true
  }

  // ---------------------------------------------------------------------------------------------
  // The invariant
  // ---------------------------------------------------------------------------------------------

  ghost predicate Elected(s: Stable, x: Id, t: nat) {
    exists q :: IsQuorum(s.cfg, q) && AllGranted(s, q, x, t)
  }

  ghost predicate AllGranted(s: Stable, q: set<Id>, x: Id, t: nat) {
    forall n :: n in q ==> n in s.disks && VoteResp(n, x, t, false) in s.net
  }

  ghost predicate ReignOK(s: Stable, h: History, t: nat)
    requires t in h.reigns
  {
    var r := h.reigns[t];
    && r.leader in s.disks
    && r.base < |r.log|
    && r.commit <= |r.log|
    && (forall i :: 0 <= i < r.base ==> r.log[i].term < t)
    && (forall i :: r.base <= i < |r.log| ==> r.log[i].term == t)
    && (forall i :: 0 <= i < |r.log| ==> r.log[i].index == i + 1)
    && Matched(h, r.log)
    && Elected(s, r.leader, t)
    && ReignSafe(s, h, t)
  }

  /** Leader completeness, for everything that a quorum acknowledged or still could. */
  ghost predicate Complete(s: Stable, h: History) {
    forall t0: nat, t1: nat, i: nat :: t0 < t1 && t1 in h.reigns && Own(h, t0, i) && Choosable(s, h, t0, i) ==>
      Holds(h.reigns[t1].log, h.reigns[t0].log, i)
  }

  ghost predicate BidOK(h: History, b: Bid)
    requires b in h.bids
  {
    b.term > 0 && Matched(h, h.bids[b]) && TermsBelow(h.bids[b], b.term - 1)
    && forall i :: 0 <= i < |h.bids[b]| ==> h.bids[b][i].index == i + 1
  }

  ghost predicate MarkOK(s: Stable, h: History, rd: Read)
    requires rd in h.marks
  {
    var k := h.marks[rd];
    && rd.term in h.reigns
    && rd.pos > 0
    && h.reigns[rd.term].leader !in k.blocked
    && (forall n :: n in k.blocked ==> n in s.disks && s.disks[n].term > rd.term)
    && k.commits.Keys == s.disks.Keys
    && ((forall n :: n in k.commits ==> k.commits[n] <= k.index) || IsQuorum(s.cfg, k.blocked))
  }

  ghost predicate NetOK(s: Stable, h: History, m: Message) {
    (Firm(m) ==> m.from in s.disks && 0 < m.term <= s.disks[m.from].term) && MsgOK(s, h, m)
  }

  /** The volatile state a node has right after a restart. */
  function Restarted(d: Disk): View {
    View(d.term, d.vote, Follower, d.log, d.commit, map[], {}, 0, map[], {})
  }

  /** A write under way, as the state of a node that stopped when it was handed out. */
  function Pending(w: Write): View {
    View(w.disk.term, w.disk.vote, Follower, w.disk.log, w.disk.commit, map[], {}, 0, map[], w.out)
  }

  ghost predicate GlobalOK(s: Stable, h: History) {
    && s.cfg.incoming != {}
    && Voters(s.cfg) <= s.disks.Keys
    && NONE !in s.disks
    && (forall m :: m in s.net ==> NetOK(s, h, m))
    && (forall t :: t in h.reigns ==> ReignOK(s, h, t))
    && Complete(s, h)
    && (forall b :: b in h.bids ==> BidOK(h, b))
    && (forall rd :: rd in h.marks ==> MarkOK(s, h, rd))
    && (forall n :: n in s.disks ==> NodeOK(s, h, n, Restarted(s.disks[n])))
    && s.writes.Keys == s.disks.Keys
    && (forall n :: n in s.writes ==> NodeOK(s, h, n, Pending(s.writes[n])))
  }

  ghost predicate LeaderOK(s: Stable, h: History, n: Id, v: View) {
    && v.term in h.reigns
    && h.reigns[v.term].leader == n
    && h.reigns[v.term].log == v.log
    && h.reigns[v.term].commit == v.commit
    && (forall x :: x in v.acked && v.acked[x] > 0 ==> x in s.disks && AckSent(s, h, x, v.term, v.acked[x]))
    && (forall p: nat :: 0 < p <= v.queued <==> Read(v.term, p) in h.marks)
    && (forall x :: x in v.readAcks ==> v.readAcks[x] <= v.queued && Unblocked(h, x, v.term, v.readAcks[x]))
  }

  ghost predicate CandidateOK(s: Stable, h: History, n: Id, v: View)
    requires n in s.disks
  {
    && Bid(n, v.term) in h.bids
    && h.bids[Bid(n, v.term)] == v.log
    && v.vote == n
    && !(v.term in h.reigns && h.reigns[v.term].leader == n)
    && (Launched(s, n, v.term) ==> s.disks[n].log == v.log)
    && (forall x :: x in v.granted ==> VoteResp(x, n, v.term, false) in s.net)
  }

  ghost predicate OutOK(s: Stable, h: History, n: Id, v: View, m: Message)
    requires n in s.disks
  {
    MsgOK(s, h, m) && (Firm(m) ==> m.from == n && m.term > 0 && s.disks[n].term <= m.term <= v.term)
  }

  predicate HasGranted(s: Stable, n: Id, v: View, x: Id, t: nat) {
    VoteResp(n, x, t, false) in s.net || VoteResp(n, x, t, false) in v.out
  }

  ghost predicate StateOK(s: Stable, h: History, n: Id, v: View)
    requires n in s.disks
  {
    var d := s.disks[n];
    && d.term <= v.term
    && (d.term == v.term && d.vote != NONE ==> v.vote == d.vote)
    && v.commit <= |v.log|
    && Matched(h, v.log)
    && TermsBelow(v.log, v.term)
    && (forall i :: 0 <= i < |v.log| ==> v.log[i].index == i + 1)
    && CommitOK(h, v.log, v.commit, v.term)
  }

  /** What a node acknowledged is in its log: to the leader of its own term for as long as the term
      lasts, and in later terms for as long as a quorum may still commit it. */
  ghost predicate AcksOK(s: Stable, h: History, n: Id, v: View) {
    && (forall k: nat :: AckKnown(s, h, n, v, v.term, k) && v.term in h.reigns ==>
          Holds(v.log, h.reigns[v.term].log, k))
    && (forall t: nat, i: nat :: AckKnown(s, h, n, v, t, i) && Own(h, t, i) && Choosable(s, h, t, i) ==>
          Holds(v.log, h.reigns[t].log, i))
  }

  /** A node backs one candidate a term, and a candidate's log has everything the node had
      acknowledged in earlier terms that a quorum may still commit. */
  ghost predicate GrantsOK(s: Stable, h: History, n: Id, v: View) {
    && (forall x: Id, t: nat :: HasGranted(s, n, v, x, t) ==> v.term > t || v.vote == x)
    && (forall x: Id, y: Id, t: nat :: HasGranted(s, n, v, x, t) && HasGranted(s, n, v, y, t) ==> x == y)
    && (forall x: Id, t: nat, t0: nat, i: nat ::
          (HasGranted(s, n, v, x, t) && t0 < t && AckKnown(s, h, n, v, t0, i)
           && Own(h, t0, i) && Choosable(s, h, t0, i) && Bid(x, t) in h.bids)
          ==> Holds(h.bids[Bid(x, t)], h.reigns[t0].log, i))
  }

  ghost predicate NodeOK(s: Stable, h: History, n: Id, v: View) {
    && n in s.disks
    && StateOK(s, h, n, v)
    && (v.role.Leader? ==> LeaderOK(s, h, n, v))
    && (v.role.Candidate? ==> CandidateOK(s, h, n, v))
    && (forall m :: m in v.out ==> OutOK(s, h, n, v, m))
    && AcksOK(s, h, n, v)
    && GrantsOK(s, h, n, v)
  }

  /** A running node is at or past what it is writing: what was handed out is still held back, and what
      was held back since is of the written term or a later one. A candidate of the written term still
      has the written log. */
  ghost predicate Ahead(s: Stable, n: Id, v: View) {
    n in s.writes
    && var d := s.writes[n].disk;
       && d.term <= v.term
       && (d.term == v.term && d.vote != NONE ==> v.vote == d.vote)
       && (d.term == v.term && v.role.Candidate? ==> v.log == d.log)
       && s.writes[n].out <= v.out
       && (forall m :: m in v.out && m !in s.writes[n].out && Firm(m) ==> d.term <= m.term)
  }
}
