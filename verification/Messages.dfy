/** The messages nodes exchange or step into themselves (raftpb.Message), one constructor per
    message type with the fields that type uses. The data of a snapshot is the state after the entries
    up to its index, so it is those entries here. */
module Messages {
  import opened Types

  datatype Message =
    | App(from: Id, to: Id, term: nat, prevIndex: nat, prevTerm: nat, ents: seq<Entry>, commit: nat)
    | AppResp(from: Id, to: Id, term: nat, index: nat, reject: bool, hint: nat, hintTerm: nat)
    | Vote(from: Id, to: Id, term: nat, lastIndex: nat, lastTerm: nat, transfer: bool)
    | VoteResp(from: Id, to: Id, term: nat, reject: bool)
    | PreVote(from: Id, to: Id, term: nat, lastIndex: nat, lastTerm: nat)
    | PreVoteResp(from: Id, to: Id, term: nat, reject: bool)
    | Heartbeat(from: Id, to: Id, term: nat, commit: nat, ctx: nat)
    | HeartbeatResp(from: Id, to: Id, term: nat, ctx: nat)
    | Snap(from: Id, to: Id, term: nat, index: nat, snapTerm: nat, covered: seq<Entry>)
    | TimeoutNow(from: Id, to: Id, term: nat)
    | TransferLeader(from: Id, to: Id, term: nat)
    | Prop(from: Id, to: Id, payloads: seq<Bytes>)
    | ReadIndex(from: Id, to: Id, data: Bytes)
    | ReadIndexResp(from: Id, to: Id, term: nat, index: nat, data: Bytes)
    | Hup(from: Id, to: Id)
    | Beat(from: Id, to: Id)
    | CheckQuorum(from: Id, to: Id)
    | ForgetLeader(from: Id, to: Id)
    | Unreachable(from: Id, to: Id)
    | SnapStatus(from: Id, to: Id, failed: bool)
    | StorageAppendResp(from: Id, to: Id, term: nat, index: nat, logTerm: nat, snapshot: nat)
    | StorageApplyResp(from: Id, to: Id, size: nat)

  /** The term a message carries; 0 for the ones that are never stamped with one. */
  function TermOf(m: Message): nat {
    if m.Prop? || m.ReadIndex? || m.Hup? || m.Beat? || m.CheckQuorum? || m.ForgetLeader? || m.Unreachable? || m.SnapStatus?
      || m.StorageApplyResp?
    then 0 else m.term
  }
}
