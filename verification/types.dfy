/** Identifiers, roles and messages shared by the whole `congress` model. */
module Types {

  /** Node ids are the source's `u64`. */
  type NodeID = n: nat | n < 0x1_0000_0000_0000_0000

  datatype Option<+T> = None | Some(value: T)

  datatype Role = Leader | Follower | Candidate

  datatype Kind = LeaderHeartbeat | VoteRequest | VoteGranted | Custom(payload: nat)

  datatype Message = Message(from: NodeID, to: NodeID, term: nat, kind: Kind)
}
