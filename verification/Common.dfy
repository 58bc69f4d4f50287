/** The messages and identifiers that the client, the coordinator, the cohorts
    and the voting contract exchange. */
module Common {

  type TxnId = string
  type Address = string
  type Key = string

  datatype Option<+T> = None | Some(value: T)

  /** The status codes that the cohort tells apart. */
  datatype Status = NotFound | Internal | FailedPrecondition | DeadlineExceeded

  /** A namespace names the cohort, by address, that runs an operation. */
  datatype Namespace = Namespace(identifier: string, address: Address)

  /** A put without a constant value is relative; its default is optional. */
  datatype PutValue = Constant(value: int) | Relative(delta: int, default: Option<int>)

  /** An operation may be neither a get nor a put, and then does nothing. */
  datatype Action = Get(key: Key) | Put(key: Key, value: PutValue) | NoOp

  datatype Op = Op(ns: Namespace, action: Action)

  datatype GetResponse = GetResponse(ns: Namespace, key: Key, value: int)

  /** What the coordinator sends to one cohort. */
  datatype Request = Request(id: TxnId, ops: seq<Op>, index: nat, onlyCohort: bool)

  datatype AbortReason = Unspecified | TimestampReached | ResourceLocked | NonExistentValue | InvalidType

  /** A cohort's answer about one transaction. */
  datatype Reply = Pending | Committed(results: seq<GetResponse>) | Aborted(reason: AbortReason)

  datatype Ballot = NoBallot | CommitBallot | AbortBallot

  datatype Decision = UnknownDecision | PendingDecision | CommitDecision | AbortDecision
}
