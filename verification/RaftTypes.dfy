/** Values shared by the Raft specification, the Core around it and the cluster model. */
module RaftTypes {

  /** The largest `std::uint64_t`; the code refuses to allocate past it. */
  const U64_MAX: nat := 0xFFFF_FFFF_FFFF_FFFF

  type NodeId = nat
  type Term = nat
  type LogIndex = nat
  type ReadContext = nat

  datatype Option<+T> = None | Some(value: T)

  datatype RequestId = RequestId(client: nat, sequence: nat)

  datatype Command = Command(request: RequestId, tag: nat, payload: seq<nat>)

  datatype LogEntry = LogEntry(term: Term, index: LogIndex, command: Command)

  datatype HardState = HardState(term: Term, vote: Option<NodeId>)

  /** The part of a snapshot's metadata that the protocol looks at. */
  datatype SnapshotMark = SnapshotMark(index: LogIndex, term: Term)

  datatype Role = Follower | Candidate | Leader | Learner

  datatype Message =
    | VoteRequest(term: Term, candidate: NodeId, lastIndex: LogIndex, lastTerm: Term)
    | VoteResponse(term: Term, granted: bool)
    | AppendRequest(term: Term, leader: NodeId, previous: LogIndex, previousTerm: Term,
                    entries: seq<LogEntry>, leaderCommit: LogIndex, context: Option<ReadContext>)
    | AppendResponse(term: Term, succeeded: bool, matched: LogIndex, context: Option<ReadContext>)

  datatype ReadFailure =
    | NotLeader | TermNotCommitted | CapacityExceeded | DuplicateRequest
    | Cancelled | TimedOut | LeadershipLost | ContextExhausted

  /** What a step asks its environment to do. The first six are produced by the
      specification, the others by Core. */
  datatype Effect =
    | PersistHard(id: nat, hard: HardState)
    | PersistState
    | Send(to: NodeId, msg: Message)
    | ResetElectionTimer
    | ApplyCommand(applyIndex: LogIndex, command: Command)
    | CompleteClient(clientIndex: LogIndex)
    | RoleTransition(before: Role, after: Role, atTerm: Term)
    | PersistLog(logId: nat, log: seq<LogEntry>)
    | ApplyEntry(applyId: nat, entry: LogEntry)
    | Backpressured(blockedIndex: LogIndex)
    | ReadAnswered(request: RequestId, readIndex: LogIndex)
    | ReadRejected(rejected: RequestId, reason: ReadFailure)

  function Max(a: nat, b: nat): nat {
    if a >= b then a else b
  }

  function Min(a: nat, b: nat): nat {
    if a <= b then a else b
  }

  predicate NoDuplicates<T(==)>(s: seq<T>) {
    forall i, j :: 0 <= i < j < |s| ==> s[i] != s[j]
  }
}
