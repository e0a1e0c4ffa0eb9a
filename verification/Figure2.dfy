/** The deterministic specification `figure2::step`: one node, one event, a new state and
    an ordered list of effects. */
module Figure2 {
  import opened RaftTypes

  datatype Progress = Progress(next: LogIndex, match_: LogIndex)

  datatype LeaderState = LeaderState(progress: map<NodeId, Progress>, clients: set<LogIndex>)

  /** A hard-state write in flight, and the effects that wait for it. */
  datatype PendingHard = PendingHard(id: nat, hard: HardState, deferred: seq<Effect>)

  datatype State = State(
    node: NodeId,
    peers: seq<NodeId>,
    role: Role,
    term: Term,
    vote: Option<NodeId>,
    snapshot: Option<SnapshotMark>,
    log: seq<LogEntry>,
    commit: LogIndex,
    applied: LogIndex,
    knownLeader: Option<NodeId>,
    votes: set<NodeId>,
    leader: Option<LeaderState>,
    nextRequest: nat,
    pending: Option<PendingHard>)

  datatype Event =
    | ElectionTimeout
    | HeartbeatTimeout
    | ApplyCommitted
    | ObserveTerm(observed: Term)
    | Receive(from: NodeId, msg: Message)
    | ClientCommand(command: Command)
    | HardPersisted(id: nat, hard: HardState)

  datatype Error =
    | InvalidPreState | InvalidPostState | Blocked | UnexpectedCompletion | MismatchedCompletion
    | AlreadyPending | NotPeer | SenderMismatch | NotContiguous | MatchedBeyondLog | Exhausted

  /** A thrown exception leaves the old state: `step` works on a copy. */
  datatype Outcome = Failed(error: Error) | Done(state: State, effects: seq<Effect>) {
    predicate IsFailure() {
      Failed?
    }
    function PropagateFailure(): Outcome
      requires Failed?
    {
      this
    }
    function Extract(): (State, seq<Effect>)
      requires Done?
    {
      (state, effects)
    }
  }

  // ---- Reading the log -----------------------------------------------------

  function Base(s: State): LogIndex {
    if s.snapshot.Some? then s.snapshot.value.index else 0
  }

  /** In a valid state this is the index of the last entry, or the snapshot's (see
      `Figure2Proofs.LastIndexIsLastEntry`). */
  function LastIndex(s: State): LogIndex {
    Base(s) + |s.log|
  }

  function LastTerm(s: State): Term {
    if s.log != [] then s.log[|s.log| - 1].term
    else if s.snapshot.Some? then s.snapshot.value.term
    else 0
  }

  function TermAt(s: State, index: LogIndex): Term
    requires index == 0 || Base(s) <= index <= LastIndex(s)
  {
    if index == 0 then 0
    else if s.snapshot.Some? && index == Base(s) then s.snapshot.value.term
    else s.log[index - Base(s) - 1].term
  }

  function Majority(s: State): nat {
    (|s.peers| + 1) / 2 + 1
  }

  predicate UpToDate(s: State, lastTerm: Term, lastIndex: LogIndex) {
    lastTerm > LastTerm(s) || (lastTerm == LastTerm(s) && lastIndex >= LastIndex(s))
  }

  // ---- The state check -----------------------------------------------------

  predicate PeersValid(s: State) {
    s.node !in s.peers && NoDuplicates(s.peers)
  }

  predicate SnapshotValid(s: State) {
    s.snapshot.Some? ==>
      s.snapshot.value.index != 0 && 0 < s.snapshot.value.term <= s.term
  }

  predicate LogValid(s: State) {
    forall i :: 0 <= i < |s.log| ==> s.log[i].index == Base(s) + i + 1 && s.log[i].term <= s.term
  }

  predicate IndexesValid(s: State) {
    Base(s) <= s.applied <= s.commit <= LastIndex(s)
  }

  predicate RolesValid(s: State) {
    && (s.role.Leader? <==> s.leader.Some?)
    && (!s.role.Candidate? ==> s.votes == {})
    && (forall v :: v in s.votes ==> v == s.node || v in s.peers)
  }

  predicate RequestsValid(s: State) {
    s.nextRequest != 0 && (s.pending.Some? ==> s.pending.value.id != 0)
  }

  predicate ProgressValid(s: State, p: Progress) {
    1 <= p.next <= LastIndex(s) + 1 && p.match_ <= LastIndex(s) && p.match_ < p.next
  }

  predicate LeaderValid(s: State) {
    s.leader.Some? ==>
      && |s.leader.value.progress| == |s.peers|
      && (forall p :: p in s.peers ==>
            p in s.leader.value.progress && ProgressValid(s, s.leader.value.progress[p]))
      && (forall c :: c in s.leader.value.clients ==> 0 < c <= LastIndex(s))
  }

  /** `validate` reports no violation. */
  predicate Valid(s: State) {
    && PeersValid(s)
    && SnapshotValid(s)
    && LogValid(s)
    && IndexesValid(s)
    && RolesValid(s)
    && RequestsValid(s)
    && LeaderValid(s)
  }

  // ---- Persistence gating --------------------------------------------------

  function PersistHardState(s: State): Outcome {
    if s.nextRequest == 0 || s.nextRequest == U64_MAX then
      Failed(Exhausted)
    else
      Done(s.(nextRequest := s.nextRequest + 1),
           [PersistHard(s.nextRequest, HardState(s.term, s.vote))])
  }

  /** The position of the first hard-state write, or the length. */
  function FirstPersist(effects: seq<Effect>): (k: nat)
    ensures k <= |effects|
    ensures k < |effects| ==> effects[k].PersistHard?
    ensures forall i :: 0 <= i < k ==> !effects[i].PersistHard?
  {
    if effects == [] then 0
    else if effects[0].PersistHard? then 0
    else 1 + FirstPersist(effects[1..])
  }

  function Gate(s: State, effects: seq<Effect>): Outcome {
    var k := FirstPersist(effects);
    if k == |effects| then
      Done(s, effects)
    else if s.pending.Some? then
      Failed(AlreadyPending)
    else
      Done(s.(pending := Some(PendingHard(effects[k].id, effects[k].hard, effects[k + 1..]))),
           effects[..k + 1])
  }

  // ---- Handlers ------------------------------------------------------------

  function Observe(s: State, observed: Term): Outcome {
    if observed > s.term then
      PersistHardState(s.(term := observed, vote := None, role := Follower, knownLeader := None,
                          votes := {}, leader := None))
    else
      Done(s, [])
  }

  function AppendFor(s: State, peer: NodeId, context: Option<ReadContext>): Message
    requires s.leader.Some? && peer in s.leader.value.progress
    requires ProgressValid(s, s.leader.value.progress[peer])
  {
    var next := Max(s.leader.value.progress[peer].next, Base(s) + 1);
    AppendRequest(
      s.term, s.node, next - 1, TermAt(s, next - 1),
      if next <= LastIndex(s) then s.log[next - Base(s) - 1..] else [],
      s.commit, context)
  }

  predicate CanReplicate(s: State) {
    s.leader.Some? &&
    forall p :: p in s.peers ==>
      p in s.leader.value.progress && ProgressValid(s, s.leader.value.progress[p])
  }

  function Replicate(s: State, peers: seq<NodeId>): (effects: seq<Effect>)
    requires CanReplicate(s) && forall p :: p in peers ==> p in s.peers
    ensures |effects| == |peers|
    ensures forall i :: 0 <= i < |peers| ==>
              peers[i] in s.peers && effects[i] == Send(peers[i], AppendFor(s, peers[i], None))
  {
    if peers == [] then []
    else [Send(peers[0], AppendFor(s, peers[0], None))] + Replicate(s, peers[1..])
  }

  function FreshProgress(s: State): map<NodeId, Progress> {
    map p | p in s.peers :: Progress(LastIndex(s) + 1, 0)
  }

  function InitializeLeader(s: State): Outcome {
    if LastIndex(s) >= U64_MAX then
      Failed(Exhausted)
    else
      var s1 := s.(role := Leader, votes := {}, knownLeader := Some(s.node),
                   leader := Some(LeaderState(FreshProgress(s), {})));
      Done(s1, Replicate(s1, s1.peers))
  }

  function Solicit(s: State, peers: seq<NodeId>): (effects: seq<Effect>)
    ensures |effects| == |peers|
    ensures forall i :: 0 <= i < |peers| ==>
              effects[i] == Send(peers[i], VoteRequest(s.term, s.node, LastIndex(s), LastTerm(s)))
  {
    if peers == [] then []
    else [Send(peers[0], VoteRequest(s.term, s.node, LastIndex(s), LastTerm(s)))]
         + Solicit(s, peers[1..])
  }

  function StartElection(s: State): Outcome {
    if s.term >= U64_MAX then
      Failed(Exhausted)
    else
      var (s1, persist) :-
        PersistHardState(s.(term := s.term + 1, vote := Some(s.node), role := Candidate,
                            knownLeader := None, leader := None, votes := {s.node}));
      var solicited := persist + [ResetElectionTimer] + Solicit(s1, s1.peers);
      if Majority(s1) == 1 then
        var (s2, announced) :- InitializeLeader(s1);
        Done(s2, solicited + announced)
      else
        Done(s1, solicited)
  }

  function HandleVoteRequest(s: State, from: NodeId, m: Message): Outcome
    requires m.VoteRequest?
  {
    if from !in s.peers then Failed(NotPeer)
    else if m.candidate != from then Failed(SenderMismatch)
    else
      var (s1, e1) :- Observe(s, m.term);
      AnswerVote(s1, e1, from, m)
  }

  /** The decision on a vote, once the request's term has been observed. */
  function AnswerVote(s1: State, e1: seq<Effect>, from: NodeId, m: Message): Outcome
    requires m.VoteRequest?
  {
    if m.term < s1.term then
      Done(s1, e1 + [Send(from, VoteResponse(s1.term, false))])
    else if (s1.vote.None? || s1.vote == Some(m.candidate))
         && UpToDate(s1, m.lastTerm, m.lastIndex) then
      var s2 := s1.(vote := Some(m.candidate));
      var (s3, e3) :- if s1.vote.None? then PersistHardState(s2) else Done(s2, []);
      Done(s3, e1 + e3 + [ResetElectionTimer, Send(from, VoteResponse(s3.term, true))])
    else
      Done(s1, e1 + [Send(from, VoteResponse(s1.term, false))])
  }

  function HandleVoteResponse(s: State, from: NodeId, m: Message): Outcome
    requires m.VoteResponse?
  {
    if from !in s.peers then Failed(NotPeer)
    else
      var (s1, e1) :- Observe(s, m.term);
      if !s1.role.Candidate? || m.term != s1.term || !m.granted then
        Done(s1, e1)
      else
        var s2 := s1.(votes := s1.votes + {from});
        if |s2.votes| >= Majority(s2) then
          var (s3, e3) :- InitializeLeader(s2);
          Done(s3, e1 + e3)
        else
          Done(s2, e1)
  }

  predicate Contiguous(previous: LogIndex, entries: seq<LogEntry>) {
    forall j :: 0 <= j < |entries| ==> entries[j].index == previous + 1 + j
  }

  /** The first incoming entry at or after `j` that the log does not already hold with the
      same term; the number of entries if it holds them all. */
  function FirstMissing(s: State, previous: LogIndex, entries: seq<LogEntry>, j: nat): (k: nat)
    requires Base(s) <= previous <= LastIndex(s) && j <= |entries|
    ensures j <= k <= |entries|
    ensures forall i :: j <= i < k ==>
              previous + 1 + i <= LastIndex(s) && TermAt(s, previous + 1 + i) == entries[i].term
    ensures k < |entries| && previous + 1 + k <= LastIndex(s) ==>
              TermAt(s, previous + 1 + k) != entries[k].term
    ensures previous + k <= LastIndex(s) || k == j
    decreases |entries| - j
  {
    if j == |entries| || previous + 1 + j > LastIndex(s)
       || TermAt(s, previous + 1 + j) != entries[j].term
    then j
    else FirstMissing(s, previous, entries, j + 1)
  }

  predicate PreviousMatches(s: State, m: Message)
    requires m.AppendRequest?
  {
    Base(s) <= m.previous <= LastIndex(s) && TermAt(s, m.previous) == m.previousTerm
  }

  function AcceptAppend(s: State, from: NodeId, m: Message, k: nat): (State, seq<Effect>)
    requires m.AppendRequest? && PreviousMatches(s, m)
    requires k <= |m.entries| && (k < |m.entries| ==> m.previous + k <= LastIndex(s))
  {
    var s1 := if k < |m.entries|
              then s.(log := s.log[..m.previous + k - Base(s)] + m.entries[k..])
              else s;
    var bounded := Min(m.leaderCommit, m.previous + |m.entries|);
    var s2 := if bounded > s1.commit then s1.(commit := bounded) else s1;
    (s2, (if k < |m.entries| then [PersistState] else [])
         + [Send(from, AppendResponse(s2.term, true, m.previous + |m.entries|, m.context))])
  }

  function HandleAppendRequest(s: State, from: NodeId, m: Message): Outcome
    requires m.AppendRequest?
  {
    if from !in s.peers then Failed(NotPeer)
    else if m.leader != from then Failed(SenderMismatch)
    else
      var (s1, e1) :- Observe(s, m.term);
      if m.term < s1.term then
        Done(s1, e1 + [Send(from, AppendResponse(s1.term, false, 0, m.context))])
      else
        var s2 := s1.(role := Follower, leader := None, votes := {}, knownLeader := Some(from));
        MatchAppend(s2, e1 + [ResetElectionTimer], from, m)
  }

  /** The consistency check and the conflict scan, as a follower of the request's leader. */
  function MatchAppend(s2: State, e1: seq<Effect>, from: NodeId, m: Message): Outcome
    requires m.AppendRequest?
  {
    var refuse := Send(from, AppendResponse(s2.term, false, 0, m.context));
    if !PreviousMatches(s2, m) then
      Done(s2, e1 + [refuse])
    else if !Contiguous(m.previous, m.entries) then
      Failed(NotContiguous)
    else
      var k := FirstMissing(s2, m.previous, m.entries, 0);
      if k < |m.entries| && m.previous + 1 + k <= LastIndex(s2)
         && m.previous + 1 + k <= s2.commit then
        Done(s2, e1 + [refuse])
      else
        var (s3, e3) := AcceptAppend(s2, from, m, k);
        Done(s3, e1 + e3)
  }

  /** The peers that are known to hold the log up to `index`. */
  function Holders(s: State, index: LogIndex): set<NodeId>
    requires s.leader.Some?
  {
    set p | p in s.leader.value.progress && s.leader.value.progress[p].match_ >= index
  }

  /** The count of holders, with the leader itself. */
  function Replicated(s: State, index: LogIndex): nat
    requires s.leader.Some?
  {
    1 + |Holders(s, index)|
  }

  predicate Committable(s: State, index: LogIndex)
    requires s.leader.Some? && Base(s) < index <= LastIndex(s)
  {
    TermAt(s, index) == s.term && Replicated(s, index) >= Majority(s)
  }

  /** The commit search, from `candidate` downwards. */
  function CommitFrom(s: State, candidate: LogIndex): (c: LogIndex)
    requires s.leader.Some? && Base(s) <= s.commit && candidate <= LastIndex(s)
    ensures c == s.commit || (s.commit < c <= candidate && Committable(s, c))
    ensures forall i :: c < i <= candidate && s.commit < i ==> !Committable(s, i)
  {
    if candidate <= s.commit then s.commit
    else if Committable(s, candidate) then candidate
    else CommitFrom(s, candidate - 1)
  }

  function AdvanceCommit(s: State): State
    requires s.leader.Some? && Base(s) <= s.commit
  {
    s.(commit := CommitFrom(s, LastIndex(s)))
  }

  function HandleAppendResponse(s: State, from: NodeId, m: Message): Outcome
    requires m.AppendResponse? && Valid(s)
  {
    if from !in s.peers then Failed(NotPeer)
    else
      var (s1, e1) :- Observe(s, m.term);
      if !s1.role.Leader? || m.term != s1.term then
        Done(s1, e1)
      else
        var p := s1.leader.value.progress[from];
        if m.succeeded then
          if m.matched > LastIndex(s1) then Failed(MatchedBeyondLog)
          else
            var matched := Max(p.match_, m.matched);
            Done(AdvanceCommit(SetProgress(s1, from, Progress(matched + 1, matched))), e1)
        else
          var next := Max(p.match_ + 1, Max(1, p.next - 1));
          var s2 := SetProgress(s1, from, Progress(next, p.match_));
          Done(s2, e1 + [Send(from, AppendFor(s2, from, m.context))])
  }

  function SetProgress(s: State, peer: NodeId, p: Progress): State
    requires s.leader.Some?
  {
    s.(leader := Some(s.leader.value.(progress := s.leader.value.progress[peer := p])))
  }

  function HandleApply(s: State): Outcome
    requires Valid(s)
  {
    if s.commit <= s.applied then
      Done(s, [])
    else
      var index := s.applied + 1;
      var s1 := s.(applied := index);
      var apply := [ApplyCommand(index, s.log[index - Base(s) - 1].command)];
      if s.leader.Some? && index in s.leader.value.clients then
        Done(s1.(leader := Some(s.leader.value.(clients := s.leader.value.clients - {index}))),
             apply + [CompleteClient(index)])
      else
        Done(s1, apply)
  }

  function HandleClient(s: State, command: Command): Outcome
    requires Valid(s)
  {
    if !s.role.Leader? then
      Done(s, [])
    else if LastIndex(s) >= U64_MAX then
      Failed(Exhausted)
    else
      var index := LastIndex(s) + 1;
      var l := s.leader.value;
      var s1 := s.(log := s.log + [LogEntry(s.term, index, command)],
                   leader := Some(l.(clients := l.clients + {index})));
      Done(AdvanceCommit(s1), [PersistState] + Replicate(s1, s1.peers))
  }

  function HandleTimeout(s: State): Outcome
    requires Valid(s)
  {
    match s.role
    case Leader => Done(s, Replicate(s, s.peers))
    case Follower => StartElection(s)
    case Candidate => StartElection(s)
    case Learner => Done(s, [])
  }

  function HandleMessage(s: State, from: NodeId, m: Message): Outcome
    requires Valid(s)
  {
    match m
    case VoteRequest(_, _, _, _) => HandleVoteRequest(s, from, m)
    case VoteResponse(_, _) => HandleVoteResponse(s, from, m)
    case AppendRequest(_, _, _, _, _, _, _) => HandleAppendRequest(s, from, m)
    case AppendResponse(_, _, _, _) => HandleAppendResponse(s, from, m)
  }

  /** The effects of one event before any of them is held back. */
  function Handle(s: State, event: Event): Outcome
    requires Valid(s)
    requires s.pending.Some? <==> event.HardPersisted?
  {
    match event
    case ElectionTimeout => if s.role.Leader? then Done(s, []) else HandleTimeout(s)
    case HeartbeatTimeout => if s.role.Leader? then HandleTimeout(s) else Done(s, [])
    case ApplyCommitted => HandleApply(s)
    case ObserveTerm(t) => Observe(s, t)
    case Receive(from, m) => HandleMessage(s, from, m)
    case ClientCommand(command) => HandleClient(s, command)
    case HardPersisted(id, hard) =>
      if id != s.pending.value.id || hard != s.pending.value.hard then
        Failed(MismatchedCompletion)
      else
        Done(s.(pending := None), s.pending.value.deferred)
  }

  function Step(s: State, event: Event): Outcome {
    if !Valid(s) then Failed(InvalidPreState)
    else if s.pending.Some? && !event.HardPersisted? then Failed(Blocked)
    else if s.pending.None? && event.HardPersisted? then Failed(UnexpectedCompletion)
    else
      var (s1, e1) :- Handle(s, event);
      var (s2, e2) :- Gate(s1, e1);
      if !Valid(s2) then Failed(InvalidPostState) else Done(s2, e2)
  }
}
