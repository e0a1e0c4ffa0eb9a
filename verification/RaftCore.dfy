/** `election::Core`: the specification wrapped with log-persistence gating, ordered
    application and ReadIndex. Snapshots are layered on separately (see `Compaction`). */
module RaftCore {
  import opened RaftTypes
  import opened Figure2

  /** A log write in flight, and the effects that wait for it. */
  datatype PendingLog = PendingLog(id: nat, log: seq<LogEntry>, deferred: seq<Effect>)

  datatype PendingApplication = PendingApplication(id: nat, entry: LogEntry, blocked: bool)

  datatype PendingRead = PendingRead(
    context: ReadContext, request: RequestId, index: LogIndex, acks: set<NodeId>, confirmed: bool)

  /** `waiting` is ordered by context, as the code's map is: contexts are issued in order. */
  datatype Core = Core(
    state: State,
    pendingLog: Option<PendingLog>,
    application: Option<PendingApplication>,
    waiting: seq<PendingRead>,
    used: set<RequestId>,
    nextContext: ReadContext,
    nextLogId: nat,
    nextApplyId: nat,
    maxReads: nat,
    maxHistory: nat)

  datatype Input =
    | Timeout
    | Heartbeat
    | Deliver(from: NodeId, msg: Message)
    | Client(command: Command)
    | HardDone(hardId: nat, hard: HardState)
    | LogDone(logId: nat, log: seq<LogEntry>)
    | Applied(applyId: nat, index: LogIndex)
    | ApplyFailed(failedId: nat, failedIndex: LogIndex)
    | RetryApply
    | Read(request: RequestId)
    | CancelRead(cancelled: RequestId)
    | TimeoutRead(expired: RequestId)

  /** `Refused` stands for a thrown exception. */
  datatype CoreOutcome = Refused | Stepped(core: Core, effects: seq<Effect>)

  const APPLY_ID_LIMIT: nat := 0x8000_0000_0000_0000

  // ---- Application ---------------------------------------------------------

  predicate NeedsApplication(c: Core) {
    c.application.None? && c.state.applied < c.state.commit
  }

  predicate CanSchedule(c: Core) {
    NeedsApplication(c) ==>
      c.nextApplyId < APPLY_ID_LIMIT && Base(c.state) <= c.state.applied < LastIndex(c.state)
  }

  function Schedule(c: Core, effects: seq<Effect>): CoreOutcome {
    if !CanSchedule(c) then
      Refused
    else if !NeedsApplication(c) then
      Stepped(c, effects)
    else
      var entry := c.state.log[c.state.applied - Base(c.state)];
      Stepped(c.(application := Some(PendingApplication(c.nextApplyId, entry, false)),
                 nextApplyId := c.nextApplyId + 1),
              effects + [ApplyEntry(c.nextApplyId, entry)])
  }

  // ---- Reads ---------------------------------------------------------------

  predicate Ready(r: PendingRead, applied: LogIndex) {
    r.confirmed && r.index <= applied
  }

  function StillWaiting(waiting: seq<PendingRead>, applied: LogIndex): seq<PendingRead> {
    if waiting == [] then []
    else (if Ready(waiting[0], applied) then [] else [waiting[0]]) + StillWaiting(waiting[1..], applied)
  }

  function Answers(waiting: seq<PendingRead>, applied: LogIndex): seq<Effect> {
    if waiting == [] then []
    else (if Ready(waiting[0], applied) then [ReadAnswered(waiting[0].request, waiting[0].index)] else [])
         + Answers(waiting[1..], applied)
  }

  function CompleteReads(c: Core): Core {
    c.(waiting := StillWaiting(c.waiting, c.state.applied))
  }

  function Rejections(waiting: seq<PendingRead>, reason: ReadFailure): seq<Effect> {
    if waiting == [] then []
    else [ReadRejected(waiting[0].request, reason)] + Rejections(waiting[1..], reason)
  }

  function CommitTerm(s: State): Term {
    if s.commit == Base(s) && s.snapshot.Some? then s.snapshot.value.term
    else if Base(s) < s.commit <= LastIndex(s) then s.log[s.commit - Base(s) - 1].term
    else 0
  }

  function MarkRead(e: Effect, context: ReadContext): Effect {
    match e
    case Send(to, AppendRequest(t, n, previous, previousTerm, entries, commit, _)) =>
      Send(to, AppendRequest(t, n, previous, previousTerm, entries, commit, Some(context)))
    case _ => e
  }

  function WithContext(effects: seq<Effect>, context: ReadContext): (out: seq<Effect>)
    ensures |out| == |effects|
    ensures forall i :: 0 <= i < |out| ==> out[i] == MarkRead(effects[i], context)
  {
    if effects == [] then []
    else [MarkRead(effects[0], context)] + WithContext(effects[1..], context)
  }

  // ---- Log gating and translation ------------------------------------------

  function FirstLogWrite(effects: seq<Effect>): (k: nat)
    ensures k <= |effects|
    ensures k < |effects| ==> effects[k].PersistLog?
    ensures forall i :: 0 <= i < k ==> !effects[i].PersistLog?
  {
    if effects == [] then 0
    else if effects[0].PersistLog? then 0
    else 1 + FirstLogWrite(effects[1..])
  }

  function GateLog(c: Core, effects: seq<Effect>): CoreOutcome {
    var k := FirstLogWrite(effects);
    if k == |effects| then
      Stepped(c, effects)
    else if c.pendingLog.Some? then
      Refused
    else
      Stepped(c.(pendingLog := Some(PendingLog(effects[k].logId, effects[k].log, effects[k + 1..]))),
              effects[..k + 1])
  }

  function LogWrites(effects: seq<Effect>): nat {
    if effects == [] then 0
    else (if effects[0].PersistState? then 1 else 0) + LogWrites(effects[1..])
  }

  /** Core's form of the specification's effects: a log change names the log to write. */
  function TranslateEffects(effects: seq<Effect>, log: seq<LogEntry>, id: nat): seq<Effect> {
    if effects == [] then []
    else
      var e := effects[0];
      if e.PersistState? then [PersistLog(id, log)] + TranslateEffects(effects[1..], log, id + 1)
      else if e.ApplyCommand? || e.CompleteClient? then TranslateEffects(effects[1..], log, id)
      else [e] + TranslateEffects(effects[1..], log, id)
  }

  function RoleEffects(c: Core, s: State, previous: Role): seq<Effect> {
    if s.role == previous then []
    else [RoleTransition(previous, s.role, s.term)]
         + if previous.Leader? then Rejections(c.waiting, LeadershipLost) else []
  }

  function Translate(c: Core, s: State, effects: seq<Effect>, previous: Role): CoreOutcome {
    var writes := LogWrites(effects);
    if c.nextLogId + writes > U64_MAX then Refused
    else
      var waiting := if s.role != previous && previous.Leader? then [] else c.waiting;
      var c1 := c.(state := s, waiting := waiting, nextLogId := c.nextLogId + writes);
      var all := RoleEffects(c, s, previous) + TranslateEffects(effects, s.log, c.nextLogId);
      var gated := GateLog(c1, all);
      if gated.Refused? then Refused
      else if gated.core.state.pending.None? && gated.core.pendingLog.None?
      then Schedule(gated.core, gated.effects)
      else gated
  }

  function StepSpec(c: Core, event: Event): CoreOutcome {
    var r := Figure2.Step(c.state, event);
    if r.Failed? then Refused else Translate(c, r.state, r.effects, c.state.role)
  }

  // ---- ReadIndex -----------------------------------------------------------

  function BeginRead(c: Core, request: RequestId): CoreOutcome {
    if request == RequestId(0, 0) then Refused
    else if !c.state.role.Leader? then
      Stepped(c, [ReadRejected(request, NotLeader)])
    else if request in c.used then
      Stepped(c, [ReadRejected(request, DuplicateRequest)])
    else if c.state.commit == 0 || CommitTerm(c.state) != c.state.term then
      Stepped(c, [ReadRejected(request, TermNotCommitted)])
    else if |c.waiting| >= c.maxReads || |c.used| >= c.maxHistory then
      Stepped(c, [ReadRejected(request, CapacityExceeded)])
    else if c.nextContext == 0 || c.nextContext >= U64_MAX then
      Stepped(c, [ReadRejected(request, ContextExhausted)])
    else
      var read := PendingRead(c.nextContext, request, c.state.commit, {c.state.node}, false);
      var r := StepSpec(c.(used := c.used + {request}, nextContext := c.nextContext + 1,
                           waiting := c.waiting + [read]),
                        HeartbeatTimeout);
      if r.Refused? then Refused else Stepped(r.core, WithContext(r.effects, c.nextContext))
  }

  function WithoutRequest(waiting: seq<PendingRead>, request: RequestId): seq<PendingRead> {
    if waiting == [] then []
    else if waiting[0].request == request then waiting[1..]
    else [waiting[0]] + WithoutRequest(waiting[1..], request)
  }

  function EndRead(c: Core, request: RequestId, reason: ReadFailure): CoreOutcome {
    if exists i :: 0 <= i < |c.waiting| && c.waiting[i].request == request then
      Stepped(c.(waiting := WithoutRequest(c.waiting, request)), [ReadRejected(request, reason)])
    else
      Stepped(c, [])
  }

  function AckRead(r: PendingRead, context: ReadContext, from: NodeId, majority: nat): PendingRead {
    if r.context == context
    then r.(acks := r.acks + {from},
            confirmed := r.confirmed || |r.acks + {from}| >= majority)
    else r
  }

  function Acknowledged(waiting: seq<PendingRead>, context: ReadContext, from: NodeId, majority: nat)
    : (out: seq<PendingRead>)
    ensures |out| == |waiting|
    ensures forall i :: 0 <= i < |out| ==> out[i] == AckRead(waiting[i], context, from, majority)
  {
    if waiting == [] then []
    else [AckRead(waiting[0], context, from, majority)]
         + Acknowledged(waiting[1..], context, from, majority)
  }

  function AcknowledgeRead(c: Core, effects: seq<Effect>, from: NodeId, m: Message): CoreOutcome
    requires m.AppendResponse?
  {
    if !c.state.role.Leader? || m.term != c.state.term || !m.succeeded || m.context.None?
       || (forall i :: 0 <= i < |c.waiting| ==> c.waiting[i].context != m.context.value) then
      Stepped(c, effects)
    else
      var c1 := c.(waiting := Acknowledged(c.waiting, m.context.value, from, Majority(c.state)));
      Stepped(CompleteReads(c1), effects + Answers(c1.waiting, c1.state.applied))
  }

  // ---- The step ------------------------------------------------------------

  predicate AppendRequestValid(m: Message)
    requires m.AppendRequest?
  {
    && m.term != 0 && m.leader != 0
    && (m.previous == 0 <==> m.previousTerm == 0)
    && m.previous + |m.entries| <= U64_MAX
    && forall j :: 0 <= j < |m.entries| ==>
         m.entries[j].index == m.previous + 1 + j && 0 < m.entries[j].term <= m.term
  }

  function FinishApplication(c: Core, index: LogIndex): CoreOutcome {
    var s := c.state.(applied := index);
    var owned := s.leader.Some? && index in s.leader.value.clients;
    var s1 := if owned
              then s.(leader := Some(s.leader.value.(clients := s.leader.value.clients - {index})))
              else s;
    var c1 := c.(state := s1, application := None);
    Schedule(CompleteReads(c1),
             (if owned then [CompleteClient(index)] else []) + Answers(c1.waiting, index))
  }

  predicate MatchesApplication(c: Core, id: nat, index: LogIndex) {
    && c.application.Some? && !c.application.value.blocked
    && id == c.application.value.id && index == c.application.value.entry.index
  }

  function DeliverMessage(c: Core, from: NodeId, m: Message): CoreOutcome {
    if m.AppendRequest? && !AppendRequestValid(m) then Refused
    else
      var r := StepSpec(c, Receive(from, m));
      if r.Refused? then Refused
      else if m.AppendResponse? then AcknowledgeRead(r.core, r.effects, from, m)
      else r
  }

  function CoreStep(c: Core, input: Input): CoreOutcome {
    match input
    case Applied(id, index) =>
      if MatchesApplication(c, id, index) then FinishApplication(c, index) else Refused
    case ApplyFailed(id, index) =>
      if MatchesApplication(c, id, index)
      then Stepped(c.(application := Some(c.application.value.(blocked := true))),
                   [Backpressured(index)])
      else Refused
    case RetryApply =>
      if c.application.None? || !c.application.value.blocked || c.nextApplyId >= APPLY_ID_LIMIT
      then Refused
      else
        var app := c.application.value.(id := c.nextApplyId, blocked := false);
        Stepped(c.(application := Some(app), nextApplyId := c.nextApplyId + 1),
                [ApplyEntry(app.id, app.entry)])
    case LogDone(id, log) =>
      if c.pendingLog.None? || id != c.pendingLog.value.id || log != c.pendingLog.value.log
      then Refused
      else Schedule(c.(pendingLog := None), c.pendingLog.value.deferred)
    case _ =>
      if c.pendingLog.Some? then Refused
      else
        match input
        case HardDone(id, hard) => StepSpec(c, HardPersisted(id, hard))
        case Read(request) => BeginRead(c, request)
        case CancelRead(request) => EndRead(c, request, Cancelled)
        case TimeoutRead(request) => EndRead(c, request, TimedOut)
        case Timeout => StepSpec(c, ElectionTimeout)
        case Heartbeat =>
          if c.state.role.Leader? then StepSpec(c, HeartbeatTimeout) else Stepped(c, [])
        case Client(command) => StepSpec(c, ClientCommand(command))
        case Deliver(from, m) => DeliverMessage(c, from, m)
        case _ => Refused
  }

  // ---- Construction --------------------------------------------------------

  const FIRST_LOG_ID: nat := 0x8000_0000_0000_0000
  const FIRST_APPLY_ID: nat := 0x4000_0000_0000_0000

  predicate ConfigValid(self: NodeId, peers: seq<NodeId>) {
    && self != 0 && self !in peers && NoDuplicates(peers) && 0 !in peers
    && |peers| + 1 >= 3 && (|peers| + 1) % 2 == 1
  }

  function Recovered(self: NodeId, peers: seq<NodeId>, hard: HardState, log: seq<LogEntry>,
                     applied: LogIndex): State {
    State(self, peers, Follower, hard.term, hard.vote, None, log, applied, applied, None, {},
          None, 1, None)
  }

  predicate Constructible(self: NodeId, peers: seq<NodeId>, hard: HardState, log: seq<LogEntry>,
                          applied: LogIndex) {
    && ConfigValid(self, peers)
    && (hard.term == 0 ==> hard.vote.None?)
    && (hard.vote.Some? ==> hard.vote.value == self || hard.vote.value in peers)
    && (forall i :: 0 <= i < |log| ==> log[i].term != 0)
    && Valid(Recovered(self, peers, hard, log, applied))
  }

  function Construct(self: NodeId, peers: seq<NodeId>, hard: HardState, log: seq<LogEntry>,
                     applied: LogIndex, maxReads: nat, maxHistory: nat): Core {
    Core(Recovered(self, peers, hard, log, applied), None, None, [], {}, 1,
         FIRST_LOG_ID, FIRST_APPLY_ID, maxReads, maxHistory)
  }
}
