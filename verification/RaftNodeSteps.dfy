/** Every Core input keeps the node's invariant. */
module RaftNodeSteps {
  import opened RaftTypes
  import opened Figure2
  import opened RaftCore
  import opened RaftLedger
  import opened RaftLedgerSteps
  import opened RaftCluster
  import opened RaftInvariant
  import opened RaftGating
  import opened RaftHandlers
  import opened RaftNode

  // ---- Steps that leave the state alone ------------------------------------

  predicate NothingSent(effects: seq<Effect>) {
    forall i :: 0 <= i < |effects| ==> !effects[i].Send?
  }

  lemma SelfAdvanced(l: Ledger, n: NodeId, peers: seq<NodeId>, s: State, d: Durable)
    requires StateOk(l, n, peers, s, d)
    ensures Advanced(s, s) && s.applied <= s.commit <= |s.log|
  {
    ValidLog(l, s);
  }

  lemma QueueOfState(l: Ledger, c: Core, d: Durable, c': Core)
    requires CoreQueue(l, c, d) && c'.state == c.state && c'.pendingLog == c.pendingLog
    ensures CoreQueue(l, c', d)
  {
    hide QueueOk, SendsOk;
  }

  lemma QuietPrepares(l: Ledger, n: NodeId, peers: seq<NodeId>, c: Core, d: Durable, c': Core, effects: seq<Effect>)
    requires Inv(l) && DiskOk(l, n, d) && CoreOk(l, n, peers, c, d)
    requires c'.state == c.state && c'.pendingLog == c.pendingLog && ApplicationOk(c', d)
    requires NothingSent(effects) && AppliesSlot(c', effects)
    ensures Prepared(l, n, peers, c, d, c', effects)
  {
    hide Inv, DiskOk, Valid, Linked, CoreQueue, ApplicationOk, SelfAcked, AppliesSlot, Advanced, Grows;
    SelfAdvanced(l, n, peers, c.state, d);
    QueueOfState(l, c, d, c');
    RecordSame(l, n, peers, c.state, d);
    GrowsReflexive(l);
  }

  // ---- Application ---------------------------------------------------------

  /** The state after one more entry is applied. */
  predicate AppliedOne(s: State, s': State) {
    && s' == s.(applied := s.applied + 1, leader := s'.leader)
    && (s'.leader == s.leader
        || (s.leader.Some? && s'.leader.Some? && s'.leader.value.progress == s.leader.value.progress
            && s'.leader.value.clients <= s.leader.value.clients))
  }

  lemma AppliedValid(s: State, s': State)
    requires Valid(s) && AppliedOne(s, s') && s.applied < s.commit
    ensures Valid(s')
  {
  }

  lemma AppliedLinked(l: Ledger, n: NodeId, peers: seq<NodeId>, s: State, d: Durable, s': State)
    requires Linked(l, n, peers, s, d) && AppliedOne(s, s')
    ensures Linked(l, n, peers, s', d)
  {
    hide WellLog, Claimed, Covered, Doomed, DecidedTo, HasAcked;
    if s.log != d.log {
      var k: nat :| MergedTo(l, s, d, k);
      assert MergedTo(l, s', d, k);
    }
  }

  lemma AppliedSends(l: Ledger, s: State, s': State, effects: seq<Effect>)
    requires SendsOk(l, s, effects) && AppliedOne(s, s')
    ensures SendsOk(l, s', effects)
  {
    forall i | 0 <= i < |effects| && effects[i].Send? ensures SendOk(l, s', effects[i]) {
      assert SendOk(l, s, effects[i]);
    }
  }

  lemma AppliedQueue(l: Ledger, c: Core, d: Durable, c': Core)
    requires CoreQueue(l, c, d) && AppliedOne(c.state, c'.state) && c'.pendingLog == c.pendingLog
    ensures CoreQueue(l, c', d)
  {
    hide SendsOk, Ordered;
    if c.state.pending.Some? {
      var p := c.state.pending.value;
      AppliedSends(l, c.state, c'.state, [PersistHard(p.id, p.hard)] + p.deferred);
    } else if c.pendingLog.Some? {
      AppliedSends(l, c.state, c'.state, c.pendingLog.value.deferred);
    }
  }

  lemma {:induction false} AnswersKind(waiting: seq<PendingRead>, applied: LogIndex)
    ensures forall e :: e in Answers(waiting, applied) ==> e.ReadAnswered?
  {
    if waiting != [] {
      AnswersKind(waiting[1..], applied);
    }
  }

  lemma NothingSentIn(effects: seq<Effect>)
    requires forall e :: e in effects ==> !e.Send?
    ensures NothingSent(effects)
  {
    forall i | 0 <= i < |effects| ensures !effects[i].Send? {
      assert effects[i] in effects;
    }
  }

  /** What Core does when an application completes. */
  lemma FinishShape(c: Core, index: LogIndex)
    requires FinishApplication(c, index).Stepped? && index == c.state.applied + 1 && c.state.snapshot.None?
    ensures var r := FinishApplication(c, index);
      && AppliedOne(c.state, r.core.state) && r.core.pendingLog == c.pendingLog
      && NothingSent(r.effects) && AppliesSlot(r.core, r.effects)
      && ScheduledFrom(c.(state := r.core.state, application := None), r.core)
  {
    hide CompleteReads, Schedule, Answers, ScheduledFrom;
    var s := c.state.(applied := index);
    var owned := s.leader.Some? && index in s.leader.value.clients;
    var s1 := if owned
              then s.(leader := Some(s.leader.value.(clients := s.leader.value.clients - {index})))
              else s;
    var c1 := c.(state := s1, application := None);
    var effects := (if owned then [CompleteClient(index)] else []) + Answers(c1.waiting, index);
    AnswersKind(c1.waiting, index);
    CompletedReadsShape(c1);
    ScheduleFacts(CompleteReads(c1), effects);
    var r := FinishApplication(c, index);
    assert r == Schedule(CompleteReads(c1), effects);
    assert forall e :: e in effects ==> e.CompleteClient? || e.ReadAnswered?;
    SlotAfterSchedule(CompleteReads(c1), effects);
    NothingSentIn(r.effects);
    ScheduledSame(CompleteReads(c1), c1, r.core);
  }

  lemma ScheduledSame(a: Core, b: Core, c: Core)
    requires ScheduledFrom(a, c) && a.application == b.application && a.state == b.state
    ensures ScheduledFrom(b, c)
  {
  }

  lemma CompletedReadsShape(c: Core)
    ensures CompleteReads(c) == c.(waiting := CompleteReads(c).waiting)
  {
  }

  lemma SlotAfterSchedule(c: Core, effects: seq<Effect>)
    requires Schedule(c, effects).Stepped? && c.state.snapshot.None?
    requires forall e :: e in effects ==> !e.ApplyEntry?
    ensures AppliesSlot(Schedule(c, effects).core, Schedule(c, effects).effects)
  {
  }

  lemma AppliedAdvances(s: State, s': State)
    requires AppliedOne(s, s') && s.applied < s.commit <= |s.log|
    ensures Advanced(s, s')
  {
  }

  lemma RescheduledApplication(c: Core, d: Durable, c': Core)
    requires ScheduledFrom(c, c') && c.application.None? && d.applied == c.state.applied
    requires c'.state == c.state && Valid(c.state) && c.state.snapshot.None?
    ensures ApplicationOk(c', d)
  {
    hide LogValid, LeaderValid, RolesValid;
  }

  lemma AppliedPrepares(l: Ledger, n: NodeId, peers: seq<NodeId>, c: Core, d: Durable, id: nat, index: LogIndex)
    requires Inv(l) && DiskOk(l, n, d) && CoreOk(l, n, peers, c, d) && d.applied == index
    requires MatchesApplication(c, id, index) && FinishApplication(c, index).Stepped?
    ensures var r := FinishApplication(c, index); Prepared(l, n, peers, c, d, r.core, r.effects)
  {
    ApplicationIndex(l, n, peers, c, d);
    SelfAdvanced(l, n, peers, c.state, d);
    LinkedShape(l, n, peers, c.state, d);
    hide Inv, DiskOk, Valid, Linked, CoreQueue, ApplicationOk, SelfAcked, AppliesSlot, Advanced, Grows,
        FinishApplication;
    hide ScheduledFrom, AppliedOne;
    FinishShape(c, index);
    AppliedStepPrepares(l, n, peers, c, d, FinishApplication(c, index).core, FinishApplication(c, index).effects);
  }

  lemma AppliedStepPrepares(l: Ledger, n: NodeId, peers: seq<NodeId>, c: Core, d: Durable, c': Core,
                            effects: seq<Effect>)
    requires Inv(l) && DiskOk(l, n, d) && StateOk(l, n, peers, c.state, d) && CoreQueue(l, c, d)
    requires AppliedOne(c.state, c'.state) && c'.pendingLog == c.pendingLog && c.state.applied < c.state.commit
    requires NothingSent(effects) && AppliesSlot(c', effects) && d.applied == c.state.applied + 1
    requires c.state.snapshot.None? && c.state.commit <= |c.state.log|
    requires ScheduledFrom(c.(state := c'.state, application := None), c')
    ensures Prepared(l, n, peers, c, d, c', effects)
  {
    hide Inv, DiskOk, Valid, Linked, CoreQueue, ApplicationOk, AppliesSlot, Advanced, Grows, ScheduledFrom, AppliedOne;
    AppliedValid(c.state, c'.state);
    AppliedLinked(l, n, peers, c.state, d, c'.state);
    AppliedQueue(l, c, d, c');
    AppliedAdvances(c.state, c'.state);
    AppliedIndex(c.state, c'.state);
    RescheduledApplication(c.(state := c'.state, application := None), d, c');
    RecordSame(l, n, peers, c'.state, d);
    GrowsReflexive(l);
  }

  lemma AppliedIndex(s: State, s': State)
    requires AppliedOne(s, s')
    ensures s'.applied == s.applied + 1 && s'.snapshot == s.snapshot
  {
  }

  /** The entry in the slot is the next one to apply. */
  lemma ApplicationIndex(l: Ledger, n: NodeId, peers: seq<NodeId>, c: Core, d: Durable)
    requires CoreOk(l, n, peers, c, d) && c.application.Some?
    ensures c.application.value.entry.index == c.state.applied + 1 && c.state.applied < c.state.commit
  {
    ValidLog(l, c.state);
  }

  // ---- A completed log write -----------------------------------------------

  lemma LogDonePrepares(l: Ledger, n: NodeId, peers: seq<NodeId>, c: Core, d: Durable)
    requires Inv(l) && DiskOk(l, n, d) && CoreOk(l, n, peers, c, d)
    requires c.pendingLog.Some? && d.log == c.pendingLog.value.log
    requires Schedule(c.(pendingLog := None), c.pendingLog.value.deferred).Stepped?
    ensures var r := Schedule(c.(pendingLog := None), c.pendingLog.value.deferred);
            Prepared(l, n, peers, c, d, r.core, r.effects) && NoAnswer(r.effects)
  {
    var deferred := c.pendingLog.value.deferred;
    LogDoneQueue(l, n, peers, c, d);
    LinkedShape(l, n, peers, c.state, d);
    SelfAdvanced(l, n, peers, c.state, d);
    RecordSame(l, n, peers, c.state, d);
    GrowsReflexive(l);
    var r := Schedule(c.(pendingLog := None), deferred);
    hide Inv, DiskOk, Valid, Linked, CoreQueue, SelfAcked, Advanced, Grows, Schedule, SendOk, ScheduledFrom,
        ApplicationOk;
    ScheduleFacts(c.(pendingLog := None), deferred);
    SlotAfterSchedule(c.(pendingLog := None), deferred) by { NoApplyIn(deferred); }
    ReleasedDeferred(l, c.state, r.core, deferred, r.effects);
    LogDoneApplication(c, d, r.core);
    QueueOfState(l, c.(pendingLog := None), d, r.core);
  }

  lemma NoApplyIn(effects: seq<Effect>)
    requires NoApply(effects)
    ensures forall e :: e in effects ==> !CoreOnly(e)
  {
  }

  lemma LogDoneQueue(l: Ledger, n: NodeId, peers: seq<NodeId>, c: Core, d: Durable)
    requires CoreOk(l, n, peers, c, d) && c.pendingLog.Some? && d.log == c.pendingLog.value.log
    ensures CoreQueue(l, c.(pendingLog := None), d) && c.state.pending.None?
    ensures SendsOk(l, c.state, c.pendingLog.value.deferred) && NoApply(c.pendingLog.value.deferred)
  {
    hide StateOk, SelfAcked, ApplicationOk, QueueOk, SendsOk, NoApply;
  }

  lemma ReleasedDeferred(l: Ledger, s: State, c: Core, deferred: seq<Effect>, effects: seq<Effect>)
    requires SendsOk(l, s, deferred) && c.state == s && Quiescent(c)
    requires forall e :: e in effects ==> e in deferred || e.ApplyEntry?
    ensures ReleasedOk(l, c.state, c, effects)
  {
    hide SendOk;
    forall i | 0 <= i < |effects| && effects[i].Send? ensures SendOk(l, c.state, effects[i]) {
      assert effects[i] in effects;
      var j :| 0 <= j < |deferred| && deferred[j] == effects[i];
    }
  }

  lemma LogDoneApplication(c: Core, d: Durable, c': Core)
    requires ApplicationOk(c, d) && ScheduledFrom(c.(pendingLog := None), c') && c'.state == c.state
    requires Valid(c.state) && c.state.snapshot.None?
    ensures ApplicationOk(c', d)
  {
    hide LogValid, LeaderValid, RolesValid;
  }

  // ---- Reads ---------------------------------------------------------------

  lemma ReadsPrepare(l: Ledger, n: NodeId, peers: seq<NodeId>, c: Core, d: Durable,
                     c1: Core, effects: seq<Effect>, c': Core, more: seq<Effect>)
    requires Prepared(l, n, peers, c, d, c1, effects) && c' == c1.(waiting := c'.waiting)
    requires forall e :: e in more ==> e.ReadAnswered?
    ensures Prepared(l, n, peers, c, d, c', effects + more)
  {
    hide Inv, DiskOk, StateOk, CoreQueue, Advanced, Grows, SendOk;
    QueueOfState(RecordLeader(l, n, c1.state), c1, d, c');
    var all := effects + more;
    forall i | |effects| <= i < |all| ensures all[i].ReadAnswered? {
      assert all[i] == more[i - |effects|] && all[i] in more;
    }
    forall i | 0 <= i < |all| && all[i].Send?
      ensures Quiescent(c') && SendOk(RecordLeader(l, n, c1.state), c'.state, all[i])
    {
      assert all[i] == effects[i];
    }
  }

  lemma AcknowledgedReadShape(c: Core, effects: seq<Effect>, from: NodeId, m: Message) returns (more: seq<Effect>)
    requires m.AppendResponse?
    ensures var r := AcknowledgeRead(c, effects, from, m);
      && r.Stepped? && r.core == c.(waiting := r.core.waiting) && r.effects == effects + more
      && forall e :: e in more ==> e.ReadAnswered?
  {
    if AcknowledgeRead(c, effects, from, m).core.waiting == c.waiting
        && AcknowledgeRead(c, effects, from, m).effects == effects {
      more := [];
      assert effects + [] == effects;
    } else {
      var c1 := c.(waiting := Acknowledged(c.waiting, m.context.value, from, Majority(c.state)));
      more := Answers(c1.waiting, c1.state.applied);
      AnswersKind(c1.waiting, c1.state.applied);
    }
  }

  lemma DeliverPrepares(l: Ledger, n: NodeId, peers: seq<NodeId>, c: Core, d: Durable, from: NodeId, m: Message)
    requires Inv(l) && DiskOk(l, n, d) && CoreOk(l, n, peers, c, d) && MembersAre(l.members, n, peers)
    requires c.pendingLog.None? && PacketOk(l, Packet(from, n, m)) && DeliverMessage(c, from, m).Stepped?
    ensures var r := DeliverMessage(c, from, m); Prepared(l, n, peers, c, d, r.core, r.effects)
  {
    hide Inv, DiskOk, CoreOk, MembersAre, PacketOk, StepSpec, Prepared, AcknowledgeRead, AppendRequestValid;
    SpecStepPrepares(l, n, peers, c, d, Receive(from, m));
    if m.AppendResponse? {
      var r := StepSpec(c, Receive(from, m));
      var more := AcknowledgedReadShape(r.core, r.effects, from, m);
      ReadsPrepare(l, n, peers, c, d, r.core, r.effects, AcknowledgeRead(r.core, r.effects, from, m).core, more);
    }
  }

  lemma MarkedSendOk(l: Ledger, s: State, e: Effect, context: ReadContext)
    requires e.Send? && SendOk(l, s, e)
    ensures MarkRead(e, context).Send? && SendOk(l, s, MarkRead(e, context))
  {
  }

  lemma MarkedPrepares(l: Ledger, n: NodeId, peers: seq<NodeId>, c: Core, d: Durable,
                       c': Core, effects: seq<Effect>, context: ReadContext)
    requires Prepared(l, n, peers, c, d, c', effects)
    ensures Prepared(l, n, peers, c, d, c', WithContext(effects, context))
  {
    hide Inv, DiskOk, StateOk, CoreQueue, Advanced, Grows, SendOk, MarkRead, ApplicationOk;
    var out := WithContext(effects, context);
    var l1 := RecordLeader(l, n, c'.state);
    forall i | 0 <= i < |out| && out[i].Send? ensures Quiescent(c') && SendOk(l1, c'.state, out[i]) {
      MarkKind(effects[i], context);
      MarkedSendOk(l1, c'.state, effects[i], context);
    }
    forall e | e in out && e.ApplyEntry?
      ensures c'.application.Some? && e.entry == c'.application.value.entry
    {
      var i :| 0 <= i < |out| && out[i] == e;
      MarkKind(effects[i], context);
      assert effects[i] in effects;
    }
  }

  lemma MarkKind(e: Effect, context: ReadContext)
    ensures MarkRead(e, context).Send? == e.Send?
    ensures !e.Send? ==> MarkRead(e, context) == e
  {
  }

  /** The tests a read has to pass at the leader. */
  predicate AcceptsRead(c: Core, request: RequestId) {
    && request != RequestId(0, 0) && c.state.role.Leader? && request !in c.used
    && c.state.commit != 0 && CommitTerm(c.state) == c.state.term
    && |c.waiting| < c.maxReads && |c.used| < c.maxHistory && 0 < c.nextContext < U64_MAX
  }

  lemma BeginReadPrepares(l: Ledger, n: NodeId, peers: seq<NodeId>, c: Core, d: Durable, request: RequestId)
    requires Inv(l) && DiskOk(l, n, d) && CoreOk(l, n, peers, c, d) && MembersAre(l.members, n, peers)
    requires c.pendingLog.None? && BeginRead(c, request).Stepped?
    ensures var r := BeginRead(c, request); Prepared(l, n, peers, c, d, r.core, r.effects)
  {
    hide Inv, DiskOk, MembersAre, StepSpec, Prepared, StateOk, CoreQueue, SelfAcked, ApplicationOk, CommitTerm;
    var read := PendingRead(c.nextContext, request, c.state.commit, {c.state.node}, false);
    var c1 := c.(used := c.used + {request}, nextContext := c.nextContext + 1, waiting := c.waiting + [read]);
    var r := BeginRead(c, request);
    if !AcceptsRead(c, request) {
      RejectedPrepares(l, n, peers, c, d, r.effects);
    } else {
      SameCore(l, n, peers, c, d, c1);
      SpecStepPrepares(l, n, peers, c1, d, HeartbeatTimeout);
      var h := StepSpec(c1, HeartbeatTimeout);
      MarkedPrepares(l, n, peers, c1, d, h.core, h.effects, c.nextContext);
      PreparedFrom(l, n, peers, c1, c, d, h.core, r.effects);
    }
  }

  lemma PreparedFrom(l: Ledger, n: NodeId, peers: seq<NodeId>, a: Core, b: Core, d: Durable, c': Core,
                     effects: seq<Effect>)
    requires Prepared(l, n, peers, a, d, c', effects) && a.state == b.state
    ensures Prepared(l, n, peers, b, d, c', effects)
  {
  }

  lemma SameCore(l: Ledger, n: NodeId, peers: seq<NodeId>, c: Core, d: Durable, c': Core)
    requires CoreOk(l, n, peers, c, d)
    requires c'.state == c.state && c'.pendingLog == c.pendingLog && c'.application == c.application
    ensures CoreOk(l, n, peers, c', d)
  {
    hide StateOk, CoreQueue;
    QueueOfState(l, c, d, c');
  }

  lemma RejectedPrepares(l: Ledger, n: NodeId, peers: seq<NodeId>, c: Core, d: Durable, effects: seq<Effect>)
    requires Inv(l) && DiskOk(l, n, d) && CoreOk(l, n, peers, c, d)
    requires |effects| <= 1 && (|effects| == 1 ==> effects[0].ReadRejected?)
    ensures Prepared(l, n, peers, c, d, c, effects)
  {
    hide Inv, DiskOk, StateOk, CoreQueue, Prepared;
    QuietPrepares(l, n, peers, c, d, c, effects);
  }

  // ---- Any input -----------------------------------------------------------

  /** A completion is handed over only when its record is on disk, a message only if sent. */
  predicate InputOk(l: Ledger, n: NodeId, d: Durable, input: Input) {
    match input
    case Deliver(from, m) => PacketOk(l, Packet(from, n, m))
    case HardDone(_, hard) => d.hard == hard
    case LogDone(_, log) => d.log == log
    case Applied(_, index) => d.applied == index
    case _ => true
  }

  lemma ApplicationInputPrepares(l: Ledger, n: NodeId, peers: seq<NodeId>, c: Core, d: Durable, input: Input)
    requires Inv(l) && DiskOk(l, n, d) && CoreOk(l, n, peers, c, d) && InputOk(l, n, d, input)
    requires input.Applied? || input.ApplyFailed? || input.RetryApply?
    requires CoreStep(c, input).Stepped?
    ensures var r := CoreStep(c, input); Prepared(l, n, peers, c, d, r.core, r.effects)
  {
    hide Inv, DiskOk, StateOk, CoreQueue, Prepared, FinishApplication, SelfAcked;
    var r := CoreStep(c, input);
    match input {
      case Applied(id, index) => AppliedPrepares(l, n, peers, c, d, id, index);
      case ApplyFailed(id, index) => QuietPrepares(l, n, peers, c, d, r.core, r.effects);
      case RetryApply => QuietPrepares(l, n, peers, c, d, r.core, r.effects);
    }
  }

  lemma EndReadPrepares(l: Ledger, n: NodeId, peers: seq<NodeId>, c: Core, d: Durable, request: RequestId,
                        reason: ReadFailure)
    requires Inv(l) && DiskOk(l, n, d) && CoreOk(l, n, peers, c, d)
    ensures var r := EndRead(c, request, reason); r.Stepped? && Prepared(l, n, peers, c, d, r.core, r.effects)
  {
    hide Inv, DiskOk, StateOk, CoreQueue, Prepared, WithoutRequest;
    var r := EndRead(c, request, reason);
    QuietPrepares(l, n, peers, c, d, r.core, r.effects);
  }

  lemma CoreStepPrepares(l: Ledger, n: NodeId, peers: seq<NodeId>, c: Core, d: Durable, input: Input)
    requires Inv(l) && DiskOk(l, n, d) && CoreOk(l, n, peers, c, d) && MembersAre(l.members, n, peers)
    requires InputOk(l, n, d, input) && CoreStep(c, input).Stepped?
    ensures var r := CoreStep(c, input); Prepared(l, n, peers, c, d, r.core, r.effects)
  {
    hide Inv, DiskOk, CoreOk, MembersAre, Prepared, PacketOk, FinishApplication, StepSpec, BeginRead, EndRead;
    hide DeliverMessage, Schedule, MatchesApplication;
    match input {
      case Applied(_, _) => ApplicationInputPrepares(l, n, peers, c, d, input);
      case ApplyFailed(_, _) => ApplicationInputPrepares(l, n, peers, c, d, input);
      case RetryApply => ApplicationInputPrepares(l, n, peers, c, d, input);
      case LogDone(_, _) => LogDonePrepares(l, n, peers, c, d);
      case HardDone(id, hard) => CompletionPrepares(l, n, peers, c, d, id, hard);
      case Read(request) => BeginReadPrepares(l, n, peers, c, d, request);
      case CancelRead(request) => EndReadPrepares(l, n, peers, c, d, request, Cancelled);
      case TimeoutRead(request) => EndReadPrepares(l, n, peers, c, d, request, TimedOut);
      case Timeout => SpecStepPrepares(l, n, peers, c, d, ElectionTimeout);
      case Heartbeat =>
        if c.state.role.Leader? { SpecStepPrepares(l, n, peers, c, d, HeartbeatTimeout); }
        else { RejectedPrepares(l, n, peers, c, d, []); }
      case Client(command) => SpecStepPrepares(l, n, peers, c, d, ClientCommand(command));
      case Deliver(from, m) => DeliverPrepares(l, n, peers, c, d, from, m);
    }
  }

  /** The main result for one node. */
  lemma CoreStepOk(l: Ledger, n: NodeId, peers: seq<NodeId>, c: Core, d: Durable, input: Input)
    requires Inv(l) && DiskOk(l, n, d) && CoreOk(l, n, peers, c, d) && MembersAre(l.members, n, peers)
    requires InputOk(l, n, d, input) && CoreStep(c, input).Stepped?
    ensures var r := CoreStep(c, input);
      StepOk(l, n, peers, c, d, r.core, r.effects, Noted(RecordLeader(l, n, r.core.state), n, r.core, r.effects))
  {
    hide *;
    CoreStepPrepares(l, n, peers, c, d, input);
    PreparedSteps(l, n, peers, c, d, CoreStep(c, input).core, CoreStep(c, input).effects);
  }
}
