/** What one Core step does to the waiting reads. */
module RaftReadSteps {
  import opened RaftTypes
  import opened Figure2
  import opened RaftCore
  import opened RaftLedger
  import opened RaftLedgerSteps
  import opened RaftCluster
  import opened RaftInvariant
  import opened RaftGating
  import opened RaftHandlers
  import opened RaftNode
  import opened RaftNodeSteps

  // ---- Where a waiting read comes from -------------------------------------

  /** A success in the leader's term, carrying the read's context, from a peer. */
  predicate Counted(c: Core, input: Input, w: PendingRead, w': PendingRead) {
    && input.Deliver? && input.msg.AppendResponse? && input.msg.succeeded
    && input.msg.context == Some(w.context) && input.msg.term == c.state.term
    && input.from in c.state.peers
    && w' == AckRead(w, w.context, input.from, Majority(c.state))
  }

  predicate Opened(c: Core, input: Input, w: PendingRead) {
    && input.Read? && AcceptsRead(c, input.request)
    && w == PendingRead(c.nextContext, input.request, c.state.commit, {c.state.node}, false)
  }

  predicate ReadFrom(c: Core, input: Input, w': PendingRead) {
    Opened(c, input, w') || exists w :: w in c.waiting && (w' == w || Counted(c, input, w, w'))
  }

  /** An answer is given for a confirmed read whose index has been applied. */
  ghost predicate AnswerFrom(c: Core, input: Input, applied: LogIndex, e: Effect)
    requires e.ReadAnswered?
  {
    exists w :: ReadFrom(c, input, w) && w.request == e.request && w.index == e.readIndex && Ready(w, applied)
  }

  ghost predicate ReadsOk(c: Core, input: Input, c': Core, effects: seq<Effect>) {
    && (forall w :: w in c'.waiting ==> ReadFrom(c, input, w))
    && (c'.waiting != [] ==> c.state.role.Leader? && c'.state.role.Leader? && c'.state.term == c.state.term)
    && (forall e :: e in effects && e.ReadAnswered? ==>
          c.state.role.Leader? && AnswerFrom(c, input, c'.state.applied, e))
  }

  // ---- Lists of reads ------------------------------------------------------

  lemma {:induction false} StillWaitingFrom(waiting: seq<PendingRead>, applied: LogIndex)
    ensures forall w :: w in StillWaiting(waiting, applied) ==> w in waiting
  {
    if waiting != [] {
      StillWaitingFrom(waiting[1..], applied);
    }
  }

  lemma {:induction false} AnswersFrom(waiting: seq<PendingRead>, applied: LogIndex, e: Effect)
    requires e in Answers(waiting, applied)
    ensures e.ReadAnswered?
    ensures exists w :: w in waiting && w.request == e.request && w.index == e.readIndex && Ready(w, applied)
  {
    var w := waiting[0];
    if !(Ready(w, applied) && e == ReadAnswered(w.request, w.index)) {
      AnswersFrom(waiting[1..], applied, e);
      var w' :| w' in waiting[1..] && w'.request == e.request && w'.index == e.readIndex && Ready(w', applied);
      assert w' in waiting;
    }
  }

  lemma {:induction false} WithoutRequestFrom(waiting: seq<PendingRead>, request: RequestId)
    ensures forall w :: w in WithoutRequest(waiting, request) ==> w in waiting
  {
    if waiting != [] && waiting[0].request != request {
      WithoutRequestFrom(waiting[1..], request);
    }
  }

  // ---- Steps of the specification ------------------------------------------

  lemma LeaderKeepsTerm(s: State, event: Event)
    requires Valid(s) && (s.pending.Some? <==> event.HardPersisted?)
    requires Handle(s, event).Done? && s.role.Leader? && Handle(s, event).state.role.Leader?
    ensures Handle(s, event).state.term == s.term
  {
    hide Valid, Replicate, AppendFor, CommitFrom, FirstMissing, UpToDate, Contiguous;
  }

  lemma GateKeeps(s: State, effects: seq<Effect>)
    requires Gate(s, effects).Done?
    ensures Gate(s, effects).state == s.(pending := Gate(s, effects).state.pending)
  {
  }

  lemma TranslateWaiting(c: Core, s: State, effects: seq<Effect>)
    requires Translate(c, s, effects, c.state.role).Stepped?
    ensures var r := Translate(c, s, effects, c.state.role);
      && r.core.state == s
      && (r.core.waiting == c.waiting || (r.core.waiting == [] && !s.role.Leader?))
      && (c.state.role.Leader? && !s.role.Leader? ==> r.core.waiting == [])
      && r.core.nextContext == c.nextContext && r.core.used == c.used
  {
    hide TranslateEffects, RoleEffects, FirstLogWrite, LogWrites;
  }

  lemma SpecStepWaiting(c: Core, event: Event)
    requires StepSpec(c, event).Stepped? && (c.waiting != [] ==> c.state.role.Leader?)
    ensures var c' := StepSpec(c, event).core;
      && (c'.waiting == c.waiting || c'.waiting == [])
      && (c'.waiting != [] ==> c'.state.role.Leader?)
      && (c.state.role.Leader? && c'.state.role.Leader? ==> c'.state.term == c.state.term)
      && c'.nextContext == c.nextContext && c'.used == c.used
  {
    hide Valid, Handle, Gate, Translate;
    var s := c.state;
    var h := Handle(s, event);
    var g := Gate(h.state, h.effects);
    GateKeeps(h.state, h.effects);
    TranslateWaiting(c, g.state, g.effects);
    if s.role.Leader? && h.state.role.Leader? {
      LeaderKeepsTerm(s, event);
    }
  }

  lemma SpecStepReads(c: Core, event: Event, input: Input)
    requires StepSpec(c, event).Stepped? && (c.waiting != [] ==> c.state.role.Leader?)
    requires NoAnswer(StepSpec(c, event).effects)
    ensures ReadsOk(c, input, StepSpec(c, event).core, StepSpec(c, event).effects)
  {
    hide StepSpec, Counted, Opened, AnswerFrom;
    SpecStepWaiting(c, event);
    var c' := StepSpec(c, event).core;
    forall w | w in c'.waiting ensures ReadFrom(c, input, w) {
      assert w in c.waiting;
    }
  }

  // ---- Acknowledged reads --------------------------------------------------

  lemma PeerOnly(s: State, from: NodeId, m: Message)
    requires Figure2.Step(s, Receive(from, m)).Done? && m.AppendResponse?
    ensures from in s.peers
  {
    hide Gate, Observe, AppendFor, CommitFrom;
  }

  lemma AcknowledgedReads(c: Core, c1: Core, effects: seq<Effect>, from: NodeId, m: Message)
    requires m.AppendResponse? && from in c.state.peers && (c.waiting != [] ==> c.state.role.Leader?)
    requires c1.waiting == c.waiting || c1.waiting == []
    requires c1.waiting != [] ==> c1.state.role.Leader?
    requires c.state.role.Leader? && c1.state.role.Leader? ==> c1.state.term == c.state.term
    requires c1.state.peers == c.state.peers && NoAnswer(effects)
    ensures var r := AcknowledgeRead(c1, effects, from, m); ReadsOk(c, Deliver(from, m), r.core, r.effects)
  {
    var input := Deliver(from, m);
    var r := AcknowledgeRead(c1, effects, from, m);
    if r == Stepped(c1, effects) {
      forall w | w in c1.waiting ensures ReadFrom(c, input, w) {
        assert w in c.waiting;
      }
    } else {
      var marked := Acknowledged(c1.waiting, m.context.value, from, Majority(c1.state));
      MarkedReads(c, c1, marked, from, m);
      var applied := c1.state.applied;
      hide ReadFrom, Ready;
      StillWaitingFrom(marked, applied);
      forall e | e in r.effects && e.ReadAnswered? ensures AnswerFrom(c, input, applied, e) {
        assert e in Answers(marked, applied);
        AnswersFrom(marked, applied, e);
      }
    }
  }

  lemma MarkedReads(c: Core, c1: Core, marked: seq<PendingRead>, from: NodeId, m: Message)
    requires m.AppendResponse? && from in c.state.peers && c1.state.peers == c.state.peers
    requires m.succeeded && m.context.Some? && m.term == c.state.term && c1.waiting == c.waiting
    requires marked == Acknowledged(c1.waiting, m.context.value, from, Majority(c1.state))
    ensures forall w :: w in marked ==> ReadFrom(c, Deliver(from, m), w)
  {
    forall w | w in marked ensures ReadFrom(c, Deliver(from, m), w) {
      var i :| 0 <= i < |marked| && marked[i] == w;
      var was := c.waiting[i];
      assert was in c.waiting;
      if was.context == m.context.value {
        assert Counted(c, Deliver(from, m), was, w);
      } else {
        assert w == was;
      }
    }
  }

  lemma DeliverReads(c: Core, from: NodeId, m: Message)
    requires DeliverMessage(c, from, m).Stepped? && (c.waiting != [] ==> c.state.role.Leader?)
    requires StepSpec(c, Receive(from, m)).Stepped? ==> NoAnswer(StepSpec(c, Receive(from, m)).effects)
    requires StepSpec(c, Receive(from, m)).Stepped? ==>
               StepSpec(c, Receive(from, m)).core.state.peers == c.state.peers
    ensures var r := DeliverMessage(c, from, m); ReadsOk(c, Deliver(from, m), r.core, r.effects)
  {
    var r := StepSpec(c, Receive(from, m));
    if m.AppendResponse? {
      PeerOnly(c.state, from, m);
      hide StepSpec, AcknowledgeRead, ReadsOk, AppendRequestValid, NoAnswer;
      SpecStepWaiting(c, Receive(from, m));
      AcknowledgedReads(c, r.core, r.effects, from, m);
    } else {
      hide StepSpec, AcknowledgeRead, ReadsOk, AppendRequestValid, NoAnswer;
      SpecStepReads(c, Receive(from, m), Deliver(from, m));
    }
  }

  // ---- Other inputs --------------------------------------------------------

  lemma FinishReads(c: Core, id: nat, index: LogIndex)
    requires FinishApplication(c, index).Stepped? && (c.waiting != [] ==> c.state.role.Leader?)
    ensures var r := FinishApplication(c, index); ReadsOk(c, Applied(id, index), r.core, r.effects)
  {
    var input := Applied(id, index);
    var r := FinishApplication(c, index);
    StillWaitingFrom(c.waiting, index);
    hide Counted, Opened;
    forall e | e in r.effects && e.ReadAnswered?
      ensures c.state.role.Leader? && AnswerFrom(c, input, index, e)
    {
      assert e in Answers(c.waiting, index);
      AnswersFrom(c.waiting, index, e);
      var w :| w in c.waiting && w.request == e.request && w.index == e.readIndex && Ready(w, index);
      assert ReadFrom(c, input, w);
    }
  }

  lemma BeginReads(c: Core, request: RequestId)
    requires BeginRead(c, request).Stepped? && (c.waiting != [] ==> c.state.role.Leader?)
    requires AcceptsRead(c, request) ==> NoAnswer(BeginRead(c, request).effects)
    ensures var r := BeginRead(c, request); ReadsOk(c, Read(request), r.core, r.effects)
  {
    hide StepSpec, Counted, CommitTerm;
    var read := PendingRead(c.nextContext, request, c.state.commit, {c.state.node}, false);
    var c1 := c.(used := c.used + {request}, nextContext := c.nextContext + 1, waiting := c.waiting + [read]);
    var r := BeginRead(c, request);
    if AcceptsRead(c, request) {
      SpecStepWaiting(c1, HeartbeatTimeout);
      forall w | w in r.core.waiting ensures ReadFrom(c, Read(request), w) {
        assert w in c1.waiting;
        if w !in c.waiting {
          assert w == read && Opened(c, Read(request), w);
        }
      }
    } else {
      assert r.core == c;
    }
  }

  lemma EndReads(c: Core, request: RequestId, reason: ReadFailure, input: Input)
    requires c.waiting != [] ==> c.state.role.Leader?
    ensures var r := EndRead(c, request, reason); ReadsOk(c, input, r.core, r.effects)
  {
    hide Counted, Opened;
    WithoutRequestFrom(c.waiting, request);
  }

  lemma {:induction false} MarkedAnswersNothing(effects: seq<Effect>, context: ReadContext)
    requires NoAnswer(effects)
    ensures NoAnswer(WithContext(effects, context))
  {
    var out := WithContext(effects, context);
    forall e | e in out ensures !e.ReadAnswered? {
      var i :| 0 <= i < |out| && out[i] == e;
      assert effects[i] in effects;
      MarkKind(effects[i], context);
    }
  }

  lemma QuietReads(c: Core, input: Input, c': Core, effects: seq<Effect>)
    requires (c.waiting != [] ==> c.state.role.Leader?) && c'.waiting == c.waiting
    requires c'.state.role == c.state.role && c'.state.term == c.state.term && NoAnswer(effects)
    ensures ReadsOk(c, input, c', effects)
  {
    hide Counted, Opened, AnswerFrom;
  }

  // ---- Any input -----------------------------------------------------------

  lemma AcceptedAnswersNothing(l: Ledger, n: NodeId, peers: seq<NodeId>, c: Core, d: Durable, request: RequestId)
    requires Inv(l) && DiskOk(l, n, d) && CoreOk(l, n, peers, c, d) && MembersAre(l.members, n, peers)
    requires c.pendingLog.None? && BeginRead(c, request).Stepped? && AcceptsRead(c, request)
    ensures NoAnswer(BeginRead(c, request).effects)
  {
    hide Inv, DiskOk, CoreOk, MembersAre, StepSpec, CommitTerm, Prepared, NoAnswer;
    var read := PendingRead(c.nextContext, request, c.state.commit, {c.state.node}, false);
    var c1 := c.(used := c.used + {request}, nextContext := c.nextContext + 1, waiting := c.waiting + [read]);
    SameCore(l, n, peers, c, d, c1);
    assert EventOk(l, n, HeartbeatTimeout);
    SpecStepPrepares(l, n, peers, c1, d, HeartbeatTimeout);
    MarkedAnswersNothing(StepSpec(c1, HeartbeatTimeout).effects, c.nextContext);
  }

  lemma DeliveredReads(l: Ledger, n: NodeId, peers: seq<NodeId>, c: Core, d: Durable, from: NodeId, m: Message)
    requires Inv(l) && DiskOk(l, n, d) && CoreOk(l, n, peers, c, d) && MembersAre(l.members, n, peers)
    requires c.pendingLog.None? && PacketOk(l, Packet(from, n, m)) && DeliverMessage(c, from, m).Stepped?
    requires c.waiting != [] ==> c.state.role.Leader?
    ensures var r := DeliverMessage(c, from, m); ReadsOk(c, Deliver(from, m), r.core, r.effects)
  {
    hide Inv, DiskOk, CoreOk, MembersAre, StepSpec, Prepared, NoAnswer, PacketOk, ReadsOk, AcknowledgeRead,
        AppendRequestValid;
    SpecStepPrepares(l, n, peers, c, d, Receive(from, m));
    PreparedPeers(l, n, peers, c, d, StepSpec(c, Receive(from, m)));
    CorePeers(l, n, peers, c, d);
    DeliverReads(c, from, m);
  }

  lemma CorePeers(l: Ledger, n: NodeId, peers: seq<NodeId>, c: Core, d: Durable)
    requires CoreOk(l, n, peers, c, d)
    ensures c.state.peers == peers && c.state.node == n
  {
    hide Valid, WellLog, LogRelated, CandidateOk, LeaderOk, CommitOk, CoreQueue, ApplicationOk, SelfAcked;
  }

  lemma PreparedPeers(l: Ledger, n: NodeId, peers: seq<NodeId>, c: Core, d: Durable, r: CoreOutcome)
    requires r.Stepped? && Prepared(l, n, peers, c, d, r.core, r.effects)
    ensures r.core.state.peers == peers
  {
    hide Inv, DiskOk, CoreQueue, ReleasedOk, Valid, WellLog, LogRelated, CandidateOk, LeaderOk, CommitOk;
    hide Grows, ApplicationOk, AppliesSlot, Advanced;
  }

  /** Reads are opened by accepted requests, confirmed by counted acknowledgements, answered
      when confirmed and applied, and dropped when leadership is lost. */
  lemma CoreStepReads(l: Ledger, n: NodeId, peers: seq<NodeId>, c: Core, d: Durable, input: Input)
    requires Inv(l) && DiskOk(l, n, d) && CoreOk(l, n, peers, c, d) && MembersAre(l.members, n, peers)
    requires InputOk(l, n, d, input) && CoreStep(c, input).Stepped?
    requires c.waiting != [] ==> c.state.role.Leader?
    ensures var r := CoreStep(c, input); ReadsOk(c, input, r.core, r.effects)
  {
    hide Inv, DiskOk, CoreOk, MembersAre, PacketOk, FinishApplication, StepSpec, BeginRead, EndRead;
    hide DeliverMessage, Schedule, MatchesApplication, ReadsOk, Prepared;
    var r := CoreStep(c, input);
    match input {
      case Applied(id, index) => FinishReads(c, id, index);
      case ApplyFailed(_, _) => QuietReads(c, input, r.core, r.effects);
      case RetryApply => QuietReads(c, input, r.core, r.effects);
      case LogDone(_, _) =>
        LogDonePrepares(l, n, peers, c, d);
        ScheduledReads(c.(pendingLog := None), c.pendingLog.value.deferred);
        QuietReads(c, input, r.core, r.effects);
      case HardDone(id, hard) =>
        CompletionPrepares(l, n, peers, c, d, id, hard);
        SpecStepReads(c, HardPersisted(id, hard), input);
      case Read(request) =>
        if AcceptsRead(c, request) { AcceptedAnswersNothing(l, n, peers, c, d, request); }
        BeginReads(c, request);
      case CancelRead(request) => EndReads(c, request, Cancelled, input);
      case TimeoutRead(request) => EndReads(c, request, TimedOut, input);
      case Timeout => SpecReads(l, n, peers, c, d, ElectionTimeout, input);
      case Heartbeat =>
        if c.state.role.Leader? { SpecReads(l, n, peers, c, d, HeartbeatTimeout, input); }
        else { QuietReads(c, input, r.core, r.effects); }
      case Client(command) => SpecReads(l, n, peers, c, d, ClientCommand(command), input);
      case Deliver(from, m) => DeliveredReads(l, n, peers, c, d, from, m);
    }
  }

  lemma SpecReads(l: Ledger, n: NodeId, peers: seq<NodeId>, c: Core, d: Durable, event: Event, input: Input)
    requires Inv(l) && DiskOk(l, n, d) && CoreOk(l, n, peers, c, d) && MembersAre(l.members, n, peers)
    requires c.pendingLog.None? && EventOk(l, n, event) && StepSpec(c, event).Stepped?
    requires c.waiting != [] ==> c.state.role.Leader?
    ensures ReadsOk(c, input, StepSpec(c, event).core, StepSpec(c, event).effects)
  {
    hide *;
    SpecStepPrepares(l, n, peers, c, d, event);
    SpecStepReads(c, event, input);
  }

  lemma ScheduledReads(c: Core, effects: seq<Effect>)
    requires Schedule(c, effects).Stepped?
    ensures var c' := Schedule(c, effects).core; c'.state == c.state && c'.waiting == c.waiting
  {
  }
}
