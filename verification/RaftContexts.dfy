/** Read contexts on the network: none is at or above the highest value its issuer's counter
    ever had, and every acknowledgement answers a request of its own term. So a context that the
    leader has not sent in its term yet cannot have been acknowledged. */
module RaftContexts {
  import opened RaftTypes
  import opened Figure2
  import opened RaftCore
  import opened RaftLedger
  import opened RaftCluster
  import opened RaftInvariant
  import opened RaftGating
  import opened RaftNodeSteps
  import opened RaftReadSteps
  import opened RaftSafety
  import opened RaftReads

  // ---- The invariant -------------------------------------------------------

  datatype Past = Past(history: History, sent: set<Packet>)

  function PastOf(c: Cluster): Past {
    Past(c.history, c.sent)
  }

  predicate Asks(p: Packet, leader: NodeId, t: Term, context: ReadContext) {
    p.from == leader && p.msg.AppendRequest? && p.msg.term == t && p.msg.context == Some(context)
  }

  /** The leader has sent the follower a request of this term with this context. */
  predicate Asked(sent: set<Packet>, leader: NodeId, follower: NodeId, t: Term, context: ReadContext) {
    exists p :: p in sent && p.to == follower && Asks(p, leader, t, context)
  }

  predicate IssuedBelow(h: Past, issuer: NodeId, context: Option<ReadContext>) {
    context.Some? ==> context.value < IssuedBy(h.history, issuer)
  }

  /** A request carries a context of its sender, a response one of its receiver; a success
      answers a request of its own term. */
  predicate ContextOk(h: Past, from: NodeId, to: NodeId, m: Message) {
    match m
    case AppendRequest(_, _, _, _, _, _, context) => IssuedBelow(h, from, context)
    case AppendResponse(t, succeeded, _, context) =>
      && IssuedBelow(h, to, context)
      && (succeeded && context.Some? ==> Asked(h.sent, to, from, t, context.value))
    case _ => true
  }

  predicate ContextsOk(h: Past, n: NodeId, effects: seq<Effect>) {
    forall e :: e in effects && e.Send? ==> ContextOk(h, n, e.to, e.msg)
  }

  predicate CoreContexts(h: Past, n: NodeId, c: Core) {
    && c.nextContext <= IssuedBy(h.history, n)
    && (c.state.pending.Some? ==> ContextsOk(h, n, c.state.pending.value.deferred))
    && (c.pendingLog.Some? ==> ContextsOk(h, n, c.pendingLog.value.deferred))
  }

  predicate ClusterContexts(c: Cluster) {
    && (forall p :: p in c.sent ==> ContextOk(PastOf(c), p.from, p.to, p.msg))
    && (forall n :: n in c.up ==> CoreContexts(PastOf(c), n, c.up[n]))
  }

  predicate PastGrows(h: Past, h': Past) {
    && h.sent <= h'.sent
    && (forall n :: n in h.history.issued ==>
          n in h'.history.issued && h.history.issued[n] <= h'.history.issued[n])
    && (forall n :: n in h'.history.issued ==> 1 <= h'.history.issued[n])
  }

  lemma IssuedByGrows(h: Past, h': Past, n: NodeId)
    requires PastGrows(h, h')
    ensures IssuedBy(h.history, n) <= IssuedBy(h'.history, n)
  {
  }

  lemma ContextGrows(h: Past, h': Past, from: NodeId, to: NodeId, m: Message)
    requires PastGrows(h, h') && ContextOk(h, from, to, m)
    ensures ContextOk(h', from, to, m)
  {
    IssuedByGrows(h, h', from);
    IssuedByGrows(h, h', to);
  }

  lemma EffectsGrow(h: Past, h': Past, n: NodeId, effects: seq<Effect>)
    requires PastGrows(h, h') && ContextsOk(h, n, effects)
    ensures ContextsOk(h', n, effects)
  {
    hide ContextOk, PastGrows;
    forall e | e in effects && e.Send? ensures ContextOk(h', n, e.to, e.msg) {
      ContextGrows(h, h', n, e.to, e.msg);
    }
  }

  lemma CoreContextsGrow(h: Past, h': Past, n: NodeId, c: Core)
    requires PastGrows(h, h') && CoreContexts(h, n, c)
    ensures CoreContexts(h', n, c)
  {
    hide ContextsOk, PastGrows;
    IssuedByGrows(h, h', n);
    if c.state.pending.Some? { EffectsGrow(h, h', n, c.state.pending.value.deferred); }
    if c.pendingLog.Some? { EffectsGrow(h, h', n, c.pendingLog.value.deferred); }
  }

  // ---- Handlers ------------------------------------------------------------

  predicate EventContexts(h: Past, s: State, event: Event) {
    match event
    case Receive(from, m) => ContextOk(h, from, s.node, m) && Packet(from, s.node, m) in h.sent
    case HardPersisted(_, _) => s.pending.Some? ==> ContextsOk(h, s.node, s.pending.value.deferred)
    case _ => true
  }

  lemma ObserveSends(s: State, t: Term)
    requires Observe(s, t).Done?
    ensures forall e :: e in Observe(s, t).effects ==> !e.Send?
    ensures Observe(s, t).state.node == s.node
  {
  }

  lemma ReplicateContexts(h: Past, s: State)
    requires CanReplicate(s)
    ensures ContextsOk(h, s.node, Replicate(s, s.peers))
  {
    var effects := Replicate(s, s.peers);
    forall e | e in effects && e.Send? ensures ContextOk(h, s.node, e.to, e.msg) {
      var i :| 0 <= i < |effects| && effects[i] == e;
    }
  }

  lemma SolicitContexts(h: Past, s: State)
    ensures ContextsOk(h, s.node, Solicit(s, s.peers))
  {
    var effects := Solicit(s, s.peers);
    forall e | e in effects && e.Send? ensures ContextOk(h, s.node, e.to, e.msg) {
      var i :| 0 <= i < |effects| && effects[i] == e;
    }
  }

  lemma ConcatContexts(h: Past, n: NodeId, a: seq<Effect>, b: seq<Effect>)
    requires ContextsOk(h, n, a) && ContextsOk(h, n, b)
    ensures ContextsOk(h, n, a + b)
  {
  }

  lemma ElectionContexts(h: Past, s: State)
    requires StartElection(s).Done?
    ensures ContextsOk(h, s.node, StartElection(s).effects)
  {
    hide ContextOk, Replicate, Solicit;
    var p := PersistHardState(s.(term := s.term + 1, vote := Some(s.node), role := Candidate,
                                 knownLeader := None, leader := None, votes := {s.node}));
    var s1 := p.state;
    SolicitContexts(h, s1);
    ConcatContexts(h, s.node, p.effects + [ResetElectionTimer], Solicit(s1, s1.peers));
    if Majority(s1) == 1 {
      var w := InitializeLeader(s1);
      ReplicateContexts(h, w.state);
      ConcatContexts(h, s.node, p.effects + [ResetElectionTimer] + Solicit(s1, s1.peers), w.effects);
    }
  }

  lemma VoteContexts(h: Past, s: State, from: NodeId, m: Message)
    requires m.VoteRequest? || m.VoteResponse?
    requires m.VoteRequest? ==> HandleVoteRequest(s, from, m).Done?
    requires m.VoteResponse? ==> HandleVoteResponse(s, from, m).Done?
    ensures m.VoteRequest? ==> ContextsOk(h, s.node, HandleVoteRequest(s, from, m).effects)
    ensures m.VoteResponse? ==> ContextsOk(h, s.node, HandleVoteResponse(s, from, m).effects)
  {
    hide Replicate, UpToDate;
    ObserveSends(s, m.term);
    if m.VoteResponse? {
      var s1 := Observe(s, m.term).state;
      var s2 := s1.(votes := s1.votes + {from});
      if s1.role.Candidate? && m.term == s1.term && m.granted && |s2.votes| >= Majority(s2) {
        ReplicateContexts(h, InitializeLeader(s2).state);
      }
    }
  }

  lemma AppendContexts(h: Past, s: State, from: NodeId, m: Message)
    requires m.AppendRequest? && HandleAppendRequest(s, from, m).Done? && ContextOk(h, from, s.node, m)
    requires Packet(from, s.node, m) in h.sent
    ensures ContextsOk(h, s.node, HandleAppendRequest(s, from, m).effects)
  {
    hide FirstMissing, TermAt;
    ObserveSends(s, m.term);
    if m.context.Some? && m.leader == from {
      assert Asks(Packet(from, s.node, m), from, m.term, m.context.value);
    }
  }

  lemma ReplyContexts(h: Past, s: State, from: NodeId, m: Message)
    requires Valid(s) && m.AppendResponse? && HandleAppendResponse(s, from, m).Done?
    requires ContextOk(h, from, s.node, m)
    ensures ContextsOk(h, s.node, HandleAppendResponse(s, from, m).effects)
  {
    hide CommitFrom, TermAt;
    ObserveSends(s, m.term);
  }

  lemma ClientContexts(h: Past, s: State, command: Command)
    requires Valid(s) && HandleClient(s, command).Done?
    ensures ContextsOk(h, s.node, HandleClient(s, command).effects)
  {
    hide CommitFrom, Replicate;
    if s.role.Leader? {
      var l := s.leader.value;
      var index := LastIndex(s) + 1;
      var s1 := s.(log := s.log + [LogEntry(s.term, index, command)],
                   leader := Some(l.(clients := l.clients + {index})));
      ReplicateContexts(h, s1);
      ConcatContexts(h, s.node, [PersistState], Replicate(s1, s1.peers));
    }
  }

  lemma TimeoutContexts(h: Past, s: State)
    requires Valid(s) && HandleTimeout(s).Done?
    ensures ContextsOk(h, s.node, HandleTimeout(s).effects)
  {
    hide StartElection, Replicate, ContextOk;
    if s.role.Leader? { ReplicateContexts(h, s); }
    if s.role.Follower? || s.role.Candidate? { ElectionContexts(h, s); }
  }

  lemma HandleContexts(h: Past, s: State, event: Event)
    requires Valid(s) && (s.pending.Some? <==> event.HardPersisted?)
    requires Handle(s, event).Done? && EventContexts(h, s, event)
    requires !event.ApplyCommitted? && !event.ObserveTerm?
    ensures ContextsOk(h, s.node, Handle(s, event).effects)
  {
    hide Valid, HandleTimeout, HandleVoteRequest, HandleVoteResponse, HandleAppendRequest, HandleAppendResponse;
    hide HandleClient, ContextOk, HandleApply;
    match event {
      case ElectionTimeout => if !s.role.Leader? { TimeoutContexts(h, s); }
      case HeartbeatTimeout => if s.role.Leader? { TimeoutContexts(h, s); }
      case ClientCommand(command) => ClientContexts(h, s, command);
      case HardPersisted(_, _) =>
      case Receive(from, m) =>
        if m.AppendRequest? { AppendContexts(h, s, from, m); }
        else if m.AppendResponse? { ReplyContexts(h, s, from, m); }
        else { VoteContexts(h, s, from, m); }
    }
  }

  // ---- Through the gates ---------------------------------------------------

  lemma SubContexts(h: Past, n: NodeId, effects: seq<Effect>, out: seq<Effect>)
    requires ContextsOk(h, n, effects) && forall e :: e in out && e.Send? ==> e in effects
    ensures ContextsOk(h, n, out)
  {
  }

  lemma TranslatedContexts(h: Past, n: NodeId, c: Core, s: State, effects: seq<Effect>)
    requires Translate(c, s, effects, c.state.role).Stepped? && ContextsOk(h, n, effects) && c.pendingLog.None?
    requires c.nextContext <= IssuedBy(h.history, n)
    requires s.pending.Some? ==> ContextsOk(h, n, s.pending.value.deferred)
    ensures var r := Translate(c, s, effects, c.state.role);
      CoreContexts(h, n, r.core) && ContextsOk(h, n, r.effects)
  {
    hide ContextOk, IssuedBy, TranslateEffects, RoleEffects, LogWrites, FirstLogWrite;
    TranslateKeepsKind(effects, s.log, c.nextLogId);
    RoleEffectsKind(c, s, c.state.role);
    var front, rest := RoleEffects(c, s, c.state.role), TranslateEffects(effects, s.log, c.nextLogId);
    var all: seq<Effect> := front + rest;
    assert forall e :: e in all && e.Send? ==> e in effects by {
      forall e | e in all && e.Send? ensures e in effects {
        assert forall i :: 0 <= i < |front| ==> front[i] in front && !front[i].Send?;
        assert e in rest;
      }
    }
    SubContexts(h, n, effects, all);
  }

  lemma GatedContexts(h: Past, n: NodeId, s: State, effects: seq<Effect>)
    requires Gate(s, effects).Done? && ContextsOk(h, n, effects)
    requires s.pending.Some? ==> ContextsOk(h, n, s.pending.value.deferred)
    ensures var g := Gate(s, effects);
      && ContextsOk(h, n, g.effects)
      && (g.state.pending.Some? ==> ContextsOk(h, n, g.state.pending.value.deferred))
  {
    hide ContextOk, FirstPersist;
  }

  lemma SpecStepContexts(h: Past, n: NodeId, c: Core, event: Event)
    requires CoreContexts(h, n, c) && c.state.node == n && EventContexts(h, c.state, event)
    requires c.pendingLog.None? && StepSpec(c, event).Stepped? && !event.ApplyCommitted? && !event.ObserveTerm?
    ensures var r := StepSpec(c, event); CoreContexts(h, n, r.core) && ContextsOk(h, n, r.effects)
  {
    hide Valid, Handle, Gate, Translate, ContextsOk, ContextOk;
    var s := c.state;
    HandleContexts(h, s, event);
    var o := Handle(s, event);
    HandlePending(s, event);
    GatedContexts(h, n, o.state, o.effects);
    var g := Gate(o.state, o.effects);
    TranslatedContexts(h, n, c, g.state, g.effects);
  }

  lemma HandlePending(s: State, event: Event)
    requires Valid(s) && (s.pending.Some? <==> event.HardPersisted?) && Handle(s, event).Done?
    ensures Handle(s, event).state.pending.None?
  {
    hide Valid, Replicate, AppendFor, CommitFrom, FirstMissing, UpToDate, Contiguous, TermAt, Solicit;
  }

  // ---- Core inputs ---------------------------------------------------------

  predicate InputContexts(h: Past, n: NodeId, input: Input) {
    input.Deliver? ==>
      ContextOk(h, input.from, n, input.msg) && Packet(input.from, n, input.msg) in h.sent
  }

  lemma MarkedContexts(h: Past, n: NodeId, effects: seq<Effect>, context: ReadContext)
    requires ContextsOk(h, n, effects) && context < IssuedBy(h.history, n)
    ensures ContextsOk(h, n, WithContext(effects, context))
  {
    var out := WithContext(effects, context);
    forall e | e in out && e.Send? ensures ContextOk(h, n, e.to, e.msg) {
      var i :| 0 <= i < |out| && out[i] == e;
      assert effects[i] in effects;
    }
  }

  lemma NoSendContexts(h: Past, n: NodeId, effects: seq<Effect>)
    requires forall e :: e in effects ==> !e.Send?
    ensures ContextsOk(h, n, effects)
  {
  }

  lemma DeliverContexts(h: Past, n: NodeId, c: Core, from: NodeId, m: Message)
    requires CoreContexts(h, n, c) && c.state.node == n && ContextOk(h, from, n, m) && c.pendingLog.None?
    requires Packet(from, n, m) in h.sent
    requires DeliverMessage(c, from, m).Stepped?
    ensures var r := DeliverMessage(c, from, m); CoreContexts(h, n, r.core) && ContextsOk(h, n, r.effects)
  {
    hide ContextOk, StepSpec, AcknowledgeRead, AppendRequestValid;
    var r := StepSpec(c, Receive(from, m));
    SpecStepContexts(h, n, c, Receive(from, m));
    if m.AppendResponse? {
      var more := AcknowledgedReadShape(r.core, r.effects, from, m);
      NoSendContexts(h, n, more);
      ConcatContexts(h, n, r.effects, more);
    }
  }

  lemma BeginContexts(h: Past, n: NodeId, c: Core, request: RequestId)
    requires CoreContexts(h, n, c) && c.state.node == n && c.pendingLog.None?
    requires BeginRead(c, request).Stepped? && BeginRead(c, request).core.nextContext <= IssuedBy(h.history, n)
    ensures var r := BeginRead(c, request); CoreContexts(h, n, r.core) && ContextsOk(h, n, r.effects)
  {
    hide ContextOk, StepSpec, CommitTerm;
    if AcceptsRead(c, request) {
      var read := PendingRead(c.nextContext, request, c.state.commit, {c.state.node}, false);
      var c1 := c.(used := c.used + {request}, nextContext := c.nextContext + 1, waiting := c.waiting + [read]);
      var r := StepSpec(c1, HeartbeatTimeout);
      assert c1.waiting != [] && c1.state.role.Leader?;
      SpecStepWaiting(c1, HeartbeatTimeout);
      SpecStepContexts(h, n, c1, HeartbeatTimeout);
      MarkedContexts(h, n, r.effects, c.nextContext);
    }
  }

  lemma CounterRises(c: Core, input: Input)
    requires CoreStep(c, input).Stepped?
    ensures c.nextContext <= CoreStep(c, input).core.nextContext
  {
    hide Figure2.Step, CommitTerm, AppendRequestValid, TranslateEffects, RoleEffects, LogWrites, FirstLogWrite;
    hide MatchesApplication, Answers, StillWaiting, Acknowledged, WithContext, WithoutRequest;
  }

  lemma CoreStepContexts(h: Past, n: NodeId, c: Core, input: Input)
    requires CoreContexts(h, n, c) && c.state.node == n && c.state.snapshot.None?
    requires InputContexts(h, n, input)
    requires CoreStep(c, input).Stepped? && CoreStep(c, input).core.nextContext <= IssuedBy(h.history, n)
    ensures var r := CoreStep(c, input); CoreContexts(h, n, r.core) && ContextsOk(h, n, r.effects)
  {
    hide ContextOk, StepSpec, BeginRead, DeliverMessage, FinishApplication, Schedule, MatchesApplication, IssuedBy;
    var r := CoreStep(c, input);
    match input {
      case Applied(_, index) => FinishContexts(h, n, c, index);
      case LogDone(_, _) => ScheduledContexts(h, n, c.(pendingLog := None), c.pendingLog.value.deferred);
      case HardDone(id, hard) => SpecStepContexts(h, n, c, HardPersisted(id, hard));
      case Read(request) => BeginContexts(h, n, c, request);
      case Timeout => SpecStepContexts(h, n, c, ElectionTimeout);
      case Heartbeat => if c.state.role.Leader? { SpecStepContexts(h, n, c, HeartbeatTimeout); }
      case Client(command) => SpecStepContexts(h, n, c, ClientCommand(command));
      case Deliver(from, m) => DeliverContexts(h, n, c, from, m);
      case _ =>
    }
  }

  lemma ScheduledContexts(h: Past, n: NodeId, c: Core, effects: seq<Effect>)
    requires Schedule(c, effects).Stepped? && CoreContexts(h, n, c) && ContextsOk(h, n, effects)
    ensures var r := Schedule(c, effects); CoreContexts(h, n, r.core) && ContextsOk(h, n, r.effects)
  {
    hide ContextOk, IssuedBy;
  }

  lemma FinishContexts(h: Past, n: NodeId, c: Core, index: LogIndex)
    requires CoreContexts(h, n, c) && FinishApplication(c, index).Stepped?
    ensures var r := FinishApplication(c, index); CoreContexts(h, n, r.core) && ContextsOk(h, n, r.effects)
  {
    AnswersKind(c.waiting, index);
    hide ContextOk, IssuedBy, Answers, StillWaiting;
  }

  // ---- The cluster ---------------------------------------------------------

  lemma RecordIssued(c: Cluster, n: NodeId, core': Core, effects: seq<Effect>)
    requires forall m :: m in c.history.issued ==> 1 <= c.history.issued[m]
    ensures PastGrows(PastOf(c), Past(Record(c, n, core', effects), c.sent + Released(n, effects)))
    ensures core'.nextContext <= IssuedBy(Record(c, n, core', effects), n)
  {
    hide RecordAcks, RecordLeader, RecordSelf;
  }

  ghost predicate ContextInv(c: Cluster) {
    ClusterContexts(c) && forall m :: m in c.history.issued ==> 1 <= c.history.issued[m]
  }

  lemma SameHistoryContexts(h: Past, h': Past, c: Cluster, c': Cluster)
    requires ClusterContexts(c) && h == PastOf(c) && h' == PastOf(c') && PastGrows(h, h') && c'.sent == c.sent
    requires forall n :: n in c'.up ==> n in c.up && c'.up[n] == c.up[n]
    ensures ClusterContexts(c')
  {
    hide ContextOk, CoreContexts, PastGrows;
    forall p | p in c'.sent ensures ContextOk(h', p.from, p.to, p.msg) {
      ContextGrows(h, h', p.from, p.to, p.msg);
    }
    forall n | n in c'.up ensures CoreContexts(h', n, c'.up[n]) {
      CoreContextsGrow(h, h', n, c.up[n]);
    }
  }

  lemma ReleasedContexts(h: Past, n: NodeId, effects: seq<Effect>, p: Packet)
    requires ContextsOk(h, n, effects) && p in Released(n, effects)
    ensures ContextOk(h, p.from, p.to, p.msg)
  {
  }

  lemma CoreActionContexts(c: Cluster, a: Action)
    requires ClusterInv(c) && ContextInv(c) && CoreOutcomeOf(c, a).Stepped?
    ensures Next(c, a).Some? && ContextInv(Next(c, a).value)
  {
    hide ClusterInv, Record, ContextOk, ContextsOk, CoreStep, CoreContexts, PastGrows, InputOf, Released, IssuedBy;
    var n, r := ActionNode(a), CoreOutcomeOf(c, a);
    CoreActionNext(c, a);
    var c' := Next(c, a).value;
    hide Next;
    var h, h' := PastOf(c), PastOf(c');
    NodeShape(c, n);
    RecordIssued(c, n, r.core, r.effects);
    DeliveredContext(c, a);
    CoreContextsGrow(h, h', n, c.up[n]);
    assert InputContexts(h', n, InputOf(c, a).value) by {
      if InputOf(c, a).value.Deliver? { ContextGrows(h, h', InputOf(c, a).value.from, n, InputOf(c, a).value.msg); }
    }
    CoreStepContexts(h', n, c.up[n], InputOf(c, a).value);
    forall p | p in c'.sent ensures ContextOk(h', p.from, p.to, p.msg) {
      if p in c.sent { ContextGrows(h, h', p.from, p.to, p.msg); }
      else { ReleasedContexts(h', n, r.effects, p); }
    }
    forall m | m in c'.up ensures CoreContexts(h', m, c'.up[m]) {
      if m != n { CoreContextsGrow(h, h', m, c.up[m]); }
    }
    IssuedPositive(h, h');
  }

  lemma IssuedPositive(h: Past, h': Past)
    requires PastGrows(h, h')
    ensures forall m :: m in h'.history.issued ==> 1 <= h'.history.issued[m]
  {
  }

  lemma DeliveredContext(c: Cluster, a: Action)
    requires ClusterContexts(c) && CoreOutcomeOf(c, a).Stepped?
    ensures InputOf(c, a).Some? && InputContexts(PastOf(c), ActionNode(a), InputOf(c, a).value)
  {
    hide ContextOk, CoreContexts, CoreStep;
  }

  lemma NodeShape(c: Cluster, n: NodeId)
    requires ClusterInv(c) && n in c.up
    ensures c.up[n].state.node == n && c.up[n].state.snapshot.None?
  {
    hide ClusterInv;
    CoreHasState(c, n);
    hide Valid, WellLog, LogRelated, CandidateOk, LeaderOk, CommitOk;
  }

  lemma NextContexts(c: Cluster, a: Action)
    requires ClusterInv(c) && ContextInv(c) && Next(c, a).Some?
    ensures ContextInv(Next(c, a).value)
  {
    hide ClusterInv, ContextOk, CoreOutcomeOf, RecordVote;
    if CoreOutcomeOf(c, a).Stepped? {
      CoreActionContexts(c, a);
    } else {
      var c' := Next(c, a).value;
      if a.Restart? {
        assert 1 <= IssuedBy(c.history, a.node);
      } else {
        SameHistoryContexts(PastOf(c), PastOf(c'), c, c');
      }
    }
  }

  lemma {:induction false} RunContexts(r: Run, i: nat)
    requires IsRun(r) && i < |r.states|
    ensures ContextInv(r.states[i])
  {
    hide Next, ContextInv, ClusterInv;
    if i == 0 {
      StartContexts(r.states[0]);
    } else {
      RunContexts(r, i - 1);
      RunInv(r, i - 1);
      RunNext(r, i - 1);
      NextContexts(r.states[i - 1], r.actions[i - 1]);
    }
  }

  lemma StartContexts(c: Cluster)
    requires Init(c)
    ensures ContextInv(c)
  {
    hide Configured;
  }

  // ---- New contexts --------------------------------------------------------

  /** The leader's own knowledge: in its current term it has sent no request with the context
      it is about to issue. */
  predicate FreshContext(c: Cluster, n: NodeId) {
    n in c.up && forall p :: p in c.sent ==> !Asks(p, n, c.up[n].state.term, c.up[n].nextContext)
  }

  /** The node's counter of read contexts never stood higher than now. */
  predicate NeverReissued(c: Cluster, n: NodeId) {
    n in c.up && IssuedBy(c.history, n) <= c.up[n].nextContext
  }

  /** An acknowledgement answers a request of its own term, so it cannot come first. */
  lemma FreshContextIsClean(r: Run, i: nat, n: NodeId)
    requires IsRun(r) && i < |r.states| && FreshContext(r.states[i], n)
    ensures NoPassedAck(r.states[i], n, r.states[i].up[n].nextContext)
  {
    hide IsRun, CoreContexts, NoPassedAck;
    RunContexts(r, i);
    NothingEarly(r.states[i], n, r.states[i].up[n].nextContext);
  }

  /** A context that was never issued before is on no packet. */
  lemma NewContextIsFresh(r: Run, i: nat, n: NodeId)
    requires IsRun(r) && i < |r.states| && NeverReissued(r.states[i], n)
    ensures FreshContext(r.states[i], n)
  {
    hide IsRun, CoreContexts;
    RunContexts(r, i);
  }

  /** Every read accepted while the context is fresh is linearizable. */
  lemma FreshContextReadIsLinearizable(r: Run, j: nat, q: RequestId, index: LogIndex) returns (i: nat)
    requires IsRun(r) && j < |r.actions| && j < |r.states|
    requires ReadAnswered(q, index) in EffectsOf(r.states[j], r.actions[j])
    ensures var n := ActionNode(r.actions[j]);
      && i <= j && AcceptedAt(r, i, n, q) && Alive(r, n, i, j + 1) && index <= StateAt(r, j + 1, n).applied
      && (FreshContext(r.states[i], n) ==> CommitsAtMost(r, i, index))
      && (NeverReissued(r.states[i], n) ==> FreshContext(r.states[i], n))
  {
    hide IsRun, EffectsOf, CommitsAtMost, NoPassedAck, NeverReissued, AcceptsRead, FreshContext, Confirmers;
    i := AnsweredReadIsLinearizable(r, j, q, index);
    var n := ActionNode(r.actions[j]);
    if FreshContext(r.states[i], n) { FreshContextIsClean(r, i, n); }
    if NeverReissued(r.states[i], n) { NewContextIsFresh(r, i, n); }
  }

  lemma UntouchedCounter(c: Cluster, a: Action, n: NodeId)
    requires Next(c, a).Some? && n !in c.up && a != Restart(n)
    ensures var c' := Next(c, a).value; n !in c'.up && IssuedBy(c'.history, n) == IssuedBy(c.history, n)
  {
    hide CoreOutcomeOf, RecordVote, CanRestart, Reborn, Released, RecordAcks, RecordLeader, RecordSelf;
  }

  lemma {:induction false} BeforeFirstLife(r: Run, k: nat, n: NodeId)
    requires IsRun(r) && k < |r.states| && forall x :: 0 <= x < k && x < |r.actions| ==> r.actions[x] != Restart(n)
    ensures n !in r.states[k].up && IssuedBy(r.states[k].history, n) == 1
  {
    hide Next, Configured;
    if k > 0 {
      BeforeFirstLife(r, k - 1, n);
      RunNext(r, k - 1);
      UntouchedCounter(r.states[k - 1], r.actions[k - 1], n);
    }
  }

  lemma CounterStep(c: Cluster, a: Action, c': Cluster, n: NodeId)
    requires NeverReissued(c, n) && Next(c, a) == Some(c') && n in c'.up && a != Restart(n)
    ensures NeverReissued(c', n)
  {
    hide CoreOutcomeOf, RecordVote, CanRestart, Reborn, Released, RecordAcks, RecordLeader, RecordSelf;
    if CoreOutcomeOf(c, a).Stepped? && ActionNode(a) == n {
      CounterOfCore(c, a);
    }
  }

  lemma CounterOfCore(c: Cluster, a: Action)
    requires CoreOutcomeOf(c, a).Stepped? && ActionNode(a) in c.up
    ensures c.up[ActionNode(a)].nextContext <= CoreOutcomeOf(c, a).core.nextContext
  {
    hide CoreStep;
    CounterRises(c.up[ActionNode(a)], InputOf(c, a).value);
  }

  /** A node in its first life has never reissued a context. */
  lemma {:induction false} FirstLifeIsNew(r: Run, k: nat, i: nat, n: NodeId)
    requires IsRun(r) && k < |r.actions| && r.actions[k] == Restart(n) && Alive(r, n, k + 1, i)
    requires forall x :: 0 <= x < k && x < |r.actions| ==> r.actions[x] != Restart(n)
    ensures NeverReissued(r.states[i], n)
    decreases i
  {
    hide IsRun, NeverReissued;
    if i == k + 1 {
      BeforeFirstLife(r, k, n);
      RunNext(r, k);
      assert NeverReissued(r.states[i], n) by { RebornCounter(r.states[k], r.states[i], n); }
    } else {
      FirstLifeIsNew(r, k, i - 1, n);
      RunNext(r, i - 1);
      CounterStep(r.states[i - 1], r.actions[i - 1], r.states[i], n);
    }
  }

  lemma RebornCounter(c: Cluster, c': Cluster, n: NodeId)
    requires Next(c, Restart(n)) == Some(c') && IssuedBy(c.history, n) == 1
    ensures NeverReissued(c', n)
  {
    hide CanRestart;
  }
}
