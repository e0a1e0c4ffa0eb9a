/** What every step of one Core keeps, snapshot or not: a valid state, its committed entries, and
    an application slot that holds the next committed entry. Nothing here needs the rest of the
    cluster. */
module RaftCoreOrder {
  import opened RaftTypes
  import opened Figure2
  import opened Figure2Proofs
  import opened RaftCore

  predicate NoHandOut(effects: seq<Effect>) {
    forall i :: 0 <= i < |effects| ==> !effects[i].ApplyEntry?
  }

  /** What the specification asks for under Core: writes, sends and timers. It hands out no entry,
      completes no client and ends no read. */
  predicate Plain(effects: seq<Effect>) {
    forall i :: 0 <= i < |effects| ==>
      var e := effects[i]; e.PersistHard? || e.PersistState? || e.PersistLog? || e.Send? || e.ResetElectionTimer?
  }

  /** The entry being applied is the one after the last applied, and committed. */
  predicate Slot(c: Core) {
    c.application.Some? ==>
      && Base(c.state) <= c.state.applied < c.state.commit <= LastIndex(c.state)
      && c.application.value.entry == c.state.log[c.state.applied - Base(c.state)]
  }

  predicate Queued(c: Core) {
    && (c.state.pending.Some? ==> Plain(c.state.pending.value.deferred))
    && (c.pendingLog.Some? ==> Plain(c.pendingLog.value.deferred))
  }

  /** No entry, and no leader, has term 0. */
  predicate Real(s: State) {
    && (forall i :: 0 <= i < |s.log| ==> 0 < s.log[i].term)
    && (s.role.Leader? || s.role.Candidate? ==> 0 < s.term)
  }

  predicate CoreSound(c: Core) {
    Sound(c.state) && Slot(c) && Queued(c) && Real(c.state)
  }

  /** Every entry handed out is the one in the slot. */
  predicate HandsSlot(c: Core, effects: seq<Effect>) {
    forall i :: 0 <= i < |effects| && effects[i].ApplyEntry? ==>
      c.application.Some? && c.application.value.entry == effects[i].entry
  }

  /** The committed entries stay, and the commit index does not fall. */
  predicate Kept(s: State, s': State) {
    && s'.snapshot == s.snapshot && s.commit <= s'.commit && s'.commit <= LastIndex(s')
    && s.commit <= LastIndex(s) && Base(s) <= s.commit
    && s'.log[..s.commit - Base(s)] == s.log[..s.commit - Base(s)]
  }

  // ---- Handlers ------------------------------------------------------------

  /** What a handler leaves: the log changes only above the commit index. */
  predicate HandledInOrder(s: State, r: Outcome) {
    r.Done? ==>
      && r.state.snapshot == s.snapshot && r.state.applied == s.applied && Real(r.state) && Plain(r.effects)
      && Base(s) <= s.commit <= LastIndex(s) && s.commit <= LastIndex(r.state)
      && r.state.log[..s.commit - Base(s)] == s.log[..s.commit - Base(s)]
  }

  lemma ObserveInOrder(s: State, t: Term)
    requires Valid(s) && Real(s)
    ensures HandledInOrder(s, Observe(s, t))
    ensures Observe(s, t).Done? ==>
      Observe(s, t).state == s.(term := Observe(s, t).state.term, vote := Observe(s, t).state.vote,
        role := Observe(s, t).state.role, knownLeader := Observe(s, t).state.knownLeader,
        votes := Observe(s, t).state.votes, leader := Observe(s, t).state.leader,
        nextRequest := Observe(s, t).state.nextRequest)
  {
  }

  lemma ReplicatePlain(s: State)
    requires CanReplicate(s)
    ensures Plain(Replicate(s, s.peers))
  {
  }

  lemma InitializeInOrder(s: State)
    requires Real(s) && 0 < s.term && InitializeLeader(s).Done?
    ensures var r := InitializeLeader(s);
      && r.state == s.(role := r.state.role, votes := {}, knownLeader := r.state.knownLeader, leader := r.state.leader)
      && Real(r.state) && Plain(r.effects)
  {
    hide Replicate;
    ReplicatePlain(InitializeLeader(s).state);
  }

  lemma ElectionInOrder(s: State)
    requires Valid(s) && Real(s)
    ensures HandledInOrder(s, StartElection(s))
  {
    hide InitializeLeader, Solicit;
    if StartElection(s).Done? {
      var s1 := PersistHardState(s.(term := s.term + 1, vote := Some(s.node), role := Candidate,
                                    knownLeader := None, leader := None, votes := {s.node})).state;
      assert Plain(Solicit(s1, s1.peers));
      if Majority(s1) == 1 { InitializeInOrder(s1); }
    }
  }

  lemma VoteResponseInOrder(s: State, from: NodeId, m: Message)
    requires Valid(s) && Real(s) && m.VoteResponse?
    ensures HandledInOrder(s, HandleVoteResponse(s, from, m))
  {
    hide InitializeLeader, Observe;
    ObserveInOrder(s, m.term);
    if HandleVoteResponse(s, from, m).Done? {
      var s1 := Observe(s, m.term).state;
      var s2 := s1.(votes := s1.votes + {from});
      if s1.role.Candidate? && m.term == s1.term && m.granted && |s2.votes| >= Majority(s2) {
        InitializeInOrder(s2);
      }
    }
  }

  lemma VoteRequestInOrder(s: State, from: NodeId, m: Message)
    requires Valid(s) && Real(s) && m.VoteRequest?
    ensures HandledInOrder(s, HandleVoteRequest(s, from, m))
  {
    hide UpToDate;
    ObserveInOrder(s, m.term);
  }

  lemma AcceptInOrder(s: State, from: NodeId, m: Message, k: nat)
    requires m.AppendRequest? && PreviousMatches(s, m) && AppendRequestValid(m) && Real(s)
    requires k <= |m.entries| && (k < |m.entries| ==> s.commit <= m.previous + k <= LastIndex(s))
    requires Base(s) <= s.commit <= LastIndex(s) && !s.role.Leader? && !s.role.Candidate?
    ensures var r := AcceptAppend(s, from, m, k);
      HandledInOrder(s, Done(r.0, r.1))
  {
    hide TermAt;
    if k < |m.entries| {
      SplicedInOrder(s.log, m.entries, m.previous + k - Base(s), k, s.commit - Base(s));
    }
  }

  lemma MissingIsAbove(s: State, m: Message, k: nat)
    requires m.AppendRequest? && PreviousMatches(s, m) && k == FirstMissing(s, m.previous, m.entries, 0)
    requires !(k < |m.entries| && m.previous + 1 + k <= LastIndex(s) && m.previous + 1 + k <= s.commit)
    requires s.commit <= LastIndex(s)
    ensures k <= |m.entries| && (k < |m.entries| ==> s.commit <= m.previous + k <= LastIndex(s))
  {
    hide TermAt;
  }

  lemma SplicedInOrder(log: seq<LogEntry>, entries: seq<LogEntry>, keep: nat, k: nat, committed: nat)
    requires committed <= keep <= |log| && k <= |entries|
    requires forall i :: 0 <= i < |log| ==> 0 < log[i].term
    requires forall i :: 0 <= i < |entries| ==> 0 < entries[i].term
    ensures var out := log[..keep] + entries[k..];
      committed <= |out| && out[..committed] == log[..committed] && forall i :: 0 <= i < |out| ==> 0 < out[i].term
  {
  }

  lemma MatchInOrder(s: State, e1: seq<Effect>, from: NodeId, m: Message)
    requires m.AppendRequest? && AppendRequestValid(m) && Real(s) && Plain(e1)
    requires Base(s) <= s.commit <= LastIndex(s) && !s.role.Leader? && !s.role.Candidate?
    ensures HandledInOrder(s, MatchAppend(s, e1, from, m))
  {
    hide FirstMissing, AcceptAppend, AppendRequestValid, TermAt;
    if PreviousMatches(s, m) && Contiguous(m.previous, m.entries) {
      var k := FirstMissing(s, m.previous, m.entries, 0);
      if !(k < |m.entries| && m.previous + 1 + k <= LastIndex(s) && m.previous + 1 + k <= s.commit) {
        MissingIsAbove(s, m, k);
        AcceptInOrder(s, from, m, k);
      }
    }
  }

  lemma AppendRequestInOrder(s: State, from: NodeId, m: Message)
    requires Valid(s) && Real(s) && m.AppendRequest? && AppendRequestValid(m)
    ensures HandledInOrder(s, HandleAppendRequest(s, from, m))
  {
    hide MatchAppend, AppendRequestValid;
    ObserveInOrder(s, m.term);
    if HandleAppendRequest(s, from, m).Done? && m.term >= Observe(s, m.term).state.term {
      var o := Observe(s, m.term);
      var s2 := o.state.(role := Follower, leader := None, votes := {}, knownLeader := Some(from));
      MatchInOrder(s2, o.effects + [ResetElectionTimer], from, m);
    }
  }

  lemma AppendResponseInOrder(s: State, from: NodeId, m: Message)
    requires Valid(s) && Real(s) && m.AppendResponse?
    ensures HandledInOrder(s, HandleAppendResponse(s, from, m))
  {
    hide CommitFrom, AppendFor;
    ObserveInOrder(s, m.term);
  }

  lemma AdvanceShape(s: State)
    requires s.leader.Some? && Base(s) <= s.commit
    ensures AdvanceCommit(s) == s.(commit := AdvanceCommit(s).commit)
  {
    hide CommitFrom;
  }

  /** The leader's state with the command in its log. */
  function WithCommand(s: State, command: Command): State
    requires s.leader.Some?
  {
    var l, index := s.leader.value, LastIndex(s) + 1;
    s.(log := s.log + [LogEntry(s.term, index, command)], leader := Some(l.(clients := l.clients + {index})))
  }

  lemma ClientHandled(s: State, command: Command)
    requires Valid(s) && s.role.Leader? && LastIndex(s) < U64_MAX
    ensures s.leader.Some? && CanReplicate(WithCommand(s, command)) && Base(s) <= s.commit <= LastIndex(s)
    ensures var s1 := WithCommand(s, command);
      HandleClient(s, command) == Done(AdvanceCommit(s1), [PersistState] + Replicate(s1, s1.peers))
  {
    hide AdvanceCommit, Replicate;
  }

  lemma CommandInOrder(s: State, command: Command)
    requires s.leader.Some? && Real(s) && s.role.Leader? && Base(s) <= s.commit <= LastIndex(s)
    ensures var s1 := WithCommand(s, command);
      Real(s1) && s1.log[..s.commit - Base(s)] == s.log[..s.commit - Base(s)] && LastIndex(s1) == LastIndex(s) + 1
  {
  }

  lemma ClientInOrder(s: State, command: Command)
    requires Valid(s) && Real(s)
    ensures HandledInOrder(s, HandleClient(s, command))
  {
    if s.role.Leader? && LastIndex(s) < U64_MAX {
      hide Valid, HandleClient, AdvanceCommit, Replicate, CanReplicate, Real;
      ClientHandled(s, command);
      var s1 := WithCommand(s, command);
      CommandInOrder(s, command);
      AdvanceShape(s1);
      RealIgnoresCommit(s1, AdvanceCommit(s1));
      ReplicatePlain(s1);
    } else {
      hide Real, Replicate, AdvanceCommit;
    }
  }

  lemma RealIgnoresCommit(s: State, s': State)
    requires Real(s) && s' == s.(commit := s'.commit)
    ensures Real(s')
  {
  }

  lemma TimeoutInOrder(s: State)
    requires Valid(s) && Real(s)
    ensures HandledInOrder(s, HandleTimeout(s))
  {
    hide StartElection, Replicate;
    if s.role.Leader? { ReplicatePlain(s); }
    ElectionInOrder(s);
  }

  lemma HandleInOrder(s: State, event: Event)
    requires Valid(s) && Real(s) && (s.pending.Some? <==> event.HardPersisted?) && !event.ApplyCommitted?
    requires s.pending.Some? ==> Plain(s.pending.value.deferred)
    requires event.Receive? && event.msg.AppendRequest? ==> AppendRequestValid(event.msg)
    ensures HandledInOrder(s, Handle(s, event))
  {
    hide HandleTimeout, HandleVoteRequest, HandleVoteResponse, HandleAppendRequest, HandleAppendResponse, HandleClient;
    hide Observe, AppendRequestValid;
    assert HandledInOrder(s, Done(s, []));
    match event {
      case ElectionTimeout => TimeoutInOrder(s);
      case HeartbeatTimeout => TimeoutInOrder(s);
      case ObserveTerm(t) => ObserveInOrder(s, t);
      case ClientCommand(command) => ClientInOrder(s, command);
      case HardPersisted(_, _) =>
      case Receive(from, m) =>
        if m.AppendRequest? { AppendRequestInOrder(s, from, m); }
        else if m.AppendResponse? { AppendResponseInOrder(s, from, m); }
        else if m.VoteRequest? { VoteRequestInOrder(s, from, m); }
        else { VoteResponseInOrder(s, from, m); }
    }
  }

  // ---- Through the gates ---------------------------------------------------

  lemma {:induction false} TranslatedPlain(effects: seq<Effect>, log: seq<LogEntry>, id: nat)
    requires Plain(effects)
    ensures Plain(TranslateEffects(effects, log, id))
  {
    if effects != [] {
      var rest := effects[1..];
      TranslatedPlain(rest, log, id);
      TranslatedPlain(rest, log, id + 1);
    }
  }

  lemma {:induction false} RejectionsHandNothing(waiting: seq<PendingRead>, reason: ReadFailure)
    ensures NoHandOut(Rejections(waiting, reason))
    ensures forall i :: 0 <= i < |Rejections(waiting, reason)| ==> !Rejections(waiting, reason)[i].PersistLog?
  {
    if waiting != [] { RejectionsHandNothing(waiting[1..], reason); }
  }

  lemma {:induction false} AnswersHandNothing(waiting: seq<PendingRead>, applied: LogIndex)
    ensures NoHandOut(Answers(waiting, applied))
  {
    if waiting != [] { AnswersHandNothing(waiting[1..], applied); }
  }

  /** Scheduling fills an empty slot with the next committed entry. */
  lemma ScheduleInOrder(c: Core, effects: seq<Effect>)
    requires Schedule(c, effects).Stepped? && Slot(c) && NoHandOut(effects) && c.state.commit <= LastIndex(c.state)
    ensures var r := Schedule(c, effects);
      && r.core == c.(application := r.core.application, nextApplyId := r.core.nextApplyId)
      && Slot(r.core) && HandsSlot(r.core, r.effects)
      && (c.application.Some? ==> r.core.application == c.application)
  {
  }

  lemma TranslateInOrder(c: Core, s: State, effects: seq<Effect>)
    requires Plain(effects) && Slot(c.(state := s)) && s.commit <= LastIndex(s)
    requires c.pendingLog.Some? ==> Plain(c.pendingLog.value.deferred)
    requires Translate(c, s, effects, c.state.role).Stepped?
    ensures var r := Translate(c, s, effects, c.state.role);
      && r.core.state == s && Slot(r.core) && HandsSlot(r.core, r.effects)
      && (r.core.pendingLog.Some? ==> Plain(r.core.pendingLog.value.deferred))
  {
    hide TranslateEffects, LogWrites, Schedule, Slot, GateLog, RoleEffects;
    var front, rest := RoleEffects(c, s, c.state.role), TranslateEffects(effects, s.log, c.nextLogId);
    RoleEffectsHandNothing(c, s);
    TranslatedPlain(effects, s.log, c.nextLogId);
    var waiting := if s.role != c.state.role && c.state.role.Leader? then [] else c.waiting;
    var c1 := c.(state := s, waiting := waiting, nextLogId := c.nextLogId + LogWrites(effects));
    GateLogCuts(c1, front, rest);
    var gated := GateLog(c1, front + rest);
    SameSlot(c.(state := s), gated.core);
    if s.pending.None? && gated.core.pendingLog.None? {
      ScheduleInOrder(gated.core, gated.effects);
    }
  }

  lemma RoleEffectsHandNothing(c: Core, s: State)
    ensures var front := RoleEffects(c, s, c.state.role);
      NoHandOut(front) && forall i :: 0 <= i < |front| ==> !front[i].PersistLog?
  {
    RejectionsHandNothing(c.waiting, LeadershipLost);
  }

  /** What waits for a log write is the rest of what the specification asked for. */
  lemma GateLogCuts(c: Core, front: seq<Effect>, rest: seq<Effect>)
    requires GateLog(c, front + rest).Stepped? && forall i :: 0 <= i < |front| ==> !front[i].PersistLog?
    ensures var g := GateLog(c, front + rest);
      var j := |g.effects| - |front|;
      && 0 <= j <= |rest| && g.effects == front + rest[..j] && g.core == c.(pendingLog := g.core.pendingLog)
      && (if j == |rest| && g.core.pendingLog == c.pendingLog then true
          else g.core.pendingLog.Some? && g.core.pendingLog.value.deferred == rest[j..])
  {
    var all := front + rest;
    var k := FirstLogWrite(all);
    if k < |all| {
      assert forall i :: 0 <= i < |front| ==> all[i] == front[i];
      var j := k + 1 - |front|;
      assert all[..k + 1] == front + rest[..j] && all[k + 1..] == rest[j..];
    } else {
      assert rest[..|rest|] == rest;
    }
  }

  lemma SameSlot(a: Core, b: Core)
    requires Slot(a) && b.application == a.application && b.state == a.state
    ensures Slot(b)
  {
  }

  lemma GateInOrder(s: State, effects: seq<Effect>)
    requires Plain(effects) && s.pending.None? && Gate(s, effects).Done?
    ensures var g := Gate(s, effects);
      && Plain(g.effects) && g.state == s.(pending := g.state.pending)
      && (g.state.pending.Some? ==> Plain(g.state.pending.value.deferred))
  {
  }

  lemma SlotStays(c: Core, s: State)
    requires Slot(c) && Kept(c.state, s) && s.applied == c.state.applied
    ensures Slot(c.(state := s))
  {
    if c.application.Some? {
      var i := c.state.applied - Base(s);
      assert s.log[i] == s.log[..c.state.commit - Base(s)][i] == c.state.log[..c.state.commit - Base(s)][i];
    }
  }

  lemma RealIgnoresPending(s: State, s': State)
    requires Real(s) && s' == s.(pending := s'.pending)
    ensures Real(s')
  {
  }

  lemma SoundParts(s: State)
    requires Sound(s)
    ensures Valid(s) && Base(s) <= s.applied <= s.commit <= LastIndex(s)
  {
  }

  /** A step of the specification under Core. */
  lemma SpecStepInOrder(c: Core, event: Event)
    requires CoreSound(c) && StepSpec(c, event).Stepped? && !event.ApplyCommitted?
    requires event.Receive? && event.msg.AppendRequest? ==> AppendRequestValid(event.msg)
    ensures var r := StepSpec(c, event);
      && CoreSound(r.core) && Kept(c.state, r.core.state) && r.core.state.applied == c.state.applied
      && HandsSlot(r.core, r.effects)
  {
    hide Handle, Gate, Translate, Valid, IdsOk, Slot, Real, NoHandOut, Plain, AppendsBeyondTerm, HandsSlot,
        AppendRequestValid;
    var s := c.state;
    SoundParts(s);
    HandleInOrder(s, event);
    PostCheckFiresIff(s, event);
    HandleWell(s, event);
    HandleRises(s, event);
    var h := Handle(s, event);
    GateInOrder(h.state, h.effects);
    var g := Gate(h.state, h.effects);
    SoundParts(g.state);
    RealIgnoresPending(h.state, g.state);
    SlotStays(c, g.state);
    TranslateInOrder(c, g.state, g.effects);
  }

  // ---- Every input ---------------------------------------------------------

  /** What any step of Core does to the order of things. */
  predicate InOrder(c: Core, r: CoreOutcome)
    requires r.Stepped?
  {
    CoreSound(r.core) && Kept(c.state, r.core.state) && HandsSlot(r.core, r.effects)
  }

  lemma KeptSame(c: Core, s: State)
    requires CoreSound(c) && s.snapshot == c.state.snapshot && s.commit == c.state.commit && s.log == c.state.log
    ensures Kept(c.state, s)
  {
    SoundParts(c.state);
  }

  lemma FinishedState(c: Core, s: State)
    requires CoreSound(c) && c.application.Some?
    requires s == c.state.(applied := c.state.applied + 1, leader := s.leader)
    requires s.leader.Some? <==> c.state.leader.Some?
    requires s.leader.Some? ==>
      s.leader.value.progress == c.state.leader.value.progress && s.leader.value.clients <= c.state.leader.value.clients
    ensures Sound(s) && Real(s)
  {
  }

  lemma FinishInOrder(c: Core, id: nat, index: LogIndex)
    requires CoreSound(c) && MatchesApplication(c, id, index) && FinishApplication(c, index).Stepped?
    ensures var r := FinishApplication(c, index);
      InOrder(c, r) && index == c.state.applied + 1 == r.core.state.applied
  {
    assert index == c.state.applied + 1;
    var s := c.state.(applied := index);
    var owned := s.leader.Some? && index in s.leader.value.clients;
    var s1 := if owned
              then s.(leader := Some(s.leader.value.(clients := s.leader.value.clients - {index})))
              else s;
    FinishedState(c, s1);
    KeptSame(c, s1);
    AnswersHandNothing(c.waiting, index);
    var c1 := CompleteReads(c.(state := s1, application := None));
    var effects := (if owned then [CompleteClient(index)] else []) + Answers(c.waiting, index);
    assert NoHandOut(effects);
    hide Sound, Real, Answers, StillWaiting;
    SoundParts(s1);
    ScheduleInOrder(c1, effects);
  }

  lemma MarkedInOrder(c: Core, effects: seq<Effect>, context: ReadContext)
    requires HandsSlot(c, effects)
    ensures HandsSlot(c, WithContext(effects, context))
  {
    var out := WithContext(effects, context);
    forall i | 0 <= i < |out| && out[i].ApplyEntry?
      ensures c.application.Some? && c.application.value.entry == out[i].entry
    {
      assert out[i] == MarkRead(effects[i], context) && effects[i] == out[i];
    }
  }

  lemma SameCoreSound(c: Core, c': Core)
    requires CoreSound(c) && c'.state == c.state && c'.application == c.application && c'.pendingLog == c.pendingLog
    ensures CoreSound(c')
  {
  }

  lemma ReadInOrder(c: Core, request: RequestId)
    requires CoreSound(c) && c.pendingLog.None? && BeginRead(c, request).Stepped?
    ensures var r := BeginRead(c, request); InOrder(c, r) && r.core.state.applied == c.state.applied
  {
    hide StepSpec, CoreSound, Kept, HandsSlot, CommitTerm;
    var r := BeginRead(c, request);
    KeptSame(c, c.state);
    if request != RequestId(0, 0) && c.state.role.Leader? && request !in c.used && c.state.commit != 0
       && CommitTerm(c.state) == c.state.term && |c.waiting| < c.maxReads && |c.used| < c.maxHistory
       && 0 < c.nextContext < U64_MAX {
      var read := PendingRead(c.nextContext, request, c.state.commit, {c.state.node}, false);
      var c1 := c.(used := c.used + {request}, nextContext := c.nextContext + 1, waiting := c.waiting + [read]);
      SameCoreSound(c, c1);
      SpecStepInOrder(c1, HeartbeatTimeout);
      var r1 := StepSpec(c1, HeartbeatTimeout);
      MarkedInOrder(r1.core, r1.effects, c.nextContext);
    } else {
      NothingHanded(c, r.effects);
    }
  }

  lemma NothingHanded(c: Core, effects: seq<Effect>)
    ensures NoHandOut(effects) ==> HandsSlot(c, effects)
  {
  }

  lemma MoreInOrder(c: Core, effects: seq<Effect>, more: seq<Effect>)
    requires HandsSlot(c, effects) && NoHandOut(more)
    ensures HandsSlot(c, effects + more)
  {
  }

  lemma DeliverInOrder(c: Core, from: NodeId, m: Message)
    requires CoreSound(c) && c.pendingLog.None? && DeliverMessage(c, from, m).Stepped?
    ensures var r := DeliverMessage(c, from, m); InOrder(c, r) && r.core.state.applied == c.state.applied
  {
    hide StepSpec, CoreSound, Kept, HandsSlot, AppendRequestValid;
    SpecStepInOrder(c, Receive(from, m));
    var r1 := StepSpec(c, Receive(from, m));
    if m.AppendResponse? {
      var c1 := r1.core;
      var r := AcknowledgeRead(c1, r1.effects, from, m);
      SameCoreSound(c1, r.core);
      if r.effects != r1.effects {
        var waiting := Acknowledged(c1.waiting, m.context.value, from, Majority(c1.state));
        AnswersHandNothing(waiting, c1.state.applied);
        MoreInOrder(c1, r1.effects, Answers(waiting, c1.state.applied));
        SameSlotHands(c1, r.core, r.effects);
      } else {
        SameSlotHands(c1, r.core, r.effects);
      }
    }
  }

  lemma SameSlotHands(c: Core, c': Core, effects: seq<Effect>)
    requires HandsSlot(c, effects) && c'.application == c.application
    ensures HandsSlot(c', effects)
  {
  }

  lemma LogDoneInOrder(c: Core)
    requires CoreSound(c) && c.pendingLog.Some?
    requires Schedule(c.(pendingLog := None), c.pendingLog.value.deferred).Stepped?
    ensures InOrder(c, Schedule(c.(pendingLog := None), c.pendingLog.value.deferred))
  {
    hide Sound, Real;
    SoundParts(c.state);
    KeptSame(c, c.state);
    ScheduleInOrder(c.(pendingLog := None), c.pendingLog.value.deferred);
  }

  lemma ApplicationInOrder(c: Core, input: Input)
    requires CoreSound(c) && CoreStep(c, input).Stepped? && (input.ApplyFailed? || input.RetryApply?)
    ensures InOrder(c, CoreStep(c, input)) && CoreStep(c, input).core.state.applied == c.state.applied
  {
    hide Sound, Real;
    KeptSame(c, c.state);
  }

  /** Every accepted input keeps the order: the committed entries stay, the slot holds the next
      one, nothing else is handed out, and only the completion of the slot moves the applied
      index, by one. */
  lemma CoreStepInOrder(c: Core, input: Input)
    requires CoreSound(c) && CoreStep(c, input).Stepped?
    ensures var r := CoreStep(c, input);
      && InOrder(c, r)
      && r.core.state.applied == c.state.applied + (if input.Applied? then 1 else 0)
  {
    hide CoreSound, Kept, HandsSlot, StepSpec, BeginRead, DeliverMessage, FinishApplication, Schedule,
        MatchesApplication;
    KeptSame(c, c.state);
    match input {
      case Applied(id, index) => FinishInOrder(c, id, index);
      case ApplyFailed(_, _) => ApplicationInOrder(c, input);
      case RetryApply => ApplicationInOrder(c, input);
      case LogDone(_, _) => LogDoneInOrder(c); ScheduleKeepsState(c.(pendingLog := None), c.pendingLog.value.deferred);
      case HardDone(id, hard) => SpecStepInOrder(c, HardPersisted(id, hard));
      case Read(request) => ReadInOrder(c, request);
      case CancelRead(request) => EndReadInOrder(c, request, Cancelled);
      case TimeoutRead(request) => EndReadInOrder(c, request, TimedOut);
      case Timeout => SpecStepInOrder(c, ElectionTimeout);
      case Heartbeat =>
        if c.state.role.Leader? { SpecStepInOrder(c, HeartbeatTimeout); } else { NothingHanded(c, []); }
      case Client(command) => SpecStepInOrder(c, ClientCommand(command));
      case Deliver(from, m) => DeliverInOrder(c, from, m);
    }
  }

  lemma ScheduleKeepsState(c: Core, effects: seq<Effect>)
    requires Schedule(c, effects).Stepped?
    ensures Schedule(c, effects).core.state == c.state
  {
  }

  lemma EndReadInOrder(c: Core, request: RequestId, reason: ReadFailure)
    requires CoreSound(c)
    ensures var r := EndRead(c, request, reason);
      r.Stepped? && InOrder(c, r) && r.core.state.applied == c.state.applied
  {
    hide Sound, Real;
    KeptSame(c, c.state);
  }
}
