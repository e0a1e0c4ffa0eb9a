/** What a client and the state machine get to see: an index is completed exactly when it is applied
    and this leader registered its client, the command that was applied there is the client's own, and
    nothing committed is left behind once the writes are done. */
module RaftDelivery {
  import opened RaftTypes
  import opened Figure2
  import opened Figure2Proofs
  import opened Figure2Meaning
  import opened RaftCore
  import opened RaftCoreOrder
  import opened RaftCoreMeaning
  import opened RaftCluster
  import opened RaftSafety
  import opened RaftReadEnds

  // ---- Notices of every step -----------------------------------------------

  predicate OnlyReads(effects: seq<Effect>) {
    forall i :: 0 <= i < |effects| ==> effects[i].ReadAnswered? || effects[i].ReadRejected?
  }

  function Completion(c: Core, input: Input): seq<Effect> {
    if input.Applied? && Registered(c.state, input.index) then [CompleteClient(input.index)] else []
  }

  /** The completion, the ends of reads and the hand-out of a step, and nothing else. */
  ghost predicate Parts(c: Core, input: Input, r: CoreOutcome)
    requires r.Stepped?
  {
    exists a, b :: OnlyReads(a) && OnlyReads(b)
      && Notices(r.effects) == Completion(c, input) + a + Handed(c, r.core) + b
  }

  lemma PartsAre(c: Core, input: Input, r: CoreOutcome, a: seq<Effect>, b: seq<Effect>)
    requires r.Stepped? && OnlyReads(a) && OnlyReads(b)
    requires Notices(r.effects) == Completion(c, input) + a + Handed(c, r.core) + b
    ensures Parts(c, input, r)
  {
  }

  lemma {:induction false} ReadsOnly(waiting: seq<PendingRead>, applied: LogIndex, reason: ReadFailure)
    ensures OnlyReads(Answers(waiting, applied)) && OnlyReads(Rejections(waiting, reason))
  {
    if waiting != [] { ReadsOnly(waiting[1..], applied, reason); }
  }

  lemma SpecParts(c: Core, input: Input, r: CoreOutcome)
    requires r.Stepped? && SpecTells(c, r) && !input.Applied?
    ensures Parts(c, input, r)
  {
    hide Notices, Handed, HandsNext, Rejections;
    var lost := if Deposed(c.state, r.core.state) then Rejections(c.waiting, LeadershipLost) else [];
    ReadsOnly(c.waiting, 0, LeadershipLost);
    assert [] + lost + Handed(c, r.core) + [] == lost + Handed(c, r.core);
    PartsAre(c, input, r, lost, []);
  }

  lemma SpecInputParts(c: Core, event: Event, input: Input)
    requires CoreSound(c) && StepSpec(c, event).Stepped? && !event.ApplyCommitted? && !event.Receive? && !input.Applied?
    ensures var r := StepSpec(c, event);
      Parts(c, input, r) && HandsNext(c, r.core) && (Quiescent(r.core) ==> Busy(r.core))
  {
    hide StepSpec, CoreSound, Parts, Handed, HandsNext, Busy, Notices;
    SpecStepTells(c, event);
    SpecParts(c, input, StepSpec(c, event));
  }

  lemma DeliverParts(c: Core, from: NodeId, m: Message)
    requires CoreSound(c) && c.pendingLog.None? && DeliverMessage(c, from, m).Stepped?
    ensures var r := DeliverMessage(c, from, m);
      Parts(c, Deliver(from, m), r) && HandsNext(c, r.core) && (Quiescent(r.core) ==> Busy(r.core))
  {
    hide StepSpec, CoreSound, Parts, AppendRequestValid, StillWaiting, Answers, Notices, HandsNext, Handed, Rejections;
    SpecStepTells(c, Receive(from, m));
    var spec := StepSpec(c, Receive(from, m));
    SpecParts(c, Deliver(from, m), spec);
    if m.AppendResponse? && m.context.Some? {
      var lost := if Deposed(c.state, spec.core.state) then Rejections(c.waiting, LeadershipLost) else [];
      var counted := Acknowledged(spec.core.waiting, m.context.value, from, Majority(spec.core.state));
      var answers := Answers(counted, spec.core.state.applied);
      ReadsOnly(c.waiting, 0, LeadershipLost);
      ReadsOnly(counted, spec.core.state.applied, LeadershipLost);
      NoticesSplit(spec.effects, answers);
      AnswersAreNotices(counted, spec.core.state.applied);
      var r := DeliverMessage(c, from, m);
      SameApplication(c, spec.core, r.core);
      if r.effects == spec.effects + answers {
        assert [] + lost + Handed(c, r.core) + answers == lost + Handed(c, r.core) + answers;
        PartsAre(c, Deliver(from, m), r, lost, answers);
      }
    }
  }

  lemma SameApplication(c: Core, a: Core, b: Core)
    requires a.application == b.application && a.nextApplyId == b.nextApplyId
    ensures Handed(c, a) == Handed(c, b) && HandsNext(c, a) == HandsNext(c, b)
  {
  }

  lemma FinishParts(c: Core, id: nat, index: LogIndex)
    requires CoreSound(c) && CoreStep(c, Applied(id, index)).Stepped?
    ensures var r := CoreStep(c, Applied(id, index));
      Parts(c, Applied(id, index), r) && HandsNext(c, r.core) && Busy(r.core)
  {
    hide CoreStep, CoreSound, Parts, StillWaiting, Answers, Notices, HandsNext, Handed, Busy, AppliedTo;
    FinishMeans(c, id, index);
    var r := CoreStep(c, Applied(id, index));
    var first, answers, more := Completion(c, Applied(id, index)), Answers(c.waiting, index), Handed(c, r.core);
    ReadsOnly(c.waiting, index, LeadershipLost);
    NoticesSplit(first + answers, more);
    NoticesSplit(first, answers);
    AnswersAreNotices(c.waiting, index);
    AllNotices(first);
    HandedIsNotice(c, r.core);
    assert first + answers + more == first + answers + more + [];
    PartsAre(c, Applied(id, index), r, answers, []);
  }

  lemma HandedIsNotice(c: Core, c': Core)
    ensures Notices(Handed(c, c')) == Handed(c, c')
  {
    AllNotices(Handed(c, c'));
  }

  lemma ReadParts(c: Core, request: RequestId)
    requires CoreSound(c) && c.pendingLog.None? && CoreStep(c, Read(request)).Stepped?
    ensures var r := CoreStep(c, Read(request));
      Parts(c, Read(request), r) && HandsNext(c, r.core) && (r.core == c || Busy(r.core))
  {
    hide CoreStep, CoreSound, Parts, Notices, Busy;
    BeginReadMeans(c, request);
    var r := CoreStep(c, Read(request));
    if r.core == c {
      assert exists reason :: r == Stepped(c, [ReadRejected(request, reason)]);
      AllNotices(r.effects);
      PartsAre(c, Read(request), r, r.effects, []);
    } else {
      var offers := r.effects[..|c.state.peers|];
      assert r.effects == offers + Handed(c, r.core);
      assert Plain(offers);
      PlainTellsNothing(offers);
      NoticesSplit(offers, Handed(c, r.core));
      HandedIsNotice(c, r.core);
      assert [] + [] + Handed(c, r.core) + [] == Handed(c, r.core);
      PartsAre(c, Read(request), r, [], []);
    }
  }

  lemma EndParts(c: Core, input: Input, request: RequestId, reason: ReadFailure)
    requires !input.Applied?
    ensures var r := EndRead(c, request, reason);
      && r.Stepped? && Parts(c, input, r) && r.core == c.(waiting := r.core.waiting)
  {
    var r := EndRead(c, request, reason);
    AllNotices(r.effects);
    hide Notices;
    assert [] + r.effects + [] + [] == r.effects;
    PartsAre(c, input, r, r.effects, []);
  }

  lemma SlotParts(c: Core, input: Input)
    requires CoreSound(c) && CoreStep(c, input).Stepped? && (input.ApplyFailed? || input.RetryApply? || input.LogDone?)
    ensures var r := CoreStep(c, input); Parts(c, input, r) && HandsNext(c, r.core) && Busy(r.core)
  {
    var r := CoreStep(c, input);
    HandedIsNotice(c, r.core);
    if input.LogDone? {
      hide CoreStep, Notices, Handed, HandsNext, Busy, Parts;
      LogDoneMeans(c, input.logId, input.log);
      var freed := c.pendingLog.value.deferred;
      assert Plain(freed);
      hide CoreSound;
      PlainTellsNothing(freed);
      NoticesSplit(freed, Handed(c, r.core));
    } else {
      hide CoreSound, Parts;
      if input.RetryApply? { AllNotices(r.effects); }
    }
    hide CoreStep, Notices, Handed;
    assert [] + [] + Handed(c, r.core) + [] == Handed(c, r.core);
    PartsAre(c, input, r, [], []);
  }

  lemma StepParts(c: Core, input: Input)
    requires CoreSound(c) && CoreStep(c, input).Stepped?
    ensures var r := CoreStep(c, input);
      Parts(c, input, r) && HandsNext(c, r.core) && (Quiescent(r.core) && (Quiescent(c) ==> Busy(c)) ==> Busy(r.core))
  {
    hide CoreSound, StepSpec, BeginRead, DeliverMessage, FinishApplication, EndRead, Schedule, MatchesApplication,
        Parts;
    match input {
      case Applied(id, index) => FinishParts(c, id, index);
      case ApplyFailed(_, _) => SlotParts(c, input);
      case RetryApply => SlotParts(c, input);
      case LogDone(_, _) => SlotParts(c, input);
      case HardDone(id, hard) => SpecInputParts(c, HardPersisted(id, hard), input);
      case Read(request) => ReadParts(c, request);
      case CancelRead(request) => EndParts(c, input, request, Cancelled);
      case TimeoutRead(request) => EndParts(c, input, request, TimedOut);
      case Timeout => SpecInputParts(c, ElectionTimeout, input);
      case Heartbeat =>
        if c.state.role.Leader? { SpecInputParts(c, HeartbeatTimeout, input); }
        else { PartsAre(c, input, Stepped(c, []), [], []); }
      case Client(command) => SpecInputParts(c, ClientCommand(command), input);
      case Deliver(from, m) => DeliverParts(c, from, m);
    }
  }

  /** A client is completed exactly by the application of an index that this leader registered, an
      entry is handed out exactly when an id is issued for the slot, and once no write is open nothing
      committed waits without a slot. */
  lemma DeliversExactly(c: Core, input: Input)
    requires CoreSound(c) && CoreStep(c, input).Stepped?
    ensures var r := CoreStep(c, input);
      && (forall i :: CompleteClient(i) in r.effects <==> input.Applied? && input.index == i && Registered(c.state, i))
      && (forall id, e :: ApplyEntry(id, e) in r.effects <==> ApplyEntry(id, e) in Handed(c, r.core))
      && HandsNext(c, r.core) && (Quiescent(r.core) && (Quiescent(c) ==> Busy(c)) ==> Busy(r.core))
  {
    hide CoreStep, CoreSound, Notices, Quiescent, Busy, HandsNext;
    StepParts(c, input);
    var r := CoreStep(c, input);
    forall i ensures CompleteClient(i) in r.effects <==> CompleteClient(i) in Notices(r.effects) {
      NoticesHold(r.effects, CompleteClient(i));
    }
    forall id, e ensures ApplyEntry(id, e) in r.effects <==> ApplyEntry(id, e) in Notices(r.effects) {
      NoticesHold(r.effects, ApplyEntry(id, e));
    }
  }

  // ---- Registered clients --------------------------------------------------

  /** The client stays registered in the same term, and the log only grows. */
  predicate Stays(s: State, s': State, i: LogIndex) {
    Registered(s, i) && s'.term == s.term && s.log <= s'.log
  }

  /** The command was appended at `i`, in the leader's own term. */
  predicate Submitted(s: State, command: Command, s': State, i: LogIndex) {
    s.role.Leader? && s'.term == s.term && s'.log == s.log + [LogEntry(s.term, i, command)]
  }

  predicate ClientsFrom(s: State, event: Event, s': State, i: LogIndex) {
    Registered(s', i) ==> Stays(s, s', i) || (event.ClientCommand? && Submitted(s, event.command, s', i))
  }

  lemma ClientRegistered(s: State, command: Command, i: LogIndex)
    requires Valid(s) && s.pending.None? && Handle(s, ClientCommand(command)).Done?
    ensures ClientsFrom(s, ClientCommand(command), Handle(s, ClientCommand(command)).state, i)
  {
    hide Valid, Handle, OffersAll, CommitsTo;
    ClientMeans(s, command);
  }

  lemma ReplyRegistered(s: State, from: NodeId, m: Message, i: LogIndex)
    requires Valid(s) && s.pending.None? && m.AppendResponse? && Handle(s, Receive(from, m)).Done?
    ensures ClientsFrom(s, Receive(from, m), Handle(s, Receive(from, m)).state, i)
  {
    hide Valid, Handle, Offers, CommitsTo;
    OtherResponsesMean(s, from, m);
    if s.role.Leader? && from in s.peers && m.term == s.term {
      if !m.succeeded { RefusalMeans(s, from, m); }
      else if m.matched <= OwnLast(s).index { SuccessMeans(s, from, m); }
    }
  }

  lemma VoteRegistered(s: State, from: NodeId, m: Message, i: LogIndex)
    requires Valid(s) && s.pending.None? && (m.VoteResponse? || m.VoteRequest?) && Handle(s, Receive(from, m)).Done?
    ensures ClientsFrom(s, Receive(from, m), Handle(s, Receive(from, m)).state, i)
  {
    hide Handle, OffersAll, AtLeast, MostOf;
    if m.VoteResponse? { VoteResponseMeans(s, from, m); } else { VoteRequestMeans(s, from, m); }
  }

  lemma AppendRegistered(s: State, from: NodeId, m: Message, i: LogIndex)
    requires Valid(s) && s.pending.None? && m.AppendRequest? && Handle(s, Receive(from, m)).Done?
    ensures ClientsFrom(s, Receive(from, m), Handle(s, Receive(from, m)).state, i)
  {
    hide Valid, Handle, Fits, Spliced, AllHeld, PreviousHeld, Follows;
    AppendRequestMeans(s, from, m);
  }

  lemma TimeoutRegistered(s: State, event: Event, i: LogIndex)
    requires Valid(s) && s.pending.None? && (event.ElectionTimeout? || event.HeartbeatTimeout?)
    requires Handle(s, event).Done?
    ensures ClientsFrom(s, event, Handle(s, event).state, i)
  {
    hide Handle, OffersAll, Solicits;
    ElectionMeans(s);
    HeartbeatMeans(s);
  }

  lemma HandleRegisters(s: State, event: Event, i: LogIndex)
    requires Valid(s) && (s.pending.Some? <==> event.HardPersisted?) && !event.ApplyCommitted? && Handle(s, event).Done?
    ensures ClientsFrom(s, event, Handle(s, event).state, i)
  {
    match event {
      case ElectionTimeout => TimeoutRegistered(s, event, i);
      case HeartbeatTimeout => TimeoutRegistered(s, event, i);
      case ObserveTerm(t) => ObserveMeans(s, t);
      case ClientCommand(command) => ClientRegistered(s, command, i);
      case HardPersisted(_, _) =>
      case Receive(from, m) =>
        if m.AppendRequest? { AppendRegistered(s, from, m, i); }
        else if m.AppendResponse? { ReplyRegistered(s, from, m, i); }
        else { VoteRegistered(s, from, m, i); }
    }
  }

  /** The same for an input of Core. */
  predicate CoreClientsFrom(s: State, input: Input, s': State, i: LogIndex) {
    Registered(s', i) ==> Stays(s, s', i) || (input.Client? && Submitted(s, input.command, s', i))
  }

  lemma SpecRegisters(c: Core, event: Event, i: LogIndex)
    requires CoreSound(c) && StepSpec(c, event).Stepped? && !event.ApplyCommitted?
    requires event.Receive? && event.msg.AppendRequest? ==> AppendRequestValid(event.msg)
    ensures ClientsFrom(c.state, event, StepSpec(c, event).core.state, i)
  {
    hide Handle, Gate, Translate, Valid, IdsOk, Slot, Real, NoHandOut, Plain, AppendRequestValid, SpecTells, Busy,
        ClientsFrom;
    HandleInOrder(c.state, event);
    NoPendingAfterHandle(c.state, event);
    HandleRegisters(c.state, event, i);
    var h := Handle(c.state, event);
    GateInOrder(h.state, h.effects);
    var g := Gate(h.state, h.effects);
    TranslateTells(c, g.state, g.effects);
    PendingOnly(c.state, event, h.state, g.state, i);
  }

  lemma PendingOnly(s: State, event: Event, a: State, b: State, i: LogIndex)
    requires b == a.(pending := b.pending) && ClientsFrom(s, event, a, i)
    ensures ClientsFrom(s, event, b, i)
  {
  }

  lemma SameRegisters(s: State, input: Input, s': State, i: LogIndex)
    requires s'.term == s.term && s'.log == s.log && (Registered(s', i) ==> Registered(s, i))
    ensures CoreClientsFrom(s, input, s', i)
  {
  }

  lemma ReadRegisters(c: Core, request: RequestId, i: LogIndex)
    requires CoreSound(c) && c.pendingLog.None? && CoreStep(c, Read(request)).Stepped?
    ensures CoreClientsFrom(c.state, Read(request), CoreStep(c, Read(request)).core.state, i)
  {
    hide CoreStep, CoreSound, Busy, HandsNext, OffersWith, Handed;
    BeginReadMeans(c, request);
  }

  lemma FinishRegisters(c: Core, id: nat, index: LogIndex, i: LogIndex)
    requires CoreSound(c) && CoreStep(c, Applied(id, index)).Stepped?
    ensures CoreClientsFrom(c.state, Applied(id, index), CoreStep(c, Applied(id, index)).core.state, i)
  {
    hide CoreStep, CoreSound, Busy, HandsNext, Handed, Answers, StillWaiting;
    FinishMeans(c, id, index);
  }

  lemma DeliverRegisters(c: Core, from: NodeId, m: Message, i: LogIndex)
    requires CoreSound(c) && c.pendingLog.None? && DeliverMessage(c, from, m).Stepped?
    ensures CoreClientsFrom(c.state, Deliver(from, m), DeliverMessage(c, from, m).core.state, i)
  {
    hide CoreSound, StepSpec, AppendRequestValid;
    SpecRegisters(c, Receive(from, m), i);
  }

  /** A client is registered only by its own command, which is appended at its index. */
  lemma StepRegisters(c: Core, input: Input, i: LogIndex)
    requires CoreSound(c) && CoreStep(c, input).Stepped?
    ensures CoreClientsFrom(c.state, input, CoreStep(c, input).core.state, i)
  {
    hide CoreSound, StepSpec, BeginRead, DeliverMessage, FinishApplication, MatchesApplication, Registered;
    match input {
      case Applied(id, index) => FinishRegisters(c, id, index, i);
      case ApplyFailed(_, _) => SameRegisters(c.state, input, c.state, i);
      case RetryApply => SameRegisters(c.state, input, c.state, i);
      case LogDone(_, _) => SameRegisters(c.state, input, c.state, i);
      case HardDone(id, hard) => SpecRegisters(c, HardPersisted(id, hard), i);
      case Read(request) => ReadRegisters(c, request, i);
      case CancelRead(request) => SameRegisters(c.state, input, c.state, i);
      case TimeoutRead(request) => SameRegisters(c.state, input, c.state, i);
      case Timeout => SpecRegisters(c, ElectionTimeout, i);
      case Heartbeat =>
        if c.state.role.Leader? { SpecRegisters(c, HeartbeatTimeout, i); } else { SameRegisters(c.state, input,
            c.state, i); }
      case Client(command) => SpecRegisters(c, ClientCommand(command), i);
      case Deliver(from, m) => DeliverRegisters(c, from, m, i);
    }
  }

  // ---- Runs ----------------------------------------------------------------

  /** At step `k` of the same life the node, then leader of the same term, was given the command, and
      its log holds it at `i` ever since. */
  ghost predicate GivenAt(r: Run, n: NodeId, k: nat, m: nat, i: LogIndex, command: Command) {
    && k < m && Alive(r, n, k, m) && r.actions[k] == Give(n, Client(command))
    && StateAt(r, k, n).role.Leader? && StateAt(r, m, n).term == StateAt(r, k, n).term
    && LogEntry(StateAt(r, k, n).term, i, command) in StateAt(r, m, n).log
  }

  lemma ActionRegisters(c: Cluster, a: Action, c': Cluster, i: LogIndex)
    requires AllSound(c) && Next(c, a) == Some(c') && CoreOutcomeOf(c, a).Stepped?
    ensures var n := ActionNode(a);
      && n in c.up && n in c'.up && InputOf(c, a).Some?
      && CoreClientsFrom(c.up[n].state, InputOf(c, a).value, c'.up[n].state, i)
      && (InputOf(c, a).value.Client? ==> a == Give(n, InputOf(c, a).value))
  {
    hide CoreStep, CoreSound, CoreClientsFrom, UsedOnce, Record, Released;
    StepRegisters(c.up[ActionNode(a)], InputOf(c, a).value, i);
  }

  lemma OnlyRestartBrings(c: Cluster, a: Action, c': Cluster, n: NodeId)
    requires Next(c, a) == Some(c') && n in c'.up && (n !in c.up || a == Restart(n))
    ensures c'.up[n].state.leader.None?
  {
    hide Record, Released, CoreStep;
  }

  lemma {:induction false} RegisteredWasGiven(r: Run, m: nat, n: NodeId, i: LogIndex) returns (k: nat, command: Command)
    requires IsRun(r) && Up(r, m, n) && Registered(StateAt(r, m, n), i)
    ensures GivenAt(r, n, k, m, i, command)
  {
    hide IsRun, Next, CoreOutcomeOf, InputOf, Registered, AllSound;
    RunLengths(r);
    if m == 0 { NobodyUp(r); }
    RunNext(r, m - 1);
    RunSound(r, m - 1);
    var c, a, c' := r.states[m - 1], r.actions[m - 1], r.states[m];
    if n !in c.up || a == Restart(n) {
      OnlyRestartBrings(c, a, c', n);
      NotRegistered(c'.up[n].state, i);
    }
    assert a != Crash(n) by { CrashTakes(c, a, c', n); }
    if CoreOutcomeOf(c, a).Stepped? && ActionNode(a) == n {
      ActionRegisters(c, a, c', i);
      if Stays(c.up[n].state, c'.up[n].state, i) {
        k, command := RegisteredWasGiven(r, m - 1, n, i);
      } else {
        k, command := m - 1, InputOf(c, a).value.command;
      }
    } else {
      UnchangedNode(c, a, c', n);
      k, command := RegisteredWasGiven(r, m - 1, n, i);
    }
  }

  lemma NobodyUp(r: Run)
    requires IsRun(r)
    ensures r.states[0].up == map[]
  {
  }

  lemma NotRegistered(s: State, i: LogIndex)
    requires s.leader.None?
    ensures !Registered(s, i)
  {
  }

  lemma CrashTakes(c: Cluster, a: Action, c': Cluster, n: NodeId)
    requires Next(c, a) == Some(c') && n in c'.up
    ensures a != Crash(n)
  {
    hide Record, Released, CoreStep;
  }

  /** A client hears of success only for its own command: if a node completes index `i`, it was given
      a command as the leader of this same term, appended it at `i`, and the entry whose application
      completes the index is exactly that one. */
  lemma CompletedIsOwn(r: Run, j: nat, n: NodeId, i: LogIndex) returns (k: nat, command: Command)
    requires IsRun(r) && j < |r.actions| && ActionNode(r.actions[j]) == n
    requires CompleteClient(i) in EffectsOf(r.states[j], r.actions[j])
    ensures Up(r, j, n) && GivenAt(r, n, k, j, i, command)
    ensures var c := r.states[j].up[n];
      c.application.Some? && c.application.value.entry == LogEntry(c.state.term, i, command)
  {
    hide IsRun, CoreStep;
    RunNext(r, j);
    RunSound(r, j);
    var c, input := r.states[j].up[n], InputOf(r.states[j], r.actions[j]).value;
    assert CoreSound(c);
    hide Next, AllSound, Registered, Handed, HandsNext, Busy, CoreSound;
    DeliversExactly(c, input);
    FinishMeans(c, input.applyId, i);
    k, command := RegisteredWasGiven(r, j, n, i);
    SlotHolds(c, LogEntry(c.state.term, i, command));
  }

  lemma SlotHolds(c: Core, e: LogEntry)
    requires CoreSound(c) && c.application.Some? && e in c.state.log && c.application.value.entry.index == e.index
    ensures c.application.value.entry == e
  {
  }

  /** Whenever a node has no write open, its next committed entry has been handed out. */
  lemma {:induction false} IdleIsBusy(r: Run, m: nat, n: NodeId)
    requires IsRun(r) && Up(r, m, n) && Quiescent(r.states[m].up[n])
    ensures Busy(r.states[m].up[n])
  {
    hide IsRun, Next, CoreOutcomeOf, InputOf, Quiescent, Busy, AllSound;
    RunLengths(r);
    if m == 0 { NobodyUp(r); }
    RunNext(r, m - 1);
    RunSound(r, m - 1);
    var c, a, c' := r.states[m - 1], r.actions[m - 1], r.states[m];
    if n !in c.up || a == Restart(n) {
      RebornBusy(c, a, c', n);
    } else {
      if Quiescent(c.up[n]) { IdleIsBusy(r, m - 1, n); }
      if CoreOutcomeOf(c, a).Stepped? && ActionNode(a) == n {
        ActionBusy(c, a, c');
      } else {
        UnchangedNode(c, a, c', n);
      }
    }
  }

  lemma RebornBusy(c: Cluster, a: Action, c': Cluster, n: NodeId)
    requires Next(c, a) == Some(c') && n in c'.up && (n !in c.up || a == Restart(n))
    ensures Busy(c'.up[n])
  {
    hide Record, Released, CoreStep;
  }

  lemma ActionBusy(c: Cluster, a: Action, c': Cluster)
    requires AllSound(c) && Next(c, a) == Some(c') && CoreOutcomeOf(c, a).Stepped?
    ensures var n := ActionNode(a);
      && n in c.up && n in c'.up
      && (Quiescent(c'.up[n]) && (Quiescent(c.up[n]) ==> Busy(c.up[n])) ==> Busy(c'.up[n]))
  {
    hide CoreStep, CoreSound, Quiescent, Busy, UsedOnce, Record, Released, HandsNext, Handed;
    DeliversExactly(c.up[ActionNode(a)], InputOf(c, a).value);
  }
}
