/** `election::Core` as the object it is: fields that every method updates, each method proved
    against the functions of `RaftCore`. `None` stands for a thrown exception; the fields are
    then of no further use. */
module RaftCoreObject {
  import opened RaftTypes
  import opened Figure2
  import opened RaftCore

  // ---- Loops over lists ----------------------------------------------------

  lemma TranslateStep(effects: seq<Effect>, i: nat, log: seq<LogEntry>, id: nat)
    requires i < |effects|
    ensures var e := effects[i];
      var rest := effects[i + 1..];
      && LogWrites(effects[i..]) == (if e.PersistState? then 1 else 0) + LogWrites(rest)
      && TranslateEffects(effects[i..], log, id) ==
           if e.PersistState? then [PersistLog(id, log)] + TranslateEffects(rest, log, id + 1)
           else if e.ApplyCommand? || e.CompleteClient? then TranslateEffects(rest, log, id)
           else [e] + TranslateEffects(rest, log, id)
  {
    assert effects[i..][0] == effects[i] && effects[i..][1..] == effects[i + 1..];
  }

  /** Gives every log change an id and the log to write, and drops what Core does itself. */
  method TranslateAll(effects: seq<Effect>, log: seq<LogEntry>, first: nat)
    returns (out: Option<seq<Effect>>, next: nat)
    requires first <= U64_MAX
    ensures out.Some? <==> first + LogWrites(effects) <= U64_MAX
    ensures out.Some? ==> next == first + LogWrites(effects) && out.value == TranslateEffects(effects, log, first)
  {
    hide TranslateEffects, LogWrites;
    out, next := Some([]), first;
    assert effects[0..] == effects
        && [] + TranslateEffects(effects, log, first) == TranslateEffects(effects, log, first);
    for i := 0 to |effects|
      invariant out.Some? && first <= next <= U64_MAX
      invariant next + LogWrites(effects[i..]) == first + LogWrites(effects)
      invariant out.value + TranslateEffects(effects[i..], log, next) == TranslateEffects(effects, log, first)
    {
      var e := effects[i];
      TranslateStep(effects, i, log, next);
      var piece: seq<Effect> := [];
      if e.PersistState? {
        if next == U64_MAX { return None, next; }
        piece := [PersistLog(next, log)];
        next := next + 1;
      } else if !e.ApplyCommand? && !e.CompleteClient? {
        piece := [e];
      }
      ghost var rest := TranslateEffects(effects[i + 1..], log, next);
      assert out.value + (piece + rest) == (out.value + piece) + rest;
      out := Some(out.value + piece);
    }
    TranslateNothing(log, next);
    assert effects[|effects|..] == [];
    assert out.value + [] == out.value;
  }

  lemma TranslateNothing(log: seq<LogEntry>, id: nat)
    ensures TranslateEffects([], log, id) == [] && LogWrites([]) == 0
  {
  }

  method MarkAll(effects: seq<Effect>, context: ReadContext) returns (out: seq<Effect>)
    ensures out == WithContext(effects, context)
  {
    out := effects;
    for i := 0 to |effects|
      invariant |out| == |effects|
      invariant forall j :: 0 <= j < i ==> out[j] == MarkRead(effects[j], context)
      invariant forall j :: i <= j < |out| ==> out[j] == effects[j]
    {
      out := out[i := MarkRead(out[i], context)];
    }
    assert out == WithContext(effects, context);
  }

  method CountAck(waiting: seq<PendingRead>, context: ReadContext, from: NodeId, majority: nat)
    returns (out: seq<PendingRead>)
    ensures out == Acknowledged(waiting, context, from, majority)
  {
    out := waiting;
    for j := 0 to |waiting|
      invariant |out| == |waiting|
      invariant forall k :: 0 <= k < j ==> out[k] == AckRead(waiting[k], context, from, majority)
      invariant forall k :: j <= k < |out| ==> out[k] == waiting[k]
    {
      if out[j].context == context {
        var acks := out[j].acks + {from};
        out := out[j := out[j].(acks := acks, confirmed := out[j].confirmed || |acks| >= majority)];
      }
    }
    assert out == Acknowledged(waiting, context, from, majority);
  }

  lemma {:induction false} WithoutRequestAt(waiting: seq<PendingRead>, request: RequestId, i: nat)
    requires i < |waiting| && waiting[i].request == request
    requires forall j :: 0 <= j < i ==> waiting[j].request != request
    ensures WithoutRequest(waiting, request) == waiting[..i] + waiting[i + 1..]
  {
    if i > 0 {
      var rest := waiting[1..];
      WithoutRequestAt(rest, request, i - 1);
      assert waiting[..i] == [waiting[0]] + rest[..i - 1] && waiting[i + 1..] == rest[i..];
    }
  }

  class CoreObject {
    var state: State
    var pendingLog: Option<PendingLog>
    var application: Option<PendingApplication>
    var waiting: seq<PendingRead>
    var used: set<RequestId>
    var nextContext: ReadContext
    var nextLogId: nat
    var nextApplyId: nat
    const maxReads: nat
    const maxHistory: nat

    function View(): Core
      reads this
    {
      Core(state, pendingLog, application, waiting, used, nextContext, nextLogId, nextApplyId,
           maxReads, maxHistory)
    }

    constructor (self: NodeId, peers: seq<NodeId>, hard: HardState, log: seq<LogEntry>, applied: LogIndex,
                 maxReads: nat, maxHistory: nat)
      requires Constructible(self, peers, hard, log, applied)
      ensures View() == Construct(self, peers, hard, log, applied, maxReads, maxHistory)
    {
      state := Recovered(self, peers, hard, log, applied);
      pendingLog, application, waiting, used := None, None, [], {};
      nextContext, nextLogId, nextApplyId := 1, FIRST_LOG_ID, FIRST_APPLY_ID;
      this.maxReads, this.maxHistory := maxReads, maxHistory;
    }

    // ---- Reads -------------------------------------------------------------

    /** Erases the confirmed and applied reads while walking over them. */
    method CompleteReadyReads() returns (answers: seq<Effect>)
      modifies this`waiting
      ensures View() == CompleteReads(old(View()))
      ensures answers == Answers(old(waiting), state.applied)
    {
      hide StillWaiting, Answers, Ready;
      var i := 0;
      answers := [];
      assert waiting[0..] == waiting;
      while i < |waiting|
        invariant 0 <= i <= |waiting|
        invariant StillWaiting(old(waiting), state.applied)
               == waiting[..i] + StillWaiting(waiting[i..], state.applied)
        invariant Answers(old(waiting), state.applied) == answers + Answers(waiting[i..], state.applied)
        decreases |waiting| - i
      {
        var tail := waiting[i..];
        ReadsHead(tail, state.applied);
        if !Ready(waiting[i], state.applied) {
          assert waiting[..i + 1] == waiting[..i] + [waiting[i]];
          assert waiting[i + 1..] == tail[1..];
          i := i + 1;
        } else {
          answers := answers + [ReadAnswered(waiting[i].request, waiting[i].index)];
          ghost var before := waiting[..i];
          waiting := waiting[..i] + waiting[i + 1..];
          assert waiting[..i] == before && waiting[i..] == tail[1..];
        }
      }
      assert waiting[..i] == waiting && waiting[i..] == [];
      NoReads(state.applied);
    }

    method RejectPendingReads(reason: ReadFailure) returns (effects: seq<Effect>)
      modifies this`waiting
      ensures View() == old(View()).(waiting := []) && effects == Rejections(old(waiting), reason)
    {
      effects := [];
      assert waiting[0..] == waiting;
      for i := 0 to |waiting|
        invariant waiting == old(waiting)
        invariant Rejections(waiting, reason) == effects + Rejections(waiting[i..], reason)
      {
        assert waiting[i..][1..] == waiting[i + 1..];
        effects := effects + [ReadRejected(waiting[i].request, reason)];
      }
      waiting := [];
    }

    /** Counts one acknowledgement for the read that carries its context. */
    method AcknowledgeRead(effects: seq<Effect>, from: NodeId, m: Message) returns (out: seq<Effect>)
      requires m.AppendResponse?
      modifies this`waiting
      ensures RaftCore.AcknowledgeRead(old(View()), effects, from, m) == Stepped(View(), out)
    {
      if !state.role.Leader? || m.term != state.term || !m.succeeded || m.context.None? {
        return effects;
      }
      var i := 0;
      while i < |waiting| && waiting[i].context != m.context.value
        invariant 0 <= i <= |waiting|
        invariant forall j :: 0 <= j < i ==> waiting[j].context != m.context.value
      {
        i := i + 1;
      }
      if i == |waiting| { return effects; }
      waiting := CountAck(waiting, m.context.value, from, Majority(state));
      var answers := CompleteReadyReads();
      out := effects + answers;
    }

    // ---- Gating and translation --------------------------------------------

    method ScheduleApplication(effects: seq<Effect>) returns (out: Option<seq<Effect>>)
      modifies this`application, this`nextApplyId
      ensures out.None? ==> Schedule(old(View()), effects).Refused?
      ensures out.Some? ==> Schedule(old(View()), effects) == Stepped(View(), out.value)
    {
      if application.Some? || state.applied >= state.commit { return Some(effects); }
      if nextApplyId >= APPLY_ID_LIMIT { return None; }
      if state.applied < Base(state) || state.applied >= LastIndex(state) { return None; }
      var entry := state.log[state.applied - Base(state)];
      var id := nextApplyId;
      application := Some(PendingApplication(id, entry, false));
      nextApplyId := nextApplyId + 1;
      return Some(effects + [ApplyEntry(id, entry)]);
    }

    method GateLogPersistence(effects: seq<Effect>) returns (out: Option<seq<Effect>>)
      modifies this`pendingLog
      ensures out.None? ==> GateLog(old(View()), effects).Refused?
      ensures out.Some? ==> GateLog(old(View()), effects) == Stepped(View(), out.value)
    {
      var k := 0;
      while k < |effects| && !effects[k].PersistLog?
        invariant 0 <= k <= |effects|
        invariant forall i :: 0 <= i < k ==> !effects[i].PersistLog?
      {
        k := k + 1;
      }
      if k == |effects| { return Some(effects); }
      if pendingLog.Some? { return None; }
      pendingLog := Some(PendingLog(effects[k].logId, effects[k].log, effects[k + 1..]));
      return Some(effects[..k + 1]);
    }

    method Translate(s: State, effects: seq<Effect>, previous: Role) returns (out: Option<seq<Effect>>)
      requires nextLogId <= U64_MAX
      modifies this
      ensures out.None? ==> RaftCore.Translate(old(View()), s, effects, previous).Refused?
      ensures out.Some? ==> RaftCore.Translate(old(View()), s, effects, previous) == Stepped(View(), out.value)
    {
      hide TranslateEffects, Rejections, FirstLogWrite, LogWrites, GateLog, Schedule;
      ghost var c := View();
      state := s;
      var all: seq<Effect> := [];
      if state.role != previous {
        all := [RoleTransition(previous, state.role, state.term)];
        if previous.Leader? {
          var lost := RejectPendingReads(LeadershipLost);
          all := all + lost;
        }
      }
      assert all == RoleEffects(c, s, previous);
      var translated, next := TranslateAll(effects, state.log, nextLogId);
      if translated.None? { return None; }
      nextLogId := next;
      all := all + translated.value;
      var gated := GateLogPersistence(all);
      if gated.None? { return None; }
      if state.pending.None? && pendingLog.None? {
        out := ScheduleApplication(gated.value);
      } else {
        out := gated;
      }
    }

    method StepSpecification(event: Event) returns (out: Option<seq<Effect>>)
      requires nextLogId <= U64_MAX
      modifies this
      ensures out.None? ==> StepSpec(old(View()), event).Refused?
      ensures out.Some? ==> StepSpec(old(View()), event) == Stepped(View(), out.value)
    {
      var r := Figure2.Step(state, event);
      if r.Failed? { return None; }
      out := Translate(r.state, r.effects, state.role);
    }

    // ---- Inputs ------------------------------------------------------------

    method BeginRead(request: RequestId) returns (out: Option<seq<Effect>>)
      requires nextLogId <= U64_MAX
      modifies this
      ensures out.None? ==> RaftCore.BeginRead(old(View()), request).Refused?
      ensures out.Some? ==> RaftCore.BeginRead(old(View()), request) == Stepped(View(), out.value)
    {
      hide StepSpec, CommitTerm, WithContext;
      if request == RequestId(0, 0) { return None; }
      if !state.role.Leader? { return Some([ReadRejected(request, NotLeader)]); }
      if request in used { return Some([ReadRejected(request, DuplicateRequest)]); }
      if state.commit == 0 || CommitTerm(state) != state.term {
        return Some([ReadRejected(request, TermNotCommitted)]);
      }
      if |waiting| >= maxReads || |used| >= maxHistory {
        return Some([ReadRejected(request, CapacityExceeded)]);
      }
      if nextContext == 0 || nextContext >= U64_MAX {
        return Some([ReadRejected(request, ContextExhausted)]);
      }
      var context := nextContext;
      nextContext := nextContext + 1;
      used := used + {request};
      waiting := waiting + [PendingRead(context, request, state.commit, {state.node}, false)];
      var sent := StepSpecification(HeartbeatTimeout);
      if sent.None? { return None; }
      var effects := MarkAll(sent.value, context);
      return Some(effects);
    }

    method EndRead(request: RequestId, reason: ReadFailure) returns (effects: seq<Effect>)
      modifies this`waiting
      ensures RaftCore.EndRead(old(View()), request, reason) == Stepped(View(), effects)
    {
      hide WithoutRequest;
      var i := 0;
      while i < |waiting| && waiting[i].request != request
        invariant 0 <= i <= |waiting|
        invariant forall j :: 0 <= j < i ==> waiting[j].request != request
      {
        i := i + 1;
      }
      if i == |waiting| { return []; }
      WithoutRequestAt(waiting, request, i);
      waiting := waiting[..i] + waiting[i + 1..];
      return [ReadRejected(request, reason)];
    }

    method FinishApplication(index: LogIndex) returns (out: Option<seq<Effect>>)
      modifies this
      ensures out.None? ==> RaftCore.FinishApplication(old(View()), index).Refused?
      ensures out.Some? ==> RaftCore.FinishApplication(old(View()), index) == Stepped(View(), out.value)
    {
      state := state.(applied := index);
      application := None;
      var effects: seq<Effect> := [];
      if state.leader.Some? && index in state.leader.value.clients {
        state := state.(leader := Some(state.leader.value.(clients := state.leader.value.clients - {index})));
        effects := [CompleteClient(index)];
      }
      var answers := CompleteReadyReads();
      out := ScheduleApplication(effects + answers);
    }

    method Deliver(from: NodeId, m: Message) returns (out: Option<seq<Effect>>)
      requires nextLogId <= U64_MAX
      modifies this
      ensures out.None? ==> DeliverMessage(old(View()), from, m).Refused?
      ensures out.Some? ==> DeliverMessage(old(View()), from, m) == Stepped(View(), out.value)
    {
      if m.AppendRequest? && !AppendRequestValid(m) { return None; }
      out := StepSpecification(Receive(from, m));
      if out.Some? && m.AppendResponse? {
        var effects := AcknowledgeRead(out.value, from, m);
        out := Some(effects);
      }
    }

    method CompleteApplication(input: Input) returns (out: Option<seq<Effect>>)
      requires input.Applied? || input.ApplyFailed? || input.RetryApply?
      modifies this
      ensures out.None? ==> CoreStep(old(View()), input).Refused?
      ensures out.Some? ==> CoreStep(old(View()), input) == Stepped(View(), out.value)
    {
      match input
      case Applied(id, index) =>
        if !MatchesApplication(View(), id, index) { return None; }
        out := FinishApplication(index);
      case ApplyFailed(id, index) =>
        if !MatchesApplication(View(), id, index) { return None; }
        application := Some(application.value.(blocked := true));
        out := Some([Backpressured(index)]);
      case RetryApply =>
        if application.None? || !application.value.blocked || nextApplyId >= APPLY_ID_LIMIT { return None; }
        application := Some(application.value.(id := nextApplyId, blocked := false));
        nextApplyId := nextApplyId + 1;
        out := Some([ApplyEntry(application.value.id, application.value.entry)]);
    }

    /** One input. The object does what the function `CoreStep` says. */
    method Step(input: Input) returns (out: Option<seq<Effect>>)
      requires nextLogId <= U64_MAX
      modifies this
      ensures out.None? ==> CoreStep(old(View()), input).Refused?
      ensures out.Some? ==> CoreStep(old(View()), input) == Stepped(View(), out.value)
      ensures out.Some? ==> nextLogId <= U64_MAX
    {
      LogIdsStay(View(), input);
      if input.Applied? || input.ApplyFailed? || input.RetryApply? {
        out := CompleteApplication(input);
        return;
      }
      if input.LogDone? {
        if pendingLog.None? || input.logId != pendingLog.value.id || input.log != pendingLog.value.log {
          return None;
        }
        var deferred := pendingLog.value.deferred;
        pendingLog := None;
        out := ScheduleApplication(deferred);
        return;
      }
      if pendingLog.Some? { return None; }
      match input
      case HardDone(id, hard) => out := StepSpecification(HardPersisted(id, hard));
      case Read(request) => out := BeginRead(request);
      case CancelRead(request) =>
        var effects := EndRead(request, Cancelled);
        out := Some(effects);
      case TimeoutRead(request) =>
        var effects := EndRead(request, TimedOut);
        out := Some(effects);
      case Timeout => out := StepSpecification(ElectionTimeout);
      case Heartbeat =>
        if state.role.Leader? { out := StepSpecification(HeartbeatTimeout); } else { out := Some([]); }
      case Client(command) => out := StepSpecification(ClientCommand(command));
      case Deliver(from, m) => out := this.Deliver(from, m);
    }
  }

  /** The walk over the waiting reads, one read at a time. */
  lemma ReadsHead(waiting: seq<PendingRead>, applied: LogIndex)
    requires waiting != []
    ensures var w, rest := waiting[0], waiting[1..];
      if Ready(w, applied)
      then StillWaiting(waiting, applied) == StillWaiting(rest, applied)
           && Answers(waiting, applied) == [ReadAnswered(w.request, w.index)] + Answers(rest, applied)
      else StillWaiting(waiting, applied) == [w] + StillWaiting(rest, applied)
           && Answers(waiting, applied) == Answers(rest, applied)
  {
  }

  lemma NoReads(applied: LogIndex)
    ensures StillWaiting([], applied) == [] && Answers([], applied) == []
  {
  }

  /** Log-write ids stay within 64 bits. */
  lemma LogIdsStay(c: Core, input: Input)
    requires c.nextLogId <= U64_MAX
    ensures CoreStep(c, input).Stepped? ==> CoreStep(c, input).core.nextLogId <= U64_MAX
  {
    hide StepSpec, BeginRead, AppendRequestValid, MatchesApplication, Answers, StillWaiting, Acknowledged,
        WithoutRequest;
    match input {
      case HardDone(id, hard) => SpecIds(c, HardPersisted(id, hard));
      case Timeout => SpecIds(c, ElectionTimeout);
      case Heartbeat => SpecIds(c, HeartbeatTimeout);
      case Client(command) => SpecIds(c, ClientCommand(command));
      case Deliver(from, m) => SpecIds(c, Receive(from, m));
      case Read(request) => ReadIds(c, request);
      case _ =>
    }
  }

  lemma SpecIds(c: Core, event: Event)
    requires c.nextLogId <= U64_MAX
    ensures StepSpec(c, event).Stepped? ==> StepSpec(c, event).core.nextLogId <= U64_MAX
  {
    hide Figure2.Step, TranslateEffects, RoleEffects, FirstLogWrite;
  }

  lemma ReadIds(c: Core, request: RequestId)
    requires c.nextLogId <= U64_MAX
    ensures BeginRead(c, request).Stepped? ==> BeginRead(c, request).core.nextLogId <= U64_MAX
  {
    hide StepSpec, CommitTerm, WithContext;
    var read := PendingRead(c.nextContext, request, c.state.commit, {c.state.node}, false);
    SpecIds(c.(used := c.used + {request}, nextContext := c.nextContext + 1, waiting := c.waiting + [read]),
            HeartbeatTimeout);
  }
}
