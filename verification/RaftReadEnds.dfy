/** Reads are neither lost nor ended twice: in every step and over every life of a node, the accepted
    requests are those that still wait and those that were ended, each ended by exactly one answer,
    cancellation, time-out or loss of leadership. */
module RaftReadEnds {
  import opened RaftTypes
  import opened Figure2
  import opened RaftCore
  import opened RaftCoreOrder
  import opened RaftCoreMeaning
  import opened RaftCluster
  import opened RaftSafety

  // ---- Counting ------------------------------------------------------------

  /** The rejections of a waiting read; the other reasons refuse a new request. */
  predicate EndsWaiting(reason: ReadFailure) {
    reason.Cancelled? || reason.TimedOut? || reason.LeadershipLost?
  }

  predicate IsEnd(e: Effect, q: RequestId) {
    (e.ReadAnswered? && e.request == q) || (e.ReadRejected? && e.rejected == q && EndsWaiting(e.reason))
  }

  /** How often the effects end a waiting read of `q`. */
  function Ended(effects: seq<Effect>, q: RequestId): nat {
    if effects == [] then 0 else (if IsEnd(effects[0], q) then 1 else 0) + Ended(effects[1..], q)
  }

  /** How many reads of `q` wait. */
  function Waiting(waiting: seq<PendingRead>, q: RequestId): nat {
    if waiting == [] then 0 else (if waiting[0].request == q then 1 else 0) + Waiting(waiting[1..], q)
  }

  /** Whether a step accepts `q`: it is asked to read, and does not reject the request. */
  function Opened(input: Input, effects: seq<Effect>, q: RequestId): (k: nat)
    ensures k <= 1
  {
    if input == Read(q) && forall i :: 0 <= i < |effects| ==> !(effects[i].ReadRejected? && effects[i].rejected == q)
    then 1
    else 0
  }

  lemma {:induction false} EndedSplit(a: seq<Effect>, b: seq<Effect>, q: RequestId)
    ensures Ended(a + b, q) == Ended(a, q) + Ended(b, q)
  {
    if a == [] {
      assert [] + b == b;
    } else {
      EndedSplit(a[1..], b, q);
      assert (a + b)[1..] == a[1..] + b && (a + b)[0] == a[0];
    }
  }

  lemma {:induction false} WaitingSplit(a: seq<PendingRead>, b: seq<PendingRead>, q: RequestId)
    ensures Waiting(a + b, q) == Waiting(a, q) + Waiting(b, q)
  {
    if a == [] {
      assert [] + b == b;
    } else {
      WaitingSplit(a[1..], b, q);
      assert (a + b)[1..] == a[1..] + b && (a + b)[0] == a[0];
    }
  }

  lemma {:induction false} EndedInNotices(effects: seq<Effect>, q: RequestId)
    ensures Ended(effects, q) == Ended(Notices(effects), q)
  {
    if effects != [] {
      EndedInNotices(effects[1..], q);
      EndedSplit(if IsNotice(effects[0]) then [effects[0]] else [], Notices(effects[1..]), q);
    }
  }

  lemma {:induction false} NoneEnded(effects: seq<Effect>, q: RequestId)
    requires forall i :: 0 <= i < |effects| ==> !IsEnd(effects[i], q)
    ensures Ended(effects, q) == 0
  {
    if effects != [] { NoneEnded(effects[1..], q); }
  }

  lemma {:induction false} RejectedAll(waiting: seq<PendingRead>, reason: ReadFailure, q: RequestId)
    requires EndsWaiting(reason)
    ensures Ended(Rejections(waiting, reason), q) == Waiting(waiting, q)
  {
    if waiting != [] {
      RejectedAll(waiting[1..], reason, q);
      assert Rejections(waiting, reason)[1..] == Rejections(waiting[1..], reason);
    }
  }

  lemma {:induction false} AnsweredOrWaiting(waiting: seq<PendingRead>, applied: LogIndex, q: RequestId)
    ensures Waiting(StillWaiting(waiting, applied), q) + Ended(Answers(waiting, applied), q) == Waiting(waiting, q)
  {
    if waiting != [] {
      var w, rest := waiting[0], waiting[1..];
      AnsweredOrWaiting(rest, applied, q);
      WaitingSplit(if Ready(w, applied) then [] else [w], StillWaiting(rest, applied), q);
      EndedSplit(if Ready(w, applied) then [ReadAnswered(w.request, w.index)] else [], Answers(rest, applied), q);
    }
  }

  lemma {:induction false} SameRequests(a: seq<PendingRead>, b: seq<PendingRead>, q: RequestId)
    requires |a| == |b| && forall i :: 0 <= i < |a| ==> a[i].request == b[i].request
    ensures Waiting(a, q) == Waiting(b, q)
  {
    if a != [] { SameRequests(a[1..], b[1..], q); }
  }

  lemma RemovedOne(waiting: seq<PendingRead>, i: nat, q: RequestId)
    requires i < |waiting|
    ensures Waiting(waiting[..i] + waiting[i + 1..], q) + Waiting([waiting[i]], q) == Waiting(waiting, q)
  {
    hide Waiting;
    var one, rest := [waiting[i]], waiting[i + 1..];
    assert waiting == waiting[..i] + (one + rest);
    WaitingSplit(waiting[..i], one + rest, q);
    WaitingSplit(one, rest, q);
    WaitingSplit(waiting[..i], rest, q);
  }

  lemma OneWaits(w: PendingRead, q: RequestId)
    ensures Waiting([w], q) == if w.request == q then 1 else 0
  {
  }

  lemma OneEnds(e: Effect, q: RequestId)
    ensures Ended([e], q) == if IsEnd(e, q) then 1 else 0
  {
  }

  lemma {:induction false} WaitsIff(waiting: seq<PendingRead>, q: RequestId)
    ensures Waiting(waiting, q) > 0 <==> HasRequest(waiting, q)
  {
    if waiting != [] {
      var rest := waiting[1..];
      WaitsIff(rest, q);
      assert HasRequest(waiting, q) <==> waiting[0].request == q || HasRequest(rest, q) by {
        assert forall i :: 0 <= i < |rest| ==> rest[i] == waiting[i + 1];
      }
    }
  }

  lemma HandedEndsNothing(c: Core, c': Core, q: RequestId)
    ensures Ended(Handed(c, c'), q) == 0
  {
  }

  // ---- Every step ----------------------------------------------------------

  predicate SameCount(c: Core, r: CoreOutcome, q: RequestId)
    requires r.Stepped?
  {
    Waiting(r.core.waiting, q) + Ended(r.effects, q) == Waiting(c.waiting, q)
  }

  lemma SpecConserves(c: Core, r: CoreOutcome, q: RequestId)
    requires r.Stepped? && SpecTells(c, r)
    ensures SameCount(c, r, q)
  {
    hide Ended, Notices, Handed, HandsNext, Rejections;
    EndedInNotices(r.effects, q);
    HandedEndsNothing(c, r.core, q);
    EndedSplit(if Deposed(c.state, r.core.state) then Rejections(c.waiting, LeadershipLost) else [],
               Handed(c, r.core), q);
    RejectedAll(c.waiting, LeadershipLost, q);
    NoneEnded([], q);
  }

  lemma DeliverConserves(c: Core, from: NodeId, m: Message, q: RequestId)
    requires CoreSound(c) && c.pendingLog.None? && DeliverMessage(c, from, m).Stepped?
    ensures SameCount(c, DeliverMessage(c, from, m), q) && DeliverMessage(c, from, m).core.used == c.used
  {
    hide StepSpec, CoreSound, AppendRequestValid, Ended, Waiting, StillWaiting, Answers, Busy, Notices, Handed,
        HandsNext;
    SpecStepTells(c, Receive(from, m));
    var spec := StepSpec(c, Receive(from, m));
    SpecConserves(c, spec, q);
    if m.AppendResponse? && m.context.Some? {
      var counted := Acknowledged(spec.core.waiting, m.context.value, from, Majority(spec.core.state));
      SameRequests(counted, spec.core.waiting, q);
      AnsweredOrWaiting(counted, spec.core.state.applied, q);
      EndedSplit(spec.effects, Answers(counted, spec.core.state.applied), q);
    }
  }

  lemma FinishConserves(c: Core, id: nat, index: LogIndex, q: RequestId)
    requires CoreSound(c) && CoreStep(c, Applied(id, index)).Stepped?
    ensures SameCount(c, CoreStep(c, Applied(id, index)), q) && CoreStep(c, Applied(id, index)).core.used == c.used
  {
    hide CoreStep, CoreSound, StillWaiting, Answers, Waiting, Busy, HandsNext, Handed, AppliedTo, Registered;
    FinishMeans(c, id, index);
    var r := CoreStep(c, Applied(id, index));
    var first := if Registered(c.state, index) then [CompleteClient(index)] else [];
    AnsweredOrWaiting(c.waiting, index, q);
    EndedSplit(first + Answers(c.waiting, index), Handed(c, r.core), q);
    EndedSplit(first, Answers(c.waiting, index), q);
    HandedEndsNothing(c, r.core, q);
    NoneEnded(first, q);
  }

  lemma EndConserves(c: Core, request: RequestId, reason: ReadFailure, r: CoreOutcome, q: RequestId)
    requires EndsRead(c, request, reason, r) && EndsWaiting(reason) && r.Stepped?
    ensures SameCount(c, r, q) && r.core.used == c.used
  {
    hide Waiting, Ended;
    if HasRequest(c.waiting, request) {
      var i :| 0 <= i < |c.waiting| && c.waiting[i].request == request
        && r == Stepped(c.(waiting := c.waiting[..i] + c.waiting[i + 1..]), [ReadRejected(request, reason)]);
      RemovedOne(c.waiting, i, q);
      OneWaits(c.waiting[i], q);
      OneEnds(ReadRejected(request, reason), q);
    } else {
      NoneEnded([], q);
    }
  }

  lemma OfferedEndsNothing(s: State, context: ReadContext, effects: seq<Effect>, more: seq<Effect>, q: RequestId)
    requires |s.peers| <= |effects| && OffersWith(s, context, effects[..|s.peers|]) && effects[|s.peers|..] == more
    requires forall i :: 0 <= i < |more| ==> more[i].ApplyEntry?
    ensures Ended(effects, q) == 0 && forall i :: 0 <= i < |effects| ==> !effects[i].ReadRejected?
  {
    hide Ended;
    var front := effects[..|s.peers|];
    assert effects == front + more;
    assert forall i :: 0 <= i < |front| ==> front[i].Send?;
    forall i | 0 <= i < |effects| ensures !effects[i].ReadRejected? && !IsEnd(effects[i], q) {
      assert effects[i] == if i < |front| then front[i] else more[i - |front|];
    }
    NoneEnded(effects, q);
  }

  /** What a step does to the requests: each waits or was ended, and a new one was never used. */
  predicate Conserved(c: Core, input: Input, r: CoreOutcome, q: RequestId)
    requires r.Stepped?
  {
    && Waiting(r.core.waiting, q) + Ended(r.effects, q) == Waiting(c.waiting, q) + Opened(input, r.effects, q)
    && (Opened(input, r.effects, q) == 1 ==> q !in c.used)
    && (q in r.core.used <==> q in c.used || Opened(input, r.effects, q) == 1)
  }

  lemma ReadConserves(c: Core, request: RequestId, q: RequestId)
    requires CoreSound(c) && c.pendingLog.None? && CoreStep(c, Read(request)).Stepped?
    ensures Conserved(c, Read(request), CoreStep(c, Read(request)), q)
  {
    hide CoreStep, CoreSound, Waiting, Busy, HandsNext, OffersWith, Ended;
    BeginReadMeans(c, request);
    var r := CoreStep(c, Read(request));
    if r.core == c {
      assert exists reason :: r == Stepped(c, [ReadRejected(request, reason)]) && !EndsWaiting(reason);
      assert r.effects[0].ReadRejected?;
      NoneEnded(r.effects, q);
    } else {
      OfferedEndsNothing(c.state, c.nextContext, r.effects, Handed(c, r.core), q);
      var read := PendingRead(c.nextContext, request, c.state.commit, {c.state.node}, false);
      WaitingSplit(c.waiting, [read], q);
      OneWaits(read, q);
    }
  }

  lemma SpecInput(c: Core, event: Event, q: RequestId)
    requires CoreSound(c) && StepSpec(c, event).Stepped? && !event.ApplyCommitted? && !event.Receive?
    ensures SameCount(c, StepSpec(c, event), q) && StepSpec(c, event).core.used == c.used
  {
    hide StepSpec, CoreSound, Ended, Waiting, Busy, Notices, Handed, HandsNext;
    SpecStepTells(c, event);
    SpecConserves(c, StepSpec(c, event), q);
  }

  lemma QuietInput(c: Core, input: Input, q: RequestId)
    requires CoreSound(c) && CoreStep(c, input).Stepped? && (input.ApplyFailed? || input.RetryApply? || input.LogDone?)
    ensures SameCount(c, CoreStep(c, input), q) && CoreStep(c, input).core.used == c.used
  {
    hide Waiting;
    var r := CoreStep(c, input);
    if input.LogDone? {
      hide CoreStep, Busy, HandsNext, Handed;
      LogDoneMeans(c, input.logId, input.log);
      assert Plain(c.pendingLog.value.deferred);
      hide CoreSound;
      EndedSplit(c.pendingLog.value.deferred, Handed(c, r.core), q);
      HandedEndsNothing(c, r.core, q);
      NoneEnded(c.pendingLog.value.deferred, q);
    } else {
      hide CoreSound;
      NoneEnded(r.effects, q);
    }
  }

  /** Every accepted input conserves the reads: a request that waited or is accepted now either waits
      afterwards or is ended by exactly one effect, and only a request never used before is accepted. */
  lemma ReadsConserved(c: Core, input: Input, q: RequestId)
    requires CoreSound(c) && CoreStep(c, input).Stepped?
    ensures Conserved(c, input, CoreStep(c, input), q)
  {
    var r := CoreStep(c, input);
    if input.Read? {
      hide CoreSound, Conserved, BeginRead;
      ReadConserves(c, input.request, q);
    } else {
      NotRead(c, input, q);
      hide CoreSound, CoreStep;
    }
  }

  lemma NotRead(c: Core, input: Input, q: RequestId)
    requires CoreSound(c) && CoreStep(c, input).Stepped? && !input.Read?
    ensures SameCount(c, CoreStep(c, input), q) && CoreStep(c, input).core.used == c.used
  {
    hide CoreSound, StepSpec, DeliverMessage, FinishApplication, EndRead, Schedule, MatchesApplication, Ended, Waiting,
        EndsRead;
    match input {
      case Applied(id, index) => FinishConserves(c, id, index, q);
      case ApplyFailed(_, _) => QuietInput(c, input, q);
      case RetryApply => QuietInput(c, input, q);
      case LogDone(_, _) => QuietInput(c, input, q);
      case HardDone(id, hard) => SpecInput(c, HardPersisted(id, hard), q);
      case CancelRead(request) =>
        EndReadMeans(c, request);
        EndConserves(c, request, Cancelled, CoreStep(c, input), q);
      case TimeoutRead(request) =>
        EndReadMeans(c, request);
        EndConserves(c, request, TimedOut, CoreStep(c, input), q);
      case Timeout => SpecInput(c, ElectionTimeout, q);
      case Heartbeat =>
        if c.state.role.Leader? { SpecInput(c, HeartbeatTimeout, q); } else { NoneEnded([], q); }
      case Client(command) => SpecInput(c, ClientCommand(command), q);
      case Deliver(from, m) => DeliverConserves(c, from, m, q);
    }
  }

  // ---- Every life ----------------------------------------------------------

  /** A request waits at most once, and only if it was used. */
  ghost predicate UsedOnce(c: Core) {
    forall q :: Waiting(c.waiting, q) <= if q in c.used then 1 else 0
  }

  ghost predicate AllSound(c: Cluster) {
    forall n :: n in c.up ==> CoreSound(c.up[n]) && UsedOnce(c.up[n])
  }

  lemma RebornSound(c: Cluster, n: NodeId)
    requires CanRestart(c, n)
    ensures CoreSound(Reborn(c, n)) && UsedOnce(Reborn(c, n))
  {
  }

  lemma CoreStaysSound(c: Core, input: Input)
    requires CoreSound(c) && UsedOnce(c) && CoreStep(c, input).Stepped?
    ensures CoreSound(CoreStep(c, input).core) && UsedOnce(CoreStep(c, input).core)
  {
    hide CoreStep, CoreSound, Waiting, Ended, Opened;
    CoreStepInOrder(c, input);
    var r := CoreStep(c, input);
    forall q ensures Waiting(r.core.waiting, q) <= if q in r.core.used then 1 else 0 {
      ReadsConserved(c, input, q);
    }
  }

  lemma NextSound(c: Cluster, a: Action, c': Cluster)
    requires AllSound(c) && Next(c, a) == Some(c')
    ensures AllSound(c')
  {
    hide CoreSound, UsedOnce, CoreStep, Record, Released, Reborn, CanRestart;
    if CoreOutcomeOf(c, a).Stepped? { CoreStaysSound(c.up[ActionNode(a)], InputOf(c, a).value); }
    if a.Restart? { RebornSound(c, a.node); }
  }

  lemma {:induction false} RunSound(r: Run, i: nat)
    requires IsRun(r) && i < |r.states|
    ensures AllSound(r.states[i])
  {
    hide AllSound, Next;
    if i > 0 {
      RunSound(r, i - 1);
      NextSound(r.states[i - 1], r.actions[i - 1], r.states[i]);
    } else {
      StartSound(r.states[0]);
    }
  }

  lemma StartSound(c: Cluster)
    requires Init(c)
    ensures AllSound(c)
  {
  }

  function Acts(r: Run, n: NodeId, k: nat): bool
    requires k < |r.actions| && k < |r.states|
  {
    ActionNode(r.actions[k]) == n && CoreOutcomeOf(r.states[k], r.actions[k]).Stepped?
  }

  /** How often the steps from `i` to `j` end a waiting read of `q` at node `n`. */
  function EndedIn(r: Run, n: NodeId, i: nat, j: nat, q: RequestId): nat
    requires i <= j <= |r.actions| && |r.actions| <= |r.states|
  {
    if i == j then 0
    else EndedIn(r, n, i, j - 1, q)
         + if Acts(r, n, j - 1) then Ended(EffectsOf(r.states[j - 1], r.actions[j - 1]), q) else 0
  }

  /** How often they accept `q`. */
  function OpenedIn(r: Run, n: NodeId, i: nat, j: nat, q: RequestId): nat
    requires i <= j <= |r.actions| && |r.actions| <= |r.states|
  {
    if i == j then 0
    else
      var c, a := r.states[j - 1], r.actions[j - 1];
      OpenedIn(r, n, i, j - 1, q)
      + if Acts(r, n, j - 1) then Opened(InputOf(c, a).value, EffectsOf(c, a), q) else 0
  }

  /** Over any part of one life, the reads of a request add up: what waited or was accepted waits or
      was ended, and a used request is not accepted again. */
  lemma {:induction false} ReadsAddUp(r: Run, n: NodeId, i: nat, j: nat, q: RequestId)
    requires IsRun(r) && Alive(r, n, i, j)
    ensures var before, after := r.states[i].up[n], r.states[j].up[n];
      && Waiting(after.waiting, q) + EndedIn(r, n, i, j, q) == Waiting(before.waiting, q) + OpenedIn(r, n, i, j, q)
      && (if q in before.used then q in after.used && OpenedIn(r, n, i, j, q) == 0
          else OpenedIn(r, n, i, j, q) == if q in after.used then 1 else 0)
  {
    hide IsRun, Next, CoreOutcomeOf, Waiting, Ended, Opened, EffectsOf, InputOf, AllSound, CoreStep;
    if i < j {
      ReadsAddUp(r, n, i, j - 1, q);
      RunNext(r, j - 1);
      RunSound(r, j - 1);
      var c, a := r.states[j - 1], r.actions[j - 1];
      if Acts(r, n, j - 1) {
        ActionConserves(c, a, r.states[j], q);
        hide AllSound;
      } else {
        UnchangedNode(c, a, r.states[j], n);
      }
    }
  }

  lemma ActionConserves(c: Cluster, a: Action, c': Cluster, q: RequestId)
    requires AllSound(c) && Next(c, a) == Some(c') && CoreOutcomeOf(c, a).Stepped?
    ensures var n := ActionNode(a);
      && n in c.up && n in c'.up && InputOf(c, a).Some? && CoreOutcomeOf(c, a) == CoreStep(c.up[n], InputOf(c, a).value)
      && c'.up[n] == CoreOutcomeOf(c, a).core && EffectsOf(c, a) == CoreOutcomeOf(c, a).effects
      && Conserved(c.up[n], InputOf(c, a).value, CoreOutcomeOf(c, a), q)
  {
    hide CoreStep, CoreSound, Conserved, UsedOnce, Record, Released;
    ReadsConserved(c.up[ActionNode(a)], InputOf(c, a).value, q);
  }

  /** Within one life a request is ended at most once, by an answer or by a rejection of the waiting
      read; from then on it no longer waits. Whatever ended was accepted. */
  lemma ReadsEndOnce(r: Run, n: NodeId, i: nat, j: nat, q: RequestId)
    requires IsRun(r) && Alive(r, n, i, j)
    ensures EndedIn(r, n, i, j, q) <= 1
    ensures EndedIn(r, n, i, j, q) == 1 ==> !HasRequest(r.states[j].up[n].waiting, q)
    ensures EndedIn(r, n, i, j, q) == 1 ==> HasRequest(r.states[i].up[n].waiting, q) || OpenedIn(r, n, i, j, q) == 1
  {
    hide IsRun, Waiting, EndedIn, OpenedIn, CoreSound;
    ReadsAddUp(r, n, i, j, q);
    RunSound(r, i);
    WaitsIff(r.states[i].up[n].waiting, q);
    WaitsIff(r.states[j].up[n].waiting, q);
    assert UsedOnce(r.states[i].up[n]);
  }

  /** In particular no two effects of one life end the same request. */
  lemma NoSecondEnd(r: Run, n: NodeId, a: nat, b: nat, x: nat, y: nat, q: RequestId)
    requires IsRun(r) && a <= b < |r.actions| && Alive(r, n, a, b + 1) && Acts(r, n, a) && Acts(r, n, b)
    requires x < |EffectsOf(r.states[a], r.actions[a])| && IsEnd(EffectsOf(r.states[a], r.actions[a])[x], q)
    requires y < |EffectsOf(r.states[b], r.actions[b])| && IsEnd(EffectsOf(r.states[b], r.actions[b])[y], q)
    ensures a == b && x == y
  {
    hide IsRun, EffectsOf, IsEnd, CoreOutcomeOf, Ended;
    var ea, eb := EffectsOf(r.states[a], r.actions[a]), EffectsOf(r.states[b], r.actions[b]);
    EndCounts(ea, x, q);
    EndCounts(eb, y, q);
    if a < b {
      EndedFrom(r, n, a, b, q);
    } else if x != y {
      EndCountsTwice(ea, Min(x, y), Max(x, y), q);
    }
    ReadsEndOnce(r, n, a, b + 1, q);
  }

  lemma EndCountsTwice(effects: seq<Effect>, x: nat, y: nat, q: RequestId)
    requires x < y < |effects| && IsEnd(effects[x], q) && IsEnd(effects[y], q)
    ensures Ended(effects, q) >= 2
  {
    hide Ended, IsEnd;
    assert effects == effects[..y] + effects[y..];
    EndedSplit(effects[..y], effects[y..], q);
    EndCounts(effects[..y], x, q);
    EndCounts(effects[y..], 0, q);
  }

  lemma {:induction false} EndedFrom(r: Run, n: NodeId, a: nat, b: nat, q: RequestId)
    requires a < b <= |r.actions| && |r.actions| <= |r.states| && Acts(r, n, a)
    ensures EndedIn(r, n, a, b, q) >= Ended(EffectsOf(r.states[a], r.actions[a]), q)
  {
    hide Ended, EffectsOf, CoreOutcomeOf;
    if a + 1 < b { EndedFrom(r, n, a, b - 1, q); }
  }

  lemma {:induction false} EndCounts(effects: seq<Effect>, k: nat, q: RequestId)
    requires k < |effects| && IsEnd(effects[k], q)
    ensures Ended(effects, q) >= 1
  {
    if k > 0 { EndCounts(effects[1..], k - 1, q); }
  }
}
