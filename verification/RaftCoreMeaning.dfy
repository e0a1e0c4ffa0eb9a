/** What each input of Core means to its environment: which reads it opens and ends, which clients it
    completes and which entry it hands out, said of the reads and entries the node holds. Snapshots
    are included: nothing here assumes an uncompacted log. */
module RaftCoreMeaning {
  import opened RaftTypes
  import opened Figure2
  import opened Figure2Proofs
  import opened Figure2Meaning
  import opened RaftCore
  import opened RaftCoreOrder

  // ---- What the environment is told ----------------------------------------

  predicate IsNotice(e: Effect) {
    e.ApplyEntry? || e.CompleteClient? || e.ReadAnswered? || e.ReadRejected?
  }

  /** The hand-outs, completions and ends of reads among the effects, in order. */
  function Notices(effects: seq<Effect>): seq<Effect> {
    if effects == [] then []
    else (if IsNotice(effects[0]) then [effects[0]] else []) + Notices(effects[1..])
  }

  lemma {:induction false} NoticesSplit(a: seq<Effect>, b: seq<Effect>)
    ensures Notices(a + b) == Notices(a) + Notices(b)
  {
    if a == [] {
      assert [] + b == b;
    } else {
      NoticesSplit(a[1..], b);
      assert (a + b)[1..] == a[1..] + b && (a + b)[0] == a[0];
    }
  }

  lemma {:induction false} PlainTellsNothing(effects: seq<Effect>)
    requires Plain(effects)
    ensures Notices(effects) == []
  {
    if effects != [] {
      assert Plain(effects[1..]);
      PlainTellsNothing(effects[1..]);
    }
  }

  lemma {:induction false} AllNotices(effects: seq<Effect>)
    requires forall i :: 0 <= i < |effects| ==> IsNotice(effects[i])
    ensures Notices(effects) == effects
  {
    if effects != [] { AllNotices(effects[1..]); }
  }

  lemma {:induction false} NoticesHold(effects: seq<Effect>, e: Effect)
    requires IsNotice(e)
    ensures e in effects <==> e in Notices(effects)
  {
    if effects != [] { NoticesHold(effects[1..], e); }
  }

  lemma {:induction false} AnswersAreNotices(waiting: seq<PendingRead>, applied: LogIndex)
    ensures Notices(Answers(waiting, applied)) == Answers(waiting, applied)
  {
    if waiting != [] {
      AnswersAreNotices(waiting[1..], applied);
      var head := if Ready(waiting[0], applied) then [ReadAnswered(waiting[0].request, waiting[0].index)] else [];
      NoticesSplit(head, Answers(waiting[1..], applied));
    }
  }

  lemma {:induction false} RejectionsAreNotices(waiting: seq<PendingRead>, reason: ReadFailure)
    ensures Notices(Rejections(waiting, reason)) == Rejections(waiting, reason)
  {
    if waiting != [] {
      RejectionsAreNotices(waiting[1..], reason);
      assert Rejections(waiting, reason)[1..] == Rejections(waiting[1..], reason);
    }
  }

  // ---- Handing out ---------------------------------------------------------

  /** An id is issued for each hand-out, and the entry handed out is the one in the slot. */
  function Handed(c: Core, c': Core): seq<Effect> {
    if c'.nextApplyId == c.nextApplyId || c'.application.None? then []
    else [ApplyEntry(c.nextApplyId, c'.application.value.entry)]
  }

  predicate HandsNext(c: Core, c': Core) {
    || c'.nextApplyId == c.nextApplyId
    || (c'.nextApplyId == c.nextApplyId + 1 && c'.application.Some? && !c'.application.value.blocked
        && c'.application.value.id == c.nextApplyId)
  }

  /** Nothing committed is left behind: the slot is empty only if everything committed is applied. */
  predicate Busy(c: Core) {
    c.application.Some? || c.state.applied == c.state.commit
  }

  /** The entry after the last applied is handed out if it is committed and none is being applied. */
  lemma ScheduleMeans(c: Core, effects: seq<Effect>)
    requires Valid(c.state)
    ensures var r := Schedule(c, effects);
      if Busy(c) then r == Stepped(c, effects)
      else if c.nextApplyId >= APPLY_ID_LIMIT then r.Refused?
      else
        exists k :: 0 <= k < |c.state.log| && c.state.log[k].index == c.state.applied + 1
          && r == Stepped(c.(application := Some(PendingApplication(c.nextApplyId, c.state.log[k], false)),
                             nextApplyId := c.nextApplyId + 1),
                          effects + [ApplyEntry(c.nextApplyId, c.state.log[k])])
  {
    if !Busy(c) {
      var k := c.state.applied - Base(c.state);
      assert c.state.log[k].index == c.state.applied + 1;
    }
  }

  lemma ScheduledWell(c: Core, effects: seq<Effect>)
    requires Valid(c.state)
    ensures var r := Schedule(c, effects);
      && (r.Refused? <==> !Busy(c) && c.nextApplyId >= APPLY_ID_LIMIT)
      && (r.Stepped? ==>
            && r.core == c.(application := r.core.application, nextApplyId := r.core.nextApplyId)
            && Busy(r.core) && HandsNext(c, r.core) && r.effects == effects + Handed(c, r.core))
  {
    ScheduleMeans(c, effects);
    hide Valid;
    assert effects + [] == effects;
  }

  lemma ScheduleTells(c: Core, effects: seq<Effect>)
    requires Schedule(c, effects).Stepped?
    ensures var r := Schedule(c, effects);
      && r.core == c.(application := r.core.application, nextApplyId := r.core.nextApplyId)
      && Notices(r.effects) == Notices(effects) + Handed(c, r.core) && HandsNext(c, r.core)
      && (Valid(c.state) ==> Busy(r.core))
  {
    var r := Schedule(c, effects);
    var more := Handed(c, r.core);
    NoticesSplit(effects, more);
    AllNotices(more);
    assert r.effects == effects + more;
  }

  // ---- A step of the specification -----------------------------------------

  predicate Deposed(s: State, s': State) {
    s.role.Leader? && !s'.role.Leader?
  }

  /** A leader that steps down ends every waiting read, in order, and keeps none. */
  predicate SpecTells(c: Core, r: CoreOutcome)
    requires r.Stepped?
  {
    && r.core.waiting == (if Deposed(c.state, r.core.state) then [] else c.waiting)
    && r.core.used == c.used && r.core.nextContext == c.nextContext
    && Notices(r.effects) == (if Deposed(c.state, r.core.state) then Rejections(c.waiting, LeadershipLost) else [])
                             + Handed(c, r.core)
    && HandsNext(c, r.core)
  }

  lemma RoleTells(c: Core, s: State)
    ensures Notices(RoleEffects(c, s, c.state.role))
         == if Deposed(c.state, s) then Rejections(c.waiting, LeadershipLost) else []
  {
    RejectionsAreNotices(c.waiting, LeadershipLost);
    if s.role != c.state.role {
      var lost := if c.state.role.Leader? then Rejections(c.waiting, LeadershipLost) else [];
      NoticesSplit([RoleTransition(c.state.role, s.role, s.term)], lost);
    }
  }

  /** The specification's effects in Core's form, up to the log write they wait for. */
  function Gated(c: Core, s: State, effects: seq<Effect>): CoreOutcome {
    var waiting := if s.role != c.state.role && c.state.role.Leader? then [] else c.waiting;
    GateLog(c.(state := s, waiting := waiting, nextLogId := c.nextLogId + LogWrites(effects)),
            RoleEffects(c, s, c.state.role) + TranslateEffects(effects, s.log, c.nextLogId))
  }

  lemma TranslateIs(c: Core, s: State, effects: seq<Effect>)
    requires Translate(c, s, effects, c.state.role).Stepped?
    ensures var g := Gated(c, s, effects);
      && g.Stepped?
      && Translate(c, s, effects, c.state.role)
         == if g.core.state.pending.None? && g.core.pendingLog.None? then Schedule(g.core, g.effects) else g
  {
    hide TranslateEffects, LogWrites, Schedule, GateLog, RoleEffects;
  }

  lemma GatedTells(c: Core, s: State, effects: seq<Effect>)
    requires Plain(effects) && Gated(c, s, effects).Stepped?
    ensures var g := Gated(c, s, effects);
      && g.core == c.(state := s, waiting := if Deposed(c.state, s) then [] else c.waiting,
                      nextLogId := g.core.nextLogId, pendingLog := g.core.pendingLog)
      && Notices(g.effects) == if Deposed(c.state, s) then Rejections(c.waiting, LeadershipLost) else []
  {
    hide TranslateEffects, LogWrites, GateLog, RoleEffects, Notices, Rejections;
    var front, rest := RoleEffects(c, s, c.state.role), TranslateEffects(effects, s.log, c.nextLogId);
    RoleEffectsHandNothing(c, s);
    TranslatedPlain(effects, s.log, c.nextLogId);
    var waiting := if s.role != c.state.role && c.state.role.Leader? then [] else c.waiting;
    GateLogCuts(c.(state := s, waiting := waiting, nextLogId := c.nextLogId + LogWrites(effects)), front, rest);
    var j := |Gated(c, s, effects).effects| - |front|;
    RoleTells(c, s);
    PlainTellsNothing(rest[..j]);
    NoticesSplit(front, rest[..j]);
    assert Notices(front) + [] == Notices(front);
  }

  lemma TranslateTells(c: Core, s: State, effects: seq<Effect>)
    requires Plain(effects) && Translate(c, s, effects, c.state.role).Stepped?
    ensures var r := Translate(c, s, effects, c.state.role);
      && r.core.state == s && SpecTells(c, r)
      && (Valid(s) && s.pending.None? && r.core.pendingLog.None? ==> Busy(r.core))
  {
    hide Plain, Translate, Gated, Schedule, Valid, Busy, Handed, HandsNext, Notices, Rejections;
    TranslateIs(c, s, effects);
    GatedTells(c, s, effects);
    var g := Gated(c, s, effects);
    if s.pending.None? && g.core.pendingLog.None? {
      ScheduleTells(g.core, g.effects);
      SameHanded(c, g.core, Translate(c, s, effects, c.state.role).core);
    } else {
      NotHanded(c, g.core);
      assert Notices(g.effects) + [] == Notices(g.effects);
    }
  }

  lemma SameHanded(a: Core, b: Core, c': Core)
    requires a.nextApplyId == b.nextApplyId
    ensures Handed(a, c') == Handed(b, c') && HandsNext(a, c') == HandsNext(b, c')
  {
  }

  lemma NotHanded(c: Core, c': Core)
    requires c'.nextApplyId == c.nextApplyId
    ensures Handed(c, c') == [] && HandsNext(c, c')
  {
  }

  /** An event of the specification ends reads only by ending the leadership. */
  lemma SpecStepTells(c: Core, event: Event)
    requires CoreSound(c) && StepSpec(c, event).Stepped? && !event.ApplyCommitted?
    requires event.Receive? && event.msg.AppendRequest? ==> AppendRequestValid(event.msg)
    ensures var r := StepSpec(c, event);
      && SpecTells(c, r)
      && (r.core.state.pending.None? && r.core.pendingLog.None? ==> Busy(r.core))
  {
    hide Handle, Gate, Translate, Valid, IdsOk, Slot, Real, NoHandOut, Plain, AppendsBeyondTerm, AppendRequestValid,
        SpecTells, Busy;
    var s := c.state;
    HandleInOrder(s, event);
    NoPendingAfterHandle(s, event);
    var h := Handle(s, event);
    GateInOrder(h.state, h.effects);
    TranslateTells(c, Gate(h.state, h.effects).state, Gate(h.state, h.effects).effects);
  }

  // ---- Applying ------------------------------------------------------------

  predicate Registered(s: State, index: LogIndex) {
    s.leader.Some? && index in s.leader.value.clients
  }

  /** The state once `index` is applied: its client, if there is one, is no longer waited for. */
  ghost predicate AppliedTo(s: State, index: LogIndex, s': State) {
    && s' == s.(applied := index, leader := s'.leader) && (s'.leader.Some? <==> s.leader.Some?)
    && (s.leader.Some? ==>
          && s'.leader.value.progress == s.leader.value.progress
          && forall i :: i in s'.leader.value.clients <==> i in s.leader.value.clients && i != index)
  }

  lemma BusyIs(c: Core)
    ensures Busy(c) <==> c.application.Some? || c.state.applied == c.state.commit
  {
  }

  /** A completed application is accepted only for the entry in the slot, under its own id. Its client
      is completed if and only if this leader registered it, then the reads that have become ready are
      answered, and the next committed entry is handed out. */
  lemma FinishMeans(c: Core, id: nat, index: LogIndex)
    requires CoreSound(c)
    ensures var r := CoreStep(c, Applied(id, index));
      if c.application.None? || c.application.value.blocked || c.application.value.id != id
         || c.application.value.entry.index != index then r.Refused?
      else
        && index == c.state.applied + 1
        && (r.Refused? ==> c.nextApplyId >= APPLY_ID_LIMIT && index < c.state.commit)
        && (r.Stepped? ==>
              && AppliedTo(c.state, index, r.core.state) && Busy(r.core) && HandsNext(c, r.core)
              && r.core == c.(state := r.core.state, waiting := StillWaiting(c.waiting, index),
                              application := r.core.application, nextApplyId := r.core.nextApplyId)
              && r.effects == (if Registered(c.state, index) then [CompleteClient(index)] else [])
                              + Answers(c.waiting, index) + Handed(c, r.core))
  {
    if MatchesApplication(c, id, index) {
      assert index == c.state.applied + 1;
      var owned := Registered(c.state, index);
      var s := c.state.(applied := index);
      var s1 := if owned then s.(leader := Some(s.leader.value.(clients := s.leader.value.clients - {index}))) else s;
      FinishedState(c, s1);
      var c1 := CompleteReads(c.(state := s1, application := None));
      var effects := (if owned then [CompleteClient(index)] else []) + Answers(c.waiting, index);
      hide CoreSound, Valid, StillWaiting, Answers, Schedule, Busy, Handed, HandsNext;
      ScheduledWell(c1, effects);
      var r := Schedule(c1, effects);
      if r.Stepped? { SameHanded(c, c1, r.core); }
      BusyIs(c1);
    }
  }

  /** A failed application keeps the slot and blocks it: the application can then only be retried,
      which hands the same entry out under a new id. */
  lemma RetryMeans(c: Core, id: nat, index: LogIndex)
    requires CoreStep(c, ApplyFailed(id, index)).Stepped?
    ensures c.application.Some? && !c.application.value.blocked
    ensures c.application.value.id == id && c.application.value.entry.index == index
    ensures var r := CoreStep(c, ApplyFailed(id, index));
      && r.effects == [Backpressured(index)] && r.core.(application := c.application) == c
      && (forall i, k :: CoreStep(r.core, Applied(i, k)).Refused?)
      && (forall i, k :: CoreStep(r.core, ApplyFailed(i, k)).Refused?)
      && (CoreStep(c, RetryApply).Refused?)
      && var again := CoreStep(r.core, RetryApply);
         if c.nextApplyId >= APPLY_ID_LIMIT then again.Refused?
         else again == Stepped(c.(application :=
             Some(PendingApplication(c.nextApplyId, c.application.value.entry, false)),
                                  nextApplyId := c.nextApplyId + 1),
                               [ApplyEntry(c.nextApplyId, c.application.value.entry)])
  {
  }

  /** The completion of the log write frees what waited for it, and only its own is accepted. */
  lemma LogDoneMeans(c: Core, id: nat, log: seq<LogEntry>)
    requires CoreSound(c)
    ensures var r := CoreStep(c, LogDone(id, log));
      if c.pendingLog.None? || c.pendingLog.value.id != id || c.pendingLog.value.log != log then r.Refused?
      else if !Busy(c) && c.nextApplyId >= APPLY_ID_LIMIT then r.Refused?
      else
        && r.Stepped? && Busy(r.core) && HandsNext(c, r.core)
        && r.core == c.(pendingLog := None, application := r.core.application, nextApplyId := r.core.nextApplyId)
        && r.effects == c.pendingLog.value.deferred + Handed(c, r.core)
  {
    if c.pendingLog.Some? {
      var c1 := c.(pendingLog := None);
      SoundParts(c.state);
      hide CoreSound, Valid, Schedule, Handed, HandsNext;
      ScheduledWell(c1, c.pendingLog.value.deferred);
      var r := Schedule(c1, c.pendingLog.value.deferred);
      if r.Stepped? { SameHanded(c, c1, r.core); }
    }
  }

  // ---- Reads ---------------------------------------------------------------

  predicate HasRequest(waiting: seq<PendingRead>, request: RequestId) {
    exists i :: 0 <= i < |waiting| && waiting[i].request == request
  }

  /** Cancelling or timing out a waiting read removes exactly that read, leaves the others in order,
      and says which of the two it was; for any other request nothing happens. */
  predicate EndsRead(c: Core, request: RequestId, reason: ReadFailure, r: CoreOutcome) {
    if HasRequest(c.waiting, request) then
      exists i :: 0 <= i < |c.waiting| && c.waiting[i].request == request
        && (forall j :: 0 <= j < i ==> c.waiting[j].request != request)
        && r == Stepped(c.(waiting := c.waiting[..i] + c.waiting[i + 1..]), [ReadRejected(request, reason)])
    else r == Stepped(c, [])
  }

  lemma {:induction false} WithoutAt(waiting: seq<PendingRead>, request: RequestId) returns (i: nat)
    requires HasRequest(waiting, request)
    ensures i < |waiting| && waiting[i].request == request
    ensures forall j :: 0 <= j < i ==> waiting[j].request != request
    ensures WithoutRequest(waiting, request) == waiting[..i] + waiting[i + 1..]
  {
    if waiting[0].request == request {
      i := 0;
    } else {
      var rest := waiting[1..];
      var k :| 0 <= k < |waiting| && waiting[k].request == request;
      assert rest[k - 1].request == request;
      var at := WithoutAt(rest, request);
      i := at + 1;
      assert waiting[..i] == [waiting[0]] + rest[..at] && waiting[i + 1..] == rest[at + 1..];
    }
  }

  lemma EndReadMeans(c: Core, request: RequestId)
    requires c.pendingLog.None?
    ensures EndsRead(c, request, Cancelled, CoreStep(c, CancelRead(request)))
    ensures EndsRead(c, request, TimedOut, CoreStep(c, TimeoutRead(request)))
  {
    hide WithoutRequest;
    if HasRequest(c.waiting, request) {
      var i := WithoutAt(c.waiting, request);
    }
  }

  /** The waiting reads that are confirmed and applied are answered with their read index, in order;
      the others stay, in order. */
  lemma {:induction false} AnswersMean(waiting: seq<PendingRead>, applied: LogIndex)
    ensures |StillWaiting(waiting, applied)| + |Answers(waiting, applied)| == |waiting|
    ensures forall w :: w in StillWaiting(waiting, applied) <==> w in waiting && !(w.confirmed && w.index <= applied)
    ensures forall q, i :: ReadAnswered(q, i) in Answers(waiting, applied) <==>
      exists w :: w in waiting && w.request == q && w.index == i && w.confirmed && w.index <= applied
    ensures forall e :: e in Answers(waiting, applied) ==> e.ReadAnswered?
  {
    if waiting != [] {
      AnswersMean(waiting[1..], applied);
      assert forall w :: w in waiting <==> w == waiting[0] || w in waiting[1..];
    }
  }

  /** Neither list is reordered: each is built read by read. */
  lemma {:induction false} AnswersSplit(a: seq<PendingRead>, b: seq<PendingRead>, applied: LogIndex)
    ensures Answers(a + b, applied) == Answers(a, applied) + Answers(b, applied)
  {
    if a == [] {
      assert [] + b == b;
    } else {
      AnswersSplit(a[1..], b, applied);
      assert (a + b)[1..] == a[1..] + b && (a + b)[0] == a[0];
    }
  }

  lemma {:induction false} StillWaitingSplit(a: seq<PendingRead>, b: seq<PendingRead>, applied: LogIndex)
    ensures StillWaiting(a + b, applied) == StillWaiting(a, applied) + StillWaiting(b, applied)
  {
    if a == [] {
      assert [] + b == b;
    } else {
      StillWaitingSplit(a[1..], b, applied);
      assert (a + b)[1..] == a[1..] + b && (a + b)[0] == a[0];
    }
  }

  // ---- From the specification to the environment ---------------------------

  /** Every waiting read is rejected for the reason, in order. */
  lemma {:induction false} RejectionsMean(waiting: seq<PendingRead>, reason: ReadFailure)
    ensures |Rejections(waiting, reason)| == |waiting|
    ensures forall i :: 0 <= i < |waiting| ==>
        Rejections(waiting, reason)[i] == ReadRejected(waiting[i].request, reason)
  {
    if waiting != [] { RejectionsMean(waiting[1..], reason); }
  }

  /** The specification's effects one by one, a changed log as the write of that log under an id that
      is new. */
  predicate Translated(effects: seq<Effect>, log: seq<LogEntry>, low: nat, high: nat, out: seq<Effect>) {
    && |out| == |effects|
    && forall i :: 0 <= i < |effects| ==>
         if effects[i].PersistState? then out[i].PersistLog? && out[i].log == log && low <= out[i].logId < high
         else out[i] == effects[i]
  }

  lemma {:induction false} TranslatedIs(effects: seq<Effect>, log: seq<LogEntry>, id: nat)
    requires Plain(effects)
    ensures Translated(effects, log, id, id + LogWrites(effects), TranslateEffects(effects, log, id))
    ensures LogWrites(effects) <= |effects|
    ensures (forall i :: 0 <= i < |effects| ==> !effects[i].PersistState?) ==> LogWrites(effects) == 0
  {
    if effects != [] {
      var rest := effects[1..];
      assert Plain(rest);
      TranslatedIs(rest, log, id);
      TranslatedIs(rest, log, id + 1);
    }
  }

  /** A change of role is told first, then the reads that it ends. */
  function ToldFirst(c: Core, s: State): seq<Effect> {
    (if s.role == c.state.role then [] else [RoleTransition(c.state.role, s.role, s.term)])
    + if Deposed(c.state, s) then Rejections(c.waiting, LeadershipLost) else []
  }

  lemma ToldFirstIs(c: Core, s: State)
    ensures RoleEffects(c, s, c.state.role) == ToldFirst(c, s)
  {
    hide Rejections;
  }

  /** Nothing is lost or reordered: what is released and what waits for the log write are the change
      of role, the specification's effects and the next hand-out. */
  ghost predicate Lossless(c: Core, f: Outcome, r: CoreOutcome)
    requires f.Done? && r.Stepped?
  {
    && r.core.state == f.state
    && var waits := if r.core.pendingLog.Some? then r.core.pendingLog.value.deferred else [];
       exists out :: Translated(f.effects, f.state.log, c.nextLogId, r.core.nextLogId, out)
         && r.effects + waits == ToldFirst(c, f.state) + out + Handed(c, r.core)
  }

  /** A log write is the last effect before what waits for it. */
  predicate CutAfterLogWrite(r: CoreOutcome)
    requires r.Stepped?
  {
    r.core.pendingLog.Some? ==>
      && r.effects != []
      && r.effects[|r.effects| - 1] == PersistLog(r.core.pendingLog.value.id, r.core.pendingLog.value.log)
      && forall i :: 0 <= i < |r.effects| - 1 ==> !r.effects[i].PersistLog?
  }

  lemma StepPlain(c: Core, event: Event)
    requires CoreSound(c) && Figure2.Step(c.state, event).Done? && !event.ApplyCommitted?
    requires event.Receive? && event.msg.AppendRequest? ==> AppendRequestValid(event.msg)
    ensures Plain(Figure2.Step(c.state, event).effects) && Valid(Figure2.Step(c.state, event).state)
  {
    hide Handle, Gate, Valid, IdsOk, Slot, Real, NoHandOut, Plain, AppendsBeyondTerm, AppendRequestValid;
    HandleInOrder(c.state, event);
    NoPendingAfterHandle(c.state, event);
    var h := Handle(c.state, event);
    GateInOrder(h.state, h.effects);
  }

  lemma GateLogIs(c: Core, effects: seq<Effect>)
    requires c.pendingLog.None?
    ensures var g := GateLog(c, effects);
      && g.Stepped? && g.core == c.(pendingLog := g.core.pendingLog) && CutAfterLogWrite(g)
      && g.effects + (if g.core.pendingLog.Some? then g.core.pendingLog.value.deferred else []) == effects
  {
    var k := FirstLogWrite(effects);
    if k < |effects| { assert effects[..k + 1] + effects[k + 1..] == effects; }
  }

  /** An event under Core: refused where the specification fails or ids run out, and otherwise told to
      the environment in full. */
  lemma SpecStepMeans(c: Core, event: Event)
    requires CoreSound(c) && c.pendingLog.None? && !event.ApplyCommitted?
    requires event.Receive? && event.msg.AppendRequest? ==> AppendRequestValid(event.msg)
    ensures var f, r := Figure2.Step(c.state, event), StepSpec(c, event);
      && (f.Failed? ==> r.Refused?)
      && (f.Done? && c.nextLogId + |f.effects| <= U64_MAX && c.nextApplyId < APPLY_ID_LIMIT ==> r.Stepped?)
      && (r.Stepped? ==> Lossless(c, f, r) && CutAfterLogWrite(r))
  {
    hide Figure2.Step, CoreSound, Translate, Lossless, CutAfterLogWrite, Plain, Valid, AppendRequestValid;
    var f := Figure2.Step(c.state, event);
    if f.Done? {
      StepPlain(c, event);
      TranslateMeans(c, f.state, f.effects);
    }
  }

  lemma TranslateMeans(c: Core, s: State, effects: seq<Effect>)
    requires c.pendingLog.None? && Plain(effects) && Valid(s)
    ensures var r := Translate(c, s, effects, c.state.role);
      && (c.nextLogId + |effects| <= U64_MAX && c.nextApplyId < APPLY_ID_LIMIT ==> r.Stepped?)
      && (r.Stepped? ==> Lossless(c, Done(s, effects), r) && CutAfterLogWrite(r))
  {
    hide Translate, Gated, Valid, Schedule, Handed, Plain, TranslateEffects, Translated;
    TranslatedIs(effects, s.log, c.nextLogId);
    GatedMeans(c, s, effects);
    TranslateWhen(c, s, effects);
    var g, r := Gated(c, s, effects), Translate(c, s, effects, c.state.role);
    var out := TranslateEffects(effects, s.log, c.nextLogId);
    if r.Stepped? {
      TranslateIs(c, s, effects);
      if s.pending.None? && g.core.pendingLog.None? {
        ScheduleMeans(g.core, g.effects);
        ScheduledIs(c, g.core, g.effects);
        assert r.effects + [] == r.effects && g.effects + [] == g.effects;
      } else {
        NotHanded(c, g.core);
        assert ToldFirst(c, s) + out + [] == ToldFirst(c, s) + out;
      }
    }
  }

  lemma ScheduledIs(c: Core, g: Core, effects: seq<Effect>)
    requires Valid(g.state) && Schedule(g, effects).Stepped? && c.nextApplyId == g.nextApplyId
    ensures var r := Schedule(g, effects); r.effects == effects + Handed(c, r.core)
    ensures var r := Schedule(g, effects);
      r.core.state == g.state && r.core.pendingLog == g.pendingLog && r.core.nextLogId == g.nextLogId
  {
    assert effects + [] == effects;
  }

  lemma GatedMeans(c: Core, s: State, effects: seq<Effect>)
    requires c.pendingLog.None?
    ensures var g := Gated(c, s, effects);
      && g.Stepped? && g.core.state == s && g.core.nextApplyId == c.nextApplyId && CutAfterLogWrite(g)
      && g.core.nextLogId == c.nextLogId + LogWrites(effects)
      && g.effects + (if g.core.pendingLog.Some? then g.core.pendingLog.value.deferred else [])
         == ToldFirst(c, s) + TranslateEffects(effects, s.log, c.nextLogId)
  {
    hide GateLog, RoleEffects, TranslateEffects, ToldFirst, CutAfterLogWrite;
    ToldFirstIs(c, s);
    var waiting := if s.role != c.state.role && c.state.role.Leader? then [] else c.waiting;
    GateLogIs(c.(state := s, waiting := waiting, nextLogId := c.nextLogId + LogWrites(effects)),
              RoleEffects(c, s, c.state.role) + TranslateEffects(effects, s.log, c.nextLogId));
  }

  /** Only ids that run out refuse an event that the specification accepts. */
  lemma TranslateWhen(c: Core, s: State, effects: seq<Effect>)
    requires c.pendingLog.None? && Valid(s)
    ensures c.nextLogId + LogWrites(effects) <= U64_MAX && c.nextApplyId < APPLY_ID_LIMIT ==>
      Translate(c, s, effects, c.state.role).Stepped?
  {
    GatedMeans(c, s, effects);
    var g := Gated(c, s, effects);
    ScheduleMeans(g.core, g.effects);
    hide GateLog, Valid, Schedule, RoleEffects, TranslateEffects, CutAfterLogWrite, ToldFirst;
  }

  // ---- ReadIndex -----------------------------------------------------------

  predicate SendsOnly(effects: seq<Effect>) {
    forall i :: 0 <= i < |effects| ==> effects[i].Send?
  }

  lemma {:induction false} SendsTranslate(effects: seq<Effect>, log: seq<LogEntry>, id: nat)
    requires SendsOnly(effects)
    ensures LogWrites(effects) == 0 && TranslateEffects(effects, log, id) == effects
  {
    if effects != [] {
      assert SendsOnly(effects[1..]);
      SendsTranslate(effects[1..], log, id);
    }
  }

  lemma HeartbeatStep(s: State)
    requires Valid(s) && s.pending.None? && s.role.Leader?
    ensures var r := Figure2.Step(s, HeartbeatTimeout);
      r.Done? && r.state == s && OffersAll(s, r.effects) && SendsOnly(r.effects)
  {
    hide Valid, Offers;
    HeartbeatMeans(s);
    hide Handle;
    assert SendsOnly(Handle(s, HeartbeatTimeout).effects);
  }

  /** A heartbeat under Core: one request for each peer, in order, and nothing else changes. */
  lemma HeartbeatCore(c: Core)
    requires CoreSound(c) && c.pendingLog.None? && c.state.pending.None? && c.state.role.Leader?
    ensures var r := StepSpec(c, HeartbeatTimeout);
      && (r.Refused? ==> c.nextLogId > U64_MAX || (!Busy(c) && c.nextApplyId >= APPLY_ID_LIMIT))
      && (r.Stepped? ==>
            && r.core == c.(application := r.core.application, nextApplyId := r.core.nextApplyId)
            && Busy(r.core) && HandsNext(c, r.core)
            && exists offers :: OffersAll(c.state, offers) && SendsOnly(offers)
                && r.effects == offers + Handed(c, r.core))
  {
    SoundParts(c.state);
    hide Figure2.Step, CoreSound, Valid, OffersAll, StepSpec, Schedule, Handed, HandsNext, Busy;
    HeartbeatStep(c.state);
    HeartbeatIs(c);
    ScheduledWell(c, Figure2.Step(c.state, HeartbeatTimeout).effects);
  }

  lemma HeartbeatIs(c: Core)
    requires c.pendingLog.None? && c.state.pending.None?
    requires var f := Figure2.Step(c.state, HeartbeatTimeout); f.Done? && f.state == c.state && SendsOnly(f.effects)
    ensures var effects := Figure2.Step(c.state, HeartbeatTimeout).effects;
      StepSpec(c, HeartbeatTimeout) == if c.nextLogId > U64_MAX then Refused else Schedule(c, effects)
  {
    hide Figure2.Step, TranslateEffects, LogWrites, Schedule;
    var f := Figure2.Step(c.state, HeartbeatTimeout);
    SendsTranslate(f.effects, c.state.log, c.nextLogId);
    assert [] + f.effects == f.effects;
    assert GateLog(c, f.effects) == Stepped(c, f.effects);
  }

  /** A request for each peer, in order, that carries the read's context. */
  predicate OffersWith(s: State, context: ReadContext, effects: seq<Effect>) {
    |effects| == |s.peers| && forall i :: 0 <= i < |s.peers| ==>
      effects[i].Send? && effects[i].to == s.peers[i] && Offers(s, s.peers[i], Some(context), effects[i].msg)
  }

  lemma MarkedOffers(s: State, offers: seq<Effect>, more: seq<Effect>, context: ReadContext)
    requires OffersAll(s, offers) && forall i :: 0 <= i < |more| ==> more[i].ApplyEntry?
    ensures var out := WithContext(offers + more, context);
      && |out| == |s.peers| + |more| && OffersWith(s, context, out[..|s.peers|]) && out[|s.peers|..] == more
  {
    hide Holds, OwnLast;
    var out := WithContext(offers + more, context);
    forall i | 0 <= i < |s.peers|
      ensures out[i].Send? && out[i].to == s.peers[i] && Offers(s, s.peers[i], Some(context), out[i].msg)
    {
      assert out[i] == MarkRead(offers[i], context);
    }
  }

  lemma CommitHeld(s: State)
    requires Valid(s)
    ensures s.commit != 0 ==> (CommitTerm(s) == s.term <==> Holds(s, s.commit, s.term))
  {
    if s.commit != 0 { HoldsIs(s, s.commit, s.term); }
  }

  /** A linearizable read is refused for the first of the reasons that applies. Otherwise it waits at
      the commit index with the leader's own acknowledgement, under a context that every peer is asked
      to confirm. */
  lemma BeginReadMeans(c: Core, request: RequestId)
    requires CoreSound(c) && c.pendingLog.None?
    ensures var r, s := CoreStep(c, Read(request)), c.state;
      if request == RequestId(0, 0) then r.Refused?
      else if !s.role.Leader? then r == Stepped(c, [ReadRejected(request, NotLeader)])
      else if request in c.used then r == Stepped(c, [ReadRejected(request, DuplicateRequest)])
      else if s.commit == 0 || !Holds(s, s.commit, s.term) then r
          == Stepped(c, [ReadRejected(request, TermNotCommitted)])
      else if |c.waiting| >= c.maxReads || |c.used| >= c.maxHistory then
        r == Stepped(c, [ReadRejected(request, CapacityExceeded)])
      else if c.nextContext == 0 || c.nextContext >= U64_MAX then r
          == Stepped(c, [ReadRejected(request, ContextExhausted)])
      else if s.pending.Some? then r.Refused?
      else
        && (r.Refused? ==> c.nextLogId > U64_MAX || (!Busy(c) && c.nextApplyId >= APPLY_ID_LIMIT))
        && (r.Stepped? ==>
              && r.core == c.(waiting := c.waiting + [PendingRead(c.nextContext, request, s.commit, {s.node}, false)],
                              used := c.used + {request}, nextContext := c.nextContext + 1,
                              application := r.core.application, nextApplyId := r.core.nextApplyId)
              && Busy(r.core) && HandsNext(c, r.core) && |s.peers| <= |r.effects|
              && OffersWith(s, c.nextContext, r.effects[..|s.peers|]) && r.effects[|s.peers|..] == Handed(c, r.core))
  {
    SoundParts(c.state);
    CommitHeld(c.state);
    hide StepSpec, CoreSound, Valid, Holds, CommitTerm, OffersWith, Busy, HandsNext, Handed, WithContext;
    if c.state.pending.Some? { BlockedStep(Waits(c, request)); }
    else if c.state.role.Leader? { AcceptedMeans(c, request); }
  }

  /** The read in its place behind the others. */
  function Waits(c: Core, request: RequestId): Core {
    c.(waiting := c.waiting + [PendingRead(c.nextContext, request, c.state.commit, {c.state.node}, false)],
       used := c.used + {request}, nextContext := c.nextContext + 1)
  }

  lemma AcceptedMeans(c: Core, request: RequestId)
    requires CoreSound(c) && c.pendingLog.None? && c.state.pending.None? && c.state.role.Leader?
    ensures var r, s := StepSpec(Waits(c, request), HeartbeatTimeout), c.state;
      && (r.Refused? ==> c.nextLogId > U64_MAX || (!Busy(c) && c.nextApplyId >= APPLY_ID_LIMIT))
      && (r.Stepped? ==>
            && r.core == Waits(c, request).(application := r.core.application, nextApplyId := r.core.nextApplyId)
            && Busy(r.core) && HandsNext(c, r.core) && |s.peers| <= |r.effects|
            && var out := WithContext(r.effects, c.nextContext);
               OffersWith(s, c.nextContext, out[..|s.peers|]) && out[|s.peers|..] == Handed(c, r.core))
  {
    hide StepSpec, CoreSound, OffersWith, OffersAll, Busy, HandsNext, WithContext;
    var c1 := Waits(c, request);
    SameCoreSound(c, c1);
    SameBusy(c, c1);
    HeartbeatCore(c1);
    var r := StepSpec(c1, HeartbeatTimeout);
    if r.Stepped? {
      SameHanded(c, c1, r.core);
      var offers :| OffersAll(c.state, offers) && r.effects == offers + Handed(c1, r.core);
      MarkedOffers(c.state, offers, Handed(c1, r.core), c.nextContext);
    }
  }

  lemma SameBusy(c: Core, c': Core)
    requires c'.state == c.state && c'.application == c.application
    ensures Busy(c) == Busy(c')
  {
  }

  lemma BlockedStep(c: Core)
    requires c.state.pending.Some?
    ensures StepSpec(c, HeartbeatTimeout).Refused?
  {
    hide Valid, Translate;
  }

  /** One acknowledgement: the read with that context gains the sender, and is confirmed once more than
      half of the members have acknowledged it; no other read changes. */
  predicate Acks(s: State, from: NodeId, context: ReadContext, waiting: seq<PendingRead>, waiting': seq<PendingRead>) {
    && |waiting'| == |waiting|
    && forall i :: 0 <= i < |waiting| ==>
         var w := waiting[i];
         if w.context != context then waiting'[i] == w
         else waiting'[i] == w.(acks := w.acks + {from}, confirmed := w.confirmed || MostOf(|w.acks + {from}|, s))
  }

  lemma AcksAre(s: State, from: NodeId, context: ReadContext, waiting: seq<PendingRead>)
    ensures Acks(s, from, context, waiting, Acknowledged(waiting, context, from, Majority(s)))
  {
    hide Majority, MostOf;
    forall i | 0 <= i < |waiting| ensures MostOf(|waiting[i].acks + {from}|,
        s) <==> |waiting[i].acks + {from}| >= Majority(s) {
      MostIsMajority(|waiting[i].acks + {from}|, s);
    }
  }

  /** The answer of a peer: the specification sees it first; a success of the leader's term with a
      context is then counted for the read that carries it, and the reads that it makes ready are
      answered. */
  lemma AcknowledgeMeans(c: Core, from: NodeId, m: Message)
    requires c.pendingLog.None? && m.AppendResponse?
    ensures var r, spec := CoreStep(c, Deliver(from, m)), StepSpec(c, Receive(from, m));
      if spec.Refused? then r.Refused?
      else
        var s := spec.core.state;
        if !(s.role.Leader? && m.term == s.term && m.succeeded && m.context.Some?
             && exists i :: 0 <= i < |spec.core.waiting|
                 && spec.core.waiting[i].context == m.context.value) then r == spec
        else
          exists counted :: Acks(s, from, m.context.value, spec.core.waiting, counted)
            && r == Stepped(spec.core.(waiting := StillWaiting(counted, s.applied)),
                            spec.effects + Answers(counted, s.applied))
  {
    hide StepSpec, Acks, StillWaiting, Answers;
    var spec := StepSpec(c, Receive(from, m));
    if spec.Stepped? && m.context.Some? { AcksAre(spec.core.state, from, m.context.value, spec.core.waiting); }
  }
}
