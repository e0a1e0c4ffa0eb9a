/** Gating in Core: what a step releases at once, what waits for a disk, and that nothing is
    lost or reordered on the way. */
module RaftGating {
  import opened RaftTypes
  import opened Figure2
  import opened RaftCore
  import opened RaftLedger
  import opened RaftCluster
  import opened RaftInvariant

  // ---- Effects through Core ------------------------------------------------

  lemma {:induction false} TranslateAppend(a: seq<Effect>, b: seq<Effect>, log: Log, id: nat)
    ensures TranslateEffects(a + b, log, id)
         == TranslateEffects(a, log, id) + TranslateEffects(b, log, id + LogWrites(a))
  {
    if a == [] {
      assert a + b == b;
    } else {
      assert (a + b)[1..] == a[1..] + b;
      TranslateAppend(a[1..], b, log, if a[0].PersistState? then id + 1 else id);
    }
  }

  predicate NoPersistLog(effects: seq<Effect>) {
    forall i :: 0 <= i < |effects| ==> !effects[i].PersistLog?
  }

  lemma {:induction false} TranslateKeepsKind(effects: seq<Effect>, log: Log, id: nat)
    ensures forall e :: e in TranslateEffects(effects, log, id) ==>
              (e.PersistLog? && e.log == log) || (e in effects && !e.PersistState?)
    ensures NoLogWrite(effects) ==> NoLogWrite(TranslateEffects(effects, log, id))
    ensures NoHardWrite(effects) ==> NoHardWrite(TranslateEffects(effects, log, id))
  {
    if effects != [] {
      var rest := effects[1..];
      var id' := if effects[0].PersistState? then id + 1 else id;
      TranslateKeepsKind(rest, log, id');
      assert NoLogWrite(effects) ==> NoLogWrite(rest);
      assert NoHardWrite(effects) ==> NoHardWrite(rest);
      assert forall e :: e in rest ==> e in effects;
    }
  }

  lemma {:induction false} RejectionsKind(waiting: seq<PendingRead>, reason: ReadFailure)
    ensures forall e :: e in Rejections(waiting, reason) ==> e.ReadRejected?
  {
    if waiting != [] {
      RejectionsKind(waiting[1..], reason);
    }
  }

  /** No message leaves, nothing is applied and no read is answered. */
  predicate NoSend(effects: seq<Effect>) {
    forall i :: 0 <= i < |effects| ==> !effects[i].Send? && !CoreOnly(effects[i])
  }

  predicate NoAnswer(effects: seq<Effect>) {
    forall e :: e in effects ==> !e.ReadAnswered?
  }

  /** Whatever is handed to the state machine is the entry in the application slot. */
  predicate AppliesSlot(c: Core, effects: seq<Effect>) {
    forall e :: e in effects && e.ApplyEntry? ==>
      c.application.Some? && e.entry == c.application.value.entry
  }

  lemma RoleEffectsKind(c: Core, s: State, previous: Role)
    ensures NoSend(RoleEffects(c, s, previous)) && NoPersistLog(RoleEffects(c, s, previous))
  {
    RejectionsKind(c.waiting, LeadershipLost);
    var lost := Rejections(c.waiting, LeadershipLost);
    assert forall i :: 0 <= i < |lost| ==> lost[i] in lost;
  }

  lemma NoPersistLogConcat(a: seq<Effect>, b: seq<Effect>)
    requires NoPersistLog(a) && NoPersistLog(b)
    ensures NoPersistLog(a + b)
  {
  }

  lemma NoSendConcat(a: seq<Effect>, b: seq<Effect>)
    requires NoSend(a) && NoSend(b)
    ensures NoSend(a + b)
  {
  }

  lemma WriteSendsNothing(id: nat, log: Log)
    ensures NoSend([PersistLog(id, log)])
  {
  }

  lemma {:induction false} FirstLogWriteSkips(a: seq<Effect>, b: seq<Effect>)
    requires NoPersistLog(a)
    ensures FirstLogWrite(a + b) == |a| + FirstLogWrite(b)
  {
    if a == [] {
      assert a + b == b;
    } else {
      assert (a + b)[1..] == a[1..] + b;
      assert (a + b)[0] == a[0];
      FirstLogWriteSkips(a[1..], b);
    }
  }

  lemma FirstLogWriteNone(a: seq<Effect>)
    requires NoPersistLog(a)
    ensures FirstLogWrite(a) == |a|
  {
    FirstLogWriteSkips(a, []);
    assert a + [] == a;
  }

  // ---- Settling a handler's effects ----------------------------------------

  /** The application slot is as before, or holds the next committed entry. */
  predicate ScheduledFrom(c: Core, c': Core) {
    c'.application == c.application
    || (c.application.None? && c'.state.applied < c'.state.commit && c'.application.Some?
        && c'.state.applied < |c'.state.log|
        && c'.application.value.entry == c'.state.log[c'.state.applied])
  }

  lemma ScheduleFacts(c: Core, effects: seq<Effect>)
    requires Schedule(c, effects).Stepped? && c.state.snapshot.None?
    ensures var r := Schedule(c, effects);
            && r.core == c.(application := r.core.application, nextApplyId := r.core.nextApplyId)
            && ScheduledFrom(c, r.core)
            && (forall e :: e in r.effects ==> e in effects || e.ApplyEntry?)
            && (forall i :: 0 <= i < |r.effects| && r.effects[i].ApplyEntry? && r.effects[i] !in effects ==>
                  r.core.application.Some? && r.effects[i].entry == r.core.application.value.entry
                  && c.application.None?)
  {
  }

  /** Core state after translating effects, apart from the application slot and ids. */
  predicate Carries(c: Core, s: State, c': Core) {
    c'.state == s && c'.used == c.used && c'.nextContext == c.nextContext
    && c'.maxReads == c.maxReads && c'.maxHistory == c.maxHistory
    && (c'.waiting == c.waiting || (c'.waiting == [] && !s.role.Leader?))
  }

  lemma KindsBehind(front: seq<Effect>, rest: seq<Effect>, effects: seq<Effect>)
    requires NoSend(front) && forall e :: e in rest && (e.Send? || CoreOnly(e)) ==> e in effects
    ensures forall e :: e in front + rest && (e.Send? || CoreOnly(e)) ==> e in effects
  {
    var out := front + rest;
    forall e | e in out && (e.Send? || CoreOnly(e)) ensures e in effects {
      var i :| 0 <= i < |out| && out[i] == e;
      assert i >= |front| && rest[i - |front|] == e && e in rest;
    }
  }

  lemma TranslateWithoutWrite(c: Core, s: State, effects: seq<Effect>, previous: Role)
    requires NoLogWrite(effects) && c.pendingLog.None? && s.snapshot.None?
    requires c.state.role == previous
    requires Translate(c, s, effects, previous).Stepped?
    ensures var r := Translate(c, s, effects, previous);
            && Carries(c, s, r.core) && r.core.pendingLog.None?
            && ScheduledFrom(c.(state := s), r.core)
            && (forall e :: e in r.effects && e.Send? ==> e in effects)
            && (NoApply(effects) ==> AppliesSlot(r.core, r.effects) && NoAnswer(r.effects))
            && (s.pending.Some? ==> r.core.application == c.application)
  {
    hide TranslateEffects, RoleEffects, LogWrites, FirstLogWrite, Schedule;
    TranslateKeepsKind(effects, s.log, c.nextLogId);
    RoleEffectsKind(c, s, previous);
    var front, rest := RoleEffects(c, s, previous), TranslateEffects(effects, s.log, c.nextLogId);
    var out := front + rest;
    NoPersistLogConcat(front, rest);
    FirstLogWriteNone(out);
    KindsBehind(front, rest, effects);
    var waiting := if s.role != previous && previous.Leader? then [] else c.waiting;
    var c1 := c.(state := s, waiting := waiting, nextLogId := c.nextLogId + LogWrites(effects));
    assert GateLog(c1, out) == Stepped(c1, out);
    if s.pending.None? {
      ScheduleFacts(c1, out);
    }
  }

  lemma TranslateOne(e: Effect, log: Log)
    requires e.PersistState?
    ensures forall id: nat :: TranslateEffects([e], log, id) == [PersistLog(id, log)]
  {
  }

  lemma TranslateSplit(effects: seq<Effect>, k: nat, log: Log, id: nat)
    returns (id1: nat, front: seq<Effect>, tail: seq<Effect>)
    requires k < |effects| && effects[k].PersistState?
    requires NoLogWrite(effects[..k]) && NoLogWrite(effects[k + 1..]) && NoSend(effects[..k])
    ensures TranslateEffects(effects, log, id) == front + ([PersistLog(id1, log)] + tail)
    ensures NoPersistLog(front) && NoSend(front) && NoLogWrite(tail)
    ensures forall e :: e in tail ==> e in effects
  {
    hide TranslateEffects, LogWrites;
    var before, after := effects[..k], effects[k + 1..];
    assert effects == before + ([effects[k]] + after);
    TranslateOne(effects[k], log);
    id1 := id + LogWrites(before);
    front := TranslateEffects(before, log, id);
    tail := TranslateEffects(after, log, id1 + LogWrites([effects[k]]));
    TranslateAppend(before, [effects[k]] + after, log, id);
    TranslateAppend([effects[k]], after, log, id1);
    TranslateKeepsKind(before, log, id);
    TranslateKeepsKind(after, log, id1 + LogWrites([effects[k]]));
    forall i | 0 <= i < |front| ensures !front[i].Send? && !CoreOnly(front[i]) {
      assert front[i] in front;
    }
    forall e | e in tail ensures e in effects {
      var i :| 0 <= i < |tail| && tail[i] == e;
      assert !tail[i].PersistLog?;
    }
  }

  lemma GateLogCuts(c: Core, front: seq<Effect>, id: nat, log: Log, tail: seq<Effect>)
    requires NoPersistLog(front) && c.pendingLog.None?
    ensures GateLog(c, front + ([PersistLog(id, log)] + tail))
         == Stepped(c.(pendingLog := Some(PendingLog(id, log, tail))), front + [PersistLog(id, log)])
  {
    var rest := [PersistLog(id, log)] + tail;
    var all := front + rest;
    FirstLogWriteSkips(front, rest);
    assert FirstLogWrite(rest) == 0;
    assert all[|front|] == PersistLog(id, log);
    assert all[|front| + 1..] == tail;
    assert all[..|front| + 1] == front + [PersistLog(id, log)];
  }

  /** With a log write at `k`, everything after it waits for that very log. */
  lemma TranslateWithWrite(c: Core, s: State, effects: seq<Effect>, previous: Role, k: nat)
    requires c.pendingLog.None? && s.snapshot.None? && c.state.role == previous
    requires k < |effects| && effects[k].PersistState?
    requires NoLogWrite(effects[..k]) && NoLogWrite(effects[k + 1..])
    requires NoSend(effects[..k])
    requires Translate(c, s, effects, previous).Stepped?
    ensures var r := Translate(c, s, effects, previous);
            && Carries(c, s, r.core) && r.core.application == c.application
            && r.core.pendingLog.Some? && r.core.pendingLog.value.log == s.log
            && NoLogWrite(r.core.pendingLog.value.deferred)
            && (forall e :: e in r.core.pendingLog.value.deferred ==> e in effects)
            && NoSend(r.effects)
  {
    hide FirstLogWrite, GateLog, NoPersistLog, NoSend, NoLogWrite, TranslateEffects, Schedule, RoleEffects;
    var log, id := s.log, c.nextLogId;
    var id1, front, tail := TranslateSplit(effects, k, log, id);
    RoleEffectsKind(c, s, previous);
    var role := RoleEffects(c, s, previous);
    NoPersistLogConcat(role, front);
    NoSendConcat(role, front);
    var rest := [PersistLog(id1, log)] + tail;
    assert role + (front + rest) == (role + front) + rest;
    WriteSendsNothing(id1, log);
    NoSendConcat(role + front, [PersistLog(id1, log)]);
    var waiting := if s.role != previous && previous.Leader? then [] else c.waiting;
    var c1 := c.(state := s, waiting := waiting, nextLogId := c.nextLogId + LogWrites(effects));
    GateLogCuts(c1, role + front, id1, log, tail);
  }

  /** Everything released is right for `s`, and `s` is durable by then. */
  predicate ReleasedOk(l: Ledger, s: State, c: Core, out: seq<Effect>) {
    forall i :: 0 <= i < |out| && out[i].Send? ==> Quiescent(c) && SendOk(l, s, out[i])
  }

  predicate Settled(l: Ledger, c: Core, s: State, d: Durable, r: CoreOutcome) {
    && r.Stepped?
    && (r.core.state == s || (s.pending.None? && r.core.state == s.(pending := r.core.state.pending)))
    && Carries(c, r.core.state, r.core)
    && CoreQueue(l, r.core, d)
    && ReleasedOk(l, s, r.core, r.effects)
    && ScheduledFrom(c.(state := s), r.core) && AppliesSlot(r.core, r.effects)
    && NoAnswer(r.effects)
  }

  lemma OrderedHead(effects: seq<Effect>, k: nat)
    requires Ordered(effects) && k < |effects| && effects[k].PersistHard?
    ensures NoLogWrite(effects[..k + 1]) && NoSend(effects[..k + 1])
  {
    assert IsPersist(effects[k]);
  }

  lemma OrderedAtLogWrite(effects: seq<Effect>, k: nat)
    requires Ordered(effects) && k < |effects| && effects[k].PersistState?
    ensures NoLogWrite(effects[..k]) && NoLogWrite(effects[k + 1..]) && NoSend(effects[..k])
  {
    assert IsPersist(effects[k]);
    assert forall i :: k < i < |effects| ==> !IsPersist(effects[i]);
  }

  /** The hard state must be written first: nothing but the request leaves. */
  lemma SettleHard(l: Ledger, c: Core, s: State, effects: seq<Effect>, d: Durable)
    requires QueueOk(l, s, d, effects) && s.pending.None? && c.pendingLog.None? && s.snapshot.None?
    requires FirstPersist(effects) < |effects|
    requires Translate(c, Gate(s, effects).state, Gate(s, effects).effects, c.state.role).Stepped?
    ensures Settled(l, c, s, d, Translate(c, Gate(s, effects).state, Gate(s, effects).effects, c.state.role))
  {
    hide Translate, SendOk, HardTail, VoteJustified, Ordered, HardQueue, SendsOk;
    var k := FirstPersist(effects);
    var s' := Gate(s, effects).state;
    var now := effects[..k + 1];
    OrderedHead(effects, k);
    TranslateWithoutWrite(c, s', now, c.state.role);
    var out := Translate(c, s', now, c.state.role).effects;
    forall i | 0 <= i < |out| ensures !out[i].Send? {
      assert out[i] in out;
    }
    var p := s'.pending.value;
    var rest := [PersistHard(p.id, p.hard)] + p.deferred;
    assert rest == effects[k..];
    QueueSuffix(l, s, d, effects, k);
    QueueIgnoresPending(l, s, s', d, rest);
  }

  lemma QueueIgnoresPending(l: Ledger, s: State, s': State, d: Durable, effects: seq<Effect>)
    requires QueueOk(l, s, d, effects) && s' == s.(pending := s'.pending)
    ensures QueueOk(l, s', d, effects)
  {
    forall i | 0 <= i < |effects| && effects[i].Send? ensures SendOk(l, s', effects[i]) {
      assert SendOk(l, s, effects[i]);
    }
  }

  lemma QueueSuffix(l: Ledger, s: State, d: Durable, effects: seq<Effect>, k: nat)
    requires QueueOk(l, s, d, effects) && k == FirstPersist(effects) < |effects|
    ensures QueueOk(l, s, d, effects[k..])
  {
    var rest := effects[k..];
    assert rest[0] == effects[k];
    assert FirstPersist(rest) == 0;
    assert rest[1..] == effects[k + 1..];
    assert NoLogWrite(rest) ==> NoLogWrite(effects) by {
      if NoLogWrite(rest) {
        forall i | 0 <= i < |effects| ensures !effects[i].PersistState? && !effects[i].PersistLog? {
          if i >= k {
            assert effects[i] == rest[i - k];
          }
        }
      }
    }
    forall i | 0 <= i < |rest| && rest[i].Send? ensures SendOk(l, s, rest[i]) {
      assert rest[i] == effects[k + i];
    }
  }

  /** The log must be written first: the messages wait for that very log. */
  lemma SettleLog(l: Ledger, c: Core, s: State, effects: seq<Effect>, d: Durable, k: nat)
    requires QueueOk(l, s, d, effects) && s.pending.None? && c.pendingLog.None? && s.snapshot.None?
    requires NoHardWrite(effects) && k < |effects| && effects[k].PersistState?
    requires Translate(c, s, effects, c.state.role).Stepped?
    ensures Settled(l, c, s, d, Translate(c, s, effects, c.state.role))
  {
    hide Translate, SendOk, HardTail, VoteJustified;
    OrderedAtLogWrite(effects, k);
    TranslateWithWrite(c, s, effects, c.state.role, k);
    var r := Translate(c, s, effects, c.state.role);
    var rest := r.core.pendingLog.value.deferred;
    SendsSurvive(l, s, effects, rest);
    assert NoHardWrite(rest) && NoApply(rest) by {
      forall i | 0 <= i < |rest| ensures !rest[i].PersistHard? && !CoreOnly(rest[i]) {
        assert rest[i] in effects;
      }
    }
    NoHardWriteLog(l, s, d, effects);
  }

  lemma NoHardWriteLog(l: Ledger, s: State, d: Durable, effects: seq<Effect>)
    requires QueueOk(l, s, d, effects) && NoHardWrite(effects)
    ensures d.hard == Hard(s)
  {
    var k := FirstPersist(effects);
  }

  lemma SendsSurvive(l: Ledger, s: State, effects: seq<Effect>, out: seq<Effect>)
    requires SendsOk(l, s, effects)
    requires forall e :: e in out && e.Send? ==> e in effects
    ensures SendsOk(l, s, out)
  {
    forall i | 0 <= i < |out| && out[i].Send? ensures SendOk(l, s, out[i]) {
      assert out[i] in out;
      var j :| 0 <= j < |effects| && effects[j] == out[i];
    }
  }

  /** Nothing has to be written: all messages leave. */
  lemma SettleNow(l: Ledger, c: Core, s: State, effects: seq<Effect>, d: Durable)
    requires QueueOk(l, s, d, effects) && s.pending.None? && c.pendingLog.None? && s.snapshot.None?
    requires NoHardWrite(effects) && NoLogWrite(effects)
    requires Translate(c, s, effects, c.state.role).Stepped?
    ensures Settled(l, c, s, d, Translate(c, s, effects, c.state.role))
  {
    hide Translate, SendOk, HardTail, VoteJustified;
    NoHardWriteLog(l, s, d, effects);
    TranslateWithoutWrite(c, s, effects, c.state.role);
    SendsSurvive(l, s, effects, Translate(c, s, effects, c.state.role).effects);
  }

  /** Whatever a handler produced, Core holds back exactly what is not yet durable. */
  lemma Settle(l: Ledger, c: Core, s: State, effects: seq<Effect>, d: Durable)
    requires QueueOk(l, s, d, effects) && s.pending.None? && c.pendingLog.None? && s.snapshot.None?
    requires Gate(s, effects).Done?
    requires Translate(c, Gate(s, effects).state, Gate(s, effects).effects, c.state.role).Stepped?
    ensures Settled(l, c, s, d, Translate(c, Gate(s, effects).state, Gate(s, effects).effects, c.state.role))
  {
    hide QueueOk, Settled, Translate;
    if FirstPersist(effects) < |effects| {
      SettleHard(l, c, s, effects, d);
    } else if k: nat :| k < |effects| && (effects[k].PersistState? || effects[k].PersistLog?) {
      assert effects[k].PersistState? by { QueueHasNoPersistLog(l, s, d, effects); }
      SettleLog(l, c, s, effects, d, k);
    } else {
      SettleNow(l, c, s, effects, d);
    }
  }

  lemma QueueHasNoPersistLog(l: Ledger, s: State, d: Durable, effects: seq<Effect>)
    requires QueueOk(l, s, d, effects)
    ensures NoPersistLog(effects)
  {
  }

  /** The write at the head has completed: the rest of the queue is next. */
  lemma QueueAdvances(l: Ledger, s: State, d: Durable, id: nat, hard: HardState, rest: seq<Effect>)
    requires QueueOk(l, s, d, [PersistHard(id, hard)] + rest) && d.hard == hard
    ensures QueueOk(l, s, d, rest)
  {
    var all := [PersistHard(id, hard)] + rest;
    assert FirstPersist(all) == 0 && all[1..] == rest;
    forall i | 0 <= i < |rest| && rest[i].Send? ensures SendOk(l, s, rest[i]) {
      assert rest[i] == all[i + 1];
    }
    assert Ordered(rest) by {
      assert forall i :: 0 <= i < |rest| ==> rest[i] == all[i + 1];
    }
    assert NoLogWrite(rest) ==> NoLogWrite(all);
    assert HardTail(s, hard, rest);
    if NoHardWrite(rest) && hard == Hard(s) {
    } else {
      assert FirstPersist(rest) == 0;
    }
  }
}
