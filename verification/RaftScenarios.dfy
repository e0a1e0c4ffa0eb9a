/** Building runs of the cluster step by step: what single inputs do to a node whose shape is
    known, and how a run is extended by them. */
module RaftScenarios {
  import opened RaftTypes
  import opened Figure2
  import opened Figure2Proofs
  import opened RaftCore
  import opened RaftLedger
  import opened RaftCluster
  import opened RaftInvariant
  import opened RaftGating
  import opened RaftSafety

  // ---- Extending a run -----------------------------------------------------

  function End(r: Run): Cluster
    requires |r.states| > 0
  {
    r.states[|r.states| - 1]
  }

  predicate Extends(r: Run, r': Run) {
    r.states <= r'.states && r.actions <= r'.actions
  }

  /** `r'` goes on from `r`: nothing sent is lost and the configuration stays. */
  ghost predicate Continues(r: Run, r': Run) {
    && IsRun(r') && |r.states| > 0 && Extends(r, r')
    && End(r').config == End(r).config && End(r').maxReads == End(r).maxReads
    && End(r').maxHistory == End(r).maxHistory && End(r).sent <= End(r').sent
  }

  lemma ContinuesOn(a: Run, b: Run, c: Run)
    requires Continues(a, b) && Continues(b, c)
    ensures Continues(a, c)
  {
    hide IsRun;
  }

  function Then(r: Run, a: Action, c: Cluster): Run {
    Run(r.states + [c], r.actions + [a])
  }

  lemma OneMore(r: Run, a: Action, c: Cluster)
    requires IsRun(r) && Next(End(r), a) == Some(c)
    ensures IsRun(Then(r, a, c)) && Extends(r, Then(r, a, c)) && End(Then(r, a, c)) == c
  {
    hide Next, Init;
    var r' := Then(r, a, c);
    forall i | 0 <= i < |r'.actions| ensures Next(r'.states[i], r'.actions[i]) == Some(r'.states[i + 1]) {
      if i < |r.actions| {
        assert r'.states[i] == r.states[i] && r'.states[i + 1] == r.states[i + 1];
      }
    }
  }

  /** A Core input that an action of the environment hands over. */
  lemma Move(r: Run, a: Action, core': Core, effects: seq<Effect>) returns (r': Run)
    requires IsRun(r) && CoreOutcomeOf(End(r), a) == Stepped(core', effects)
    ensures Continues(r, r') && r'.actions == r.actions + [a] && |r'.states| == |r.states| + 1
    ensures var n := ActionNode(a);
      && n in End(r).up && End(r').up == End(r).up[n := core'] && End(r').durable == End(r).durable
      && End(r').sent == End(r).sent + Released(n, effects)
  {
    hide IsRun, CoreOutcomeOf, Record, Released;
    RunLengths(r);
    CoreActionNext(End(r), a);
    var c := AfterCore(End(r), ActionNode(a), core', effects);
    hide Next;
    r' := Then(r, a, c);
    OneMore(r, a, c);
  }

  lemma NodeIsValid(r: Run, n: NodeId)
    requires IsRun(r) && n in End(r).up
    ensures var c := End(r);
      && n in c.config && n in c.durable && Configured(c.config)
      && Valid(c.up[n].state) && c.up[n].state.snapshot.None?
      && c.up[n].state.node == n && c.up[n].state.peers == c.config[n]
  {
    hide IsRun, ClusterInv;
    RunLengths(r);
    RunInv(r, |r.states| - 1);
    CoreHasState(End(r), n);
    ClusterConfigured(End(r));
    hide Valid, WellLog, LogRelated, CandidateOk, LeaderOk, CommitOk, Configured;
  }

  lemma ClusterConfigured(c: Cluster)
    requires ClusterInv(c)
    ensures Configured(c.config)
  {
    hide Configured, Inv, DiskOk, PacketOk, CoreOk;
  }

  // ---- One step of the specification ---------------------------------------

  lemma SpecMoves(c: Core, event: Event, s: State, effects: seq<Effect>)
    requires Sound(c.state) && (c.state.pending.Some? <==> event.HardPersisted?)
    requires Handle(c.state, event) == Done(s, effects) && !AppendsBeyondTerm(c.state, event)
    ensures Gate(s, effects).Done?
    ensures StepSpec(c, event)
         == Translate(c, Gate(s, effects).state, Gate(s, effects).effects, c.state.role)
  {
    hide Handle, AppendsBeyondTerm, Translate, Valid, IdsOk;
    PostCheckFiresIff(c.state, event);
    HandleWell(c.state, event);
    GateWell(s, effects);
  }

  predicate NoHard(effects: seq<Effect>) {
    forall i :: 0 <= i < |effects| ==> !effects[i].PersistHard?
  }

  /** Effects that Core passes on as they are. */
  predicate Plain(effects: seq<Effect>) {
    forall i :: 0 <= i < |effects| ==>
      !effects[i].PersistState? && !effects[i].PersistLog? && !effects[i].ApplyCommand? && !effects[i].CompleteClient?
  }

  lemma GateNothing(s: State, effects: seq<Effect>)
    requires NoHard(effects)
    ensures Gate(s, effects) == Done(s, effects)
  {
  }

  lemma GateFirst(s: State, front: seq<Effect>, id: nat, hard: HardState, rest: seq<Effect>)
    requires NoHard(front) && s.pending.None?
    ensures Gate(s, front + [PersistHard(id, hard)] + rest)
         == Done(s.(pending := Some(PendingHard(id, hard, rest))), front + [PersistHard(id, hard)])
  {
    var effects := front + [PersistHard(id, hard)] + rest;
    var k := FirstPersist(effects);
    assert effects[|front|].PersistHard?;
    assert forall i :: 0 <= i < |front| ==> effects[i] == front[i];
    assert k == |front|;
    assert effects[k + 1..] == rest && effects[..k + 1] == front + [PersistHard(id, hard)];
  }

  lemma {:induction false} PlainIsKept(effects: seq<Effect>, log: Log, id: nat)
    requires Plain(effects)
    ensures LogWrites(effects) == 0 && TranslateEffects(effects, log, id) == effects
    ensures FirstLogWrite(effects) == |effects|
  {
    if effects != [] {
      PlainIsKept(effects[1..], log, id);
      assert effects == [effects[0]] + effects[1..];
    }
  }

  /** The core after a role change: a leader that steps down drops its reads. */
  function WithState(c: Core, s: State): Core {
    c.(state := s, waiting := if s.role != c.state.role && c.state.role.Leader? then [] else c.waiting)
  }

  lemma TranslatePlain(c: Core, s: State, effects: seq<Effect>)
    requires Plain(effects) && c.pendingLog.None? && c.nextLogId <= U64_MAX
    ensures var out := RoleEffects(c, s, c.state.role) + effects;
      && Translate(c, s, effects, c.state.role)
         == (if s.pending.None? then Schedule(WithState(c, s), out) else Stepped(WithState(c, s), out))
  {
    hide RoleEffects, TranslateEffects, LogWrites, Schedule;
    PlainIsKept(effects, s.log, c.nextLogId);
    RoleEffectsKind(c, s, c.state.role);
    var front := RoleEffects(c, s, c.state.role);
    var out := front + effects;
    assert NoPersistLog(out) by { NoPersistLogConcat(front, effects); }
    assert FirstLogWrite(out) == |out|;
    assert c.(state := s, waiting := WithState(c, s).waiting, nextLogId := c.nextLogId + 0) == WithState(c, s);
  }

  /** A step whose effects need no write. */
  lemma PlainMoves(c: Core, event: Event, s: State, effects: seq<Effect>)
    requires Sound(c.state) && (c.state.pending.Some? <==> event.HardPersisted?)
    requires Handle(c.state, event) == Done(s, effects) && !AppendsBeyondTerm(c.state, event)
    requires Plain(effects) && NoHard(effects) && c.pendingLog.None? && c.nextLogId <= U64_MAX
    ensures s.pending.None?
    ensures StepSpec(c, event) == Schedule(WithState(c, s), RoleEffects(c, s, c.state.role) + effects)
  {
    hide Handle, AppendsBeyondTerm, Translate, Sound, StepSpec, Schedule, RoleEffects;
    HandleWell(c.state, event);
    SpecMoves(c, event, s, effects);
    GateNothing(s, effects);
    TranslatePlain(c, s, effects);
  }

  lemma GateWrite(c: Core, front: seq<Effect>, id: nat, log: Log, rest: seq<Effect>)
    requires NoPersistLog(front) && c.pendingLog.None?
    ensures GateLog(c, front + [PersistLog(id, log)] + rest)
         == Stepped(c.(pendingLog := Some(PendingLog(id, log, rest))), front + [PersistLog(id, log)])
  {
    var all := front + [PersistLog(id, log)] + rest;
    var k := |front|;
    assert all[k] == PersistLog(id, log);
    assert forall i :: 0 <= i < k ==> all[i] == front[i];
    assert FirstLogWrite(all) == k;
    assert all[k + 1..] == rest && all[..k + 1] == front + [PersistLog(id, log)];
  }

  /** A step that changes the log: everything behind the write waits for it. */
  lemma TranslateWrite(c: Core, s: State, front: seq<Effect>, rest: seq<Effect>)
    requires Plain(front) && Plain(rest) && c.pendingLog.None? && c.nextLogId < U64_MAX && s.pending.None?
    ensures Translate(c, s, front + [PersistState] + rest, c.state.role)
         == Stepped(WithState(c, s).(pendingLog := Some(PendingLog(c.nextLogId, s.log, rest)),
                                     nextLogId := c.nextLogId + 1),
                    RoleEffects(c, s, c.state.role) + front + [PersistLog(c.nextLogId, s.log)])
  {
    hide RoleEffects, Schedule, TranslateEffects, LogWrites, GateLog, NoPersistLog;
    var id := c.nextLogId;
    TranslateParts(front, rest, s.log, id);
    RoleEffectsKind(c, s, c.state.role);
    var role := RoleEffects(c, s, c.state.role);
    assert NoPersistLog(role + front) by { PlainWritesNothing(front); NoPersistLogConcat(role, front); }
    var all := role + (front + [PersistLog(id, s.log)] + rest);
    assert all == (role + front) + [PersistLog(id, s.log)] + rest;
    GateWrite(WithState(c, s).(nextLogId := id + 1), role + front, id, s.log, rest);
  }

  lemma PlainWritesNothing(effects: seq<Effect>)
    requires Plain(effects)
    ensures NoPersistLog(effects)
  {
  }

  lemma {:induction false} TranslateParts(front: seq<Effect>, rest: seq<Effect>, log: Log, id: nat)
    requires Plain(front) && Plain(rest)
    ensures LogWrites(front + [PersistState] + rest) == 1
    ensures TranslateEffects(front + [PersistState] + rest, log, id) == front + [PersistLog(id, log)] + rest
  {
    hide TranslateEffects, LogWrites;
    var effects := front + [PersistState] + rest;
    TranslateHead(effects, log, id);
    if front == [] {
      PlainIsKept(rest, log, id + 1);
      assert effects[1..] == rest;
    } else {
      TranslateParts(front[1..], rest, log, id);
      assert effects[1..] == front[1..] + [PersistState] + rest;
      assert [front[0]] + (front[1..] + [PersistLog(id, log)] + rest) == front + [PersistLog(id, log)] + rest;
    }
  }

  lemma TranslateHead(effects: seq<Effect>, log: Log, id: nat)
    requires effects != []
    ensures effects[0].PersistState? ==>
      && LogWrites(effects) == 1 + LogWrites(effects[1..])
      && TranslateEffects(effects, log, id) == [PersistLog(id, log)] + TranslateEffects(effects[1..], log, id + 1)
    ensures Plain([effects[0]]) ==>
      && LogWrites(effects) == LogWrites(effects[1..])
      && TranslateEffects(effects, log, id) == [effects[0]] + TranslateEffects(effects[1..], log, id)
  {
    assert [effects[0]][0] == effects[0];
  }
}
