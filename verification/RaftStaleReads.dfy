/** The reads that ReadIndex gets wrong: acknowledgements from before a read confirm it. */
module RaftStaleReads {
  import opened RaftTypes
  import opened Figure2
  import opened RaftCore
  import opened RaftLedger
  import opened RaftCluster
  import opened RaftInvariant
  import opened RaftNodeSteps
  import opened RaftReadSteps
  import opened RaftSafety
  import opened RaftReads
  import opened RaftScenarios

  // ---- Accepting a read ----------------------------------------------------

  function OpenedRead(c: Core, q: RequestId): PendingRead {
    PendingRead(c.nextContext, q, c.state.commit, {c.state.node}, false)
  }

  function Opening(c: Core, q: RequestId): Core {
    c.(used := c.used + {q}, nextContext := c.nextContext + 1, waiting := c.waiting + [OpenedRead(c, q)])
  }

  lemma ReplicateIsPlain(s: State)
    requires CanReplicate(s)
    ensures Plain(Replicate(s, s.peers)) && NoHard(Replicate(s, s.peers))
  {
  }

  /** A heartbeat of a quiet leader changes nothing. */
  lemma HeartbeatMoves(c: Core)
    requires Valid(c.state) && Quiescent(c) && c.state.role.Leader? && c.nextLogId <= U64_MAX && !NeedsApplication(c)
    ensures StepSpec(c, HeartbeatTimeout) == Stepped(c, Replicate(c.state, c.state.peers))
  {
    var s := c.state;
    var sends := Replicate(s, s.peers);
    assert Handle(s, HeartbeatTimeout) == Done(s, sends);
    ReplicateIsPlain(s);
    hide Valid, Handle, Replicate, StepSpec, Translate;
    SpecMoves(c, HeartbeatTimeout, s, sends);
    GateNothing(s, sends);
    TranslatePlain(c, s, sends);
    assert RoleEffects(c, s, s.role) + sends == sends;
  }

  function ReadSends(c: Core): seq<Effect> {
    if CanReplicate(c.state) then WithContext(Replicate(c.state, c.state.peers), c.nextContext) else []
  }

  lemma ReadMoves(c: Core, q: RequestId)
    requires Valid(c.state) && Quiescent(c) && c.nextLogId <= U64_MAX && !NeedsApplication(c) && AcceptsRead(c, q)
    ensures CoreStep(c, Read(q))
         == Stepped(Opening(c, q), ReadSends(c))
  {
    hide StepSpec, WithContext, Replicate, CommitTerm;
    HeartbeatMoves(Opening(c, q));
  }

  // ---- Counting an acknowledgement -----------------------------------------

  predicate AckFits(c: Core, from: NodeId, m: Message, w: PendingRead) {
    && m.AppendResponse? && m.succeeded && m.term == c.state.term && m.matched <= |c.state.log|
    && m.context == Some(w.context) && from in c.state.peers
  }

  /** A leader at rest with this read still open. */
  predicate Holds(c: Core, w: PendingRead) {
    && c.state.role.Leader? && Quiescent(c) && c.nextLogId <= U64_MAX && c.state.snapshot.None?
    && (c.application.Some? || c.nextApplyId < APPLY_ID_LIMIT)
    && w in c.waiting && w.index <= c.state.applied
  }

  function Counting(w: PendingRead, from: NodeId, majority: nat): PendingRead {
    AckRead(w, w.context, from, majority)
  }

  lemma ReplyHandled(c: Core, from: NodeId, m: Message, w: PendingRead) returns (s: State)
    requires Valid(c.state) && Holds(c, w) && AckFits(c, from, m, w)
    ensures Handle(c.state, Receive(from, m)) == Done(s, [])
    ensures s == c.state.(leader := s.leader, commit := s.commit) && s.leader.Some? && s.commit <= |s.log|
  {
    var p := c.state.leader.value.progress[from];
    var matched := Max(p.match_, m.matched);
    s := AdvanceCommit(SetProgress(c.state, from, Progress(matched + 1, matched)));
    hide CommitFrom, Holders, TermAt;
    assert Handle(c.state, Receive(from, m)) == Done(s, []);
  }

  lemma ReplyMoves(c: Core, from: NodeId, m: Message, w: PendingRead) returns (c': Core, effects: seq<Effect>)
    requires Valid(c.state) && Holds(c, w) && AckFits(c, from, m, w)
    ensures StepSpec(c, Receive(from, m)) == Stepped(c', effects)
    ensures Holds(c', w) && c'.waiting == c.waiting && c'.state.term == c.state.term
    ensures c'.state == c.state.(leader := c'.state.leader, commit := c'.state.commit)
  {
    var s := ReplyHandled(c, from, m, w);
    hide Valid, Handle, StepSpec, Translate;
    SpecMoves(c, Receive(from, m), s, []);
    GateNothing(s, []);
    TranslatePlain(c, s, []);
    var out := Schedule(WithState(c, s), RoleEffects(c, s, s.role) + []);
    c', effects := out.core, out.effects;
  }

  lemma {:induction false} CountedWaits(waiting: seq<PendingRead>, w: PendingRead, from: NodeId, majority: nat,
                                        applied: LogIndex)
    requires w in waiting && w.index <= applied
    ensures var out := Acknowledged(waiting, w.context, from, majority);
      var w' := Counting(w, from, majority);
      if w'.confirmed then ReadAnswered(w.request, w.index) in Answers(out, applied)
      else w' in StillWaiting(out, applied)
  {
    var out := Acknowledged(waiting, w.context, from, majority);
    assert out[1..] == Acknowledged(waiting[1..], w.context, from, majority);
    if waiting[0] != w {
      CountedWaits(waiting[1..], w, from, majority, applied);
    }
  }

  /** One acknowledgement: the read is answered if it completes the majority, and goes on
      waiting with one more node counted if not. */
  lemma AckMoves(c: Core, from: NodeId, m: Message, w: PendingRead) returns (c': Core, effects: seq<Effect>)
    requires Valid(c.state) && Holds(c, w) && AckFits(c, from, m, w)
    ensures CoreStep(c, Deliver(from, m)) == Stepped(c', effects)
    ensures var w' := Counting(w, from, Majority(c.state));
      if w'.confirmed then ReadAnswered(w.request, w.index) in effects else Holds(c', w')
    ensures c'.state.term == c.state.term && c'.state.peers == c.state.peers && c'.state.log == c.state.log
  {
    var c1, e1 := ReplyMoves(c, from, m, w);
    CountedWaits(c1.waiting, w, from, Majority(c1.state), c1.state.applied);
    hide Valid, StepSpec, Answers, StillWaiting, Acknowledged;
    var r := AcknowledgeRead(c1, e1, from, m);
    assert r.Stepped?;
    c', effects := r.core, r.effects;
  }

  // ---- Carrying old acknowledgements ---------------------------------------

  function Senders(ps: seq<Packet>): set<NodeId> {
    set p | p in ps :: p.from
  }

  /** Packets on the network that acknowledge this context to the leader, from its peers. */
  predicate OldAcks(c: Cluster, n: NodeId, context: ReadContext, ps: seq<Packet>)
    requires n in c.up
  {
    forall p :: p in ps ==>
      p in c.sent && p.from in c.up[n].state.peers && ReadAck(p, n, c.up[n].state.term, context)
  }

  lemma AckIsWithinLog(r: Run, n: NodeId, p: Packet, context: ReadContext)
    requires IsRun(r) && n in End(r).up && End(r).up[n].state.role.Leader?
    requires p in End(r).sent && ReadAck(p, n, End(r).up[n].state.term, context)
    ensures p.msg.matched <= |End(r).up[n].state.log|
  {
    hide IsRun, Inv, CoreOk, DiskOk, Configured;
    RunLengths(r);
    var i := |r.states| - 1;
    RunInv(r, i);
    LeaderIsRecorded(r, i, n);
    assert PacketOk(LedgerAt(r, i), p);
    AckedLength(LedgerAt(r, i), p.from, p.msg.term, p.msg.matched);
  }

  lemma AckedLength(l: Ledger, v: NodeId, t: Term, k: nat)
    requires Inv(l) && HasAcked(l, v, t, k)
    ensures t in l.termLog && k <= |l.termLog[t]|
  {
    hide VotesInv, CandidatesInv, HolderInv, VoterInv, CompletenessInv, CommitInv, DurableInv;
  }

  lemma CarryInput(c: Cluster, p: Packet)
    requires p in c.sent && p.to in c.up && p.to in c.durable
    ensures CoreOutcomeOf(c, Carry(p)) == CoreStep(c.up[p.to], Deliver(p.from, p.msg))
  {
    hide CoreStep;
  }

  /** One old acknowledgement is carried to the leader. */
  lemma CarryOne(r: Run, n: NodeId, w: PendingRead, p: Packet) returns (r': Run)
    requires IsRun(r) && n in End(r).up && Holds(End(r).up[n], w) && p in End(r).sent
    requires p.from in End(r).up[n].state.peers && ReadAck(p, n, End(r).up[n].state.term, w.context)
    ensures Continues(r, r') && r'.actions == r.actions + [Carry(p)] && |r'.states| == |r.states| + 1 && n in End(r').up
    ensures var s, s' := End(r).up[n].state, End(r').up[n].state;
      && s'.term == s.term && s'.peers == s.peers
      && var w' := Counting(w, p.from, Majority(s));
         if w'.confirmed then ReadAnswered(w.request, w.index) in EffectsOf(End(r), Carry(p))
         else Holds(End(r').up[n], w')
  {
    hide IsRun, EffectsOf, CoreStep, CoreOutcomeOf, Valid, Released;
    RunLengths(r);
    NodeIsValid(r, n);
    AckIsWithinLog(r, n, p, w.context);
    var c', effects := AckMoves(End(r).up[n], p.from, p.msg, w);
    CarryInput(End(r), p);
    r' := Move(r, Carry(p), c', effects);
    EffectsAre(End(r), Carry(p), c', effects);
  }

  /** The last step of the run answers this read at this index. */
  ghost predicate EndsWithAnswer(r: Run, n: NodeId, q: RequestId, index: LogIndex) {
    var j := |r.actions| - 1;
    0 <= j < |r.states| && ActionNode(r.actions[j]) == n
    && ReadAnswered(q, index) in EffectsOf(r.states[j], r.actions[j])
  }

  lemma AnswerAtEnd(r: Run, r': Run, n: NodeId, p: Packet, q: RequestId, index: LogIndex)
    requires IsRun(r) && Extends(r, r') && r'.actions == r.actions + [Carry(p)] && p.to == n
    requires ReadAnswered(q, index) in EffectsOf(End(r), Carry(p))
    ensures EndsWithAnswer(r', n, q, index)
  {
    hide EffectsOf, Next, Init;
    assert r'.states[|r.actions|] == End(r);
  }

  predicate OnlyCarries(r: Run, i: nat) {
    forall k :: i <= k < |r.actions| ==> r.actions[k].Carry?
  }

  lemma {:induction false} OldAcksAnswer(r: Run, n: NodeId, w: PendingRead, ps: seq<Packet>) returns (r': Run)
    requires IsRun(r) && n in End(r).up && Holds(End(r).up[n], w) && OldAcks(End(r), n, w.context, ps)
    requires |w.acks| < Majority(End(r).up[n].state) <= |w.acks + Senders(ps)| && !w.confirmed
    ensures Continues(r, r') && |r.actions| < |r'.actions| && EndsWithAnswer(r', n, w.request, w.index)
    ensures OnlyCarries(r', |r.actions|)
    decreases |ps|
  {
    hide IsRun, EffectsOf, Valid, Holds, EndsWithAnswer;
    RunLengths(r);
    assert w.acks + Senders([]) == w.acks;
    var p, s := ps[0], End(r).up[n].state;
    assert p in ps;
    var r1 := CarryOne(r, n, w, p);
    var w' := Counting(w, p.from, Majority(s));
    if w'.confirmed {
      r' := r1;
      AnswerAtEnd(r, r1, n, p, w.request, w.index);
    } else {
      assert w'.acks + Senders(ps[1..]) == w.acks + Senders(ps) by { SendersSplit(ps); }
      r' := OldAcksAnswer(r1, n, w', ps[1..]);
      ContinuesOn(r, r1, r');
    }
  }

  lemma SendersSplit(ps: seq<Packet>)
    requires ps != []
    ensures Senders(ps) == {ps[0].from} + Senders(ps[1..])
  {
    assert ps == [ps[0]] + ps[1..];
  }

  lemma EffectsAre(c: Cluster, a: Action, core': Core, effects: seq<Effect>)
    requires CoreOutcomeOf(c, a) == Stepped(core', effects)
    ensures EffectsOf(c, a) == effects
  {
  }

  // ---- The converse --------------------------------------------------------

  /** Old acknowledgements of the context that the leader issues next, from so many peers that
      they are a majority with the leader itself. */
  predicate EarlyMajority(c: Cluster, n: NodeId, ps: seq<Packet>) {
    && n in c.up && OldAcks(c, n, c.up[n].nextContext, ps)
    && |{n} + Senders(ps)| >= Majority(c.up[n].state)
  }

  /** The leader is free to take the read. */
  predicate CanOpen(c: Cluster, n: NodeId, q: RequestId) {
    && n in c.up && Quiescent(c.up[n]) && AcceptsRead(c.up[n], q)
    && !NeedsApplication(c.up[n]) && c.up[n].nextLogId <= U64_MAX
  }

  /** The leader is free to take the read and has applied everything it has committed. */
  predicate ReadyToRead(c: Cluster, n: NodeId, q: RequestId) {
    && CanOpen(c, n, q) && c.up[n].state.commit <= c.up[n].state.applied
    && c.up[n].nextApplyId < APPLY_ID_LIMIT
  }

  /** A read taken with an early majority is answered at the leader's commit index without
      any node acknowledging it after it was taken; the answer is stale exactly when some node
      had committed more. */
  lemma EarlyMajorityAnswers(r: Run, n: NodeId, q: RequestId, ps: seq<Packet>) returns (r': Run)
    requires IsRun(r) && ReadyToRead(End(r), n, q) && EarlyMajority(End(r), n, ps)
    ensures Continues(r, r') && |r.actions| < |r'.actions| - 1 && AcceptedAt(r', |r.actions|, n, q)
    ensures OnlyCarries(r', |r.actions| + 1)
    ensures EndsWithAnswer(r', n, q, End(r).up[n].state.commit)
    ensures CommitsAtMost(r', |r.actions|, End(r).up[n].state.commit)
       <==> CommitsAtMost(r, |r.actions|, End(r).up[n].state.commit)
  {
    hide IsRun, EndsWithAnswer, Valid, CommitTerm, CommitsAtMost, Holds, Majority;
    RunLengths(r);
    NodeIsValid(r, n);
    var c := End(r).up[n];
    var r1 := OpenRead(r, n, q);
    var w := OpenedRead(c, q);
    OpeningHolds(c, q);
    MajorityIsTwo(r, n);
    r' := OldAcksAnswer(r1, n, w, ps);
    ContinuesOn(r, r1, r');
    Accepted(r, r1, r', n, q);
    SameCommits(r, r', |r.actions|, c.state.commit);
  }

  lemma OpeningHolds(c: Core, q: RequestId)
    requires c.state.role.Leader? && Quiescent(c) && c.nextLogId <= U64_MAX && c.state.snapshot.None?
    requires c.nextApplyId < APPLY_ID_LIMIT && c.state.commit <= c.state.applied
    ensures Holds(Opening(c, q), OpenedRead(c, q))
  {
    assert OpenedRead(c, q) in Opening(c, q).waiting;
  }

  lemma MajorityIsTwo(r: Run, n: NodeId)
    requires IsRun(r) && n in End(r).up
    ensures Majority(End(r).up[n].state) >= 2
  {
    hide IsRun, Valid;
    RunLengths(r);
    NodeIsValid(r, n);
    assert ConfigValid(n, End(r).config[n]);
  }

  lemma OpenRead(r: Run, n: NodeId, q: RequestId) returns (r': Run)
    requires IsRun(r) && CanOpen(End(r), n, q)
    ensures Continues(r, r') && r'.actions == r.actions + [Give(n, Read(q))]
    ensures End(r').up == End(r).up[n := Opening(End(r).up[n], q)]
    ensures End(r').durable == End(r).durable
    ensures End(r').sent == End(r).sent + Released(n, ReadSends(End(r).up[n]))
  {
    hide IsRun, CoreStep, CoreOutcomeOf, Valid, CommitTerm, Released, ReadSends;
    RunLengths(r);
    NodeIsValid(r, n);
    var c := End(r).up[n];
    ReadMoves(c, q);
    GiveInput(End(r), n, q);
    r' := Move(r, Give(n, Read(q)), Opening(c, q), ReadSends(c));
  }

  lemma Accepted(r: Run, r1: Run, r': Run, n: NodeId, q: RequestId)
    requires IsRun(r) && ReadyToRead(End(r), n, q) && r1.actions == r.actions + [Give(n, Read(q))]
    requires Extends(r, r') && Extends(r1, r')
    ensures AcceptedAt(r', |r.actions|, n, q)
  {
    hide Next, Init, AcceptsRead;
    assert r'.states[|r.actions|] == End(r);
    assert r'.actions[|r.actions|] == r1.actions[|r.actions|];
  }

  lemma GiveInput(c: Cluster, n: NodeId, q: RequestId)
    requires n in c.up && n in c.durable
    ensures CoreOutcomeOf(c, Give(n, Read(q))) == CoreStep(c.up[n], Read(q))
  {
    hide CoreStep;
  }

  lemma SameCommits(r: Run, r': Run, i: nat, index: LogIndex)
    requires Extends(r, r') && i < |r.states|
    ensures CommitsAtMost(r', i, index) <==> CommitsAtMost(r, i, index)
  {
    assert forall k: nat :: k <= i ==> r'.states[k] == r.states[k];
    if CommitsAtMost(r', i, index) {
      forall k: nat, m: NodeId | k <= i && Up(r, k, m) ensures StateAt(r, k, m).commit <= index {
        assert Up(r', k, m);
      }
    }
    if CommitsAtMost(r, i, index) {
      forall k: nat, m: NodeId | k <= i && Up(r', k, m) ensures StateAt(r', k, m).commit <= index {
        assert Up(r, k, m);
      }
    }
  }

  // ---- A request is accepted once in a life --------------------------------

  lemma UsedGrows(c: Core, input: Input)
    requires CoreStep(c, input).Stepped?
    ensures c.used <= CoreStep(c, input).core.used
  {
    hide Figure2.Step, CommitTerm, AppendRequestValid, TranslateEffects, RoleEffects, LogWrites, FirstLogWrite;
    hide MatchesApplication, Answers, StillWaiting, Acknowledged, WithContext, WithoutRequest;
  }

  lemma AcceptedIsUsed(c: Core, q: RequestId)
    requires AcceptsRead(c, q) && CoreStep(c, Read(q)).Stepped?
    ensures q in CoreStep(c, Read(q)).core.used
  {
    hide StepSpec, CommitTerm, WithContext;
    SpecStepWaiting(Opening(c, q), HeartbeatTimeout);
  }

  lemma UsedStep(r: Run, n: NodeId, i: nat)
    requires IsRun(r) && Alive(r, n, i, i + 1)
    ensures r.states[i].up[n].used <= r.states[i + 1].up[n].used
    ensures forall q :: AcceptedAt(r, i, n, q) ==> q in r.states[i + 1].up[n].used
  {
    hide IsRun, CoreOutcomeOf, CoreStep, AcceptsRead, Next;
    RunNext(r, i);
    var c, a := r.states[i], r.actions[i];
    if CoreOutcomeOf(c, a).Stepped? && ActionNode(a) == n {
      CoreActionNext(c, a);
      UsedByCore(c, a);
    } else {
      UnchangedNode(c, a, r.states[i + 1], n);
      GivesStep(c, a);
    }
  }

  lemma UsedByCore(c: Cluster, a: Action)
    requires CoreOutcomeOf(c, a).Stepped? && ActionNode(a) in c.up
    ensures var core, core' := c.up[ActionNode(a)], CoreOutcomeOf(c, a).core;
      && core.used <= core'.used
      && (a.Give? && a.input.Read? && AcceptsRead(core, a.input.request) ==> a.input.request in core'.used)
  {
    hide CoreStep, AcceptsRead;
    UsedGrows(c.up[ActionNode(a)], InputOf(c, a).value);
    if a.Give? && a.input.Read? && AcceptsRead(c.up[a.node], a.input.request) {
      AcceptedIsUsed(c.up[a.node], a.input.request);
    }
  }

  lemma GivesStep(c: Cluster, a: Action)
    requires Next(c, a).Some?
    ensures a.Give? ==> CoreOutcomeOf(c, a).Stepped?
  {
    hide CoreOutcomeOf;
  }

  lemma {:induction false} UsedStays(r: Run, n: NodeId, i: nat, j: nat, q: RequestId)
    requires IsRun(r) && Alive(r, n, i, j) && q in r.states[i].up[n].used
    ensures q in r.states[j].up[n].used
    decreases j
  {
    hide IsRun;
    if i < j {
      UsedStays(r, n, i, j - 1, q);
      UsedStep(r, n, j - 1);
    }
  }

  lemma AcceptedOnce(r: Run, n: NodeId, i: nat, j: nat, q: RequestId)
    requires IsRun(r) && AcceptedAt(r, i, n, q) && AcceptedAt(r, j, n, q) && Alive(r, n, i, j)
    ensures i == j
  {
    hide IsRun;
    if i < j {
      UsedStep(r, n, i);
      UsedStays(r, n, i + 1, j, q);
    }
  }

  // ---- Three nodes: exactly when a read may be stale -----------------------

  /** In `r'`, which goes on from `r` by accepting the read, the read is answered in the same
      life of the node below an index that was committed before it was accepted. */
  ghost predicate StaleAnswer(r: Run, r': Run, j: nat, n: NodeId, q: RequestId, index: LogIndex) {
    var i := |r.actions|;
    && IsRun(r') && Extends(r, r') && i < j < |r'.actions| && j < |r'.states| && ActionNode(r'.actions[j]) == n
    && AcceptedAt(r', i, n, q) && Alive(r', n, i, j + 1)
    && ReadAnswered(q, index) in EffectsOf(r'.states[j], r'.actions[j]) && !CommitsAtMost(r', i, index)
  }

  /** A peer that has passed the leader's term acknowledged the next context before. */
  predicate PassedAck(c: Cluster, n: NodeId) {
    n in c.up && exists v :: v in c.up[n].state.peers && EarlyFrom(c, n, v, c.up[n].nextContext) && !Behind(c, n, v)
  }

  /** Whatever the size of the cluster, staleness needs an early acknowledgement from a peer that
      has passed the leader's term, a commit beyond the leader's, and a majority of the leader,
      the peers that acknowledged early and those that have not passed its term. */
  lemma StaleNeedsEarlyAck(r: Run, r': Run, j: nat, n: NodeId, q: RequestId, index: LogIndex)
    requires IsRun(r) && StaleAnswer(r, r', j, n, q, index)
    ensures PassedAck(End(r), n) && index == End(r).up[n].state.commit
    ensures !CommitsAtMost(r, |r.actions|, End(r).up[n].state.commit)
    ensures |Confirmers(End(r), n, End(r).up[n].nextContext) + {n}| >= Majority(End(r).up[n].state)
  {
    hide IsRun, EffectsOf, CommitsAtMost, AcceptsRead, Confirmers;
    RunLengths(r);
    var i := |r.actions|;
    var i' := AnsweredReadIsLinearizable(r', j, q, index);
    if i' <= i { AcceptedOnce(r', n, i', i, q); } else { AcceptedOnce(r', n, i, i', q); }
    assert r'.states[i] == End(r);
    SameCommits(r, r', i, index);
  }

  /** In a cluster of three, a read can be answered stale if and only if a peer that has passed the
      leader's term acknowledged its context early and somebody had committed more. */
  lemma ThreeNodesStaleIff(r: Run, n: NodeId, q: RequestId)
    requires IsRun(r) && ReadyToRead(End(r), n, q) && |End(r).up[n].state.peers| == 2
    ensures (exists r': Run, j: nat, index: LogIndex :: StaleAnswer(r, r', j, n, q, index))
       <==> PassedAck(End(r), n) && !CommitsAtMost(r, |r.actions|, End(r).up[n].state.commit)
  {
    hide IsRun, PassedAck, AcceptsRead, StaleAnswer, CommitsAtMost;
    RunLengths(r);
    if r': Run, j: nat, index: LogIndex :| StaleAnswer(r, r', j, n, q, index) {
      StaleNeedsEarlyAck(r, r', j, n, q, index);
    }
    if PassedAck(End(r), n) && !CommitsAtMost(r, |r.actions|, End(r).up[n].state.commit) {
      var r', j := EarlyAckAnswers(r, n, q);
    }
  }

  lemma EarlyAckAnswers(r: Run, n: NodeId, q: RequestId) returns (r': Run, j: nat)
    requires IsRun(r) && ReadyToRead(End(r), n, q) && |End(r).up[n].state.peers| == 2 && PassedAck(End(r), n)
    requires !CommitsAtMost(r, |r.actions|, End(r).up[n].state.commit)
    ensures StaleAnswer(r, r', j, n, q, End(r).up[n].state.commit)
  {
    hide IsRun, ReadyToRead, EffectsOf, CommitsAtMost, AcceptsRead, NoPassedAck, Confirmers;
    RunLengths(r);
    var c := End(r).up[n];
    var v :| v in c.state.peers && EarlyFrom(End(r), n, v, c.nextContext) && !Behind(End(r), n, v);
    var p :| p in End(r).sent && p.from == v && ReadAck(p, n, c.state.term, c.nextContext);
    OneIsEnough(r, n, p);
    r' := EarlyMajorityAnswers(r, n, q, [p]);
    RunLengths(r');
    j := |r'.actions| - 1;
    var i' := AnsweredReadIsLinearizable(r', j, q, c.state.commit);
    assert r'.actions[i'].Give?;
    AcceptedInLife(r', n, i', |r.actions|, j, q);
  }

  /** Only one step up to `j` accepts the read if nothing but packets come after `i`. */
  lemma AcceptedInLife(r: Run, n: NodeId, i': nat, i: nat, j: nat, q: RequestId)
    requires IsRun(r) && AcceptedAt(r, i', n, q) && AcceptedAt(r, i, n, q) && Alive(r, n, i', j + 1)
    requires i < j && i' <= j && OnlyCarries(r, i + 1)
    ensures i' == i
  {
    hide IsRun, AcceptsRead;
    if i' <= i { AcceptedOnce(r, n, i', i, q); }
  }

  lemma OneIsEnough(r: Run, n: NodeId, p: Packet)
    requires IsRun(r) && n in End(r).up && |End(r).up[n].state.peers| == 2 && p in End(r).sent
    requires p.from in End(r).up[n].state.peers
    requires ReadAck(p, n, End(r).up[n].state.term, End(r).up[n].nextContext)
    ensures EarlyMajority(End(r), n, [p])
  {
    hide IsRun;
    RunLengths(r);
    NodeIsValid(r, n);
    assert p.from != n;
    assert Senders([p]) == {p.from} && |{n} + {p.from}| == 2;
  }
}
