/** Rounds of the protocol, as stretches of a run: an election, a client command, the
    replication of a log, its acknowledgement, and an application. */
module RaftRounds {
  import opened RaftTypes
  import opened Figure2
  import opened Figure2Proofs
  import opened RaftCore
  import opened RaftLedger
  import opened RaftCluster
  import opened RaftInvariant
  import opened RaftSafety
  import opened RaftScenarios

  /** Nothing is in flight that would keep the node from taking an input. */
  predicate Calm(c: Core) {
    && Quiescent(c) && !NeedsApplication(c) && c.nextLogId < U64_MAX
    && 0 < c.state.nextRequest < U64_MAX - 2 && c.state.term < U64_MAX && |c.state.log| < U64_MAX - 2
  }

  // ---- Disk writes ---------------------------------------------------------

  lemma AfterDisk(r: Run, a: Action, c: Cluster)
    requires IsRun(r) && Next(End(r), a) == Some(c)
    requires c.config == End(r).config && c.maxReads == End(r).maxReads && c.maxHistory == End(r).maxHistory
    requires End(r).sent <= c.sent
    ensures Continues(r, Then(r, a, c)) && End(Then(r, a, c)) == c
  {
    hide Next, IsRun;
    RunLengths(r);
    OneMore(r, a, c);
  }

  /** The pending hard state is written and its completion handed over. */
  lemma PersistHardRound(r: Run, n: NodeId, core': Core, effects: seq<Effect>) returns (r': Run)
    requires IsRun(r) && n in End(r).up && n in End(r).durable
    requires End(r).up[n].state.pending.Some? && End(r).up[n].pendingLog.None?
    requires var p := End(r).up[n].state.pending.value;
      StepSpec(End(r).up[n], HardPersisted(p.id, p.hard)) == Stepped(core', effects)
    ensures Continues(r, r') && End(r').up == End(r).up[n := core']
    ensures End(r').durable == End(r).durable[n := End(r).durable[n].(hard := End(r).up[n].state.pending.value.hard)]
    ensures End(r').sent == End(r).sent + Released(n, effects)
  {
    hide IsRun, StepSpec, Released, RecordVote;
    RunLengths(r);
    var c := End(r);
    var c1 := AfterWriteHard(c, n, c.up[n].state.pending.value.hard);
    assert Next(c, WriteHard(n)) == Some(c1);
    hide Next;
    AfterDisk(r, WriteHard(n), c1);
    var r1 := Then(r, WriteHard(n), c1);
    r' := Move(r1, FinishHard(n), core', effects);
    ContinuesOn(r, r1, r');
  }

  /** The pending log is written and its completion handed over. */
  lemma PersistLogRound(r: Run, n: NodeId) returns (r': Run)
    requires IsRun(r) && n in End(r).up && n in End(r).durable && End(r).up[n].pendingLog.Some?
    requires !NeedsApplication(End(r).up[n])
    ensures Continues(r, r') && End(r').up == End(r).up[n := End(r).up[n].(pendingLog := None)]
    ensures End(r').durable == End(r).durable[n := End(r).durable[n].(log := End(r).up[n].pendingLog.value.log)]
    ensures End(r').sent == End(r).sent + Released(n, End(r).up[n].pendingLog.value.deferred)
  {
    hide IsRun, Released;
    RunLengths(r);
    var c := End(r);
    var c1 := AfterWriteLog(c, n, c.up[n].pendingLog.value.log);
    assert Next(c, WriteLog(n)) == Some(c1);
    AfterDisk(r, WriteLog(n), c1);
    var r1 := Then(r, WriteLog(n), c1);
    assert CoreOutcomeOf(c1, FinishLog(n))
        == Stepped(c.up[n].(pendingLog := None), c.up[n].pendingLog.value.deferred);
    hide Next, CoreOutcomeOf;
    r' := Move(r1, FinishLog(n), c.up[n].(pendingLog := None), c.up[n].pendingLog.value.deferred);
    ContinuesOn(r, r1, r');
  }

  /** A packet is delivered. */
  lemma Delivery(r: Run, p: Packet, core': Core, effects: seq<Effect>) returns (r': Run)
    requires IsRun(r) && p in End(r).sent && p.to in End(r).up && p.to in End(r).durable
    requires CoreStep(End(r).up[p.to], Deliver(p.from, p.msg)) == Stepped(core', effects)
    ensures Continues(r, r') && End(r').up == End(r).up[p.to := core'] && End(r').durable == End(r).durable
    ensures End(r').sent == End(r).sent + Released(p.to, effects)
  {
    hide IsRun, CoreStep, Released;
    RunLengths(r);
    assert CoreOutcomeOf(End(r), Carry(p)) == Stepped(core', effects);
    hide CoreOutcomeOf;
    r' := Move(r, Carry(p), core', effects);
  }

  lemma SentBy(n: NodeId, effects: seq<Effect>, e: Effect)
    requires e in effects && e.Send?
    ensures Packet(n, e.to, e.msg) in Released(n, effects)
  {
  }

  // ---- Standing for election -----------------------------------------------

  function Stood(s: State): State {
    s.(term := s.term + 1, vote := Some(s.node), role := Candidate, knownLeader := None, leader := None,
       votes := {s.node}, nextRequest := s.nextRequest + 1)
  }

  function Solicitation(s: State): seq<Effect> {
    [ResetElectionTimer] + Solicit(Stood(s), s.peers)
  }

  function Standing(s: State): State {
    Stood(s).(pending := Some(PendingHard(s.nextRequest, HardState(s.term + 1, Some(s.node)), Solicitation(s))))
  }

  lemma SolicitationIsPlain(s: State)
    ensures Plain(Solicitation(s)) && NoHard(Solicitation(s)) && IdsOk(Solicitation(s))
  {
  }

  lemma TimeoutMoves(c: Core) returns (effects: seq<Effect>)
    requires Valid(c.state) && Calm(c) && c.state.role.Follower? && |c.state.peers| == 2
    ensures CoreStep(c, Timeout) == Stepped(c.(state := Standing(c.state)), effects)
  {
    var s := c.state;
    var all := [] + [PersistHard(s.nextRequest, HardState(s.term + 1, Some(s.node)))] + Solicitation(s);
    assert StartElection(s) == Done(Stood(s), all) by {
      var write := [PersistHard(s.nextRequest, HardState(s.term + 1, Some(s.node)))];
      assert write + [ResetElectionTimer] + Solicit(Stood(s), s.peers) == all;
    }
    hide Solicitation, StartElection, StepSpec, Translate, Valid;
    assert Handle(s, ElectionTimeout) == Done(Stood(s), all);
    hide Handle;
    SpecMoves(c, ElectionTimeout, Stood(s), all);
    GateFirst(Stood(s), [], s.nextRequest, HardState(s.term + 1, Some(s.node)), Solicitation(s));
    var front := [] + [PersistHard(s.nextRequest, HardState(s.term + 1, Some(s.node)))];
    TranslatePlain(c, Standing(s), front);
    effects := RoleEffects(c, Standing(s), c.state.role) + front;
  }

  lemma StoodMoves(c: Core, s: State)
    requires Valid(Standing(s)) && c.state == Standing(s) && c.pendingLog.None? && c.nextLogId <= U64_MAX
    requires !NeedsApplication(c)
    ensures StepSpec(c, HardPersisted(s.nextRequest, HardState(s.term + 1, Some(s.node))))
         == Stepped(c.(state := Stood(s).(pending := None)), Solicitation(s))
  {
    var event := HardPersisted(s.nextRequest, HardState(s.term + 1, Some(s.node)));
    var s1 := Stood(s).(pending := None);
    SolicitationIsPlain(s);
    hide Solicitation, StepSpec, Translate, Valid;
    assert Handle(c.state, event) == Done(s1, Solicitation(s));
    hide Handle;
    SpecMoves(c, event, s1, Solicitation(s));
    GateNothing(s1, Solicitation(s));
    TranslatePlain(c, s1, Solicitation(s));
    assert RoleEffects(c, s1, c.state.role) + Solicitation(s) == Solicitation(s);
  }

  /** A calm follower times out and its self-vote becomes durable. */
  lemma StandRound(r: Run, n: NodeId) returns (r': Run)
    requires IsRun(r) && n in End(r).up && Calm(End(r).up[n])
    requires End(r).up[n].state.role.Follower? && |End(r).up[n].state.peers| == 2
    ensures Continues(r, r') && n in End(r).durable
    ensures var c := End(r).up[n]; var s := c.state;
      && End(r').up == End(r).up[n := c.(state := Stood(s))]
      && End(r').durable == End(r).durable[n := End(r).durable[n].(hard := HardState(s.term + 1, Some(n)))]
      && forall p :: p in s.peers ==>
          Packet(n, p, VoteRequest(s.term + 1, n, LastIndex(s), LastTerm(s))) in End(r').sent
  {
    hide IsRun, CoreStep, StepSpec, Released, Valid, Solicitation;
    RunLengths(r);
    NodeIsValid(r, n);
    var c, s := End(r).up[n], End(r).up[n].state;
    var e1 := TimeoutMoves(c);
    assert CoreOutcomeOf(End(r), Give(n, Timeout)) == Stepped(c.(state := Standing(s)), e1);
    hide CoreOutcomeOf;
    var r1 := Move(r, Give(n, Timeout), c.(state := Standing(s)), e1);
    NodeIsValid(r1, n);
    StoodMoves(End(r1).up[n], s);
    r' := PersistHardRound(r1, n, c.(state := Stood(s)), Solicitation(s));
    ContinuesOn(r, r1, r');
    forall p | p in s.peers
      ensures Packet(n, p, VoteRequest(s.term + 1, n, LastIndex(s), LastTerm(s))) in End(r').sent
    {
      Solicits(s, p);
      SentBy(n, Solicitation(s), Send(p, VoteRequest(s.term + 1, n, LastIndex(s), LastTerm(s))));
    }
  }

  lemma Solicits(s: State, p: NodeId)
    requires p in s.peers
    ensures Send(p, VoteRequest(s.term + 1, s.node, LastIndex(s), LastTerm(s))) in Solicitation(s)
  {
    var k :| 0 <= k < |s.peers| && s.peers[k] == p;
    assert Solicitation(s)[k + 1] == Send(p, VoteRequest(s.term + 1, s.node, LastIndex(s), LastTerm(s)));
  }

  // ---- Voting --------------------------------------------------------------

  function Granted(s: State, t: Term, n: NodeId): State {
    s.(term := t, vote := Some(n), role := Follower, knownLeader := None, votes := {}, leader := None,
       nextRequest := s.nextRequest + 2)
  }

  function Grant(t: Term, n: NodeId): seq<Effect> {
    [ResetElectionTimer, Send(n, VoteResponse(t, true))]
  }

  /** The voter's state while the new term, and then the vote, are being written. */
  function Granting(s: State, t: Term, n: NodeId): State {
    Granted(s, t, n).(pending := Some(PendingHard(s.nextRequest, HardState(t, None), VoteBehind(s, t, n))))
  }

  function Casting(s: State, t: Term, n: NodeId): State {
    Granted(s, t, n).(pending := Some(PendingHard(s.nextRequest + 1, HardState(t, Some(n)), Grant(t, n))))
  }

  /** What the voter does once its new term is durable: the vote, then the answer. */
  function VoteBehind(s: State, t: Term, n: NodeId): seq<Effect> {
    [PersistHard(s.nextRequest + 1, HardState(t, Some(n)))] + Grant(t, n)
  }

  lemma GrantHandled(s: State, n: NodeId, m: Message)
    requires 0 < s.nextRequest < U64_MAX - 2 && s.role.Follower? && n in s.peers
    requires m.VoteRequest? && m.candidate == n && m.term > s.term && UpToDate(s, m.lastTerm, m.lastIndex)
    ensures HandleVoteRequest(s, n, m)
         == Done(Granted(s, m.term, n),
             [] + [PersistHard(s.nextRequest, HardState(m.term, None))] + VoteBehind(s, m.term, n))
  {
    var first := [PersistHard(s.nextRequest, HardState(m.term, None))];
    assert first + [PersistHard(s.nextRequest + 1, HardState(m.term, Some(n)))] + Grant(m.term, n)
        == [] + first + VoteBehind(s, m.term, n);
  }

  lemma GrantMoves(c: Core, n: NodeId, m: Message) returns (effects: seq<Effect>)
    requires Valid(c.state) && Calm(c) && c.state.role.Follower? && n in c.state.peers
    requires m.VoteRequest? && m.candidate == n && m.term > c.state.term && UpToDate(c.state, m.lastTerm, m.lastIndex)
    ensures CoreStep(c, Deliver(n, m)) == Stepped(c.(state := Granting(c.state, m.term, n)), effects)
  {
    hide StepSpec, Translate, Valid, UpToDate, HandleVoteRequest, VoteBehind;
    var s, t := c.state, m.term;
    GrantHandled(s, n, m);
    var all := [] + [PersistHard(s.nextRequest, HardState(t, None))] + VoteBehind(s, t, n);
    assert Handle(s, Receive(n, m)) == Done(Granted(s, t, n), all);
    hide Handle;
    SpecMoves(c, Receive(n, m), Granted(s, t, n), all);
    GateFirst(Granted(s, t, n), [], s.nextRequest, HardState(t, None), VoteBehind(s, t, n));
    var front := [] + [PersistHard(s.nextRequest, HardState(t, None))];
    TranslatePlain(c, Granting(s, t, n), front);
    effects := RoleEffects(c, Granting(s, t, n), c.state.role) + front;
  }

  lemma GrantingMoves(c: Core, s: State, t: Term, n: NodeId) returns (effects: seq<Effect>)
    requires c.state == Granting(s, t, n) && Valid(c.state) && c.pendingLog.None? && c.nextLogId <= U64_MAX
    ensures StepSpec(c, HardPersisted(s.nextRequest, HardState(t, None)))
         == Stepped(c.(state := Casting(s, t, n)), effects)
  {
    var event := HardPersisted(s.nextRequest, HardState(t, None));
    var s1 := Granted(s, t, n).(pending := None);
    var all := [] + [PersistHard(s.nextRequest + 1, HardState(t, Some(n)))] + Grant(t, n);
    assert c.state.pending.value.deferred == all;
    hide StepSpec, Translate, Valid;
    assert Handle(c.state, event) == Done(s1, all);
    hide Handle;
    SpecMoves(c, event, s1, all);
    GateFirst(s1, [], s.nextRequest + 1, HardState(t, Some(n)), Grant(t, n));
    var front := [] + [PersistHard(s.nextRequest + 1, HardState(t, Some(n)))];
    TranslatePlain(c, Casting(s, t, n), front);
    effects := RoleEffects(c, Casting(s, t, n), c.state.role) + front;
  }

  lemma CastingMoves(c: Core, s: State, t: Term, n: NodeId)
    requires c.state == Casting(s, t, n) && Valid(c.state) && c.pendingLog.None? && c.nextLogId <= U64_MAX
    requires !NeedsApplication(c)
    ensures StepSpec(c, HardPersisted(s.nextRequest + 1, HardState(t, Some(n))))
         == Stepped(c.(state := Granted(s, t, n).(pending := None)), Grant(t, n))
  {
    var event := HardPersisted(s.nextRequest + 1, HardState(t, Some(n)));
    var s1 := Granted(s, t, n).(pending := None);
    hide StepSpec, Translate, Valid;
    assert Handle(c.state, event) == Done(s1, Grant(t, n));
    hide Handle;
    SpecMoves(c, event, s1, Grant(t, n));
    GateNothing(s1, Grant(t, n));
    TranslatePlain(c, s1, Grant(t, n));
    assert RoleEffects(c, s1, c.state.role) + Grant(t, n) == Grant(t, n);
  }

  /** A calm follower grants its vote and the vote becomes durable. */
  lemma VoteRound(r: Run, v: NodeId, p: Packet) returns (r': Run)
    requires IsRun(r) && v in End(r).up && Calm(End(r).up[v]) && End(r).up[v].state.role.Follower?
    requires p in End(r).sent && p.to == v && p.from in End(r).up[v].state.peers && p.msg.VoteRequest?
    requires p.msg.candidate == p.from && p.msg.term > End(r).up[v].state.term
    requires UpToDate(End(r).up[v].state, p.msg.lastTerm, p.msg.lastIndex)
    ensures Continues(r, r') && v in End(r).durable
    ensures var c := End(r).up[v];
      && End(r').up == End(r).up[v := c.(state := Granted(c.state, p.msg.term, p.from))]
      && End(r').durable == End(r).durable[v := End(r).durable[v].(hard := HardState(p.msg.term, Some(p.from)))]
      && Packet(v, p.from, VoteResponse(p.msg.term, true)) in End(r').sent
  {
    hide IsRun, CoreStep, StepSpec, Released, Valid, UpToDate;
    RunLengths(r);
    NodeIsValid(r, v);
    var c, s, t, n := End(r).up[v], End(r).up[v].state, p.msg.term, p.from;
    var e1 := GrantMoves(c, n, p.msg);
    var r1 := Delivery(r, p, c.(state := Granting(s, t, n)), e1);
    NodeIsValid(r1, v);
    var e2 := GrantingMoves(End(r1).up[v], s, t, n);
    var r2 := PersistHardRound(r1, v, c.(state := Casting(s, t, n)), e2);
    NodeIsValid(r2, v);
    CastingMoves(End(r2).up[v], s, t, n);
    r' := PersistHardRound(r2, v, c.(state := Granted(s, t, n)), Grant(t, n));
    ContinuesOn(r, r1, r2);
    ContinuesOn(r, r2, r');
    SentBy(v, Grant(t, n), Send(n, VoteResponse(t, true)));
  }

  // ---- Winning -------------------------------------------------------------

  function Elected(s: State): State {
    s.(role := Leader, votes := {}, knownLeader := Some(s.node), leader := Some(LeaderState(FreshProgress(s), {})))
  }

  lemma ElectedSame(s: State, votes: set<NodeId>)
    ensures Elected(s.(votes := votes)) == Elected(s)
  {
    assert FreshProgress(s.(votes := votes)) == FreshProgress(s);
  }

  lemma InitializeHandled(s: State)
    requires |s.log| < U64_MAX && s.snapshot.None?
    ensures CanReplicate(Elected(s)) && InitializeLeader(s) == Done(Elected(s), Replicate(Elected(s), s.peers))
  {
    hide Replicate;
  }

  lemma ObserveSame(s: State)
    ensures Observe(s, s.term) == Done(s, [])
  {
  }

  lemma TwoVotesSuffice(s: State, s2: State, v: NodeId)
    requires v != s.node && s.votes == {s.node} && |s.peers| == 2 && s2 == s.(votes := s.votes + {v})
    ensures |s2.votes| >= Majority(s2)
  {
    assert |{s.node} + {v}| == 2;
  }

  lemma WinHandled(s: State, v: NodeId, t: Term)
    requires s.role.Candidate? && s.term == t && |s.peers| == 2 && |s.log| < U64_MAX
    requires v in s.peers && v != s.node && s.votes == {s.node} && s.snapshot.None?
    ensures CanReplicate(Elected(s))
    ensures HandleVoteResponse(s, v, VoteResponse(t, true)) == Done(Elected(s), Replicate(Elected(s), s.peers))
  {
    hide Replicate, CanReplicate, InitializeLeader, Elected, Majority, Observe;
    ObserveSame(s);
    var s2 := s.(votes := s.votes + {v});
    TwoVotesSuffice(s, s2, v);
    ElectedSame(s, s2.votes);
    InitializeHandled(s2);
    assert [] + InitializeLeader(s2).effects == InitializeLeader(s2).effects;
  }

  lemma NotItself(s: State, v: NodeId)
    requires Valid(s) && v in s.peers
    ensures v != s.node
  {
    hide LogValid, IndexesValid, RolesValid, RequestsValid, LeaderValid;
  }

  lemma WinMoves(c: Core, v: NodeId, t: Term) returns (effects: seq<Effect>)
    requires Valid(c.state) && Calm(c) && c.state.role.Candidate? && c.state.term == t && |c.state.peers| == 2
    requires v in c.state.peers && c.state.votes == {c.state.node} && c.state.snapshot.None?
    ensures CanReplicate(Elected(c.state))
    ensures CoreStep(c, Deliver(v, VoteResponse(t, true)))
         == Stepped(c.(state := Elected(c.state)), effects + Replicate(Elected(c.state), c.state.peers))
  {
    hide StepSpec, Valid, Replicate, HandleVoteResponse, FreshProgress, CanReplicate, RoleEffects;
    var s, m := c.state, VoteResponse(t, true);
    NotItself(s, v);
    WinHandled(s, v, t);
    SendsArePlain(Elected(s));
    assert Handle(s, Receive(v, m)) == Done(Elected(s), Replicate(Elected(s), s.peers));
    hide Handle;
    PlainMoves(c, Receive(v, m), Elected(s), Replicate(Elected(s), s.peers));
    effects := RoleEffects(c, Elected(s), s.role);
  }

  lemma SendsArePlain(s: State)
    requires CanReplicate(s)
    ensures Plain(Replicate(s, s.peers)) && NoHard(Replicate(s, s.peers))
  {
  }

  /** The leader has sent each peer what it still lacks. */
  predicate Offered(s: State, n: NodeId, sent: set<Packet>) {
    CanReplicate(s) && forall p :: p in s.peers ==> Packet(n, p, AppendFor(s, p, None)) in sent
  }

  lemma Offers(n: NodeId, s: State, front: seq<Effect>, effects: seq<Effect>, sent: set<Packet>)
    requires CanReplicate(s) && effects == front + Replicate(s, s.peers) && Released(n, effects) <= sent
    ensures Offered(s, n, sent)
  {
    forall p | p in s.peers ensures Packet(n, p, AppendFor(s, p, None)) in sent {
      var k :| 0 <= k < |s.peers| && s.peers[k] == p;
      assert effects[|front| + k] == Send(p, AppendFor(s, p, None));
      assert Packet(n, p, AppendFor(s, p, None)) in Released(n, effects);
    }
  }

  lemma StoodShape(c: Core)
    requires Calm(c) && c.state.term + 1 < U64_MAX && c.state.nextRequest + 1 < U64_MAX - 2
    ensures var s := Stood(c.state);
      && Calm(c.(state := s)) && s.role.Candidate? && s.term == c.state.term + 1 && s.votes == {s.node}
      && s.peers == c.state.peers && s.snapshot == c.state.snapshot && s.node == c.state.node
  {
  }

  /** `n` may be elected with the vote of `v`, whose log is not fresher. */
  predicate CanWin(r: Run, n: NodeId, v: NodeId) {
    && |r.states| > 0 && n in End(r).up && v in End(r).up && n != v
    && var c, cv := End(r).up[n], End(r).up[v];
    && Calm(c) && Calm(cv) && c.state.role.Follower? && cv.state.role.Follower?
    && v in c.state.peers && n in cv.state.peers && |c.state.peers| == 2
    && cv.state.term <= c.state.term && UpToDate(cv.state, LastTerm(c.state), LastIndex(c.state))
    && c.state.term + 1 < U64_MAX && c.state.nextRequest + 1 < U64_MAX - 2
  }

  /** `n` stands and `v` votes for it. */
  lemma VotesRound(r: Run, n: NodeId, v: NodeId) returns (r': Run)
    requires IsRun(r) && CanWin(r, n, v)
    ensures Continues(r, r') && n in End(r).durable && v in End(r).durable
    ensures var c, cv := End(r).up[n], End(r).up[v]; var t := c.state.term + 1;
      && End(r').up == End(r).up[n := c.(state := Stood(c.state))][v := cv.(state := Granted(cv.state, t, n))]
      && End(r').durable == End(r).durable[n := End(r).durable[n].(hard := HardState(t, Some(n)))]
                                          [v := End(r).durable[v].(hard := HardState(t, Some(n)))]
      && Packet(v, n, VoteResponse(t, true)) in End(r').sent
  {
    hide IsRun, Valid, UpToDate, Granted, Stood;
    RunLengths(r);
    var c := End(r).up[n];
    var r1 := StandRound(r, n);
    r' := VoteRound(r1, v, Packet(n, v, VoteRequest(c.state.term + 1, n, LastIndex(c.state), LastTerm(c.state))));
    ContinuesOn(r, r1, r');
  }

  /** `n` is elected with the vote of `v`. */
  lemma Election(r: Run, n: NodeId, v: NodeId) returns (r': Run)
    requires IsRun(r) && CanWin(r, n, v)
    ensures Continues(r, r') && n in End(r).durable && v in End(r).durable
    ensures var c, cv := End(r).up[n], End(r).up[v]; var t := c.state.term + 1;
      && End(r').up == End(r).up[n := c.(state := Elected(Stood(c.state)))]
                                [v := cv.(state := Granted(cv.state, t, n))]
      && End(r').durable == End(r).durable[n := End(r).durable[n].(hard := HardState(t, Some(n)))]
                                          [v := End(r).durable[v].(hard := HardState(t, Some(n)))]
  {
    hide IsRun, CoreStep, Released, Valid, UpToDate, Elected, Granted, Stood, Replicate, CanReplicate;
    RunLengths(r);
    NodeIsValid(r, n);
    var c, cv := End(r).up[n], End(r).up[v];
    var t := c.state.term + 1;
    StoodShape(c);
    var r1 := VotesRound(r, n, v);
    NodeIsValid(r1, n);
    var e := WinMoves(End(r1).up[n], v, t);
    var c1 := c.(state := Elected(Stood(c.state)));
    r' := Delivery(r1, Packet(v, n, VoteResponse(t, true)), c1, e + Replicate(c1.state, c.state.peers));
    ContinuesOn(r, r1, r');
    assert End(r').up == End(r).up[n := c1][v := cv.(state := Granted(cv.state, t, n))];
  }

  // ---- A client command ----------------------------------------------------

  /** No follower is known to hold anything beyond the commit index. */
  predicate NothingToCommit(s: State) {
    s.leader.Some? && forall p :: p in s.leader.value.progress ==> s.leader.value.progress[p].match_ <= s.commit
  }

  function Commanded(s: State, command: Command): State {
    var l := if s.leader.Some? then s.leader.value else LeaderState(map[], {});
    s.(log := s.log + [LogEntry(s.term, |s.log| + 1, command)],
       leader := Some(l.(clients := l.clients + {|s.log| + 1})))
  }

  lemma CommitStays(s: State)
    requires NothingToCommit(s) && s.snapshot.None? && s.commit <= |s.log| && |s.peers| == 2
    ensures AdvanceCommit(s) == s
  {
    var c := CommitFrom(s, LastIndex(s));
    assert c > s.commit ==> Holders(s, c) == {};
  }

  lemma CommandedShape(s: State, command: Command)
    ensures var s' := Commanded(s, command);
      && s'.peers == s.peers && s'.commit == s.commit && s'.applied == s.applied
      && s'.role == s.role && s'.pending == s.pending
  {
  }

  lemma CommandHandled(s: State, command: Command)
    requires Valid(s) && s.role.Leader? && s.snapshot.None? && NothingToCommit(s) && |s.log| < U64_MAX - 2
    requires |s.peers| == 2
    ensures CanReplicate(Commanded(s, command))
    ensures HandleClient(s, command)
         == Done(Commanded(s, command), [PersistState] + Replicate(Commanded(s, command), s.peers))
  {
    hide Replicate, AdvanceCommit, Holders;
    CommitStays(Commanded(s, command));
  }

  /** The leader with the new entry in its log and the write of the log in flight. */
  function Commanding(c: Core, command: Command): Core {
    var s := Commanded(c.state, command);
    c.(state := s, nextLogId := c.nextLogId + 1,
       pendingLog := Some(PendingLog(c.nextLogId, s.log, if CanReplicate(s) then Replicate(s, s.peers) else [])))
  }

  lemma CommandMoves(c: Core, command: Command)
    requires Valid(c.state) && Calm(c) && c.state.role.Leader? && c.state.snapshot.None?
    requires NothingToCommit(c.state) && |c.state.peers| == 2
    ensures CanReplicate(Commanded(c.state, command))
    ensures CoreStep(c, Client(command))
         == Stepped(Commanding(c, command), [PersistLog(c.nextLogId, Commanded(c.state, command).log)])
  {
    hide StepSpec, Translate, Valid, Replicate, HandleClient, CanReplicate, RoleEffects, NothingToCommit;
    CommandHandled(c.state, command);
    var s := Commanded(c.state, command);
    SendsArePlain(s);
    var sends := Replicate(s, s.peers);
    assert [] + [PersistState] + sends == [PersistState] + sends;
    assert Handle(c.state, ClientCommand(command)) == Done(s, [] + [PersistState] + sends);
    CommandedShape(c.state, command);
    hide Handle, Commanded;
    SpecMoves(c, ClientCommand(command), s, [] + [PersistState] + sends);
    GateNothing(s, [] + [PersistState] + sends);
    TranslateWrite(c, s, [], sends);
    SameRole(c, s);
    assert [] + [] + [PersistLog(c.nextLogId, s.log)] == [PersistLog(c.nextLogId, s.log)];
  }

  lemma SameRole(c: Core, s: State)
    requires s.role == c.state.role
    ensures RoleEffects(c, s, c.state.role) == [] && WithState(c, s) == c.(state := s)
  {
  }

  lemma CommandingShape(c: Core, command: Command)
    requires !NeedsApplication(c) && c.pendingLog.None? && CanReplicate(Commanded(c.state, command))
    ensures var c1 := Commanding(c, command); var s := Commanded(c.state, command);
      && c1.pendingLog.Some? && c1.pendingLog.value.log == s.log && !NeedsApplication(c1)
      && c1.pendingLog.value.deferred == Replicate(s, s.peers)
      && c1.(pendingLog := None) == c.(state := s, nextLogId := c.nextLogId + 1)
  {
    hide CanReplicate;
  }

  lemma CommandGiven(r: Run, n: NodeId, command: Command) returns (r': Run)
    requires IsRun(r) && n in End(r).up && Calm(End(r).up[n])
    requires var s := End(r).up[n].state; s.role.Leader? && NothingToCommit(s) && |s.peers| == 2
    ensures Continues(r, r') && n in End(r).durable && CanReplicate(Commanded(End(r).up[n].state, command))
    ensures End(r').up == End(r).up[n := Commanding(End(r).up[n], command)] && End(r').durable == End(r).durable
  {
    hide IsRun, CoreStep, Released, Valid, NothingToCommit, CanReplicate, Commanded, Commanding, CoreOutcomeOf;
    RunLengths(r);
    NodeIsValid(r, n);
    var c := End(r).up[n];
    CommandMoves(c, command);
    ClientInput(End(r), n, command);
    r' := Move(r, Give(n, Client(command)), Commanding(c, command),
               [PersistLog(c.nextLogId, Commanded(c.state, command).log)]);
  }

  /** A leader takes a command and its log becomes durable. */
  lemma CommandRound(r: Run, n: NodeId, command: Command) returns (r': Run)
    requires IsRun(r) && n in End(r).up && Calm(End(r).up[n])
    requires var s := End(r).up[n].state; s.role.Leader? && NothingToCommit(s) && |s.peers| == 2
    ensures Continues(r, r') && n in End(r).durable && CanReplicate(Commanded(End(r).up[n].state, command))
    ensures var c := End(r).up[n]; var s := Commanded(c.state, command);
      && End(r').up == End(r).up[n := c.(state := s, nextLogId := c.nextLogId + 1)]
      && End(r').durable == End(r).durable[n := End(r).durable[n].(log := s.log)]
      && Offered(s, n, End(r').sent)
  {
    hide IsRun, Released, Replicate, NothingToCommit, CanReplicate, Commanded, Commanding, Offered;
    RunLengths(r);
    var c := End(r).up[n];
    var s := Commanded(c.state, command);
    var r1 := CommandGiven(r, n, command);
    CommandingShape(c, command);
    r' := PersistLogRound(r1, n);
    ContinuesOn(r, r1, r');
    assert [] + Replicate(s, s.peers) == Replicate(s, s.peers);
    Offers(n, s, [], Replicate(s, s.peers), End(r').sent);
  }

  lemma ClientInput(c: Cluster, n: NodeId, command: Command)
    requires n in c.up && n in c.durable
    ensures CoreOutcomeOf(c, Give(n, Client(command))) == CoreStep(c.up[n], Client(command))
  {
    hide CoreStep;
  }

  // ---- Replication ---------------------------------------------------------

  /** A request that brings a follower, whose log is a shorter prefix, up to `whole`. */
  predicate Extension(s: State, from: NodeId, m: Message, whole: Log) {
    && m.AppendRequest? && m.leader == from && m.term == s.term && from in s.peers && AppendRequestValid(m)
    && m.previous <= |s.log| < |whole| && s.log == whole[..|s.log|] && m.entries == whole[m.previous..]
    && m.previousTerm == PreviousTerm(s.log, m.previous) && m.leaderCommit <= s.commit
  }

  function Following(s: State, from: NodeId): State {
    s.(role := Follower, leader := None, votes := {}, knownLeader := Some(from))
  }

  /** The follower's core once the whole log is its own. */
  function Copied(c: Core, from: NodeId, whole: Log): Core {
    c.(state := Following(c.state, from).(log := whole), nextLogId := c.nextLogId + 1)
  }

  function Success(m: Message, whole: Log): Message
    requires m.AppendRequest?
  {
    AppendResponse(m.term, true, |whole|, m.context)
  }

  lemma ExtensionScan(s: State, from: NodeId, m: Message, whole: Log)
    requires Extension(s, from, m, whole) && s.snapshot.None?
    ensures PreviousMatches(s, m) && FirstMissing(s, m.previous, m.entries, 0) == |s.log| - m.previous
  {
    assert forall i :: 0 <= i < |s.log| - m.previous ==> m.entries[i] == whole[m.previous + i] == s.log[m.previous + i];
  }

  lemma ExtensionAccepted(s: State, from: NodeId, m: Message, whole: Log)
    requires Extension(s, from, m, whole) && s.snapshot.None?
    ensures PreviousMatches(s, m)
    ensures AcceptAppend(s, from, m, |s.log| - m.previous)
         == (s.(log := whole), [PersistState] + [Send(from, Success(m, whole))])
  {
    ExtensionScan(s, from, m, whole);
    var k := |s.log| - m.previous;
    assert s.log[..m.previous + k] + m.entries[k..] == whole;
  }

  lemma ExtensionHandled(s: State, from: NodeId, m: Message, whole: Log)
    requires Extension(s, from, m, whole) && s.snapshot.None?
    ensures HandleAppendRequest(s, from, m)
         == Done(Following(s, from).(log := whole),
                 [ResetElectionTimer] + [PersistState] + [Send(from, Success(m, whole))])
  {
    var s2 := Following(s, from);
    ExtensionScan(s2, from, m, whole);
    ExtensionAccepted(s2, from, m, whole);
    hide FirstMissing, AcceptAppend, PreviousMatches;
    assert Contiguous(m.previous, m.entries);
    var a, b, c := [ResetElectionTimer], [PersistState], [Send(from, Success(m, whole))];
    assert [] + a + (b + c) == a + b + c;
  }

  lemma ExtensionMoves(c: Core, from: NodeId, m: Message, whole: Log) returns (effects: seq<Effect>)
    requires Valid(c.state) && Calm(c) && c.state.role.Follower? && c.state.snapshot.None?
    requires Extension(c.state, from, m, whole)
    ensures var s := Following(c.state, from).(log := whole);
      CoreStep(c, Deliver(from, m))
      == Stepped(c.(state := s, nextLogId := c.nextLogId + 1,
                    pendingLog := Some(PendingLog(c.nextLogId, whole, [Send(from, Success(m, whole))]))), effects)
  {
    hide StepSpec, Translate, Valid, HandleAppendRequest, RoleEffects, Success;
    ExtensionHandled(c.state, from, m, whole);
    var s := Following(c.state, from).(log := whole);
    var rest := [Send(from, Success(m, whole))];
    var all := [ResetElectionTimer] + [PersistState] + rest;
    assert Handle(c.state, Receive(from, m)) == Done(s, all);
    hide Handle;
    assert !AppendsBeyondTerm(c.state, Receive(from, m)) by { EntriesFit(c.state, from, m); }
    SpecMoves(c, Receive(from, m), s, all);
    GateNothing(s, all);
    TranslateWrite(c, s, [ResetElectionTimer], rest);
    effects := RoleEffects(c, s, c.state.role) + [ResetElectionTimer] + [PersistLog(c.nextLogId, s.log)];
  }

  lemma EntriesFit(s: State, from: NodeId, m: Message)
    requires m.AppendRequest? && AppendRequestValid(m)
    ensures !AppendsBeyondTerm(s, Receive(from, m))
  {
    hide AcceptsAppend;
  }

  /** A follower takes the rest of the leader's log, which becomes durable, and says so. */
  lemma ReplicationRound(r: Run, p: Packet, whole: Log) returns (r': Run)
    requires IsRun(r) && p in End(r).sent && p.to in End(r).up && Calm(End(r).up[p.to])
    requires End(r).up[p.to].state.role.Follower? && Extension(End(r).up[p.to].state, p.from, p.msg, whole)
    ensures Continues(r, r') && p.to in End(r).durable
    ensures var c := End(r).up[p.to];
      && End(r').up == End(r).up[p.to := Copied(c, p.from, whole)]
      && End(r').durable == End(r).durable[p.to := End(r).durable[p.to].(log := whole)]
      && Packet(p.to, p.from, Success(p.msg, whole)) in End(r').sent
  {
    hide IsRun, CoreStep, Released, Valid, Success;
    RunLengths(r);
    NodeIsValid(r, p.to);
    var c := End(r).up[p.to];
    var s := Following(c.state, p.from).(log := whole);
    var rest := [Send(p.from, Success(p.msg, whole))];
    var e := ExtensionMoves(c, p.from, p.msg, whole);
    hide Extension;
    var c1 := c.(state := s, nextLogId := c.nextLogId + 1, pendingLog := Some(PendingLog(c.nextLogId, whole, rest)));
    var r1 := Delivery(r, p, c1, e);
    r' := PersistLogRound(r1, p.to);
    ContinuesOn(r, r1, r');
    assert c1.(pendingLog := None) == c.(state := s, nextLogId := c.nextLogId + 1);
    SentBy(p.to, rest, rest[0]);
  }

  // ---- Acknowledgement -----------------------------------------------------

  function Confirmed(s: State, f: NodeId): State {
    if s.leader.None? then s else SetProgress(s, f, Progress(|s.log| + 1, |s.log|)).(commit := |s.log|)
  }

  lemma LeaderHasState(s: State)
    requires Valid(s) && s.role.Leader?
    ensures s.leader.Some?
  {
    hide LogValid, IndexesValid, PeersValid, RequestsValid, LeaderValid;
  }

  lemma ConfirmedShape(s: State, f: NodeId)
    requires s.leader.Some?
    ensures var s' := Confirmed(s, f);
      s' == s.(leader := s'.leader, commit := |s.log|)
  {
  }

  lemma ConfirmHandled(s: State, f: NodeId, m: Message)
    requires Valid(s) && s.role.Leader? && s.snapshot.None? && f in s.peers && |s.peers| == 2
    requires m.AppendResponse? && m.succeeded && m.term == s.term && m.matched == |s.log| > s.commit
    requires s.log[|s.log| - 1].term == s.term
    ensures HandleAppendResponse(s, f, m) == Done(Confirmed(s, f), [])
  {
    var s1 := SetProgress(s, f, Progress(|s.log| + 1, |s.log|));
    assert f in Holders(s1, |s.log|);
    CardinalityMonotone({f}, Holders(s1, |s.log|));
    assert Committable(s1, |s.log|);
    assert CommitFrom(s1, LastIndex(s1)) == |s.log|;
    hide CommitFrom, Holders;
    assert s.leader.value.progress[f].match_ <= |s.log|;
  }

  function Applying(c: Core): Core {
    if |c.state.log| <= c.state.applied then c
    else c.(application := Some(PendingApplication(c.nextApplyId, c.state.log[c.state.applied], false)),
       nextApplyId := c.nextApplyId + 1)
  }

  lemma ConfirmMoves(c: Core, f: NodeId, m: Message) returns (effects: seq<Effect>)
    requires Valid(c.state) && Calm(c) && c.state.role.Leader? && c.state.snapshot.None? && c.waiting == []
    requires f in c.state.peers && |c.state.peers| == 2 && c.application.None? && c.nextApplyId < APPLY_ID_LIMIT
    requires m.AppendResponse? && m.succeeded && m.term == c.state.term
    requires m.matched == |c.state.log| > c.state.commit == c.state.applied
    requires c.state.log[|c.state.log| - 1].term == c.state.term
    ensures CoreStep(c, Deliver(f, m)) == Stepped(Applying(c.(state := Confirmed(c.state, f))), effects)
  {
    hide StepSpec, Valid, HandleAppendResponse, RoleEffects, Confirmed;
    ConfirmHandled(c.state, f, m);
    var s := Confirmed(c.state, f);
    ConfirmedShape(c.state, f) by { LeaderHasState(c.state); }
    assert Handle(c.state, Receive(f, m)) == Done(s, []);
    hide Handle;
    PlainMoves(c, Receive(f, m), s, []);
    SameRole(c, s);
    effects := Schedule(c.(state := s), [] + []).effects;
  }

  /** The acknowledgement of the whole log commits it and hands out the next entry. */
  lemma ConfirmRound(r: Run, p: Packet) returns (r': Run)
    requires IsRun(r) && p in End(r).sent && p.to in End(r).up && Calm(End(r).up[p.to])
    requires var c := End(r).up[p.to];
      && c.state.role.Leader? && c.waiting == [] && p.from in c.state.peers && |c.state.peers| == 2
      && c.application.None? && c.nextApplyId < APPLY_ID_LIMIT
      && p.msg.AppendResponse? && p.msg.succeeded && p.msg.term == c.state.term
      && p.msg.matched == |c.state.log| > c.state.commit == c.state.applied
      && c.state.log[|c.state.log| - 1].term == c.state.term
    ensures Continues(r, r') && End(r').durable == End(r).durable
    ensures var c := End(r).up[p.to];
      End(r').up == End(r).up[p.to := Applying(c.(state := Confirmed(c.state, p.from)))]
  {
    hide IsRun, CoreStep, Released, Applying, Confirmed, Valid;
    RunLengths(r);
    NodeIsValid(r, p.to);
    var c := End(r).up[p.to];
    var e := ConfirmMoves(c, p.from, p.msg);
    r' := Delivery(r, p, Applying(c.(state := Confirmed(c.state, p.from))), e);
  }

  // ---- Refusal and repetition ----------------------------------------------

  predicate Refusable(s: State, from: NodeId, m: Message) {
    && m.AppendRequest? && m.leader == from && from in s.peers && AppendRequestValid(m)
    && (m.term < s.term || (m.term == s.term && !PreviousMatches(s, m)))
  }

  /** A late request leaves the follower as it is; one of its own term makes it a follower. */
  function AfterRefusal(s: State, from: NodeId, m: Message): State {
    if m.term < s.term then s else Following(s, from)
  }

  function Refusal(s: State, m: Message): Message
    requires m.AppendRequest?
  {
    AppendResponse(s.term, false, 0, m.context)
  }

  lemma RefusalHandled(s: State, from: NodeId, m: Message) returns (front: seq<Effect>)
    requires Refusable(s, from, m)
    ensures HandleAppendRequest(s, from, m) == Done(AfterRefusal(s, from, m), front + [Send(from, Refusal(s, m))])
    ensures Plain(front) && NoHard(front)
  {
    front := if m.term < s.term then [] else [] + [ResetElectionTimer];
    assert PreviousMatches(Following(s, from), m) == PreviousMatches(s, m);
  }

  lemma RefusalMoves(c: Core, from: NodeId, m: Message) returns (front: seq<Effect>)
    requires Valid(c.state) && Calm(c) && c.state.role.Follower? && Refusable(c.state, from, m)
    ensures CoreStep(c, Deliver(from, m))
         == Stepped(c.(state := AfterRefusal(c.state, from, m)), front + [Send(from, Refusal(c.state, m))])
  {
    hide StepSpec, Valid, HandleAppendRequest, RoleEffects, PreviousMatches;
    front := RefusalHandled(c.state, from, m);
    var s := AfterRefusal(c.state, from, m);
    var out := front + [Send(from, Refusal(c.state, m))];
    assert Handle(c.state, Receive(from, m)) == Done(s, out);
    hide Handle;
    EntriesFit(c.state, from, m);
    PlainMoves(c, Receive(from, m), s, out);
    SameRole(c, s);
    assert [] + out == out;
  }

  /** A follower refuses a request, with the request's context. */
  lemma RefusalRound(r: Run, p: Packet) returns (r': Run)
    requires IsRun(r) && p in End(r).sent && p.to in End(r).up && Calm(End(r).up[p.to])
    requires End(r).up[p.to].state.role.Follower? && Refusable(End(r).up[p.to].state, p.from, p.msg)
    ensures Continues(r, r') && End(r').durable == End(r).durable
    ensures var c := End(r).up[p.to];
      && End(r').up == End(r).up[p.to := c.(state := AfterRefusal(c.state, p.from, p.msg))]
      && Packet(p.to, p.from, Refusal(c.state, p.msg)) in End(r').sent
  {
    hide IsRun, CoreStep, Released, Valid, PreviousMatches;
    RunLengths(r);
    NodeIsValid(r, p.to);
    var c := End(r).up[p.to];
    var front := RefusalMoves(c, p.from, p.msg);
    var out := front + [Send(p.from, Refusal(c.state, p.msg))];
    r' := Delivery(r, p, c.(state := AfterRefusal(c.state, p.from, p.msg)), out);
    assert out[|front|] in out;
    SentBy(p.to, out, out[|front|]);
  }

  function SteppedBack(s: State, f: NodeId): State {
    if s.leader.None? || f !in s.leader.value.progress || s.leader.value.progress[f].next == 0 then s
    else
      var p := s.leader.value.progress[f];
      SetProgress(s, f, Progress(Max(p.match_ + 1, Max(1, p.next - 1)), p.match_))
  }

  /** The leader repeats its request from one index earlier, with the refusal's context. */
  predicate Repeated(s: State, n: NodeId, f: NodeId, context: Option<ReadContext>, sent: set<Packet>) {
    && s.leader.Some? && f in s.leader.value.progress && ProgressValid(s, s.leader.value.progress[f])
    && Packet(n, f, AppendFor(s, f, context)) in sent
  }

  lemma RetryHandled(s: State, f: NodeId, m: Message)
    requires Valid(s) && s.role.Leader? && f in s.peers
    requires m.AppendResponse? && !m.succeeded && m.term == s.term
    ensures var s1 := SteppedBack(s, f);
      && s1.leader.Some? && f in s1.leader.value.progress && ProgressValid(s1, s1.leader.value.progress[f])
      && HandleAppendResponse(s, f, m) == Done(s1, [Send(f, AppendFor(s1, f, m.context))])
      && s1 == s.(leader := s1.leader)
  {
    hide AppendFor;
    var s1 := SteppedBack(s, f);
    assert [] + [Send(f, AppendFor(s1, f, m.context))] == [Send(f, AppendFor(s1, f, m.context))];
  }

  lemma RetryMoves(c: Core, f: NodeId, m: Message)
    requires Valid(c.state) && Calm(c) && c.state.role.Leader? && f in c.state.peers
    requires m.AppendResponse? && !m.succeeded && m.term == c.state.term
    ensures var s := SteppedBack(c.state, f);
      && s.leader.Some? && f in s.leader.value.progress && ProgressValid(s, s.leader.value.progress[f])
      && CoreStep(c, Deliver(f, m)) == Stepped(c.(state := s), [Send(f, AppendFor(s, f, m.context))])
  {
    hide StepSpec, Valid, HandleAppendResponse, RoleEffects, SteppedBack, AppendFor;
    RetryHandled(c.state, f, m);
    var s := SteppedBack(c.state, f);
    var out := [Send(f, AppendFor(s, f, m.context))];
    assert Handle(c.state, Receive(f, m)) == Done(s, out);
    hide Handle;
    PlainMoves(c, Receive(f, m), s, out);
    SameRole(c, s);
    assert [] + out == out;
  }

  lemma RetryRound(r: Run, p: Packet) returns (r': Run)
    requires IsRun(r) && p in End(r).sent && p.to in End(r).up && Calm(End(r).up[p.to])
    requires var s := End(r).up[p.to].state;
      s.role.Leader? && p.from in s.peers && p.msg.AppendResponse? && !p.msg.succeeded && p.msg.term == s.term
    ensures Continues(r, r') && End(r').durable == End(r).durable
    ensures var c := End(r).up[p.to]; var s := SteppedBack(c.state, p.from);
      && End(r').up == End(r).up[p.to := c.(state := s)]
      && Repeated(s, p.to, p.from, p.msg.context, End(r').sent)
  {
    hide IsRun, CoreStep, Released, Valid, SteppedBack, AppendFor;
    RunLengths(r);
    NodeIsValid(r, p.to);
    var c := End(r).up[p.to];
    RetryMoves(c, p.from, p.msg);
    var s := SteppedBack(c.state, p.from);
    var out := [Send(p.from, AppendFor(s, p.from, p.msg.context))];
    r' := Delivery(r, p, c.(state := s), out);
    SentBy(p.to, out, out[0]);
  }

  // ---- Application ---------------------------------------------------------

  function Finished(s: State): State {
    var index := s.applied + 1;
    var s1 := s.(applied := index);
    if s1.leader.Some? && index in s1.leader.value.clients
    then s1.(leader := Some(s1.leader.value.(clients := s1.leader.value.clients - {index})))
    else s1
  }

  /** The core after its application completed: the next committed entry is handed out. */
  function NextApplied(c: Core): Core {
    var c1 := c.(state := Finished(c.state), application := None);
    if c1.state.applied < c1.state.commit then Applying(c1) else c1
  }

  lemma ApplyMoves(c: Core) returns (effects: seq<Effect>)
    requires c.application.Some? && !c.application.value.blocked && c.waiting == [] && c.state.snapshot.None?
    requires c.application.value.entry.index == c.state.applied + 1 && c.state.commit <= |c.state.log|
    requires c.nextApplyId < APPLY_ID_LIMIT
    ensures CoreStep(c, Applied(c.application.value.id, c.state.applied + 1)) == Stepped(NextApplied(c), effects)
  {
    var out := FinishApplication(c, c.state.applied + 1);
    var c1 := c.(state := Finished(c.state), application := None);
    assert CompleteReads(c1) == c1;
    effects := out.effects;
  }

  /** The entry being applied is recorded as applied, and its completion handed over. */
  lemma ApplyRound(r: Run, n: NodeId) returns (r': Run)
    requires IsRun(r) && n in End(r).up
    requires var c := End(r).up[n];
      && c.application.Some? && !c.application.value.blocked && c.waiting == []
      && c.application.value.entry.index == c.state.applied + 1 && c.nextApplyId < APPLY_ID_LIMIT
    ensures Continues(r, r') && n in End(r).durable
    ensures End(r').up == End(r).up[n := NextApplied(End(r).up[n])]
    ensures End(r').durable == End(r).durable[n := End(r).durable[n].(applied := End(r).up[n].state.applied + 1)]
  {
    hide IsRun, Released, NextApplied, CoreStep;
    RunLengths(r);
    NodeIsValid(r, n);
    assert End(r).up[n].state.commit <= |End(r).up[n].state.log|;
    hide Valid;
    var c := End(r);
    var e := ApplyMoves(c.up[n]);
    var c1 := c.(durable := c.durable[n := c.durable[n].(applied := c.up[n].application.value.entry.index)]);
    assert Next(c, WriteApplied(n)) == Some(c1);
    AfterDisk(r, WriteApplied(n), c1);
    var r1 := Then(r, WriteApplied(n), c1);
    assert CoreOutcomeOf(c1, FinishApplied(n)) == Stepped(NextApplied(c.up[n]), e);
    hide Next, CoreOutcomeOf;
    r' := Move(r1, FinishApplied(n), NextApplied(c.up[n]), e);
    ContinuesOn(r, r1, r');
  }

  // ---- Lives ---------------------------------------------------------------

  lemma CrashRound(r: Run, n: NodeId) returns (r': Run)
    requires IsRun(r) && n in End(r).up
    ensures Continues(r, r') && End(r').up == End(r).up - {n} && End(r').durable == End(r).durable
  {
    hide IsRun;
    RunLengths(r);
    var c := End(r);
    var c1 := c.(up := c.up - {n});
    assert Next(c, Crash(n)) == Some(c1);
    hide Next;
    AfterDisk(r, Crash(n), c1);
    r' := Then(r, Crash(n), c1);
  }

  lemma RestartRound(r: Run, n: NodeId) returns (r': Run)
    requires IsRun(r) && CanRestart(End(r), n)
    ensures Continues(r, r') && End(r').up == End(r).up[n := Reborn(End(r), n)] && End(r').durable == End(r).durable
  {
    hide IsRun, Reborn, CanRestart;
    RunLengths(r);
    var c := End(r);
    assert n in c.durable && n in c.config by { RestartNeeds(c, n); }
    var c1 := c.(up := c.up[n := Reborn(c, n)]);
    assert Next(c, Restart(n)) == Some(c1);
    hide Next;
    AfterDisk(r, Restart(n), c1);
    r' := Then(r, Restart(n), c1);
  }

  lemma RestartNeeds(c: Cluster, n: NodeId)
    requires CanRestart(c, n)
    ensures n !in c.up && n in c.durable && n in c.config
  {
    hide Constructible;
  }
}
