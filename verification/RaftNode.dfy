/** One Core step keeps the node's invariant, whatever the input, and everything it releases
    is backed by its disk. */
module RaftNode {
  import opened RaftTypes
  import opened Figure2
  import opened RaftCore
  import opened RaftLedger
  import opened RaftLedgerSteps
  import opened RaftCluster
  import opened RaftInvariant
  import opened RaftFrames
  import opened RaftGating
  import opened RaftHandlers
  import opened RaftElection
  import opened RaftReplication

  // ---- Recording what was released -----------------------------------------

  predicate OnlyAcks(l: Ledger, l': Ledger) {
    l' == l.(acked := l'.acked)
  }

  /** The ledger of the other nodes, and all disks, are as before. */
  ghost predicate Untouched(l: Ledger, l': Ledger, n: NodeId) {
    && (forall m: NodeId :: m != n ==> SameLeadership(l, l', m))
    && (forall m: NodeId :: SameDisk(l, l', m))
  }

  /** The released effects fit the node's state, which is on disk if anything is sent. */
  ghost predicate CanRecord(l: Ledger, n: NodeId, peers: seq<NodeId>, c: Core, d: Durable, effects: seq<Effect>) {
    && Inv(l) && DiskOk(l, n, d) && StateOk(l, n, peers, c.state, d) && CoreQueue(l, c, d)
    && ReleasedOk(l, c.state, c, effects)
  }

  predicate OnDisk(l: Ledger, n: NodeId, c: Core) {
    && n in l.members && n in l.promised && l.promised[n] == c.state.term
    && n in l.dlog && l.dlog[n] == c.state.log
  }

  lemma QuiescentOnDisk(l: Ledger, n: NodeId, c: Core, d: Durable)
    requires DiskOk(l, n, d) && CoreQueue(l, c, d) && Quiescent(c)
    ensures OnDisk(l, n, c) && d.hard == Hard(c.state) && d.log == c.state.log
  {
    hide Claimed, VoteRecorded;
  }

  predicate AckRecorded(l: Ledger, n: NodeId, e: Effect) {
    e.Send? && e.msg.AppendResponse? && e.msg.succeeded ==> HasAcked(l, n, e.msg.term, e.msg.matched)
  }

  /** Every released acknowledgement is one the ledger allows. */
  lemma {:induction false} AcksRecorded(l: Ledger, n: NodeId, c: Core, effects: seq<Effect>)
    requires Inv(l) && ReleasedOk(l, c.state, c, effects) && (Quiescent(c) ==> OnDisk(l, n, c))
    ensures var l' := RecordAcks(l, n, effects);
      && Inv(l') && Grows(l, l') && OnlyAcks(l, l')
      && forall i :: 0 <= i < |effects| ==> AckRecorded(l', n, effects[i])
  {
    hide Inv, Grows;
    if effects == [] {
      GrowsReflexive(l);
    } else {
      var front := effects[..|effects| - 1];
      var e := effects[|effects| - 1];
      AcksRecorded(l, n, c, front);
      var l1 := RecordAcks(l, n, front);
      var l' := RecordAcks(l, n, effects);
      if e.Send? && e.msg.AppendResponse? && e.msg.succeeded {
        assert SendOk(l, c.state, e);
        AcknowledgeKeepsInv(l1, n, e.msg.term, e.msg.matched);
        GrowsTransitive(l, l1, l');
        AckStays(l1, l', n, front);
      }
      forall i | 0 <= i < |effects| ensures AckRecorded(l', n, effects[i]) {
        if i < |front| { assert effects[i] == front[i]; }
      }
    }
  }

  lemma AckStays(l: Ledger, l': Ledger, n: NodeId, effects: seq<Effect>)
    requires Grows(l, l') && forall i :: 0 <= i < |effects| ==> AckRecorded(l, n, effects[i])
    ensures forall i :: 0 <= i < |effects| ==> AckRecorded(l', n, effects[i])
  {
    hide VotesGrow, LogsGrow, PromisesGrow;
  }

  lemma SelfRecorded(l: Ledger, n: NodeId, peers: seq<NodeId>, c: Core, d: Durable)
    requires Inv(l) && Linked(l, n, peers, c.state, d) && (Quiescent(c) ==> OnDisk(l, n, c))
    ensures var l' := RecordSelf(l, n, c);
      Inv(l') && Grows(l, l') && OnlyAcks(l, l') && SelfAcked(l', c)
  {
    hide WellLog, LogRelated, CandidateOk, CommitOk, Inv, Grows;
    if c.state.role.Leader? && Quiescent(c) {
      var k := |c.state.log|;
      assert l.termLog[c.state.term][..k] == c.state.log;
      AcknowledgeKeepsInv(l, n, c.state.term, k);
    } else {
      GrowsReflexive(l);
    }
  }

  lemma OnlyAcksUntouched(l: Ledger, l': Ledger, n: NodeId)
    requires OnlyAcks(l, l')
    ensures SameLeadership(l, l', n) && SameDisk(l, l', n)
  {
  }

  /** What leaves a node is true of the ledger by then. */
  lemma SentIsOk(l: Ledger, n: NodeId, peers: seq<NodeId>, c: Core, d: Durable, e: Effect)
    requires DiskOk(l, n, d) && Linked(l, n, peers, c.state, d) && e.Send? && SendOk(l, c.state, e)
    requires d.hard == Hard(c.state) && AckRecorded(l, n, e)
    ensures PacketOk(l, Packet(n, e.to, e.msg))
  {
    hide WellLog, LogRelated, LeaderOk, CommitOk, Claimed, AppendOk;
  }

  /** An acknowledgement is sent in the term its sender has on disk. */
  predicate AckTimely(l: Ledger, n: NodeId, e: Effect) {
    e.Send? && e.msg.AppendResponse? && e.msg.succeeded ==> n in l.promised && l.promised[n] == e.msg.term
  }

  predicate AllSentOk(l: Ledger, n: NodeId, effects: seq<Effect>) {
    forall i :: 0 <= i < |effects| && effects[i].Send? ==>
      PacketOk(l, Packet(n, effects[i].to, effects[i].msg)) && AckTimely(l, n, effects[i])
  }

  lemma SentIsTimely(l: Ledger, n: NodeId, c: Core, e: Effect)
    requires e.Send? && SendOk(l, c.state, e) && OnDisk(l, n, c)
    ensures AckTimely(l, n, e)
  {
  }

  lemma ReleasedGrows(l: Ledger, l': Ledger, c: Core, effects: seq<Effect>)
    requires ReleasedOk(l, c.state, c, effects) && Grows(l, l')
    ensures ReleasedOk(l', c.state, c, effects)
  {
    hide SendOk, Grows;
    forall i | 0 <= i < |effects| && effects[i].Send? ensures SendOk(l', c.state, effects[i]) {
      assert SendsOk(l, c.state, [effects[i]]);
      SendsFrame(l, l', c.state, [effects[i]]);
      assert SendOk(l', c.state, [effects[i]][0]);
    }
  }

  lemma AllSentIsOk(l: Ledger, n: NodeId, peers: seq<NodeId>, c: Core, d: Durable, effects: seq<Effect>)
    requires DiskOk(l, n, d) && Linked(l, n, peers, c.state, d) && CoreQueue(l, c, d)
    requires ReleasedOk(l, c.state, c, effects)
    requires forall i :: 0 <= i < |effects| ==> AckRecorded(l, n, effects[i])
    ensures AllSentOk(l, n, effects)
  {
    hide DiskOk, Linked, CoreQueue, AckRecorded, PacketOk, SendOk;
    forall i | 0 <= i < |effects| && effects[i].Send?
      ensures PacketOk(l, Packet(n, effects[i].to, effects[i].msg)) && AckTimely(l, n, effects[i])
    {
      QuiescentOnDisk(l, n, c, d);
      SentIsOk(l, n, peers, c, d, effects[i]);
      SentIsTimely(l, n, c, effects[i]);
    }
  }

  /** The ledger after the acknowledgements of a step. */
  function Noted(l: Ledger, n: NodeId, c: Core, effects: seq<Effect>): Ledger {
    RecordSelf(RecordAcks(l, n, effects), n, c)
  }

  lemma NotedGrows(l: Ledger, n: NodeId, peers: seq<NodeId>, c: Core, d: Durable, effects: seq<Effect>)
    requires CanRecord(l, n, peers, c, d, effects)
    ensures var l' := Noted(l, n, c, effects);
      && Inv(l') && Grows(l, l') && OnlyAcks(l, l') && SelfAcked(l', c)
      && forall i :: 0 <= i < |effects| ==> AckRecorded(l', n, effects[i])
  {
    hide Inv, DiskOk, Valid, Linked, CoreQueue, Grows, OnDisk, SelfAcked, AckRecorded, ReleasedOk, Quiescent,
        RecordAcks, RecordSelf;
    if Quiescent(c) { QuiescentOnDisk(l, n, c, d); }
    AcksRecorded(l, n, c, effects);
    var l1 := RecordAcks(l, n, effects);
    OnlyAcksUntouched(l, l1, n);
    StateFrame(l, l1, n, peers, c.state, d);
    OnDiskStays(l, l1, n, c);
    SelfRecorded(l1, n, peers, c, d);
    var l' := RecordSelf(l1, n, c);
    GrowsTransitive(l, l1, l');
    AckStays(l1, l', n, effects);
  }

  lemma OnDiskStays(l: Ledger, l': Ledger, n: NodeId, c: Core)
    requires OnlyAcks(l, l')
    ensures OnDisk(l, n, c) == OnDisk(l', n, c)
  {
  }

  lemma NotedOk(l: Ledger, n: NodeId, peers: seq<NodeId>, c: Core, d: Durable, effects: seq<Effect>)
    requires CanRecord(l, n, peers, c, d, effects)
    ensures var l' := Noted(l, n, c, effects);
      && Inv(l') && Grows(l, l') && OnlyAcks(l, l')
      && StateOk(l', n, peers, c.state, d) && CoreQueue(l', c, d) && SelfAcked(l', c)
      && AllSentOk(l', n, effects)
  {
    NotedGrows(l, n, peers, c, d, effects);
    hide Inv, DiskOk, Valid, Linked, CoreQueue, Grows, OnDisk, SelfAcked, AckRecorded, ReleasedOk, Noted, OnlyAcks;
    hide AllSentOk, SameLeadership, SameDisk;
    var l' := Noted(l, n, c, effects);
    OnlyAcksUntouched(l, l', n);
    StateFrame(l, l', n, peers, c.state, d);
    CoreQueueFrame(l, l', c, d);
    DiskFrame(l, l', n, d);
    ReleasedGrows(l, l', c, effects);
    AllSentIsOk(l', n, peers, c, d, effects);
  }

  // ---- The shape of a step -------------------------------------------------

  /** Terms and indexes only rise, the committed prefix stays, and at most one entry is applied. */
  predicate Advanced(s: State, s': State) {
    && s.term <= s'.term && s.commit <= s'.commit
    && s.applied <= s'.applied <= s.applied + 1 && s'.applied <= s.commit
    && s.commit <= |s.log| && s.commit <= |s'.log| && s'.log[..s.commit] == s.log[..s.commit]
  }

  ghost predicate Prepared(l: Ledger, n: NodeId, peers: seq<NodeId>, c: Core, d: Durable,
                           c': Core, effects: seq<Effect>) {
    var l1 := RecordLeader(l, n, c'.state);
    && Grows(l, l1) && CanRecord(l1, n, peers, c', d, effects)
    && ApplicationOk(c', d) && AppliesSlot(c', effects) && Advanced(c.state, c'.state)
  }

  /** A message leaves only when neither a hard-state nor a log write is in flight. */
  predicate SendsWhenQuiescent(c: Core, effects: seq<Effect>) {
    forall e :: e in effects && e.Send? ==> Quiescent(c)
  }

  ghost predicate StepOk(l: Ledger, n: NodeId, peers: seq<NodeId>, c: Core, d: Durable,
                         c': Core, effects: seq<Effect>, l': Ledger) {
    && Inv(l') && Grows(l, l') && Untouched(l, l', n)
    && CoreOk(l', n, peers, c', d) && AllSentOk(l', n, effects) && SendsWhenQuiescent(c', effects)
    && AppliesSlot(c', effects) && Advanced(c.state, c'.state)
  }

  lemma RecordLeaderUntouched(l: Ledger, n: NodeId, s: State, l': Ledger)
    requires OnlyAcks(RecordLeader(l, n, s), l')
    ensures Untouched(l, l', n)
  {
  }

  lemma ReleasedWhenQuiescent(l: Ledger, n: NodeId, peers: seq<NodeId>, c: Core, d: Durable, effects: seq<Effect>)
    requires CanRecord(l, n, peers, c, d, effects)
    ensures SendsWhenQuiescent(c, effects)
  {
    hide Inv, DiskOk, StateOk, CoreQueue, SendOk;
  }

  lemma PreparedSteps(l: Ledger, n: NodeId, peers: seq<NodeId>, c: Core, d: Durable,
                      c': Core, effects: seq<Effect>)
    requires Prepared(l, n, peers, c, d, c', effects)
    ensures StepOk(l, n, peers, c, d, c', effects, Noted(RecordLeader(l, n, c'.state), n, c', effects))
  {
    var l1 := RecordLeader(l, n, c'.state);
    var l' := Noted(l1, n, c', effects);
    hide CanRecord, Grows, Inv, StateOk, CoreQueue, ApplicationOk, SelfAcked, AllSentOk, Untouched, OnlyAcks;
    hide AppliesSlot, Advanced, Noted, RecordLeader, SendsWhenQuiescent;
    NotedOk(l1, n, peers, c', d, effects);
    ReleasedWhenQuiescent(l1, n, peers, c', d, effects);
    GrowsTransitive(l, l1, l');
    RecordLeaderUntouched(l, n, c'.state, l');
  }

  // ---- Steps of the specification ------------------------------------------

  predicate EventOk(l: Ledger, n: NodeId, event: Event) {
    match event
    case ElectionTimeout => true
    case HeartbeatTimeout => true
    case ClientCommand(_) => true
    case Receive(from, m) => PacketOk(l, Packet(from, n, m))
    case _ => false
  }

  lemma MessageOk(l: Ledger, n: NodeId, peers: seq<NodeId>, s: State, d: Durable, from: NodeId, m: Message)
    requires Calm(l, n, peers, s, d) && Valid(s) && PacketOk(l, Packet(from, n, m))
    requires HandleMessage(s, from, m).Done?
    ensures var r := HandleMessage(s, from, m); HandledOk(l, n, peers, s, d, r.state, r.effects)
  {
    hide Calm, Valid, PacketOk, HandledOk;
    hide HandleVoteRequest, HandleVoteResponse, HandleAppendRequest, HandleAppendResponse;
    match m {
      case VoteRequest(_, _, _, _) => VoteRequestOk(l, n, peers, s, d, from, m);
      case VoteResponse(_, _) => VoteResponseOk(l, n, peers, s, d, from, m);
      case AppendRequest(_, _, _, _, _, _, _) => AppendRequestOk(l, n, peers, s, d, from, m);
      case AppendResponse(_, _, _, _) => AppendResponseOk(l, n, peers, s, d, from, m);
    }
  }

  lemma NothingOk(l: Ledger, n: NodeId, peers: seq<NodeId>, s: State, d: Durable)
    requires Calm(l, n, peers, s, d)
    ensures HandledOk(l, n, peers, s, d, s, [])
  {
    hide Calm, HandledOk;
    ObservedNothing(s);
    IgnoredOk(l, n, peers, s, d, s, []);
  }

  lemma TimeoutOk(l: Ledger, n: NodeId, peers: seq<NodeId>, s: State, d: Durable)
    requires Calm(l, n, peers, s, d) && Valid(s) && HandleTimeout(s).Done?
    ensures var r := HandleTimeout(s); HandledOk(l, n, peers, s, d, r.state, r.effects)
  {
    hide Calm, HandledOk, StartElection, Replicate;
    match s.role {
      case Leader => HeartbeatOk(l, n, peers, s, d);
      case Follower => StartElectionOk(l, n, peers, s, d);
      case Candidate => StartElectionOk(l, n, peers, s, d);
      case Learner => NothingOk(l, n, peers, s, d);
    }
  }

  lemma EventHandled(l: Ledger, n: NodeId, peers: seq<NodeId>, s: State, d: Durable, event: Event)
    requires Calm(l, n, peers, s, d) && Valid(s) && s.pending.None? && EventOk(l, n, event)
    requires !event.HardPersisted? && Handle(s, event).Done?
    ensures var r := Handle(s, event); HandledOk(l, n, peers, s, d, r.state, r.effects)
  {
    hide Calm, Valid, PacketOk, HandledOk, HandleTimeout, HandleMessage, HandleClient;
    match event {
      case ElectionTimeout => if s.role.Leader? { NothingOk(l, n, peers, s, d); } else { TimeoutOk(l, n, peers, s, d); }
      case HeartbeatTimeout =>
        if s.role.Leader? { TimeoutOk(l, n, peers, s, d); } else { NothingOk(l, n, peers, s, d); }
      case Receive(from, m) => MessageOk(l, n, peers, s, d, from, m);
      case ClientCommand(command) => ClientOk(l, n, peers, s, d, command);
    }
  }

  /** A queue that fits a state, gated by the specification and by Core. */
  ghost predicate Queued(l: Ledger, n: NodeId, peers: seq<NodeId>, c: Core, d: Durable,
                         s: State, effects: seq<Effect>) {
    var l1 := RecordLeader(l, n, s);
    && Grows(l, l1) && Inv(l1) && DiskOk(l1, n, d) && Linked(l1, n, peers, s, d)
    && QueueOk(l1, s, d, effects) && Kept(c.state, s) && s.pending.None?
  }

  lemma SettledApplication(c: Core, d: Durable, s: State, c': Core)
    requires ApplicationOk(c, d) && Kept(c.state, s) && ScheduledFrom(c.(state := s), c')
    requires c'.state == s.(pending := c'.state.pending) && Valid(c'.state) && s.snapshot.None?
    ensures ApplicationOk(c', d)
  {
    hide LeaderValid, LogValid, RolesValid;
    if c.application.Some? && c'.application == c.application {
      var i := c.state.applied;
      assert s.log[..c.state.commit][i] == c.state.log[..c.state.commit][i];
    }
  }

  lemma LinkedIgnoresPending(l: Ledger, n: NodeId, peers: seq<NodeId>, s: State, d: Durable, s': State)
    requires Linked(l, n, peers, s, d) && s' == s.(pending := s'.pending)
    ensures Linked(l, n, peers, s', d)
  {
    hide WellLog, Claimed, Covered, Doomed, DecidedTo;
    if s.log != d.log {
      var k: nat :| MergedTo(l, s, d, k);
      assert MergedTo(l, s', d, k);
    }
  }

  lemma ReleasedFits(l: Ledger, s: State, c: Core, effects: seq<Effect>)
    requires ReleasedOk(l, s, c, effects) && c.state == s.(pending := c.state.pending) && s.pending.None?
    ensures ReleasedOk(l, c.state, c, effects)
  {
    hide SendOk;
    forall i | 0 <= i < |effects| && effects[i].Send? ensures SendOk(l, c.state, effects[i]) {
      assert c.state == s;
    }
  }

  lemma KeptAdvances(s: State, s1: State, s': State)
    requires Kept(s, s1) && s' == s1.(pending := s'.pending) && s.applied <= s.commit
    ensures Advanced(s, s')
  {
  }

  lemma QueuedPrepares(l: Ledger, n: NodeId, peers: seq<NodeId>, c: Core, d: Durable,
                       s: State, effects: seq<Effect>, r: CoreOutcome)
    requires Queued(l, n, peers, c, d, s, effects) && c.pendingLog.None? && ApplicationOk(c, d)
    requires c.state.applied <= c.state.commit
    requires Gate(s, effects).Done? && Valid(Gate(s, effects).state)
    requires r == Translate(c, Gate(s, effects).state, Gate(s, effects).effects, c.state.role) && r.Stepped?
    requires r.core.state == Gate(s, effects).state
    ensures Prepared(l, n, peers, c, d, r.core, r.effects) && NoAnswer(r.effects)
  {
    var l1 := RecordLeader(l, n, s);
    LinkedShape(l1, n, peers, s, d);
    hide Grows, Inv, DiskOk, QueueOk, Kept, Translate, CoreQueue, ReleasedOk, ScheduledFrom, Linked, Valid;
    hide Advanced, ApplicationOk, AppliesSlot, Carries, NoAnswer;
    Settle(l1, c, s, effects, d);
    var s' := r.core.state;
    assert s' == s.(pending := s'.pending);
    LinkedIgnoresPending(l1, n, peers, s, d, s');
    ReleasedFits(l1, s, r.core, r.effects);
    SettledApplication(c, d, s, r.core);
    KeptAdvances(c.state, s, s');
  }

  lemma LinkedShape(l: Ledger, n: NodeId, peers: seq<NodeId>, s: State, d: Durable)
    requires Linked(l, n, peers, s, d)
    ensures s.snapshot.None? && s.node == n && s.peers == peers
  {
  }

  lemma TranslateKeepsState(c: Core, s: State, effects: seq<Effect>, previous: Role)
    requires Translate(c, s, effects, previous).Stepped?
    ensures Translate(c, s, effects, previous).core.state == s
  {
    hide TranslateEffects, RoleEffects, FirstLogWrite;
  }

  lemma CoreIsCalm(l: Ledger, n: NodeId, peers: seq<NodeId>, c: Core, d: Durable)
    requires Inv(l) && DiskOk(l, n, d) && CoreOk(l, n, peers, c, d) && MembersAre(l.members, n, peers)
    requires Quiescent(c)
    ensures Calm(l, n, peers, c.state, d)
  {
    hide Inv, DiskOk, Valid, WellLog, LogRelated, CandidateOk, LeaderOk, CommitOk, ApplicationOk, MembersAre;
  }

  lemma RecordLeaderDisk(l: Ledger, n: NodeId, s: State, d: Durable)
    requires DiskOk(l, n, d) && Grows(l, RecordLeader(l, n, s))
    ensures DiskOk(RecordLeader(l, n, s), n, d)
  {
    hide DiskOk, Grows;
    DiskFrame(l, RecordLeader(l, n, s), n, d);
  }

  lemma SpecStepPrepares(l: Ledger, n: NodeId, peers: seq<NodeId>, c: Core, d: Durable, event: Event)
    requires Inv(l) && DiskOk(l, n, d) && CoreOk(l, n, peers, c, d) && MembersAre(l.members, n, peers)
    requires c.pendingLog.None? && EventOk(l, n, event) && StepSpec(c, event).Stepped?
    ensures var r := StepSpec(c, event); Prepared(l, n, peers, c, d, r.core, r.effects) && NoAnswer(r.effects)
  {
    hide Inv, DiskOk, MembersAre, EventOk, Handle, Gate, Translate, Prepared, Valid, Linked, CoreQueue, SelfAcked;
    hide ApplicationOk, Calm, QueueOk, Kept, Grows, RecordLeader;
    var s := c.state;
    ValidIndexes(s);
    EventIsNew(l, n, event);
    CoreIsCalm(l, n, peers, c, d);
    EventHandled(l, n, peers, s, d, event);
    var h := Handle(s, event);
    RecordLeaderDisk(l, n, h.state, d);
    var g := Gate(h.state, h.effects);
    TranslateKeepsState(c, g.state, g.effects, s.role);
    QueuedPrepares(l, n, peers, c, d, h.state, h.effects, StepSpec(c, event));
  }

  lemma ValidIndexes(s: State)
    requires Valid(s)
    ensures s.applied <= s.commit
  {
  }

  lemma EventIsNew(l: Ledger, n: NodeId, event: Event)
    requires EventOk(l, n, event)
    ensures !event.HardPersisted?
  {
  }

  lemma CompletionQueued(l: Ledger, n: NodeId, peers: seq<NodeId>, c: Core, d: Durable)
    requires Inv(l) && DiskOk(l, n, d) && StateOk(l, n, peers, c.state, d) && CoreQueue(l, c, d)
    requires c.state.pending.Some? && c.state.pending.value.hard == d.hard
    ensures Queued(l, n, peers, c, d, c.state.(pending := None), c.state.pending.value.deferred)
  {
    hide Inv, DiskOk, Linked, QueueOk, LogValid, LeaderValid, RolesValid;
    var p := c.state.pending.value;
    var s := c.state.(pending := None);
    LinkedShape(l, n, peers, c.state, d);
    LinkedIgnoresPending(l, n, peers, c.state, d, s);
    QueueIgnoresPending(l, c.state, s, d, [PersistHard(p.id, p.hard)] + p.deferred);
    QueueAdvances(l, s, d, p.id, p.hard, p.deferred);
    RecordSame(l, n, peers, s, d);
    GrowsReflexive(l);
  }

  lemma CompletionPrepares(l: Ledger, n: NodeId, peers: seq<NodeId>, c: Core, d: Durable, id: nat, hard: HardState)
    requires Inv(l) && DiskOk(l, n, d) && CoreOk(l, n, peers, c, d)
    requires c.pendingLog.None? && d.hard == hard && StepSpec(c, HardPersisted(id, hard)).Stepped?
    ensures var r := StepSpec(c, HardPersisted(id, hard));
      Prepared(l, n, peers, c, d, r.core, r.effects) && NoAnswer(r.effects)
  {
    hide Inv, DiskOk, Gate, Translate, Prepared, Valid, Linked, CoreQueue, SelfAcked, ApplicationOk, Queued;
    var s := c.state;
    ValidIndexes(s);
    CompletionQueued(l, n, peers, c, d);
    var h := Handle(s, HardPersisted(id, hard));
    var g := Gate(h.state, h.effects);
    TranslateKeepsState(c, g.state, g.effects, s.role);
    QueuedPrepares(l, n, peers, c, d, h.state, h.effects, StepSpec(c, HardPersisted(id, hard)));
  }
}
