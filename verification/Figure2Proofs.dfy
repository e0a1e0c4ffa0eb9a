/** Facts about one node's specification, for every state and event: the run-time check after a
    step, monotone indexes, and gating that neither loses nor reorders effects. Snapshots are
    included: nothing here assumes an uncompacted log. */
module Figure2Proofs {
  import opened RaftTypes
  import opened Figure2

  lemma LastIndexIsLastEntry(s: State)
    requires Valid(s)
    ensures LastIndex(s) == if s.log == [] then Base(s) else s.log[|s.log| - 1].index
  {
  }

  // ---- The check after a step ----------------------------------------------

  predicate IdsOk(effects: seq<Effect>) {
    forall i :: 0 <= i < |effects| && effects[i].PersistHard? ==> effects[i].id != 0
  }

  /** A state that steps produce: valid, and every write it still waits for has an id. */
  predicate Sound(s: State) {
    Valid(s) && (s.pending.Some? ==> IdsOk(s.pending.value.deferred))
  }

  ghost predicate HandledWell(s: State, r: Outcome) {
    r.Done? ==> Valid(r.state) && IdsOk(r.effects) && r.state.pending.None?
  }

  lemma PersistWell(s: State)
    requires Valid(s) && s.pending.None?
    ensures HandledWell(s, PersistHardState(s))
    ensures PersistHardState(s).Done? ==>
      PersistHardState(s).state == s.(nextRequest := s.nextRequest + 1)
  {
  }

  lemma ObserveWell(s: State, t: Term)
    requires Valid(s) && s.pending.None?
    ensures HandledWell(s, Observe(s, t))
    ensures Observe(s, t).Done? ==>
      var s1 := Observe(s, t).state;
      s1.log == s.log && s1.snapshot == s.snapshot && s1.commit == s.commit && s1.term == Max(s.term, t)
      && s1.peers == s.peers && s1.node == s.node && s1.applied == s.applied
  {
  }

  lemma IdsConcat(a: seq<Effect>, b: seq<Effect>)
    requires IdsOk(a) && IdsOk(b)
    ensures IdsOk(a + b)
  {
  }

  lemma {:induction false} ProgressCount(peers: seq<NodeId>, p: map<NodeId, Progress>)
    requires NoDuplicates(peers) && forall n :: n in p <==> n in peers
    ensures |p| == |peers|
  {
    if peers == [] {
      assert p == map[];
    } else {
      var front, last := peers[..|peers| - 1], peers[|peers| - 1];
      assert last !in front;
      assert forall m :: m in peers <==> m in front || m == last;
      var q := p - {last};
      ProgressCount(front, q);
      assert p == q[last := p[last]];
    }
  }

  lemma SendsOnly(effects: seq<Effect>)
    requires forall i :: 0 <= i < |effects| ==> effects[i].Send?
    ensures IdsOk(effects)
  {
  }

  lemma ElectedValid(s: State)
    requires Valid(s)
    ensures Valid(s.(role := Leader, votes := {}, knownLeader := Some(s.node),
                     leader := Some(LeaderState(FreshProgress(s), {}))))
  {
    ProgressCount(s.peers, FreshProgress(s));
  }

  lemma InitializeWell(s: State)
    requires Valid(s) && s.pending.None?
    ensures HandledWell(s, InitializeLeader(s))
  {
    hide Valid, Replicate, CanReplicate, FreshProgress;
    if LastIndex(s) < U64_MAX {
      ElectedValid(s);
      var s1 := InitializeLeader(s).state;
      LeaderExists(s1);
      SendsOnly(Replicate(s1, s1.peers));
    }
  }

  lemma StoodValid(s: State)
    requires Valid(s)
    ensures Valid(s.(term := s.term + 1, vote := Some(s.node), role := Candidate,
                     knownLeader := None, leader := None, votes := {s.node}))
  {
  }

  lemma ElectionWell(s: State)
    requires Valid(s) && s.pending.None?
    ensures HandledWell(s, StartElection(s))
  {
    hide Valid, InitializeLeader, Solicit, PersistHardState;
    if s.term < U64_MAX {
      var s0 := s.(term := s.term + 1, vote := Some(s.node), role := Candidate,
                   knownLeader := None, leader := None, votes := {s.node});
      StoodValid(s);
      PersistWell(s0);
      if PersistHardState(s0).Done? {
        var s1, persist := PersistHardState(s0).state, PersistHardState(s0).effects;
        InitializeWell(s1);
        SendsOnly(Solicit(s1, s1.peers));
        IdsConcat(persist, [ResetElectionTimer]);
        IdsConcat(persist + [ResetElectionTimer], Solicit(s1, s1.peers));
        if Majority(s1) == 1 && InitializeLeader(s1).Done? {
          IdsConcat(persist + [ResetElectionTimer] + Solicit(s1, s1.peers), InitializeLeader(s1).effects);
        }
      }
    }
  }

  lemma VotedValid(s: State, vote: Option<NodeId>)
    requires Valid(s)
    ensures Valid(s.(vote := vote))
  {
  }

  lemma VoteRequestWell(s: State, from: NodeId, m: Message)
    requires Valid(s) && s.pending.None? && m.VoteRequest?
    ensures HandledWell(s, HandleVoteRequest(s, from, m))
  {
    hide Valid, UpToDate;
    ObserveWell(s, m.term);
    if Observe(s, m.term).Done? {
      var s1 := Observe(s, m.term).state;
      VotedValid(s1, Some(m.candidate));
      PersistWell(s1.(vote := Some(m.candidate)));
    }
  }

  lemma CountedValid(s: State, from: NodeId)
    requires Valid(s) && s.role.Candidate? && from in s.peers
    ensures Valid(s.(votes := s.votes + {from}))
  {
  }

  lemma VoteResponseWell(s: State, from: NodeId, m: Message)
    requires Valid(s) && s.pending.None? && m.VoteResponse?
    ensures HandledWell(s, HandleVoteResponse(s, from, m))
  {
    hide Valid, InitializeLeader;
    ObserveWell(s, m.term);
    if from in s.peers && Observe(s, m.term).Done? {
      var s1 := Observe(s, m.term).state;
      if s1.role.Candidate? {
        CountedValid(s1, from);
        InitializeWell(s1.(votes := s1.votes + {from}));
      }
    }
  }

  // ---- AppendEntries -------------------------------------------------------

  function Conflict(s: State, m: Message): nat
    requires m.AppendRequest? && PreviousMatches(s, m)
  {
    FirstMissing(s, m.previous, m.entries, 0)
  }

  /** The request passes every test of the handler, in state `s` at the request's term. */
  predicate AcceptsAppend(s: State, from: NodeId, m: Message)
    requires m.AppendRequest?
  {
    && from in s.peers && m.leader == from && s.term <= m.term
    && PreviousMatches(s, m) && Contiguous(m.previous, m.entries)
    && var k := Conflict(s, m);
       !(k < |m.entries| && m.previous + 1 + k <= LastIndex(s) && m.previous + 1 + k <= s.commit)
  }

  predicate EntriesWithinTerm(m: Message)
    requires m.AppendRequest?
  {
    forall j :: 0 <= j < |m.entries| ==> m.entries[j].term <= m.term
  }

  predicate SteppedDown(s: State, s': State) {
    s' == s.(role := Follower, leader := None, votes := {}, knownLeader := s'.knownLeader)
  }

  lemma SteppedDownValid(s: State, s': State)
    requires Valid(s) && SteppedDown(s, s')
    ensures Valid(s')
  {
  }

  /** Where the two logs differ, the kept prefix reaches the commit index. */
  lemma AcceptIndexes(s: State, from: NodeId, m: Message)
    requires Valid(s) && m.AppendRequest? && s.role.Follower? && AcceptsAppend(s, from, m) && s.term == m.term
    ensures var s' := AcceptAppend(s, from, m, Conflict(s, m)).0;
      IndexesValid(s') && s.commit <= s'.commit
      && forall i :: 0 <= i < |s'.log| ==> s'.log[i].index == Base(s') + i + 1
  {
    hide LeaderValid, RolesValid, RequestsValid, FirstMissing;
    var k := Conflict(s, m);
    var s' := AcceptAppend(s, from, m, k).0;
    if k < |m.entries| {
      var cut := m.previous + k - Base(s);
      forall i | 0 <= i < |s'.log| ensures s'.log[i].index == Base(s') + i + 1 {
        if i >= cut {
          assert s'.log[i] == m.entries[k + (i - cut)];
        }
      }
    }
  }

  /** Entries the log already holds are within the term, so only an appended one can exceed it. */
  lemma AcceptTerms(s: State, from: NodeId, m: Message)
    requires Valid(s) && m.AppendRequest? && AcceptsAppend(s, from, m) && s.term == m.term
    ensures var s' := AcceptAppend(s, from, m, Conflict(s, m)).0;
      (forall i :: 0 <= i < |s'.log| ==> s'.log[i].term <= s.term) <==> EntriesWithinTerm(m)
  {
    hide LeaderValid, RolesValid, RequestsValid, FirstMissing;
    var k := Conflict(s, m);
    var s' := AcceptAppend(s, from, m, k).0;
    forall j | 0 <= j < k ensures m.entries[j].term <= s.term {
      assert TermAt(s, m.previous + 1 + j) == m.entries[j].term;
    }
    if k < |m.entries| {
      var cut := m.previous + k - Base(s);
      assert forall i :: cut <= i < |s'.log| ==> s'.log[i] == m.entries[k + (i - cut)];
      assert forall j :: k <= j < |m.entries| ==> m.entries[j] == s'.log[cut + (j - k)];
    }
  }

  lemma AcceptValid(s: State, from: NodeId, m: Message)
    requires Valid(s) && m.AppendRequest? && s.role.Follower? && AcceptsAppend(s, from, m) && s.term == m.term
    ensures Valid(AcceptAppend(s, from, m, Conflict(s, m)).0) <==> EntriesWithinTerm(m)
  {
    hide AcceptsAppend, FirstMissing, EntriesWithinTerm;
    AcceptIndexes(s, from, m);
    AcceptTerms(s, from, m);
    AcceptKeeps(s, from, m);
  }

  lemma AcceptKeeps(s: State, from: NodeId, m: Message)
    requires m.AppendRequest? && AcceptsAppend(s, from, m)
    ensures var r := AcceptAppend(s, from, m, Conflict(s, m));
      r.0 == s.(log := r.0.log, commit := r.0.commit) && IdsOk(r.1)
  {
    hide FirstMissing;
  }

  lemma AcceptIds(s: State, from: NodeId, m: Message, e1: seq<Effect>)
    requires m.AppendRequest? && AcceptsAppend(s, from, m) && IdsOk(e1)
    ensures IdsOk(e1 + [ResetElectionTimer] + AcceptAppend(s, from, m, Conflict(s, m)).1)
  {
    hide FirstMissing, AcceptAppend;
    AcceptKeeps(s, from, m);
    IdsConcat(e1, [ResetElectionTimer]);
    IdsConcat(e1 + [ResetElectionTimer], AcceptAppend(s, from, m, Conflict(s, m)).1);
  }

  /** The handler, by cases of its tests. */
  lemma AppendShape(s: State, from: NodeId, m: Message)
    requires Valid(s) && s.pending.None? && m.AppendRequest? && HandleAppendRequest(s, from, m).Done?
    ensures Observe(s, m.term).Done?
    ensures var s1, e1 := Observe(s, m.term).state, Observe(s, m.term).effects;
      var s2 := s1.(role := Follower, leader := None, votes := {}, knownLeader := Some(from));
      var r := HandleAppendRequest(s, from, m);
      if AcceptsAppend(s, from, m) then
        && AcceptsAppend(s2, from, m) && s2.term == m.term
        && r.state == AcceptAppend(s2, from, m, Conflict(s2, m)).0
        && r.effects == e1 + [ResetElectionTimer] + AcceptAppend(s2, from, m, Conflict(s2, m)).1
      else
        (r.state == s1 || r.state == s2) && (IdsOk(e1) ==> IdsOk(r.effects))
  {
    ObserveWell(s, m.term);
    hide Valid, AcceptAppend, FirstMissing;
    var s1 := Observe(s, m.term).state;
    var s2 := s1.(role := Follower, leader := None, votes := {}, knownLeader := Some(from));
    if m.term == s1.term {
      ScanSame(s, s2, m);
    }
  }

  lemma ScanSame(s: State, s2: State, m: Message)
    requires m.AppendRequest? && s2.log == s.log && s2.snapshot == s.snapshot
    ensures PreviousMatches(s, m) == PreviousMatches(s2, m)
    ensures PreviousMatches(s, m) ==> Conflict(s, m) == Conflict(s2, m)
  {
    if PreviousMatches(s, m) {
      ScanSameFrom(s, s2, m.previous, m.entries, 0);
    }
  }

  lemma {:induction false} ScanSameFrom(s: State, s2: State, previous: LogIndex, entries: seq<LogEntry>, j: nat)
    requires s2.log == s.log && s2.snapshot == s.snapshot
    requires Base(s) <= previous <= LastIndex(s) && j <= |entries|
    ensures FirstMissing(s, previous, entries, j) == FirstMissing(s2, previous, entries, j)
    decreases |entries| - j
  {
    if j < |entries| {
      ScanSameFrom(s, s2, previous, entries, j + 1);
    }
  }

  lemma AppendRequestWell(s: State, from: NodeId, m: Message)
    requires Valid(s) && s.pending.None? && m.AppendRequest? && HandleAppendRequest(s, from, m).Done?
    ensures var r := HandleAppendRequest(s, from, m);
      && IdsOk(r.effects) && r.state.pending.None?
      && (Valid(r.state) <==> (AcceptsAppend(s, from, m) ==> EntriesWithinTerm(m)))
  {
    hide Valid, HandleAppendRequest, AcceptAppend, EntriesWithinTerm, FirstMissing, AcceptsAppend;
    AppendShape(s, from, m);
    ObserveWell(s, m.term);
    var s1 := Observe(s, m.term).state;
    var s2 := s1.(role := Follower, leader := None, votes := {}, knownLeader := Some(from));
    SteppedDownValid(s1, s2);
    if AcceptsAppend(s, from, m) {
      AcceptValid(s2, from, m);
      AcceptKeeps(s2, from, m);
      AcceptIds(s2, from, m, Observe(s, m.term).effects);
    }
  }

  // ---- The leader's handlers -----------------------------------------------

  lemma {:induction false} CommitSearchBound(s: State, candidate: LogIndex)
    requires s.leader.Some? && Base(s) <= s.commit <= LastIndex(s) && candidate <= LastIndex(s)
    ensures s.commit <= CommitFrom(s, candidate) <= LastIndex(s)
  {
    hide Committable;
  }

  lemma RaisedValid(s: State)
    requires Valid(s) && s.leader.Some?
    ensures Valid(AdvanceCommit(s)) && AdvanceCommit(s).pending == s.pending
    ensures s.commit <= AdvanceCommit(s).commit && AdvanceCommit(s) == s.(commit := AdvanceCommit(s).commit)
  {
    CommitSearchBound(s, LastIndex(s));
    hide CommitFrom;
  }

  lemma ProgressSetValid(s: State, from: NodeId, p: Progress)
    requires Valid(s) && s.leader.Some? && from in s.peers && ProgressValid(s, p)
    ensures Valid(SetProgress(s, from, p))
  {
    var progress := s.leader.value.progress;
    assert progress[from := p].Keys == progress.Keys;
    assert |progress[from := p]| == |progress[from := p].Keys| == |progress.Keys| == |progress|;
  }

  lemma LeaderHas(s: State, from: NodeId)
    requires Valid(s) && s.role.Leader? && from in s.peers
    ensures s.leader.Some? && from in s.leader.value.progress
    ensures ProgressValid(s, s.leader.value.progress[from]) && Base(s) <= s.commit
  {
  }

  lemma AppendResponseWell(s: State, from: NodeId, m: Message)
    requires Valid(s) && s.pending.None? && m.AppendResponse?
    ensures HandledWell(s, HandleAppendResponse(s, from, m))
  {
    hide Valid, CommitFrom, AppendFor, SetProgress, AdvanceCommit;
    var r := HandleAppendResponse(s, from, m);
    ObserveWell(s, m.term);
    if from in s.peers && r.Done? {
      var s1 := Observe(s, m.term).state;
      if s1.role.Leader? && m.term == s1.term {
        LeaderHas(s, from);
        var p := s.leader.value.progress[from];
        if m.succeeded {
          var k := Max(p.match_, m.matched);
          CountedWell(s, from, k);
        } else {
          RetriedWell(s, from, Progress(Max(p.match_ + 1, Max(1, p.next - 1)), p.match_));
        }
      }
    }
  }

  lemma CountedWell(s: State, from: NodeId, k: nat)
    requires Valid(s) && s.leader.Some? && from in s.peers && k <= LastIndex(s)
    ensures var s1 := SetProgress(s, from, Progress(k + 1, k));
      s1.leader.Some? && Base(s1) <= s1.commit
      && Valid(AdvanceCommit(s1)) && AdvanceCommit(s1).pending == s.pending
  {
    hide CommitFrom;
    ProgressSetValid(s, from, Progress(k + 1, k));
    RaisedValid(SetProgress(s, from, Progress(k + 1, k)));
  }

  lemma RetriedWell(s: State, from: NodeId, p: Progress)
    requires Valid(s) && s.leader.Some? && from in s.peers && ProgressValid(s, p)
    ensures Valid(SetProgress(s, from, p)) && SetProgress(s, from, p).pending == s.pending
  {
    hide Valid;
    ProgressSetValid(s, from, p);
  }

  lemma AppendedValid(s: State, e: LogEntry)
    requires Valid(s) && s.leader.Some? && e.term == s.term && e.index == LastIndex(s) + 1
    ensures Valid(s.(log := s.log + [e],
                     leader := Some(s.leader.value.(clients := s.leader.value.clients + {e.index}))))
  {
  }

  lemma LeaderExists(s: State)
    requires Valid(s) && s.role.Leader?
    ensures s.leader.Some? && CanReplicate(s) && Base(s) <= s.commit
  {
  }

  lemma ClientWell(s: State, command: Command)
    requires Valid(s) && s.pending.None?
    ensures HandledWell(s, HandleClient(s, command))
  {
    hide CommitFrom, Valid, Replicate, AdvanceCommit;
    if s.role.Leader? && LastIndex(s) < U64_MAX {
      LeaderExists(s);
      var e := LogEntry(s.term, LastIndex(s) + 1, command);
      var s1 := s.(log := s.log + [e],
                   leader := Some(s.leader.value.(clients := s.leader.value.clients + {e.index})));
      AppendedValid(s, e);
      LeaderExists(s1);
      RaisedValid(s1);
      SendsOnly(Replicate(s1, s1.peers));
      IdsConcat([PersistState], Replicate(s1, s1.peers));
    }
  }

  lemma ApplyWell(s: State)
    requires Valid(s) && s.pending.None?
    ensures HandledWell(s, HandleApply(s))
  {
  }

  lemma TimeoutWell(s: State)
    requires Valid(s) && s.pending.None?
    ensures HandledWell(s, HandleTimeout(s))
  {
    if s.role.Leader? {
      SendsOnly(Replicate(s, s.peers));
    }
    hide StartElection;
    ElectionWell(s);
  }

  // ---- Any event -----------------------------------------------------------

  /** The one malformed input the specification itself does not refuse: an accepted append whose
      entries claim a term above the request's. Core refuses such requests beforehand. */
  predicate AppendsBeyondTerm(s: State, event: Event) {
    event.Receive? && event.msg.AppendRequest? && AcceptsAppend(s, event.from, event.msg)
    && !EntriesWithinTerm(event.msg)
  }

  lemma HandleWell(s: State, event: Event)
    requires Sound(s) && (s.pending.Some? <==> event.HardPersisted?) && Handle(s, event).Done?
    ensures var r := Handle(s, event);
      && IdsOk(r.effects) && r.state.pending.None?
      && (Valid(r.state) <==> !AppendsBeyondTerm(s, event))
  {
    hide HandleTimeout, HandleVoteRequest, HandleVoteResponse, HandleAppendRequest, HandleAppendResponse;
    hide HandleClient, HandleApply, Observe, AcceptsAppend, EntriesWithinTerm;
    match event {
      case ElectionTimeout => hide Valid; TimeoutWell(s);
      case HeartbeatTimeout => hide Valid; TimeoutWell(s);
      case ApplyCommitted => hide Valid; ApplyWell(s);
      case ObserveTerm(t) => hide Valid; ObserveWell(s, t);
      case ClientCommand(command) => hide Valid; ClientWell(s, command);
      case HardPersisted(_, _) =>
      case Receive(from, m) => hide Valid; MessageWell(s, from, m);
    }
  }

  lemma MessageWell(s: State, from: NodeId, m: Message)
    requires Valid(s) && s.pending.None? && HandleMessage(s, from, m).Done?
    ensures var r := HandleMessage(s, from, m);
      && IdsOk(r.effects) && r.state.pending.None?
      && (Valid(r.state) <==> !AppendsBeyondTerm(s, Receive(from, m)))
  {
    hide Valid, HandleVoteRequest, HandleVoteResponse, HandleAppendRequest, HandleAppendResponse;
    hide AcceptsAppend, EntriesWithinTerm;
    match m {
      case VoteRequest(_, _, _, _) => VoteRequestWell(s, from, m);
      case VoteResponse(_, _) => VoteResponseWell(s, from, m);
      case AppendRequest(_, _, _, _, _, _, _) => AppendRequestWell(s, from, m);
      case AppendResponse(_, _, _, _) => AppendResponseWell(s, from, m);
    }
  }

  /** Gating never finds another write pending, and keeps a state valid. */
  lemma GateWell(s: State, effects: seq<Effect>)
    requires s.pending.None? && IdsOk(effects)
    ensures Gate(s, effects).Done? && (Valid(Gate(s, effects).state) <==> Valid(s))
    ensures var s' := Gate(s, effects).state; s'.pending.Some? ==> IdsOk(s'.pending.value.deferred)
  {
    hide FirstPersist;
  }

  /** The check after a step fires exactly on an accepted append beyond its term, and every
      completed step leaves a state from which this holds again. */
  lemma PostCheckFiresIff(s: State, event: Event)
    requires Sound(s) && (s.pending.Some? <==> event.HardPersisted?) && Handle(s, event).Done?
    ensures Step(s, event) == Failed(InvalidPostState) <==> AppendsBeyondTerm(s, event)
    ensures Step(s, event).Done? <==> !AppendsBeyondTerm(s, event)
    ensures Step(s, event).Done? ==> Sound(Step(s, event).state)
  {
    hide Handle, Gate, AppendsBeyondTerm, Valid, IdsOk;
    var h := Handle(s, event);
    HandleWell(s, event);
    GateWell(h.state, h.effects);
  }

  // ---- Monotonicity --------------------------------------------------------

  predicate Rises(s: State, s': State) {
    s.term <= s'.term && s.commit <= s'.commit && s.applied <= s'.applied
  }

  lemma HandleRises(s: State, event: Event)
    requires Valid(s) && (s.pending.Some? <==> event.HardPersisted?) && Handle(s, event).Done?
    ensures Rises(s, Handle(s, event).state)
  {
    hide Valid, CommitFrom, FirstMissing, Replicate, Solicit, AppendFor, UpToDate, Contiguous, TermAt, InitializeLeader;
    if event.ClientCommand? && s.role.Leader? { hide *; ClientRises(s, event.command); }
    if event.Receive? && event.msg.AppendResponse? { hide *; ReplyRises(s, event.from, event.msg); }
    if event.ElectionTimeout? && !s.role.Leader? { hide *; TimeoutRises(s); }
    if event.Receive? && event.msg.VoteResponse? { hide *; VoteRises(s, event.from, event.msg); }
  }

  lemma ClientRises(s: State, command: Command)
    requires Valid(s) && HandleClient(s, command).Done?
    ensures Rises(s, HandleClient(s, command).state)
  {
    if s.role.Leader? && LastIndex(s) < U64_MAX {
      var e := LogEntry(s.term, LastIndex(s) + 1, command);
      var s1 := s.(log := s.log + [e],
                   leader := Some(s.leader.value.(clients := s.leader.value.clients + {e.index})));
      AppendedValid(s, e);
      RaisedValid(s1);
      hide CommitFrom, Valid, Replicate;
    }
  }

  lemma ReplyRises(s: State, from: NodeId, m: Message)
    requires Valid(s) && m.AppendResponse? && HandleAppendResponse(s, from, m).Done?
    ensures Rises(s, HandleAppendResponse(s, from, m).state)
  {
    hide AppendFor;
    if from in s.peers && s.role.Leader? && m.succeeded && m.term == s.term {
      var p := s.leader.value.progress[from];
      assert ProgressValid(s, p);
      var k := Max(p.match_, m.matched);
      ProgressSetValid(s, from, Progress(k + 1, k));
      RaisedValid(SetProgress(s, from, Progress(k + 1, k)));
    }
  }

  lemma TimeoutRises(s: State)
    requires Valid(s) && HandleTimeout(s).Done?
    ensures Rises(s, HandleTimeout(s).state)
  {
    hide Replicate, Solicit, Valid;
  }

  lemma VoteRises(s: State, from: NodeId, m: Message)
    requires m.VoteResponse? && HandleVoteResponse(s, from, m).Done?
    ensures Rises(s, HandleVoteResponse(s, from, m).state)
  {
    hide Replicate;
  }

  /** Term, commit index and applied index never fall in a step of the specification. */
  lemma StepRises(s: State, event: Event)
    requires Step(s, event).Done?
    ensures Rises(s, Step(s, event).state)
  {
    hide Valid, Handle;
    HandleRises(s, event);
  }

  // ---- Gating is lossless --------------------------------------------------

  /** The state and the effects released by completing every pending write in turn. */
  function Drain(s: State): (State, seq<Effect>)
    decreases if s.pending.Some? then |s.pending.value.deferred| + 1 else 0
  {
    if s.pending.None? then (s, [])
    else
      var p := s.pending.value;
      var k := FirstPersist(p.deferred);
      var r := Step(s, HardPersisted(p.id, p.hard));
      if r.Failed? then (s, []) else
      if k == |p.deferred| then (r.state, r.effects)
      else
        var rest := Drain(r.state);
        (rest.0, r.effects + rest.1)
  }

  lemma CompletionStep(s: State)
    requires Sound(s) && s.pending.Some?
    ensures var p := s.pending.value;
      var r := Step(s, HardPersisted(p.id, p.hard));
      && r.Done? && Sound(r.state)
      && Gate(s.(pending := None), p.deferred) == Done(r.state, r.effects)
  {
    var p := s.pending.value;
    PostCheckFiresIff(s, HardPersisted(p.id, p.hard));
    GateWell(s.(pending := None), p.deferred);
  }

  /** Completions release exactly what was held back, in order, and end in the handler's state. */
  lemma {:induction false} DrainReleasesAll(s: State)
    requires Sound(s) && s.pending.Some?
    ensures Drain(s) == (s.(pending := None), s.pending.value.deferred)
    decreases |s.pending.value.deferred|
  {
    hide Step, Sound;
    var p := s.pending.value;
    CompletionStep(s);
    var r := Step(s, HardPersisted(p.id, p.hard));
    var k := FirstPersist(p.deferred);
    if k < |p.deferred| {
      DrainReleasesAll(r.state);
      assert p.deferred[..k + 1] + p.deferred[k + 1..] == p.deferred;
    }
  }

  /** For every event: what the step releases, followed by what the completions release, is the
      handler's own list of effects, and the state they end in is the handler's. */
  lemma GatingIsLossless(s: State, event: Event)
    requires Sound(s) && s.pending.None? && Step(s, event).Done?
    ensures !event.HardPersisted?
    ensures var r := Step(s, event);
      Drain(r.state) == (Handle(s, event).state, Drain(r.state).1)
      && r.effects + Drain(r.state).1 == Handle(s, event).effects
  {
    hide Handle, Valid, IdsOk, AppendsBeyondTerm, Step, Drain;
    StepIsGated(s, event);
    var h, r := Handle(s, event), Step(s, event);
    var k := FirstPersist(h.effects);
    if r.state.pending.Some? {
      DrainReleasesAll(r.state);
      assert h.effects[..k + 1] + h.effects[k + 1..] == h.effects;
    } else {
      DrainNothing(r.state);
      assert r.effects + [] == r.effects;
    }
  }

  lemma DrainNothing(s: State)
    requires s.pending.None?
    ensures Drain(s) == (s, [])
  {
  }

  lemma StepIsGated(s: State, event: Event)
    requires Sound(s) && s.pending.None? && Step(s, event).Done?
    ensures !event.HardPersisted?
    ensures Handle(s, event).Done? && Handle(s, event).state.pending.None?
    ensures Gate(Handle(s, event).state, Handle(s, event).effects) == Step(s, event)
    ensures Sound(Step(s, event).state)
  {
    hide Handle, Gate, AppendsBeyondTerm, IdsOk, Valid;
    PostCheckFiresIff(s, event);
    HandleWell(s, event);
  }

  /** Each cut falls right after a hard-state write, which is the write being waited for. */
  lemma CutsAfterWrites(s: State, event: Event)
    requires Step(s, event).Done? && Step(s, event).state.pending.Some?
    ensures var r := Step(s, event);
      && r.effects != []
      && r.effects[|r.effects| - 1] == PersistHard(r.state.pending.value.id, r.state.pending.value.hard)
      && forall i :: 0 <= i < |r.effects| - 1 ==> !r.effects[i].PersistHard?
  {
    hide Valid;
    NoPendingAfterHandle(s, event);
    hide Handle;
  }

  lemma NoPendingAfterHandle(s: State, event: Event)
    requires Valid(s) && (s.pending.Some? <==> event.HardPersisted?) && Handle(s, event).Done?
    ensures Handle(s, event).state.pending.None?
  {
    hide Valid, Replicate, AppendFor, CommitFrom, FirstMissing, UpToDate, Contiguous, TermAt, Solicit;
  }
}
