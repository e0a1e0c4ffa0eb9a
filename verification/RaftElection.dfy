/** Elections and heartbeats: standing, counting votes and winning fit the ledger. */
module RaftElection {
  import opened RaftTypes
  import opened Figure2
  import opened RaftLedger
  import opened RaftLedgerSteps
  import opened RaftCluster
  import opened RaftInvariant
  import opened RaftFrames
  import opened RaftHandlers

  // ---- Replication messages ------------------------------------------------

  /** The ledger knows `s` as the leader of its term, with this log. */
  predicate KnownLeader(l: Ledger, s: State) {
    && s.snapshot.None? && s.term in l.termLog && l.termLog[s.term] == s.log
    && s.term in l.leaderOf && l.leaderOf[s.term] == s.node
    && s.term in l.commitOf && s.commit <= l.commitOf[s.term]
  }

  lemma AppendForOk(l: Ledger, s: State, p: NodeId, context: Option<ReadContext>)
    requires KnownLeader(l, s) && s.leader.Some? && p in s.leader.value.progress
    requires ProgressValid(s, s.leader.value.progress[p])
    ensures AppendOk(l, AppendFor(s, p, context)) && AppendFor(s, p, context).leader == s.node
  {
  }

  lemma ReplicateOk(l: Ledger, s: State, s': State)
    requires CanReplicate(s) && KnownLeader(l, s) && s'.node == s.node
    ensures SendsOk(l, s', Replicate(s, s.peers))
    ensures forall i :: 0 <= i < |Replicate(s, s.peers)| ==> !IsPersist(Replicate(s, s.peers)[i])
  {
    hide KnownLeader;
    var effects := Replicate(s, s.peers);
    forall i | 0 <= i < |effects| ensures !IsPersist(effects[i]) && SendOk(l, s', effects[i]) {
      assert effects[i] == Send(s.peers[i], AppendFor(s, s.peers[i], None));
      AppendForOk(l, s, s.peers[i], None);
    }
  }

  lemma CalmLeader(l: Ledger, n: NodeId, peers: seq<NodeId>, s: State, d: Durable)
    requires Calm(l, n, peers, s, d) && s.role.Leader?
    ensures KnownLeader(l, s) && CanReplicate(s) && RecordLeader(l, n, s) == l
  {
    hide Inv, DiskOk, CommitOk, CandidateOk, LogRelated, WellLog;
    RecordSame(l, n, peers, s, d);
  }

  lemma ObservedNothing(s: State)
    ensures ObservedAs(s, s, [])
  {
  }

  lemma HeartbeatOk(l: Ledger, n: NodeId, peers: seq<NodeId>, s: State, d: Durable)
    requires Calm(l, n, peers, s, d) && s.role.Leader? && CanReplicate(s)
    ensures HandledOk(l, n, peers, s, d, s, Replicate(s, s.peers))
  {
    CalmShape(l, n, peers, s, d);
    CalmLeader(l, n, peers, s, d);
    ReplicateOk(l, s, s);
    hide *;
    var effects := Replicate(s, s.peers);
    ObservedNothing(s);
    AnswerOnly(l, n, peers, s, d, s, [], effects);
    assert [] + effects == effects;
  }

  // ---- Standing ------------------------------------------------------------

  lemma CoveredDown(l: Ledger, t: Term, c: LogIndex, t': Term, c': LogIndex)
    requires Covered(l, t, c) && t <= t' && c' <= c
    ensures Covered(l, t', c')
  {
  }

  /** A node cannot have been voted for in a term above the one on its disk. */
  lemma NotYetStood(l: Ledger, n: NodeId, t: Term)
    requires VotesInv(l) && CandidatesInv(l) && LeadersInv(l) && n in l.promised && l.promised[n] < t
    ensures !(t in l.leaderOf && l.leaderOf[t] == n)
    ensures forall v: NodeId :: !((t, v) in l.votes && l.votes[(t, v)] == n)
  {
    if t in l.leaderOf {
      assert ElectedInv(l, t);
    }
  }

  /** A commit index inherited from a later term can only belong to a doomed candidate. */
  lemma ClaimCoveredOrDoomed(l: Ledger, n: NodeId, t: Term, c: LogIndex)
    requires VotesInv(l) && CandidatesInv(l) && LeadersInv(l) && CommitInv(l)
    requires Claimed(l, c) && n in l.promised && l.promised[n] < t
    ensures Covered(l, t, c) || Doomed(l, t, n)
  {
    hide CandidatesInv, Covered, WellLog;
    if c == 0 {
      assert Covered(l, t, c) by { CoveredZero(l, t); }
    } else {
      var t0: Term :| t0 in l.commitOf && c <= l.commitOf[t0];
      if t0 <= t {
        CoveredDown(l, t0, l.commitOf[t0], t, c);
      } else {
        assert ElectedInv(l, t0);
        var q :| VotedFor(l, q, t0, l.leaderOf[t0]);
        NotYetStood(l, n, t);
        assert DoomedBy(l, q, t, n);
      }
    }
  }

  lemma CoveredZero(l: Ledger, t: Term)
    ensures Covered(l, t, 0)
  {
  }

  predicate StoodFrom(s: State, s': State) {
    s' == s.(term := s.term + 1, vote := Some(s.node), role := Candidate, knownLeader := None,
             leader := None, votes := {s.node}, nextRequest := s'.nextRequest)
  }

  lemma StoodLinked(l: Ledger, n: NodeId, peers: seq<NodeId>, s: State, d: Durable, s': State)
    requires Calm(l, n, peers, s, d) && StoodFrom(s, s')
    ensures Linked(l, n, peers, s', d)
  {
    CalmShape(l, n, peers, s, d);
    hide DurableInv, AcksInv, HolderInv, VoterInv, CompletenessInv, Valid, WellLog, Claimed;
    hide Covered, Doomed, DecidedTo, VotesInv, CandidatesInv, LeadersInv, CommitInv, LeaderOk;
    NotYetStood(l, n, s'.term);
    ClaimCoveredOrDoomed(l, n, s'.term, s.commit);
  }

  lemma SolicitOk(l: Ledger, s: State, peers: seq<NodeId>)
    requires s.role.Candidate? && s.snapshot.None?
    ensures SendsOk(l, s, Solicit(s, peers))
    ensures forall i :: 0 <= i < |Solicit(s, peers)| ==> !IsPersist(Solicit(s, peers)[i])
  {
    LastTermIs(s);
  }

  lemma StoodQueue(l: Ledger, s: State, s': State, d: Durable, id: nat)
    requires StoodFrom(s, s') && d.hard == Hard(s) && d.log == s.log && s.snapshot.None?
    ensures QueueOk(l, s', d,
              [PersistHard(id, Hard(s'))] + [ResetElectionTimer] + Solicit(s', s'.peers))
  {
    hide Ordered, SendsOk;
    var write, tail := [PersistHard(id, Hard(s'))], Solicit(s', s'.peers);
    var all := write + [ResetElectionTimer] + tail;
    SolicitOk(l, s', s'.peers);
    OrderedShape(write, [ResetElectionTimer], tail);
    SendsShape(l, s', write + [ResetElectionTimer], tail);
    assert all[0] == write[0] && all[1..] == [ResetElectionTimer] + tail;
  }

  lemma ElectionShape(s: State)
    requires StartElection(s).Done? && |s.peers| >= 2
    ensures var r := StartElection(s);
            && StoodFrom(s, r.state)
            && r.effects == [PersistHard(s.nextRequest, Hard(r.state))] + [ResetElectionTimer]
                            + Solicit(r.state, r.state.peers)
  {
  }

  lemma StartElectionOk(l: Ledger, n: NodeId, peers: seq<NodeId>, s: State, d: Durable)
    requires Calm(l, n, peers, s, d) && StartElection(s).Done?
    ensures var r := StartElection(s); HandledOk(l, n, peers, s, d, r.state, r.effects)
  {
    CalmShape(l, n, peers, s, d);
    hide Calm, Inv, Linked, QueueOk, StartElection;
    ElectionShape(s);
    StoodLinked(l, n, peers, s, d, StartElection(s).state);
    StoodQueue(l, s, StartElection(s).state, d, s.nextRequest);
    GrowsReflexive(l);
  }

  // ---- Counting votes ------------------------------------------------------

  lemma CountedLinked(l: Ledger, n: NodeId, peers: seq<NodeId>, s: State, d: Durable, from: NodeId)
    requires Calm(l, n, peers, s, d) && s.role.Candidate?
    requires (s.term, from) in l.votes && l.votes[(s.term, from)] == n
    ensures Linked(l, n, peers, s.(votes := s.votes + {from}), d)
  {
    hide Inv, Valid, WellLog, CommitOk, LogRelated, DiskOk;
    assert CommitOk(l, s.(votes := s.votes + {from})) by { CommitSame(l, s, s.(votes := s.votes + {from})); }
    assert LogRelated(l, s.(votes := s.votes + {from}), d) by {
      LogRelatedSame(l, s, s.(votes := s.votes + {from}), d);
    }
  }

  lemma CommitSame(l: Ledger, s: State, s': State)
    requires CommitOk(l, s) && s'.commit == s.commit && s'.applied == s.applied && s'.log == s.log
    requires s'.role.Candidate? ==> s.role.Candidate? && s'.term == s.term && s'.node == s.node
    ensures CommitOk(l, s')
  {
  }

  lemma LogRelatedSame(l: Ledger, s: State, s': State, d: Durable)
    requires LogRelated(l, s, d) && s'.log == s.log && s'.term == s.term
    ensures LogRelated(l, s', d)
  {
    if s.log != d.log {
      var k: nat :| MergedTo(l, s, d, k);
      assert MergedTo(l, s', d, k);
    }
  }

  /** The votes a candidate has counted are votes the ledger holds. */
  lemma CountedVotes(l: Ledger, n: NodeId, peers: seq<NodeId>, s: State, d: Durable, from: NodeId)
    requires Calm(l, n, peers, s, d) && s.role.Candidate? && from in peers
    requires (s.term, from) in l.votes && l.votes[(s.term, from)] == n
    requires |s.votes + {from}| >= Majority(s)
    ensures VotedFor(l, s.votes + {from}, s.term, n)
    ensures (s.term, n) in l.candLog && l.candLog[(s.term, n)] == s.log
  {
    hide DurableInv, VotesInv, LeadersInv, AcksInv, HolderInv, VoterInv, CompletenessInv, CommitInv;
    hide WellLog, LogRelated, CommitOk, LeaderValid, LogValid;
    var q := s.votes + {from};
    forall v | v in q ensures v in l.members && (s.term, v) in l.votes && l.votes[(s.term, v)] == n {
    }
    assert q <= l.members;
  }

  lemma WinnerMayElect(l: Ledger, n: NodeId, peers: seq<NodeId>, s: State, d: Durable, q: set<NodeId>)
    requires Inv(l) && VotedFor(l, q, s.term, n) && s.role.Candidate? && s.node == n
    requires (s.term, n) in l.candLog && CandidateOk(l, s, d) && CommitOk(l, s)
    ensures MayElect(l, s.term, n, s.commit)
  {
    assert s.term !in l.termLog by {
      if s.term in l.termLog {
        OneWinnerPerTerm(l, s.term, n, q);
        assert false;
      }
    }
    if Doomed(l, s.term, n) {
      var r :| DoomedBy(l, r, s.term, n);
      var v := QuorumsIntersect(l.members, q, r);
    }
  }

  predicate WonFrom(s: State, s': State) {
    && s' == s.(role := Leader, votes := {}, knownLeader := Some(s.node), leader := s'.leader)
    && s'.leader.Some?
    && (forall p :: p in s'.leader.value.progress ==>
          p in s.peers && s'.leader.value.progress[p].match_ == 0)
  }

  lemma WonLinked(l: Ledger, n: NodeId, peers: seq<NodeId>, s: State, d: Durable, s': State)
    requires Calm(l, n, peers, s, d) && s.role.Candidate? && WonFrom(s, s')
    requires MayElect(l, s.term, n, s.commit) && l.candLog[(s.term, n)] == s.log
    requires Inv(Elect(l, s.term, n, s.commit)) && Grows(l, Elect(l, s.term, n, s.commit))
    ensures Linked(Elect(l, s.term, n, s.commit), n, peers, s', d)
    ensures RecordLeader(l, n, s') == Elect(l, s.term, n, s.commit)
    ensures KnownLeader(Elect(l, s.term, n, s.commit), s')
  {
    var l' := Elect(l, s.term, n, s.commit);
    CalmShape(l, n, peers, s, d);
    WonCommit(l, l', n, peers, s, d, s');
    hide Inv, Valid, WellLog, MayElect, DiskOk, Calm, CandidateOk, Grows, CommitOk, LeaderOk, LogRelated;
    hide KnownLeader, CanReplicate;
    WonLeader(l, n, s, d, s');
  }

  lemma WonLeader(l: Ledger, n: NodeId, s: State, d: Durable, s': State)
    requires s.role.Candidate? && WonFrom(s, s') && s.node == n
    requires (s.term, n) in l.candLog && l.candLog[(s.term, n)] == s.log
    requires s.snapshot.None? && s.pending.None? && d.hard == Hard(s) && d.log == s.log
    ensures var l' := Elect(l, s.term, n, s.commit);
            && LeaderOk(l', s', d) && CandidateOk(l', s', d) && LogRelated(l', s', d)
            && KnownLeader(l', s')
  {
  }

  lemma WonCommit(l: Ledger, l': Ledger, n: NodeId, peers: seq<NodeId>, s: State, d: Durable, s': State)
    requires Calm(l, n, peers, s, d) && s.role.Candidate? && WonFrom(s, s')
    requires Grows(l, l')
    ensures WellLog(l', s'.log) && CommitOk(l', s')
  {
    hide Inv, Valid, WellLog, DiskOk, CandidateOk, LeaderOk, Grows, CommitOk, LogRelated, HasAcked;
    assert CommitOk(l, s) && WellLog(l, s.log);
    assert LogsGrow(l, l') by { GrowsLogs(l, l'); }
    WellLogGrows(l, l', s.log);
    CommitFrame(l, l', s);
    CommitSame(l', s, s');
  }

  lemma GrowsLogs(l: Ledger, l': Ledger)
    requires Grows(l, l')
    ensures LogsGrow(l, l')
  {
  }

  lemma WinQueue(l: Ledger, s: State, d: Durable)
    requires CanReplicate(s) && KnownLeader(l, s) && d.hard == Hard(s) && d.log == s.log
    ensures QueueOk(l, s, d, Replicate(s, s.peers))
  {
    ReplicateOk(l, s, s);
    hide CanReplicate, KnownLeader, SendsOk;
    var effects := Replicate(s, s.peers);
    assert FirstPersist(effects) == |effects|;
  }

  lemma WonKept(s: State, s': State)
    requires WonFrom(s, s') && s.commit <= |s.log|
    ensures Kept(s, s') && s'.pending == s.pending && Hard(s') == Hard(s) && s'.log == s.log
  {
  }

  lemma WinOk(l: Ledger, n: NodeId, peers: seq<NodeId>, s: State, d: Durable, from: NodeId, s': State)
    requires Calm(l, n, peers, s, d) && s.role.Candidate? && from in peers
    requires (s.term, from) in l.votes && l.votes[(s.term, from)] == n
    requires |s.votes + {from}| >= Majority(s) && WonFrom(s, s') && CanReplicate(s')
    ensures HandledOk(l, n, peers, s, d, s', Replicate(s', s'.peers))
  {
    CalmShape(l, n, peers, s, d);
    CountedVotes(l, n, peers, s, d, from);
    WinnerMayElect(l, n, peers, s, d, s.votes + {from});
    WonKept(s, s');
    hide Inv, VotedFor, MayElect, Calm, Linked, QueueOk, Kept, Grows, Majority, CanReplicate, KnownLeader, Replicate;
    hide RecordLeader, Elect;
    ElectKeepsInv(l, s.term, n, s.commit);
    WonLinked(l, n, peers, s, d, s');
    WinQueue(Elect(l, s.term, n, s.commit), s', d);
  }

  datatype VoteCase = Ignored | Counted | Won

  lemma InitializeShape(s: State)
    requires InitializeLeader(s).Done?
    ensures var r := InitializeLeader(s);
            WonFrom(s, r.state) && CanReplicate(r.state) && r.effects == Replicate(r.state, r.state.peers)
  {
  }

  lemma VoteResponseShape(s: State, from: NodeId, m: Message)
    returns (s1: State, e1: seq<Effect>, kind: VoteCase)
    requires m.VoteResponse? && HandleVoteResponse(s, from, m).Done? && s.snapshot.None?
    ensures ObservedAs(s, s1, e1) && from in s.peers
    ensures var r := HandleVoteResponse(s, from, m);
      match kind
      case Ignored => r.state == s1 && r.effects == e1
      case Counted =>
        && s.role.Candidate? && m.term == s.term && m.granted
        && r.state == s.(votes := s.votes + {from}) && r.effects == []
      case Won =>
        && s.role.Candidate? && m.term == s.term && m.granted
        && |s.votes + {from}| >= Majority(s)
        && WonFrom(s, r.state) && CanReplicate(r.state)
        && r.effects == Replicate(r.state, r.state.peers)
  {
    hide InitializeLeader, Replicate, CanReplicate;
    ObserveFacts(s, m.term);
    s1, e1 := Observe(s, m.term).state, Observe(s, m.term).effects;
    if !s1.role.Candidate? || m.term != s1.term || !m.granted {
      kind := Ignored;
    } else {
      assert s1 == s && e1 == [];
      var s2 := s.(votes := s.votes + {from});
      if |s2.votes| >= Majority(s2) {
        kind := Won;
        InitializeShape(s2);
        assert [] + InitializeLeader(s2).effects == InitializeLeader(s2).effects;
      } else {
        kind := Counted;
      }
    }
  }

  lemma IgnoredOk(l: Ledger, n: NodeId, peers: seq<NodeId>, s: State, d: Durable, s1: State, e1: seq<Effect>)
    requires Calm(l, n, peers, s, d) && ObservedAs(s, s1, e1)
    ensures HandledOk(l, n, peers, s, d, s1, e1)
  {
    hide Calm, HandledOk, ObservedAs;
    AnswerOnly(l, n, peers, s, d, s1, e1, []);
    assert e1 + [] == e1;
  }

  lemma VoteResponseOk(l: Ledger, n: NodeId, peers: seq<NodeId>, s: State, d: Durable,
                       from: NodeId, m: Message)
    requires Calm(l, n, peers, s, d) && m.VoteResponse? && PacketOk(l, Packet(from, n, m))
    requires HandleVoteResponse(s, from, m).Done?
    ensures var r := HandleVoteResponse(s, from, m); HandledOk(l, n, peers, s, d, r.state, r.effects)
  {
    CalmShape(l, n, peers, s, d);
    hide Calm, HandleVoteResponse, HandledOk, Inv, Linked, QueueOk, CanReplicate, WonFrom;
    var s1, e1, kind := VoteResponseShape(s, from, m);
    match kind {
      case Ignored =>
        IgnoredOk(l, n, peers, s, d, s1, e1);
      case Counted => CountedOk(l, n, peers, s, d, from);
      case Won => WinOk(l, n, peers, s, d, from, HandleVoteResponse(s, from, m).state);
    }
  }

  lemma CountedOk(l: Ledger, n: NodeId, peers: seq<NodeId>, s: State, d: Durable, from: NodeId)
    requires Calm(l, n, peers, s, d) && s.role.Candidate?
    requires (s.term, from) in l.votes && l.votes[(s.term, from)] == n
    ensures HandledOk(l, n, peers, s, d, s.(votes := s.votes + {from}), [])
  {
    CalmShape(l, n, peers, s, d);
    hide Calm, Inv, Linked;
    CountedLinked(l, n, peers, s, d, from);
    GrowsReflexive(l);
  }
}
