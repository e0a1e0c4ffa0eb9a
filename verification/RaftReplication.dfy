/** Replication: accepting a slice of the leader's log, counting acknowledgements, appending a
    client's command and raising the commit index fit the ledger. */
module RaftReplication {
  import opened RaftTypes
  import opened Figure2
  import opened RaftLedger
  import opened RaftLedgerSteps
  import opened RaftCluster
  import opened RaftInvariant
  import opened RaftHandlers
  import opened RaftElection

  // ---- AppendEntries: the log ----------------------------------------------

  /** The log a follower has after accepting, as a function of the request. */
  function AcceptedLog(log: Log, m: Message, k: nat): Log
    requires m.AppendRequest? && k <= |m.entries| && (k < |m.entries| ==> m.previous + k <= |log|)
  {
    if k < |m.entries| then log[..m.previous + k] + m.entries[k..] else log
  }

  /** The conflict scan stopped at `k`. */
  predicate ScannedTo(log: Log, m: Message, k: nat)
    requires m.AppendRequest?
  {
    && m.previous <= |log| && k <= |m.entries|
    && PreviousTerm(log, m.previous) == m.previousTerm
    && m.previous + k <= |log|
    && (forall i :: 0 <= i < k ==> log[m.previous + i].term == m.entries[i].term)
    && (k < |m.entries| && m.previous + k < |log| ==> log[m.previous + k].term != m.entries[k].term)
  }

  /** The scanned part is common to both logs. */
  lemma ScannedPrefix(l: Ledger, log: Log, m: Message, k: nat)
    requires m.AppendRequest? && AppendOk(l, m) && ScannedTo(log, m, k)
    requires WellLog(l, log) && WellLog(l, l.termLog[m.term])
    ensures log[..m.previous + k] == l.termLog[m.term][..m.previous + k]
  {
    var whole := l.termLog[m.term];
    var j := m.previous + k;
    if j > 0 {
      assert log[j - 1].term == whole[j - 1].term by {
        if k > 0 {
          assert m.entries[k - 1] == whole[j - 1];
        }
      }
      LogMatching(l, log, whole, j - 1);
    }
  }

  /** Accepting a request merges a prefix of the leader's log. */
  lemma AcceptMerges(l: Ledger, log: Log, m: Message, k: nat)
    requires m.AppendRequest? && AppendOk(l, m) && ScannedTo(log, m, k)
    requires WellLog(l, log) && WellLog(l, l.termLog[m.term])
    ensures AcceptedLog(log, m, k) == Merge(log, l.termLog[m.term][..m.previous + |m.entries|])
    ensures l.termLog[m.term][..m.previous + |m.entries|] <= AcceptedLog(log, m, k)
  {
    ScannedPrefix(l, log, m, k);
    hide WellLog;
    var whole := l.termLog[m.term];
    var n := m.previous + |m.entries|;
    var p := whole[..n];
    if k < |m.entries| {
      assert m.entries[k..] == whole[m.previous + k..n];
      assert log[..m.previous + k] + m.entries[k..] == p;
      assert p[m.previous + k] == m.entries[k];
    }
  }

  lemma AcceptKeepsPrefix(log: Log, m: Message, k: nat, c: nat)
    requires m.AppendRequest? && ScannedTo(log, m, k) && c <= |log|
    requires k == |m.entries| || m.previous + k >= |log| || m.previous + k >= c
    ensures c <= |AcceptedLog(log, m, k)| && AcceptedLog(log, m, k)[..c] == log[..c]
  {
  }

  // ---- AppendEntries: the follower -----------------------------------------

  predicate AcceptedAs(s: State, m: Message, k: nat, s': State)
    requires m.AppendRequest? && k <= |m.entries| && (k < |m.entries| ==> m.previous + k <= |s.log|)
  {
    && s' == s.(role := Follower, leader := None, votes := {}, knownLeader := Some(m.leader),
                log := AcceptedLog(s.log, m, k), commit := s'.commit)
    && s'.commit == Max(s.commit, Min(m.leaderCommit, m.previous + |m.entries|))
  }

  datatype AppendCase = Stale | Mismatch | Accepted

  lemma AcceptShape(s: State, from: NodeId, m: Message, k: nat)
    requires m.AppendRequest? && s.snapshot.None? && PreviousMatches(s, m)
    requires k == FirstMissing(s, m.previous, m.entries, 0)
    ensures ScannedTo(s.log, m, k)
    ensures var r := AcceptAppend(s, from, m, k);
      && r.0 == s.(log := AcceptedLog(s.log, m, k), commit := r.0.commit)
      && r.0.commit == Max(s.commit, Min(m.leaderCommit, m.previous + |m.entries|))
      && r.1 == (if k < |m.entries| then [PersistState] else [])
                + [Send(from, AppendResponse(s.term, true, m.previous + |m.entries|, m.context))]
  {
    hide FirstMissing, TermAt, PreviousTerm, AcceptAppend;
    ScanShape(s, m, k);
    AcceptResult(s, from, m, k);
  }

  lemma AcceptResult(s: State, from: NodeId, m: Message, k: nat)
    requires m.AppendRequest? && s.snapshot.None? && PreviousMatches(s, m)
    requires k <= |m.entries| && m.previous + k <= |s.log|
    ensures var r := AcceptAppend(s, from, m, k);
      && r.0 == s.(log := AcceptedLog(s.log, m, k), commit := r.0.commit)
      && r.0.commit == Max(s.commit, Min(m.leaderCommit, m.previous + |m.entries|))
      && r.1 == (if k < |m.entries| then [PersistState] else [])
                + [Send(from, AppendResponse(s.term, true, m.previous + |m.entries|, m.context))]
  {
    hide TermAt;
  }

  lemma ScanShape(s: State, m: Message, k: nat)
    requires m.AppendRequest? && s.snapshot.None? && PreviousMatches(s, m)
    requires k == FirstMissing(s, m.previous, m.entries, 0)
    ensures ScannedTo(s.log, m, k)
  {
    forall i | 0 <= i < k ensures s.log[m.previous + i].term == m.entries[i].term {
      assert TermAt(s, m.previous + 1 + i) == m.entries[i].term;
    }
  }

  lemma AppendShape(s: State, from: NodeId, m: Message)
    returns (s1: State, e1: seq<Effect>, kind: AppendCase, k: nat)
    requires m.AppendRequest? && HandleAppendRequest(s, from, m).Done? && s.snapshot.None?
    ensures ObservedAs(s, s1, e1) && from in s.peers && m.leader == from
    ensures kind.Stale? || m.term == s1.term
    ensures var r := HandleAppendRequest(s, from, m);
      match kind
      case Stale => r.state == s1 && r.effects == e1 + [Send(from, AppendResponse(s1.term, false, 0, m.context))]
      case Mismatch =>
        && r.state == s1.(role := Follower, leader := None, votes := {}, knownLeader := Some(from))
        && r.effects == e1 + [ResetElectionTimer] + [Send(from, AppendResponse(s1.term, false, 0, m.context))]
      case Accepted =>
        && ScannedTo(s1.log, m, k) && AcceptedAs(s1, m, k, r.state)
        && (k == |m.entries| || m.previous + k >= |s1.log| || m.previous + k >= s1.commit)
        && r.effects == e1 + ([ResetElectionTimer] + if k < |m.entries| then [PersistState] else [])
                        + [Send(from, AppendResponse(s1.term, true, m.previous + |m.entries|, m.context))]
  {
    hide AcceptAppend, FirstMissing;
    ObserveFacts(s, m.term);
    s1, e1 := Observe(s, m.term).state, Observe(s, m.term).effects;
    var s2 := s1.(role := Follower, leader := None, votes := {}, knownLeader := Some(from));
    var refuse := Send(from, AppendResponse(s1.term, false, 0, m.context));
    k := 0;
    if m.term < s1.term {
      kind := Stale;
    } else if !PreviousMatches(s2, m) {
      kind := Mismatch;
      assert e1 + [ResetElectionTimer, refuse] == e1 + [ResetElectionTimer] + [refuse];
    } else {
      k := FirstMissing(s2, m.previous, m.entries, 0);
      AcceptShape(s2, from, m, k);
      if k < |m.entries| && m.previous + 1 + k <= LastIndex(s2) && m.previous + 1 + k <= s2.commit {
        kind := Mismatch;
        assert e1 + [ResetElectionTimer, refuse] == e1 + [ResetElectionTimer] + [refuse];
      } else {
        kind := Accepted;
        var persist := if k < |m.entries| then [PersistState] else [];
        var answer := Send(from, AppendResponse(s1.term, true, m.previous + |m.entries|, m.context));
        assert e1 + [ResetElectionTimer] + (persist + [answer]) == e1 + ([ResetElectionTimer] + persist) + [answer];
      }
    }
  }

  /** A term write, then a timer reset and perhaps a log write, then answers. */
  lemma FollowQueue(l: Ledger, s: State, s1: State, s': State, d: Durable,
                    e1: seq<Effect>, changed: bool, tail: seq<Effect>)
    requires ObservedAs(s, s1, e1) && d.hard == Hard(s) && Hard(s') == Hard(s1)
    requires forall i :: 0 <= i < |tail| ==> !IsPersist(tail[i])
    requires SendsOk(l, s', tail) && (!changed ==> s'.log == d.log)
    ensures QueueOk(l, s', d, e1 + ([ResetElectionTimer] + if changed then [PersistState] else []) + tail)
  {
    hide Ordered, SendsOk;
    var mid := [ResetElectionTimer] + if changed then [PersistState] else [];
    var all := e1 + mid + tail;
    OrderedShape(e1, mid, tail);
    SendsShape(l, s', e1 + mid, tail);
    if changed {
      assert all[|e1| + 1] == PersistState;
    }
    if e1 == [] {
      assert NoHardWrite(all);
    } else {
      assert all[0] == e1[0] && all[1..] == mid + tail;
    }
  }

  lemma MismatchOk(l: Ledger, n: NodeId, peers: seq<NodeId>, s: State, d: Durable,
                   s1: State, e1: seq<Effect>, from: NodeId, context: Option<ReadContext>)
    requires Calm(l, n, peers, s, d) && ObservedAs(s, s1, e1)
    ensures var s' := s1.(role := Follower, leader := None, votes := {}, knownLeader := Some(from));
            HandledOk(l, n, peers, s, d, s',
              e1 + [ResetElectionTimer] + [Send(from, AppendResponse(s1.term, false, 0, context))])
  {
    hide Calm, Inv, Linked, QueueOk, HandledOk;
    CalmShape(l, n, peers, s, d);
    var s' := s1.(role := Follower, leader := None, votes := {}, knownLeader := Some(from));
    ObservedShape(s, s1, e1);
    assert Kept(s, s');
    FollowerLinked(l, n, peers, s, d, s');
    MismatchQueue(l, s, s1, s', d, e1, from, context);
    hide ObservedAs, Kept;
    HandledByFollower(l, n, peers, s, d, s',
      e1 + [ResetElectionTimer] + [Send(from, AppendResponse(s1.term, false, 0, context))]);
  }

  lemma MismatchQueue(l: Ledger, s: State, s1: State, s': State, d: Durable, e1: seq<Effect>,
                      from: NodeId, context: Option<ReadContext>)
    requires ObservedAs(s, s1, e1) && d.hard == Hard(s) && Hard(s') == Hard(s1) && s'.log == d.log
    ensures QueueOk(l, s', d, e1 + [ResetElectionTimer] + [Send(from, AppendResponse(s1.term, false, 0, context))])
  {
    hide QueueOk, ObservedAs;
    var tail := [Send(from, AppendResponse(s1.term, false, 0, context))];
    FollowQueue(l, s, s1, s', d, e1, false, tail);
    assert [ResetElectionTimer] + [] == [ResetElectionTimer];
  }

  /** The bounded commit rule only reaches what a majority has chosen. */
  lemma BoundedCommitDecided(l: Ledger, log: Log, m: Message, c: LogIndex)
    requires Inv(l) && m.AppendRequest? && AppendOk(l, m)
    requires c <= m.leaderCommit && c <= m.previous + |m.entries|
    requires l.termLog[m.term][..m.previous + |m.entries|] <= log
    ensures DecidedTo(l, log, c) && Claimed(l, c)
  {
    hide DurableInv, VotesInv, CandidatesInv, LeadersInv, AcksInv, HolderInv, VoterInv, CompletenessInv;
    assert Covered(l, m.term, l.commitOf[m.term]);
    CoveredDown(l, m.term, l.commitOf[m.term], m.term, c);
    CoveredIsHeld(l, m.term, c);
    hide Chosen, Covered;
    var whole := l.termLog[m.term];
    var n := m.previous + |m.entries|;
    assert whole[..n][..c] == whole[..c] == log[..c];
  }

  lemma DecidedSamePrefix(l: Ledger, a: Log, b: Log, c: LogIndex)
    requires DecidedTo(l, a, c) && c <= |b| && a[..c] == b[..c]
    ensures DecidedTo(l, b, c)
  {
  }

  lemma AcceptedCommit(l: Ledger, s: State, m: Message, k: nat, s': State)
    requires Inv(l) && CommitOk(l, s) && m.AppendRequest? && AppendOk(l, m)
    requires s.commit <= |s.log| && ScannedTo(s.log, m, k) && AcceptedAs(s, m, k, s')
    requires k == |m.entries| || m.previous + k >= |s.log| || m.previous + k >= s.commit
    requires l.termLog[m.term][..m.previous + |m.entries|] <= s'.log
    ensures CommitOk(l, s') && Kept(s, s')
  {
    hide Inv, DecidedTo, Claimed, Covered, Doomed, AppendOk;
    AcceptKeepsPrefix(s.log, m, k, s.commit);
    var bounded := Min(m.leaderCommit, m.previous + |m.entries|);
    if bounded > s.commit {
      BoundedCommitDecided(l, s'.log, m, bounded);
    } else if s.applied < s.commit {
      DecidedSamePrefix(l, s.log, s'.log, s.commit);
    }
  }

  lemma LeaderLogIsWell(l: Ledger, t: Term)
    requires Inv(l) && t in l.termLog
    ensures WellLog(l, l.termLog[t])
  {
    hide DurableInv, VotesInv, CandidatesInv, AcksInv, HolderInv, VoterInv, CompletenessInv, CommitInv;
    assert ElectedInv(l, t);
  }

  lemma ObservedLinks(l: Ledger, n: NodeId, peers: seq<NodeId>, s: State, d: Durable, s1: State, e1: seq<Effect>)
    requires Calm(l, n, peers, s, d) && ObservedAs(s, s1, e1)
    ensures CommitOk(l, s1) && WellLog(l, s1.log) && Kept(s, s1)
  {
    hide Inv, Valid, WellLog, CommitOk, LeaderOk, CandidateOk, LogRelated, DiskOk, HasAcked, MembersAre;
    CalmShape(l, n, peers, s, d);
    CommitSame(l, s, s1);
  }

  lemma MergeStaysWell(l: Ledger, log: Log, t: Term, k: nat)
    requires Inv(l) && WellLog(l, log) && t in l.termLog && k <= |l.termLog[t]|
    ensures WellLog(l, Merge(log, l.termLog[t][..k]))
  {
    hide DurableInv, VotesInv, CandidatesInv, AcksInv, HolderInv, VoterInv, CompletenessInv, CommitInv;
    hide LeadersInv, WellLog, Merge;
    MergeWellLog(l, log, t, k);
  }

  lemma AcceptedLinked(l: Ledger, n: NodeId, peers: seq<NodeId>, s: State, d: Durable,
                       m: Message, k: nat, s': State)
    requires Inv(l) && CommitOk(l, s) && WellLog(l, s.log) && m.AppendRequest? && AppendOk(l, m)
    requires s.node == n && s.peers == peers && s.snapshot.None? && s.term == m.term && d.log == s.log
    requires s.commit <= |s.log| && ScannedTo(s.log, m, k) && AcceptedAs(s, m, k, s')
    requires k == |m.entries| || m.previous + k >= |s.log| || m.previous + k >= s.commit
    ensures Linked(l, n, peers, s', d) && Kept(s, s')
    ensures l.termLog[m.term][..m.previous + |m.entries|] <= s'.log
  {
    hide Inv, WellLog, CommitOk, ScannedTo, AcceptedLog, Merge, Kept;
    var j := m.previous + |m.entries|;
    LeaderLogIsWell(l, m.term);
    AcceptMerges(l, s.log, m, k);
    AcceptedCommit(l, s, m, k, s');
    MergeStaysWell(l, s.log, m.term, j);
    assert MergedTo(l, s', d, j);
  }

  lemma AcceptedQueue(l: Ledger, s: State, s1: State, s': State, d: Durable, e1: seq<Effect>,
                      from: NodeId, m: Message, k: nat)
    requires m.AppendRequest? && AppendOk(l, m) && ScannedTo(s1.log, m, k) && AcceptedAs(s1, m, k, s')
    requires ObservedAs(s, s1, e1) && d.hard == Hard(s) && d.log == s.log && s1.term == m.term
    requires l.termLog[m.term][..m.previous + |m.entries|] <= s'.log
    ensures QueueOk(l, s', d, e1 + ([ResetElectionTimer] + if k < |m.entries| then [PersistState] else [])
              + [Send(from, AppendResponse(s1.term, true, m.previous + |m.entries|, m.context))])
  {
    hide QueueOk, ScannedTo;
    var tail := [Send(from, AppendResponse(s1.term, true, m.previous + |m.entries|, m.context))];
    assert SendOk(l, s', tail[0]);
    FollowQueue(l, s, s1, s', d, e1, k < |m.entries|, tail);
  }

  lemma KeptTwice(s: State, s1: State, s': State)
    requires Kept(s, s1) && Kept(s1, s')
    ensures Kept(s, s')
  {
    assert s'.log[..s.commit] == s'.log[..s1.commit][..s.commit];
    assert s1.log[..s.commit] == s1.log[..s1.commit][..s.commit];
  }

  lemma AcceptedOk(l: Ledger, n: NodeId, peers: seq<NodeId>, s: State, d: Durable,
                   s1: State, e1: seq<Effect>, from: NodeId, m: Message, k: nat, s': State)
    requires Calm(l, n, peers, s, d) && ObservedAs(s, s1, e1) && s1.term == m.term
    requires m.AppendRequest? && AppendOk(l, m) && ScannedTo(s1.log, m, k) && AcceptedAs(s1, m, k, s')
    requires k == |m.entries| || m.previous + k >= |s1.log| || m.previous + k >= s1.commit
    ensures HandledOk(l, n, peers, s, d, s',
              e1 + ([ResetElectionTimer] + if k < |m.entries| then [PersistState] else [])
              + [Send(from, AppendResponse(s1.term, true, m.previous + |m.entries|, m.context))])
  {
    hide Calm, Inv, Linked, QueueOk, CommitOk, WellLog, ScannedTo, AppendOk, HandledOk, Kept, AcceptedLog;
    CalmShape(l, n, peers, s, d);
    ObservedLinks(l, n, peers, s, d, s1, e1);
    ObservedShape(s, s1, e1);
    KeptWithin(s, s1);
    hide ObservedAs;
    AcceptedLinked(l, n, peers, s1, d, m, k, s');
    AcceptedQueue(l, s, s1, s', d, e1, from, m, k);
    KeptTwice(s, s1, s');
    HandledByFollower(l, n, peers, s, d, s',
      e1 + ([ResetElectionTimer] + if k < |m.entries| then [PersistState] else [])
      + [Send(from, AppendResponse(s1.term, true, m.previous + |m.entries|, m.context))]);
  }

  lemma ObservedShape(s: State, s1: State, e1: seq<Effect>)
    requires ObservedAs(s, s1, e1)
    ensures s1.node == s.node && s1.peers == s.peers && s1.snapshot == s.snapshot && s1.log == s.log
    ensures s1.commit == s.commit && s1.pending == s.pending
  {
  }

  lemma KeptWithin(s: State, s1: State)
    requires Kept(s, s1) && s1.commit == s.commit
    ensures s1.commit <= |s1.log|
  {
  }

  lemma StaleOk(l: Ledger, n: NodeId, peers: seq<NodeId>, s: State, d: Durable,
                s1: State, e1: seq<Effect>, from: NodeId, context: Option<ReadContext>)
    requires Calm(l, n, peers, s, d) && ObservedAs(s, s1, e1)
    ensures HandledOk(l, n, peers, s, d, s1,
                      e1 + [Send(from, AppendResponse(s1.term, false, 0, context))])
  {
    hide Calm, HandledOk, ObservedAs;
    AnswerOnly(l, n, peers, s, d, s1, e1, [Send(from, AppendResponse(s1.term, false, 0, context))]);
  }

  lemma AppendRequestOk(l: Ledger, n: NodeId, peers: seq<NodeId>, s: State, d: Durable,
                        from: NodeId, m: Message)
    requires Calm(l, n, peers, s, d) && m.AppendRequest? && PacketOk(l, Packet(from, n, m))
    requires HandleAppendRequest(s, from, m).Done?
    ensures var r := HandleAppendRequest(s, from, m); HandledOk(l, n, peers, s, d, r.state, r.effects)
  {
    CalmShape(l, n, peers, s, d);
    hide Calm, HandleAppendRequest, HandledOk, Inv, AppendOk, ScannedTo, ObservedAs, AcceptedAs;
    var s1, e1, kind, k := AppendShape(s, from, m);
    match kind {
      case Stale =>
        StaleOk(l, n, peers, s, d, s1, e1, from, m.context);
      case Mismatch => MismatchOk(l, n, peers, s, d, s1, e1, from, m.context);
      case Accepted => AcceptedOk(l, n, peers, s, d, s1, e1, from, m, k, HandleAppendRequest(s, from, m).state);
    }
  }

  // ---- Counting acknowledgements -------------------------------------------

  /** The progress a leader has recorded is progress its peers have acknowledged. */
  predicate ProgressAcked(l: Ledger, s: State)
    requires s.leader.Some?
  {
    forall p :: p in s.leader.value.progress ==>
      p in s.peers &&
      (s.leader.value.progress[p].match_ == 0 || HasAcked(l, p, s.term, s.leader.value.progress[p].match_))
  }

  /** Counting a majority at an index of the current term means the index is chosen. */
  lemma CommittableIsChosen(l: Ledger, n: NodeId, peers: seq<NodeId>, s: State, c: LogIndex)
    requires MembersAre(l.members, n, peers) && s.node == n && s.peers == peers && s.snapshot.None?
    requires s.leader.Some? && ProgressAcked(l, s) && 1 <= c <= |s.log| && Committable(s, c)
    requires HasAcked(l, n, s.term, c)
    requires s.term in l.termLog && s.log <= l.termLog[s.term]
    ensures Chosen(l, s.term, c)
  {
    var q := Holders(s, c);
    var all := q + {n};
    assert n !in q;
    forall v | v in all ensures HasAcked(l, v, s.term, c) && v in l.members {
    }
    assert all <= l.members;
    assert Replicated(s, c) == 1 + |q| && |all| == 1 + |q|;
    assert QuorumAcked(l, all, s.term, c);
  }

  lemma OnlySelfBeyond(s: State, k: nat, c: LogIndex)
    requires s.leader.Some?
    requires forall p :: p in s.leader.value.progress ==> s.leader.value.progress[p].match_ <= k
    ensures c > k ==> Replicated(s, c) == 1
  {
    if c > k {
      assert Holders(s, c) == {};
    }
  }

  lemma ChosenCovers(l: Ledger, t: Term, c: LogIndex)
    requires Chosen(l, t, c)
    ensures Covered(l, t, c)
  {
  }

  /** The commit search raises the index only to a chosen entry of the leader's own term. */
  lemma RaisedIsCovered(l: Ledger, n: NodeId, peers: seq<NodeId>, s: State, k: nat)
    requires MembersAre(l.members, n, peers) && s.node == n && s.peers == peers && s.snapshot.None?
    requires s.leader.Some? && ProgressAcked(l, s) && CommitInv(l) && HasAcked(l, n, s.term, k)
    requires s.term in l.termLog && s.log <= l.termLog[s.term]
    requires s.term in l.commitOf && l.commitOf[s.term] == s.commit
    requires forall p :: p in s.leader.value.progress ==> s.leader.value.progress[p].match_ <= k
    ensures s.commit <= AdvanceCommit(s).commit && Covered(l, s.term, AdvanceCommit(s).commit)
  {
    hide Covered, Chosen;
    var c := AdvanceCommit(s).commit;
    if c != s.commit {
      OnlySelfBeyond(s, k, c);
      hide CommitFrom;
      CommittableIsChosen(l, n, peers, s, c);
      ChosenCovers(l, s.term, c);
    }
  }

  lemma RaisedCommitOk(l: Ledger, s: State)
    requires Inv(l) && s.role.Leader? && KnownLeader(l, s) && l.commitOf[s.term] == s.commit
    ensures CommitOk(l, s)
  {
    hide DurableInv, VotesInv, CandidatesInv, LeadersInv, AcksInv, HolderInv, VoterInv, CompletenessInv, Chosen;
    CoveredIsHeld(l, s.term, s.commit);
    hide Covered, DecidedTo;
  }

  lemma LeaderLinked(l: Ledger, n: NodeId, peers: seq<NodeId>, s: State, d: Durable, s': State)
    requires Inv(l) && WellLog(l, s'.log) && s'.role.Leader? && s'.leader.Some? && s'.pending.None?
    requires s'.node == n && s'.peers == peers && s'.snapshot.None?
    requires d.hard == Hard(s') && d.log <= s'.log
    requires KnownLeader(l, s') && l.commitOf[s'.term] == s'.commit && ProgressAcked(l, s')
    ensures Linked(l, n, peers, s', d)
  {
    hide Inv, WellLog, CommitOk, HasAcked, LogRelated, LeaderOk, KnownLeader, ProgressAcked;
    RaisedCommitOk(l, s');
    LeaderLogRelated(l, s', d);
    LeaderFacts(l, s', d);
  }

  lemma LeaderFacts(l: Ledger, s: State, d: Durable)
    requires KnownLeader(l, s) && s.leader.Some? && d.hard == Hard(s) && d.log <= s.log
    requires l.commitOf[s.term] == s.commit && ProgressAcked(l, s)
    ensures LeaderOk(l, s, d)
  {
    hide HasAcked;
  }

  lemma LeaderLogRelated(l: Ledger, s: State, d: Durable)
    requires KnownLeader(l, s) && d.log <= s.log
    ensures LogRelated(l, s, d)
  {
    if s.log != d.log {
      assert l.termLog[s.term][..|s.log|] == s.log;
      assert MergedTo(l, s, d, |s.log|);
    }
  }

  lemma CountedProgress(l: Ledger, s: State, from: NodeId, p: Progress)
    requires s.leader.Some? && ProgressAcked(l, s) && from in s.peers
    requires p.match_ == 0 || HasAcked(l, from, s.term, p.match_)
    ensures ProgressAcked(l, SetProgress(s, from, p))
  {
  }

  lemma RecordRaised(l: Ledger, n: NodeId, s': State)
    requires s'.role.Leader? && s'.term in l.termLog && l.termLog[s'.term] == s'.log
    requires s'.term in l.leaderOf && l.leaderOf[s'.term] == n
    ensures RecordLeader(l, n, s') == RaiseCommit(l, s'.term, s'.commit)
  {
    assert l.termLog[s'.term := s'.log] == l.termLog;
    assert l.leaderOf[s'.term := n] == l.leaderOf;
  }

  /** The leader facts of a calm leader. */
  lemma CalmLeads(l: Ledger, n: NodeId, peers: seq<NodeId>, s: State, d: Durable)
    requires Calm(l, n, peers, s, d) && s.role.Leader?
    ensures s.leader.Some? && ProgressAcked(l, s) && KnownLeader(l, s) && l.commitOf[s.term] == s.commit
    ensures HasAcked(l, n, s.term, |s.log|) && MembersAre(l.members, n, peers) && WellLog(l, s.log)
    ensures forall p :: p in s.leader.value.progress ==> ProgressValid(s, s.leader.value.progress[p])
    ensures forall p :: p in peers ==> p in s.leader.value.progress
  {
    hide Inv, WellLog, CommitOk, CandidateOk, LogRelated, DiskOk, HasAcked, NoDuplicates;
    hide SnapshotValid, LogValid, IndexesValid, RequestsValid, RolesValid, PeersValid;
  }

  lemma EmptyQueue(l: Ledger, s: State, d: Durable)
    requires d.hard == Hard(s) && d.log == s.log
    ensures QueueOk(l, s, d, [])
  {
  }

  lemma ProgressSet(s: State, from: NodeId, p: Progress, k: nat)
    requires s.leader.Some? && p.match_ <= k
    requires forall q :: q in s.leader.value.progress ==> s.leader.value.progress[q].match_ <= k
    ensures var s' := SetProgress(s, from, p);
      && s'.leader.Some? && s' == s.(leader := s'.leader)
      && from in s'.leader.value.progress && s'.leader.value.progress[from] == p
      && forall q :: q in s'.leader.value.progress ==> s'.leader.value.progress[q].match_ <= k
  {
  }

  lemma AckCountedOk(l: Ledger, n: NodeId, peers: seq<NodeId>, s: State, d: Durable,
                     from: NodeId, p: Progress)
    requires Calm(l, n, peers, s, d) && s.role.Leader? && s.leader.Some? && from in peers
    requires p.match_ <= |s.log| && (p.match_ == 0 || HasAcked(l, from, s.term, p.match_))
    requires Base(SetProgress(s, from, p)) <= SetProgress(s, from, p).commit
    ensures HandledOk(l, n, peers, s, d, AdvanceCommit(SetProgress(s, from, p)), [])
  {
    var s1 := SetProgress(s, from, p);
    CalmShape(l, n, peers, s, d);
    CalmLeads(l, n, peers, s, d);
    CountedProgress(l, s, from, p);
    InvHasCommit(l);
    ProgressSet(s, from, p, |s.log|);
    hide SetProgress, Calm, Inv, WellLog, HasAcked, HandledOk, Covered, MembersAre, ProgressAcked, CommitFrom;
    RaisedIsCovered(l, n, peers, s1, |s.log|);
    AckCountedRecorded(l, n, peers, s, d, s1, AdvanceCommit(s1));
  }

  lemma AckCountedRecorded(l: Ledger, n: NodeId, peers: seq<NodeId>, s: State, d: Durable, s1: State, s': State)
    requires Inv(l) && s.role.Leader? && WellLog(l, s.log) && KnownLeader(l, s)
    requires s.leader.Some? && s1 == s.(leader := s1.leader) && s1.leader.Some? && ProgressAcked(l, s1)
    requires s' == s1.(commit := s'.commit) && s.commit <= s'.commit && Covered(l, s.term, s'.commit)
    requires s.node == n && s.peers == peers && s.pending.None? && s.commit <= |s.log|
    requires d.hard == Hard(s) && d.log == s.log && l.commitOf[s.term] == s.commit
    ensures HandledOk(l, n, peers, s, d, s', [])
  {
    hide Inv, WellLog, QueueOk, Grows, Covered;
    var l' := RaiseCommit(l, s.term, s'.commit);
    RaiseCommitKeepsInv(l, s.term, s'.commit);
    RecordRaised(l, n, s');
    assert WellLog(l', s'.log) by { WellLogRaised(l, s.term, s'.commit, s.log); }
    LeaderLinked(l', n, peers, s, d, s');
    EmptyQueue(l', s', d);
  }

  lemma WellLogRaised(l: Ledger, t: Term, c: LogIndex, log: Log)
    requires WellLog(l, log)
    ensures WellLog(RaiseCommit(l, t, c), log)
  {
    forall i | 0 <= i < |log| ensures EntryPlaced(RaiseCommit(l, t, c), log, i) {
      assert EntryPlaced(l, log, i);
    }
  }

  lemma RetryOk(l: Ledger, n: NodeId, peers: seq<NodeId>, s: State, d: Durable,
                from: NodeId, p: Progress, s': State, context: Option<ReadContext>)
    requires Calm(l, n, peers, s, d) && s.role.Leader? && s.leader.Some? && from in peers
    requires from in s.leader.value.progress && p.match_ == s.leader.value.progress[from].match_
    requires ProgressValid(s, p) && s' == SetProgress(s, from, p) && ProgressValid(s', p)
    ensures HandledOk(l, n, peers, s, d, s', [Send(from, AppendFor(s', from, context))])
  {
    CalmShape(l, n, peers, s, d);
    CalmLeads(l, n, peers, s, d);
    CountedProgress(l, s, from, p);
    ProgressSet(s, from, p, |s.log|);
    hide Calm, Inv, WellLog, HasAcked, HandledOk, MembersAre, ProgressAcked, KnownLeader, SetProgress;
    assert KnownLeader(l, s') by { StillKnown(l, s, s'); }
    RetryRecorded(l, n, peers, s, d, from, s', context);
  }

  lemma StillKnown(l: Ledger, s: State, s': State)
    requires KnownLeader(l, s) && s' == s.(leader := s'.leader)
    ensures KnownLeader(l, s')
  {
  }

  lemma RetryRecorded(l: Ledger, n: NodeId, peers: seq<NodeId>, s: State, d: Durable,
                      from: NodeId, s': State, context: Option<ReadContext>)
    requires Inv(l) && s.role.Leader? && WellLog(l, s.log) && KnownLeader(l, s')
    requires s.leader.Some? && s' == s.(leader := s'.leader) && s'.leader.Some? && ProgressAcked(l, s')
    requires s.node == n && s.peers == peers && s.pending.None? && s.commit <= |s.log|
    requires d.hard == Hard(s) && d.log == s.log && l.commitOf[s.term] == s.commit
    requires from in s'.leader.value.progress && ProgressValid(s', s'.leader.value.progress[from])
    ensures HandledOk(l, n, peers, s, d, s', [Send(from, AppendFor(s', from, context))])
  {
    hide Inv, WellLog, HasAcked, QueueOk, AppendOk, Linked, AppendFor, ProgressAcked, ProgressValid;
    hide Grows, RecordLeader, SendOk;
    AppendForOk(l, s', from, context);
    RetryQueue(l, s', d, from, context);
    LeaderLinked(l, n, peers, s, d, s');
    RecordSame(l, n, peers, s', d);
    GrowsReflexive(l);
  }

  lemma RetryQueue(l: Ledger, s: State, d: Durable, from: NodeId, context: Option<ReadContext>)
    requires d.hard == Hard(s) && d.log == s.log && s.leader.Some?
    requires from in s.leader.value.progress && ProgressValid(s, s.leader.value.progress[from])
    requires AppendOk(l, AppendFor(s, from, context)) && AppendFor(s, from, context).leader == s.node
    ensures QueueOk(l, s, d, [Send(from, AppendFor(s, from, context))])
  {
    hide AppendOk, ProgressValid;
  }

  datatype ReplyCase = NotCounted | CountedAck | RetryAppend

  lemma ReplyShape(s: State, from: NodeId, m: Message)
    returns (s1: State, e1: seq<Effect>, kind: ReplyCase, p: Progress)
    requires Valid(s) && m.AppendResponse? && HandleAppendResponse(s, from, m).Done? && s.snapshot.None?
    ensures ObservedAs(s, s1, e1) && from in s.peers
    ensures kind.NotCounted? || (s.role.Leader? && s.leader.Some? && from in s.leader.value.progress
        && m.term == s.term)
    ensures var r := HandleAppendResponse(s, from, m);
      match kind
      case NotCounted => r.state == s1 && r.effects == e1
      case CountedAck =>
        && m.succeeded && p.match_ <= |s.log| && p.next == p.match_ + 1
        && p.match_ == Max(s.leader.value.progress[from].match_, m.matched)
        && r.state == AdvanceCommit(SetProgress(s, from, p)) && r.effects == []
      case RetryAppend =>
        && ProgressValid(s, p) && p.match_ == s.leader.value.progress[from].match_
        && r.state == SetProgress(s, from, p) && ProgressValid(r.state, p)
        && r.effects == [Send(from, AppendFor(r.state, from, m.context))]
  {
    hide CommitFrom, AppendFor;
    ObserveFacts(s, m.term);
    s1, e1 := Observe(s, m.term).state, Observe(s, m.term).effects;
    p := Progress(0, 0);
    if !s1.role.Leader? || m.term != s1.term {
      kind := NotCounted;
    } else {
      var was := s.leader.value.progress[from];
      assert ProgressValid(s, was);
      if m.succeeded {
        kind := CountedAck;
        p := Progress(Max(was.match_, m.matched) + 1, Max(was.match_, m.matched));
      } else {
        kind := RetryAppend;
        p := Progress(Max(was.match_ + 1, Max(1, was.next - 1)), was.match_);
        var e := Send(from, AppendFor(SetProgress(s, from, p), from, m.context));
        assert [] + [e] == [e];
      }
    }
  }

  lemma AckJustified(l: Ledger, n: NodeId, s: State, from: NodeId, m: Message, k: nat)
    requires s.leader.Some? && ProgressAcked(l, s) && from in s.leader.value.progress
    requires m.AppendResponse? && m.succeeded && m.term == s.term && PacketOk(l, Packet(from, n, m))
    requires k == Max(s.leader.value.progress[from].match_, m.matched)
    ensures k == 0 || HasAcked(l, from, s.term, k)
  {
  }

  lemma AppendResponseOk(l: Ledger, n: NodeId, peers: seq<NodeId>, s: State, d: Durable,
                         from: NodeId, m: Message)
    requires Calm(l, n, peers, s, d) && Valid(s) && m.AppendResponse? && PacketOk(l, Packet(from, n, m))
    requires HandleAppendResponse(s, from, m).Done?
    ensures var r := HandleAppendResponse(s, from, m); HandledOk(l, n, peers, s, d, r.state, r.effects)
  {
    CalmShape(l, n, peers, s, d);
    var s1, e1, kind, p := ReplyShape(s, from, m);
    hide *;
    match kind {
      case NotCounted => IgnoredOk(l, n, peers, s, d, s1, e1);
      case CountedAck => AckOk(l, n, peers, s, d, from, m, p);
      case RetryAppend => RetryOk(l, n, peers, s, d, from, p, SetProgress(s, from, p), m.context);
    }
  }

  lemma AckOk(l: Ledger, n: NodeId, peers: seq<NodeId>, s: State, d: Durable,
              from: NodeId, m: Message, p: Progress)
    requires Calm(l, n, peers, s, d) && s.role.Leader? && s.leader.Some? && from in peers
    requires from in s.leader.value.progress
    requires m.AppendResponse? && m.succeeded && m.term == s.term && PacketOk(l, Packet(from, n, m))
    requires p.match_ <= |s.log|
    requires p.match_ == Max(s.leader.value.progress[from].match_, m.matched)
    requires Base(SetProgress(s, from, p)) <= SetProgress(s, from, p).commit
    ensures HandledOk(l, n, peers, s, d, AdvanceCommit(SetProgress(s, from, p)), [])
  {
    CalmLeads(l, n, peers, s, d);
    AckJustified(l, n, s, from, m, p.match_);
    hide *;
    AckCountedOk(l, n, peers, s, d, from, p);
  }

  // ---- Client commands -----------------------------------------------------

  predicate AppendedFrom(s: State, e: LogEntry, s1: State) {
    && s.leader.Some? && s1.leader.Some? && e.term == s.term && e.index == |s.log| + 1
    && s1 == s.(log := s.log + [e], leader := s1.leader)
    && s1.leader.value.progress == s.leader.value.progress
  }

  lemma ClientShape(s: State, command: Command) returns (e: LogEntry, s1: State)
    requires Valid(s) && s.role.Leader? && s.snapshot.None? && HandleClient(s, command).Done?
    ensures AppendedFrom(s, e, s1) && CanReplicate(s1)
    ensures HandleClient(s, command).state == AdvanceCommit(s1)
    ensures HandleClient(s, command).effects == [PersistState] + Replicate(s1, s1.peers)
  {
    var index := LastIndex(s) + 1;
    var l := s.leader.value;
    e := LogEntry(s.term, index, command);
    s1 := s.(log := s.log + [e], leader := Some(l.(clients := l.clients + {index})));
  }

  lemma RecordExtended(l: Ledger, n: NodeId, s: State, e: LogEntry, s': State)
    requires KnownLeader(l, s) && s.node == n && s'.role.Leader? && s'.log == s.log + [e] && s'.term == s.term
    ensures RecordLeader(l, n, s') == RaiseCommit(Extend(l, s.term, e), s.term, s'.commit)
  {
    assert l.leaderOf[s'.term := n] == l.leaderOf;
  }

  lemma ExtendedProgress(l: Ledger, s: State, e: LogEntry, s1: State)
    requires s.leader.Some? && ProgressAcked(l, s) && AppendedFrom(s, e, s1) && s.term in l.termLog
    ensures ProgressAcked(Extend(l, s.term, e), s1)
  {
  }

  lemma ClientQueue(l: Ledger, s: State, s': State, d: Durable)
    requires CanReplicate(s) && KnownLeader(l, s) && d.hard == Hard(s') && s'.node == s.node
    ensures QueueOk(l, s', d, [PersistState] + Replicate(s, s.peers))
  {
    hide CanReplicate, KnownLeader, SendsOk, Ordered, Replicate, FirstPersist, HardTail, VoteJustified;
    ReplicateOk(l, s, s');
    var tail := Replicate(s, s.peers);
    var all := [PersistState] + tail;
    assert [] + [PersistState] + tail == all;
    OrderedShape([], [PersistState], tail);
    SendsShape(l, s', [PersistState], tail);
    assert all[0] == PersistState;
    NothingPersisted(all);
  }

  lemma NothingPersisted(effects: seq<Effect>)
    requires forall i :: 0 <= i < |effects| ==> !effects[i].PersistHard?
    ensures FirstPersist(effects) == |effects|
  {
  }

  lemma AppendedCovered(l: Ledger, n: NodeId, peers: seq<NodeId>, s: State, d: Durable, e: LogEntry, s1: State)
    requires Calm(l, n, peers, s, d) && s.role.Leader? && AppendedFrom(s, e, s1)
    requires MayExtend(l, s.term, e)
    ensures var l1 := Extend(l, s.term, e);
      && Inv(l1) && Grows(l, l1) && ProgressAcked(l1, s1) && WellLog(l1, s1.log) && l1.termLog[s.term] == s1.log
      && s1.commit <= AdvanceCommit(s1).commit && Covered(l1, s.term, AdvanceCommit(s1).commit)
      && s.term in l1.commitOf && l1.commitOf[s.term] == s.commit
  {
    CalmShape(l, n, peers, s, d);
    CalmLeads(l, n, peers, s, d);
    hide Calm, WellLog, AdvanceCommit, Grows, Inv, Covered;
    var l1 := Extend(l, s.term, e);
    ExtendKeepsInv(l, s.term, e);
    ExtendedProgress(l, s, e, s1);
    LeaderLogIsWell(l1, s.term);
    InvHasCommit(l1);
    RaisedIsCovered(l1, n, peers, s1, |s.log|);
  }

  lemma InvHasCommit(l: Ledger)
    requires Inv(l)
    ensures CommitInv(l)
  {
    hide CommitInv;
  }

  lemma LeaderTermPositive(l: Ledger, t: Term)
    requires Inv(l) && t in l.termLog
    ensures 0 < t
  {
    hide DurableInv, VotesInv, AcksInv, HolderInv, VoterInv, CompletenessInv, CommitInv, WellLog;
    assert ElectedInv(l, t);
  }

  lemma AppendedRecorded(l: Ledger, n: NodeId, peers: seq<NodeId>, s: State, d: Durable,
                         e: LogEntry, s1: State, s': State)
    requires Inv(l) && KnownLeader(l, s) && s.node == n && s.peers == peers && s.pending.None?
    requires s.role.Leader? && s.commit <= |s.log| && d.hard == Hard(s) && d.log == s.log
    requires AppendedFrom(s, e, s1) && CanReplicate(s1) && MayExtend(l, s.term, e)
    requires var l1 := Extend(l, s.term, e);
      && Inv(l1) && Grows(l, l1) && ProgressAcked(l1, s1) && WellLog(l1, s1.log)
      && s.commit <= s'.commit && Covered(l1, s.term, s'.commit)
      && s.term in l1.commitOf && l1.commitOf[s.term] == s.commit
    requires s' == s1.(commit := s'.commit)
    ensures HandledOk(l, n, peers, s, d, s', [PersistState] + Replicate(s1, s1.peers))
  {
    hide Inv, WellLog, QueueOk, Grows, Covered, CanReplicate;
    var l1 := Extend(l, s.term, e);
    var l' := RaiseCommit(l1, s.term, s'.commit);
    RaiseCommitKeepsInv(l1, s.term, s'.commit);
    GrowsTransitive(l, l1, l');
    RecordExtended(l, n, s, e, s');
    WellLogRaised(l1, s.term, s'.commit, s1.log);
    LeaderLinked(l', n, peers, s, d, s');
    ClientQueue(l', s1, s', d);
  }

  lemma ClientOk(l: Ledger, n: NodeId, peers: seq<NodeId>, s: State, d: Durable, command: Command)
    requires Calm(l, n, peers, s, d) && Valid(s) && HandleClient(s, command).Done?
    ensures var r := HandleClient(s, command); HandledOk(l, n, peers, s, d, r.state, r.effects)
  {
    CalmShape(l, n, peers, s, d);
    if !s.role.Leader? {
      ObservedNothing(s);
      IgnoredOk(l, n, peers, s, d, s, []);
    } else {
      CalmLeads(l, n, peers, s, d);
      LeaderTermPositive(l, s.term);
      hide Calm, Valid, HandleClient, HandledOk, Inv, ObservedAs, MembersAre, WellLog, CanReplicate;
      var e, s1 := ClientShape(s, command);
      AppendedCovered(l, n, peers, s, d, e, s1);
      AppendedRecorded(l, n, peers, s, d, e, s1, AdvanceCommit(s1));
    }
  }
}
