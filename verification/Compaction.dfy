/** Log compaction (`Core::compact_to`) as a layer over the specification: a snapshot at or
    below the applied index cannot be noticed by any vote, election or append at or above it. */
module Compaction {
  import opened RaftTypes
  import opened Figure2
  import opened Figure2Proofs

  // ---- The operation -------------------------------------------------------

  /** The entry at the mark is in the log, or is the old snapshot's, with the mark's term. */
  predicate SuffixKept(s: State, mark: SnapshotMark) {
    if mark.index == Base(s) && s.snapshot.Some? then s.snapshot.value.term == mark.term
    else Base(s) < mark.index <= LastIndex(s) && s.log[mark.index - Base(s) - 1].term == mark.term
  }

  function CompactTo(s: State, mark: SnapshotMark): State {
    var log :=
      if !SuffixKept(s, mark) then []
      else s.log[mark.index - Base(s)..];
    s.(log := log, snapshot := Some(mark),
       commit := Max(s.commit, mark.index), applied := Max(s.applied, mark.index))
  }

  /** A snapshot of this node's own applied state. */
  predicate LocalMark(s: State, mark: SnapshotMark) {
    && Base(s) < mark.index <= s.applied && mark.index <= LastIndex(s)
    && mark.term == TermAt(s, mark.index) && 0 < mark.term
  }

  /** The same state with the prefix dropped. */
  function Compacted(s: State, mark: SnapshotMark): State
    requires Base(s) <= mark.index <= LastIndex(s)
  {
    s.(log := s.log[mark.index - Base(s)..], snapshot := Some(mark))
  }

  lemma LocalCompaction(s: State, mark: SnapshotMark)
    requires Valid(s) && LocalMark(s, mark)
    ensures CompactTo(s, mark) == Compacted(s, mark)
  {
  }

  /** Everything from the mark on reads the same. */
  lemma CompactedReads(s: State, mark: SnapshotMark)
    requires Base(s) < mark.index <= LastIndex(s) && mark.term == TermAt(s, mark.index)
    ensures LastIndex(Compacted(s, mark)) == LastIndex(s) && LastTerm(Compacted(s, mark)) == LastTerm(s)
    ensures forall i :: mark.index <= i <= LastIndex(s) ==> TermAt(Compacted(s, mark), i) == TermAt(s, i)
  {
    var c := Compacted(s, mark);
    forall i | mark.index <= i <= LastIndex(s) ensures TermAt(c, i) == TermAt(s, i) {
    }
  }

  lemma CompactedValid(s: State, mark: SnapshotMark)
    requires Valid(s) && LocalMark(s, mark)
    ensures Valid(Compacted(s, mark))
  {
    CompactedReads(s, mark);
  }

  // ---- Steps commute -------------------------------------------------------

  /** Compacting an outcome. Failures are unchanged. */
  function CompactedOutcome(o: Outcome, mark: SnapshotMark): Outcome
    requires o.Done? ==> Base(o.state) <= mark.index <= LastIndex(o.state)
  {
    if o.Failed? then o else Done(Compacted(o.state, mark), o.effects)
  }

  /** Doing `event` and compacting commute. */
  ghost predicate Commutes(s: State, mark: SnapshotMark, o: Outcome, o': Outcome) {
    && (o.Done? ==> Base(o.state) <= mark.index <= LastIndex(o.state))
    && o' == CompactedOutcome(o, mark)
  }

  /** What compaction reads of a state. */
  predicate SameLog(s: State, s': State) {
    s'.log == s.log && s'.snapshot == s.snapshot
  }

  lemma ObserveCommutes(s: State, mark: SnapshotMark, t: Term)
    requires Base(s) <= mark.index <= LastIndex(s)
    ensures Commutes(s, mark, Observe(s, t), Observe(Compacted(s, mark), t))
    ensures Observe(s, t).Done? ==> SameLog(s, Observe(s, t).state)
  {
  }

  lemma VoteRequestCommutes(s: State, mark: SnapshotMark, from: NodeId, m: Message)
    requires Base(s) < mark.index <= LastIndex(s) && mark.term == TermAt(s, mark.index) && m.VoteRequest?
    ensures Commutes(s, mark, HandleVoteRequest(s, from, m), HandleVoteRequest(Compacted(s, mark), from, m))
  {
    hide TermAt, AnswerVote, Observe, Compacted;
    CompactedMembers(s, mark);
    ObserveCommutes(s, mark, m.term);
    if Observe(s, m.term).Done? {
      var s1 := Observe(s, m.term).state;
      SameTermAt(s, s1, mark.index);
      AnswerCommutes(s1, mark, Observe(s, m.term).effects, from, m);
    }
  }

  lemma CompactedMembers(s: State, mark: SnapshotMark)
    requires Base(s) <= mark.index <= LastIndex(s)
    ensures var c := Compacted(s, mark);
      c.peers == s.peers && c.node == s.node && c.term == s.term && c.role == s.role && c.pending == s.pending
      && Base(c) <= mark.index <= LastIndex(c)
  {
  }

  lemma AnswerCommutes(s: State, mark: SnapshotMark, e1: seq<Effect>, from: NodeId, m: Message)
    requires Base(s) < mark.index <= LastIndex(s) && mark.term == TermAt(s, mark.index) && m.VoteRequest?
    ensures Commutes(s, mark, AnswerVote(s, e1, from, m), AnswerVote(Compacted(s, mark), e1, from, m))
  {
    hide TermAt;
    CompactedReads(s, mark);
  }

  lemma SameTermAt(s: State, s': State, i: LogIndex)
    requires SameLog(s, s') && Base(s) <= i <= LastIndex(s)
    ensures TermAt(s, i) == TermAt(s', i)
  {
  }

  lemma {:induction false} ScanCommutes(s: State, mark: SnapshotMark, previous: LogIndex, entries: seq<LogEntry>,
                                        j: nat)
    requires Base(s) < mark.index <= LastIndex(s) && mark.term == TermAt(s, mark.index)
    requires mark.index <= previous <= LastIndex(s) && j <= |entries|
    ensures FirstMissing(Compacted(s, mark), previous, entries, j) == FirstMissing(s, previous, entries, j)
    decreases |entries| - j
  {
    CompactedReads(s, mark);
    if j < |entries| {
      hide TermAt, Compacted;
      ScanCommutes(s, mark, previous, entries, j + 1);
    }
  }

  lemma SpliceCommutes(log: seq<LogEntry>, cut: nat, drop: nat, tail: seq<LogEntry>)
    requires drop <= cut <= |log|
    ensures (log[..cut] + tail)[drop..] == log[drop..][..cut - drop] + tail
  {
  }

  lemma AcceptCommutes(s: State, mark: SnapshotMark, from: NodeId, m: Message, k: nat)
    requires Base(s) < mark.index <= LastIndex(s) && mark.term == TermAt(s, mark.index)
    requires m.AppendRequest? && mark.index <= m.previous && PreviousMatches(s, m)
    requires PreviousMatches(Compacted(s, mark), m)
    requires k <= |m.entries| && m.previous + k <= LastIndex(s)
    ensures var r := AcceptAppend(s, from, m, k);
      && mark.index <= LastIndex(r.0) && Base(r.0) == Base(s)
      && AcceptAppend(Compacted(s, mark), from, m, k) == (Compacted(r.0, mark), r.1)
  {
    hide TermAt, PreviousMatches;
    if k < |m.entries| {
      SpliceCommutes(s.log, m.previous + k - Base(s), mark.index - Base(s), m.entries[k..]);
    }
  }

  /** The handler after a term has been observed and the node has stepped down. */
  lemma AppendCommutesAt(s: State, mark: SnapshotMark, m: Message)
    requires Base(s) < mark.index <= LastIndex(s) && mark.term == TermAt(s, mark.index)
    requires m.AppendRequest? && mark.index <= m.previous
    ensures var c := Compacted(s, mark);
      && PreviousMatches(c, m) == PreviousMatches(s, m)
      && LastIndex(c) == LastIndex(s) && c.commit == s.commit
      && (PreviousMatches(s, m) ==> Conflict(c, m) == Conflict(s, m))
  {
    hide TermAt, FirstMissing;
    CompactedReads(s, mark);
    if PreviousMatches(s, m) {
      ScanCommutes(s, mark, m.previous, m.entries, 0);
    }
  }

  lemma AppendRequestCommutes(s: State, mark: SnapshotMark, from: NodeId, m: Message)
    requires Base(s) < mark.index <= LastIndex(s) && mark.term == TermAt(s, mark.index)
    requires m.AppendRequest? && mark.index <= m.previous
    ensures Commutes(s, mark, HandleAppendRequest(s, from, m), HandleAppendRequest(Compacted(s, mark), from, m))
  {
    hide TermAt, MatchAppend, Observe;
    ObserveCommutes(s, mark, m.term);
    var o := Observe(s, m.term);
    if o.Done? {
      var s2 := o.state.(role := Follower, leader := None, votes := {}, knownLeader := Some(from));
      SameTermAt(s, s2, mark.index);
      MatchCommutes(s2, mark, o.effects + [ResetElectionTimer], from, m);
    }
  }

  lemma MatchCommutes(s: State, mark: SnapshotMark, e1: seq<Effect>, from: NodeId, m: Message)
    requires Base(s) < mark.index <= LastIndex(s) && mark.term == TermAt(s, mark.index)
    requires m.AppendRequest? && mark.index <= m.previous
    ensures Commutes(s, mark, MatchAppend(s, e1, from, m), MatchAppend(Compacted(s, mark), e1, from, m))
  {
    hide TermAt, FirstMissing, AcceptAppend, Contiguous, PreviousMatches;
    AppendCommutesAt(s, mark, m);
    if PreviousMatches(s, m) {
      AcceptCommutes(s, mark, from, m, Conflict(s, m)) by { MatchedWithin(s, m); }
    }
  }

  lemma MatchedWithin(s: State, m: Message)
    requires m.AppendRequest? && PreviousMatches(s, m)
    ensures m.previous + Conflict(s, m) <= LastIndex(s)
  {
    hide FirstMissing;
  }

  lemma SolicitCommutes(s: State, mark: SnapshotMark, peers: seq<NodeId>)
    requires Base(s) < mark.index <= LastIndex(s) && mark.term == TermAt(s, mark.index)
    ensures Solicit(Compacted(s, mark), peers) == Solicit(s, peers)
  {
    hide TermAt;
    CompactedReads(s, mark);
    var a, b := Solicit(s, peers), Solicit(Compacted(s, mark), peers);
    forall i | 0 <= i < |a| ensures a[i] == b[i] {
    }
  }

  /** The candidate's state, and what it asks its environment to do. */
  function StoodFor(s: State): State {
    s.(term := s.term + 1, vote := Some(s.node), role := Candidate, knownLeader := None, leader := None,
       votes := {s.node}, nextRequest := s.nextRequest + 1)
  }

  lemma ElectionIs(s: State)
    requires |s.peers| >= 1
    ensures StartElection(s)
         == if s.term >= U64_MAX || s.nextRequest == 0 || s.nextRequest == U64_MAX then Failed(Exhausted)
            else Done(StoodFor(s), [PersistHard(s.nextRequest, HardState(s.term + 1, Some(s.node)))]
                                   + [ResetElectionTimer] + Solicit(StoodFor(s), s.peers))
  {
    hide Solicit, InitializeLeader;
  }

  lemma ElectionCommutes(s: State, mark: SnapshotMark)
    requires Base(s) < mark.index <= LastIndex(s) && mark.term == TermAt(s, mark.index)
    requires |s.peers| >= 1
    ensures Commutes(s, mark, StartElection(s), StartElection(Compacted(s, mark)))
  {
    hide TermAt, Solicit, StartElection;
    ElectionIs(s);
    ElectionIs(Compacted(s, mark));
    SameTermAt(s, StoodFor(s), mark.index);
    SolicitCommutes(StoodFor(s), mark, s.peers);
    assert StoodFor(Compacted(s, mark)) == Compacted(StoodFor(s), mark);
  }

  // ---- Whole steps ---------------------------------------------------------

  /** The events for which compaction is invisible. */
  predicate AboveMark(s: State, mark: SnapshotMark, event: Event) {
    match event
    case ElectionTimeout => !s.role.Leader? && |s.peers| >= 1
    case ObserveTerm(_) => true
    case Receive(_, m) => m.VoteRequest? || (m.AppendRequest? && mark.index <= m.previous)
    case _ => false
  }

  lemma HandleCommutes(s: State, mark: SnapshotMark, event: Event)
    requires Base(s) < mark.index <= LastIndex(s) && mark.term == TermAt(s, mark.index)
    requires Valid(s) && Valid(Compacted(s, mark)) && s.pending.None? && AboveMark(s, mark, event)
    ensures Commutes(s, mark, Handle(s, event), Handle(Compacted(s, mark), event))
  {
    hide Valid, StartElection, HandleVoteRequest, HandleAppendRequest, Observe, TermAt;
    match event {
      case ElectionTimeout => if !s.role.Learner? { ElectionCommutes(s, mark); }
      case ObserveTerm(t) => ObserveCommutes(s, mark, t);
      case Receive(from, m) =>
        if m.VoteRequest? { VoteRequestCommutes(s, mark, from, m); }
        else { AppendRequestCommutes(s, mark, from, m); }
    }
  }

  lemma GateCommutes(s: State, mark: SnapshotMark, effects: seq<Effect>)
    requires Base(s) <= mark.index <= LastIndex(s)
    ensures Commutes(s, mark, Gate(s, effects), Gate(Compacted(s, mark), effects))
  {
    hide FirstPersist;
  }

  /** The malformed inputs are the same before and after compaction. */
  lemma BeyondTermCommutes(s: State, mark: SnapshotMark, event: Event)
    requires Base(s) < mark.index <= LastIndex(s) && mark.term == TermAt(s, mark.index)
    requires AboveMark(s, mark, event)
    ensures AppendsBeyondTerm(s, event) == AppendsBeyondTerm(Compacted(s, mark), event)
  {
    hide TermAt, FirstMissing, Contiguous, EntriesWithinTerm;
    if event.Receive? && event.msg.AppendRequest? {
      AppendCommutesAt(s, mark, event.msg);
    }
  }

  /** Compaction is invisible: handling an event and then compacting gives the same effects and
      the same state as compacting first, and fails in the same cases. */
  lemma CompactionIsInvisible(s: State, mark: SnapshotMark, event: Event)
    requires Valid(s) && s.pending.None? && LocalMark(s, mark) && AboveMark(s, mark, event)
    ensures Commutes(s, mark, Step(s, event), Step(CompactTo(s, mark), event))
  {
    hide Valid, Handle, Gate, TermAt, AppendsBeyondTerm, CompactTo, SuffixKept;
    LocalCompaction(s, mark);
    CompactedValid(s, mark);
    HandleCommutes(s, mark, event);
    BeyondTermCommutes(s, mark, event);
    if Handle(s, event).Done? {
      PostCheckFiresIff(s, event);
      PostCheckFiresIff(Compacted(s, mark), event);
      var h := Handle(s, event);
      HandleWell(s, event);
      GateCommutes(h.state, mark, h.effects);
      GateWell(h.state, h.effects);
    }
  }

  /** Below the snapshot a current request is refused: the leader has to send the snapshot. */
  lemma BelowMarkIsRefused(s: State, mark: SnapshotMark, from: NodeId, m: Message)
    requires Base(s) < mark.index <= LastIndex(s) && m.AppendRequest? && m.previous < mark.index
    requires HandleAppendRequest(Compacted(s, mark), from, m).Done?
    ensures var r := HandleAppendRequest(Compacted(s, mark), from, m);
      && r.state.log == Compacted(s, mark).log && r.state.commit == s.commit
      && r.effects != [] && r.effects[|r.effects| - 1].Send?
      && r.effects[|r.effects| - 1].msg == AppendResponse(r.state.term, false, 0, m.context)
  {
    hide FirstMissing, AcceptAppend, Contiguous;
  }

  // ---- Installed snapshots -------------------------------------------------

  /** A snapshot from a leader leaves a valid state exactly when it agrees with the log at its
      index or is not below the commit index: otherwise clearing the log would drop committed
      entries. */
  lemma InstallIsValidIff(s: State, mark: SnapshotMark)
    requires Valid(s) && s.leader.None? && Base(s) <= mark.index
    requires mark.index != 0 && 0 < mark.term <= s.term
    ensures Valid(CompactTo(s, mark)) <==> SuffixKept(s, mark) || s.commit <= mark.index
  {
    var c := CompactTo(s, mark);
    if SuffixKept(s, mark) {
      assert LastIndex(c) == LastIndex(s);
    } else {
      assert LastIndex(c) == mark.index;
    }
  }

  /** A snapshot that agrees with the log changes nothing at or above its index. */
  lemma KeptReads(s: State, mark: SnapshotMark)
    requires SuffixKept(s, mark) && mark.index != 0
    ensures var c := CompactTo(s, mark);
      && Base(c) == mark.index && Base(s) <= mark.index <= LastIndex(s) == LastIndex(c) && LastTerm(c) == LastTerm(s)
      && forall i :: mark.index <= i <= LastIndex(s) ==> TermAt(c, i) == TermAt(s, i)
  {
    var c := CompactTo(s, mark);
    if mark.index == Base(s) {
      assert c.log == s.log;
    } else {
      CompactedReads(s, mark);
      var d := Compacted(s, mark);
      assert SameLog(d, c) && LastTerm(d) == LastTerm(c);
      forall i | mark.index <= i <= LastIndex(s) ensures TermAt(c, i) == TermAt(s, i) {
        SameTermAt(d, c, i);
      }
    }
  }

  /** After a snapshot that agrees with the log, the node answers every candidate and every
      question about an index at or above it as before; after one that does not, its log ends
      with the snapshot. Neither index ever goes back. */
  lemma InstalledReads(s: State, mark: SnapshotMark)
    requires Valid(s) && Base(s) <= mark.index && mark.index != 0
    ensures var c := CompactTo(s, mark);
      && s.commit <= c.commit && s.applied <= c.applied && mark.index <= c.applied
      && (SuffixKept(s, mark) ==>
            && LastIndex(c) == LastIndex(s)
            && (forall i :: mark.index <= i <= LastIndex(s) ==> TermAt(c, i) == TermAt(s, i))
            && (forall term: Term, index: LogIndex :: UpToDate(c, term, index) <==> UpToDate(s, term, index)))
      && (!SuffixKept(s, mark) ==> LastIndex(c) == mark.index && LastTerm(c) == mark.term)
  {
    hide Valid, TermAt;
    if SuffixKept(s, mark) {
      hide LastTerm;
      KeptReads(s, mark);
    }
  }

  /** Installing two snapshots one after the other gives what the later one alone gives, unless
      the log agrees with the later one, reaches past it, and disagrees with the earlier one;
      matching logs rule that out. */
  lemma InstallsCompose(s: State, first: SnapshotMark, second: SnapshotMark)
    requires Valid(s) && Base(s) <= first.index < second.index && first.index != 0
    ensures CompactTo(CompactTo(s, first), second) == CompactTo(s, second)
       <==> !(SuffixKept(s, second) && !SuffixKept(s, first) && second.index < LastIndex(s))
  {
    var c := CompactTo(s, first);
    var both, once := CompactTo(c, second), CompactTo(s, second);
    if SuffixKept(s, first) {
      if second.index <= LastIndex(s) {
        assert c.log[second.index - first.index - 1] == s.log[second.index - Base(s) - 1];
        assert c.log[second.index - first.index..] == s.log[second.index - Base(s)..];
      }
      assert SuffixKept(c, second) == SuffixKept(s, second);
    } else {
      assert both.log == [];
      assert once.log == [] <==> !SuffixKept(s, second) || second.index == LastIndex(s);
    }
    assert both == once <==> both.log == once.log;
  }
}
