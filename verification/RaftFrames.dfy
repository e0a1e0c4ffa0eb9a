/** The invariant of a node survives growth of the ledger that does not concern it. */
module RaftFrames {
  import opened RaftTypes
  import opened Figure2
  import opened RaftCore
  import opened RaftLedger
  import opened RaftLedgerSteps
  import opened RaftCluster
  import opened RaftInvariant

  /** `n` leads the same terms in `l'` as in `l`, with the same logs and commit indexes. */
  predicate SameLeadership(l: Ledger, l': Ledger, n: NodeId) {
    forall t :: t in l'.leaderOf && l'.leaderOf[t] == n ==>
      && t in l.leaderOf && l.leaderOf[t] == n
      && (t in l.termLog ==> t in l'.termLog && l'.termLog[t] == l.termLog[t])
      && (t in l.commitOf ==> t in l'.commitOf && l'.commitOf[t] == l.commitOf[t])
  }

  /** The disk facts of `n` are the same in both ledgers. */
  ghost predicate SameDisk(l: Ledger, l': Ledger, n: NodeId) {
    && (n in l.promised ==> n in l'.promised && l'.promised[n] == l.promised[n])
    && (n in l.dlog ==> n in l'.dlog && l'.dlog[n] == l.dlog[n])
    && (forall t: Term :: (t, n) in l'.votes ==> (t, n) in l.votes)
  }

  lemma ClaimedGrows(l: Ledger, l': Ledger, c: LogIndex)
    requires Grows(l, l') && Claimed(l, c)
    ensures Claimed(l', c)
  {
    hide VotesGrow, AcksGrow, PromisesGrow;
    if c != 0 {
      var t :| t in l.commitOf && c <= l.commitOf[t];
      assert t in l'.commitOf && c <= l'.commitOf[t];
    }
  }

  lemma DiskFrame(l: Ledger, l': Ledger, n: NodeId, d: Durable)
    requires Grows(l, l') && SameDisk(l, l', n) && DiskOk(l, n, d)
    ensures DiskOk(l', n, d)
  {
    ClaimedGrows(l, l', d.applied);
    hide LogsGrow, AcksGrow, Claimed;
  }

  lemma SendsFrame(l: Ledger, l': Ledger, s: State, effects: seq<Effect>)
    requires Grows(l, l') && SendsOk(l, s, effects)
    ensures SendsOk(l', s, effects)
  {
    hide AcksGrow, VotesGrow, PromisesGrow;
    forall i | 0 <= i < |effects| && effects[i].Send? ensures SendOk(l', s, effects[i]) {
      assert SendOk(l, s, effects[i]);
    }
  }

  lemma QueueFrame(l: Ledger, l': Ledger, s: State, d: Durable, effects: seq<Effect>)
    requires Grows(l, l') && QueueOk(l, s, d, effects)
    ensures QueueOk(l', s, d, effects)
  {
    hide Ordered, SendsOk, HardTail, NoLogWrite, LogsGrow, AcksGrow, PromisesGrow;
    SendsFrame(l, l', s, effects);
  }

  lemma DoomedGrows(l: Ledger, l': Ledger, t: Term, n: NodeId)
    requires Grows(l, l') && Doomed(l, t, n)
    ensures Doomed(l', t, n)
  {
    hide LogsGrow, AcksGrow;
    var q :| DoomedBy(l, q, t, n);
    assert DoomedBy(l', q, t, n);
  }

  lemma LogRelatedGrows(l: Ledger, l': Ledger, s: State, d: Durable)
    requires Grows(l, l') && LogRelated(l, s, d)
    ensures LogRelated(l', s, d)
  {
    hide AcksGrow, VotesGrow, PromisesGrow;
    if s.log != d.log {
      var k: nat :| MergedTo(l, s, d, k);
      assert l'.termLog[s.term][..k] == l.termLog[s.term][..k];
      assert MergedTo(l', s, d, k);
    }
  }

  lemma CommitFrame(l: Ledger, l': Ledger, s: State)
    requires Grows(l, l') && CommitOk(l, s)
    ensures CommitOk(l', s)
  {
    hide Grows, Claimed, Covered, Doomed, DecidedTo;
    ClaimedGrows(l, l', s.commit);
    if s.role.Candidate? && Covered(l, s.term, s.commit) {
      CoveredGrows(l, l', s.term, s.term, s.commit);
    } else if s.role.Candidate? {
      DoomedGrows(l, l', s.term, s.node);
    }
    if s.applied < s.commit {
      DecidedGrows(l, l', s.log, s.commit);
    }
  }

  lemma RoleFrame(l: Ledger, l': Ledger, s: State, d: Durable)
    requires Grows(l, l') && SameLeadership(l, l', s.node)
    requires CandidateOk(l, s, d) && LeaderOk(l, s, d)
    ensures CandidateOk(l', s, d) && LeaderOk(l', s, d)
  {
    hide PromisesGrow;
  }

  lemma StateFrame(l: Ledger, l': Ledger, n: NodeId, peers: seq<NodeId>, s: State, d: Durable)
    requires Grows(l, l') && SameLeadership(l, l', n) && StateOk(l, n, peers, s, d)
    ensures StateOk(l', n, peers, s, d)
  {
    hide Valid, WellLog, LogRelated, CandidateOk, LeaderOk, CommitOk, SameLeadership;
    hide PromisesGrow, VotesGrow, AcksGrow, LogsGrow;
    WellLogGrows(l, l', s.log);
    LogRelatedGrows(l, l', s, d);
    RoleFrame(l, l', s, d);
    CommitFrame(l, l', s);
  }

  lemma CoreQueueFrame(l: Ledger, l': Ledger, c: Core, d: Durable)
    requires Grows(l, l') && CoreQueue(l, c, d)
    ensures CoreQueue(l', c, d)
  {
    hide QueueOk, SendsOk, NoLogWrite, NoHardWrite, Grows;
    if c.state.pending.Some? {
      var p := c.state.pending.value;
      QueueFrame(l, l', c.state, d, [PersistHard(p.id, p.hard)] + p.deferred);
    } else if c.pendingLog.Some? {
      SendsFrame(l, l', c.state, c.pendingLog.value.deferred);
    }
  }

  lemma SelfAckedFrame(l: Ledger, l': Ledger, c: Core)
    requires Grows(l, l') && SelfAcked(l, c)
    ensures SelfAcked(l', c)
  {
    hide VotesGrow, LogsGrow, PromisesGrow;
  }

  lemma CoreFrame(l: Ledger, l': Ledger, n: NodeId, peers: seq<NodeId>, c: Core, d: Durable)
    requires Grows(l, l') && SameLeadership(l, l', n) && CoreOk(l, n, peers, c, d)
    ensures CoreOk(l', n, peers, c, d)
  {
    hide StateOk, CoreQueue, ApplicationOk, SelfAcked, Grows, SameLeadership;
    StateFrame(l, l', n, peers, c.state, d);
    CoreQueueFrame(l, l', c, d);
    SelfAckedFrame(l, l', c);
  }
}
