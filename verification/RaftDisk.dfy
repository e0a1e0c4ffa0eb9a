/** Disk writes, crashes and restarts keep the node's invariant. */
module RaftDisk {
  import opened RaftTypes
  import opened Figure2
  import opened RaftCore
  import opened RaftLedger
  import opened RaftLedgerSteps
  import opened RaftCluster
  import opened RaftInvariant
  import opened RaftFrames
  import opened RaftHandlers

  // ---- Hard state ----------------------------------------------------------

  /** Nothing about the other nodes' disks, or anybody's leadership, has changed. */
  ghost predicate OnlyDisk(l: Ledger, l': Ledger, n: NodeId) {
    && (forall m: NodeId :: SameLeadership(l, l', m))
    && (forall m: NodeId :: m != n ==> SameDisk(l, l', m))
  }

  /** What a pending hard-state write may do to the disk. */
  predicate HardWriteOk(l: Ledger, s: State, d: Durable, h: HardState) {
    && HardStep(d.hard, h) && VoteJustified(l, s, d)
    && (h == Hard(s) || (h == HardState(s.term, None) && s.vote.Some? && s.vote.value != s.node))
  }

  lemma PendingWriteOk(l: Ledger, c: Core, d: Durable)
    requires CoreQueue(l, c, d) && c.state.pending.Some?
    ensures HardWriteOk(l, c.state, d, c.state.pending.value.hard)
  {
    var p := c.state.pending.value;
    var all := [PersistHard(p.id, p.hard)] + p.deferred;
    assert FirstPersist(all) == 0 && all[1..] == p.deferred;
  }

  /** The disk accepts the write as a legal transition of the ledger. */
  lemma HardWriteKeepsInv(l: Ledger, n: NodeId, s: State, d: Durable, h: HardState)
    requires Inv(l) && DiskOk(l, n, d) && s.node == n && HardWriteOk(l, s, d, h)
    ensures var l' := RecordVote(l, n, d.hard, h);
      Inv(l') && Grows(l, l') && OnlyDisk(l, l', n) && DiskOk(l', n, d.(hard := h))
  {
    var l' := RecordVote(l, n, d.hard, h);
    HardWriteLedger(l, n, s, d, h);
    hide Inv, AtLeastAsFresh, Grows, Claimed;
    assert Claimed(l', d.applied) by { ClaimedGrows(l, l', d.applied); }
    HardWriteDisk(l, n, s, d, h);
  }

  lemma NoVoteYet(l: Ledger, n: NodeId, d: Durable, h: HardState)
    requires VotesInv(l) && DiskOk(l, n, d) && HardStep(d.hard, h) && d.hard != h
    ensures (h.term, n) !in l.votes && d.hard.term <= h.term
  {
    hide Claimed;
  }

  lemma HardWriteLedger(l: Ledger, n: NodeId, s: State, d: Durable, h: HardState)
    requires Inv(l) && DiskOk(l, n, d) && s.node == n && HardWriteOk(l, s, d, h)
    ensures var l' := RecordVote(l, n, d.hard, h); Inv(l') && Grows(l, l')
  {
    hide CandidatesInv, LeadersInv, AcksInv, HolderInv, VoterInv, CompletenessInv, CommitInv, DurableInv, VotesInv;
    hide Grows, Claimed, WellLog, AtLeastAsFresh;
    if d.hard == h {
      GrowsReflexive(l);
    } else {
      NoVoteYet(l, n, d, h);
      if h.vote.None? {
        PromiseKeepsInv(l, n, h.term);
      } else if h.vote.value == n {
        StandKeepsInv(l, n, h.term);
      } else {
        CastVoteKeepsInv(l, n, h.term, h.vote.value);
      }
    }
  }

  lemma HardWriteDisk(l: Ledger, n: NodeId, s: State, d: Durable, h: HardState)
    requires Inv(l) && DiskOk(l, n, d) && s.node == n && HardWriteOk(l, s, d, h)
    requires Claimed(RecordVote(l, n, d.hard, h), d.applied)
    ensures var l' := RecordVote(l, n, d.hard, h);
      OnlyDisk(l, l', n) && DiskOk(l', n, d.(hard := h))
  {
    hide CandidatesInv, LeadersInv, AcksInv, HolderInv, VoterInv, CompletenessInv, CommitInv, DurableInv, VotesInv;
    hide Claimed, AtLeastAsFresh, VoteJustified, HardWriteOk, OnlyDisk;
    var l' := RecordVote(l, n, d.hard, h);
    VoteOnlyDisk(l, n, d.hard, h);
    if d.hard != h {
      assert HardStep(d.hard, h) by { StepOfWrite(l, s, d, h); }
      NoVoteYet(l, n, d, h);
      NewVoteRecorded(l, n, d, h);
    }
  }

  lemma NewVoteRecorded(l: Ledger, n: NodeId, d: Durable, h: HardState)
    requires DiskOk(l, n, d) && d.hard != h && (h.term, n) !in l.votes
    requires Claimed(RecordVote(l, n, d.hard, h), d.applied)
    ensures DiskOk(RecordVote(l, n, d.hard, h), n, d.(hard := h))
  {
    hide Claimed;
  }

  lemma StepOfWrite(l: Ledger, s: State, d: Durable, h: HardState)
    requires HardWriteOk(l, s, d, h)
    ensures HardStep(d.hard, h)
  {
  }

  lemma VoteOnlyDisk(l: Ledger, n: NodeId, was: HardState, h: HardState)
    ensures OnlyDisk(l, RecordVote(l, n, was, h), n)
  {
    hide OnlyDisk;
    if was == h {
      NothingChanged(l, n);
    } else if h.vote.None? {
      VoteChanged(l, Promise(l, n, h.term), n, h.term, n);
    } else {
      VoteChanged(l, RecordVote(l, n, was, h), n, h.term, h.vote.value);
    }
  }

  lemma NothingChanged(l: Ledger, n: NodeId)
    ensures OnlyDisk(l, l, n)
  {
  }

  lemma VoteChanged(l: Ledger, l': Ledger, n: NodeId, t: Term, v: NodeId)
    requires l'.termLog == l.termLog && l'.leaderOf == l.leaderOf && l'.commitOf == l.commitOf && l'.dlog == l.dlog
    requires l'.promised == l.promised[n := t]
    requires l'.votes == l.votes || l'.votes == l.votes[(t, n) := v]
    ensures OnlyDisk(l, l', n)
  {
    forall m: NodeId ensures SameLeadership(l, l', m) {
    }
    forall m: NodeId | m != n ensures SameDisk(l, l', m) {
      forall t0: Term | (t0, m) in l'.votes ensures (t0, m) in l.votes {
        assert (t0, m).1 != (t, n).1;
      }
    }
  }

  lemma LeaderKeepsHard(l: Ledger, n: NodeId, peers: seq<NodeId>, s: State, d: Durable, h: HardState)
    requires Inv(l) && DiskOk(l, n, d) && Linked(l, n, peers, s, d) && s.role.Leader? && HardWriteOk(l, s, d, h)
    ensures h == d.hard
  {
    hide DurableInv, VotesInv, AcksInv, HolderInv, VoterInv, CompletenessInv, CommitInv, WellLog, LogRelated;
    hide CandidateOk, CommitOk, VoteJustified;
    assert ElectedInv(l, s.term);
    StoodMeansSelfVote(l, n, s, d);
  }

  lemma HardWriteRoles(l: Ledger, l': Ledger, n: NodeId, peers: seq<NodeId>, s: State, d: Durable, h: HardState)
    requires Inv(l) && DiskOk(l, n, d) && Linked(l, n, peers, s, d) && HardWriteOk(l, s, d, h)
    requires l' == RecordVote(l, n, d.hard, h) && Linked(l', n, peers, s, d)
    ensures Linked(l', n, peers, s, d.(hard := h))
  {
    hide Inv, WellLog, CommitOk, LogRelated, RecordVote, HardWriteOk, DiskOk, CandidateOk, LeaderOk;
    if s.role.Leader? { LeaderKeepsHard(l, n, peers, s, d, h); }
    LogRelatedDisk(l', s, d, d.(hard := h));
    LeaderOnDisk(l', s, d, h);
    if s.role.Candidate? && d.hard != h { StoodRecorded(l, n, s, d, h); }
    CandidateOnDisk(l', s, d, h);
  }

  lemma LeaderOnDisk(l: Ledger, s: State, d: Durable, h: HardState)
    requires LeaderOk(l, s, d) && (s.role.Leader? ==> h == d.hard)
    ensures LeaderOk(l, s, d.(hard := h))
  {
  }

  lemma CandidateOnDisk(l: Ledger, s: State, d: Durable, h: HardState)
    requires CandidateOk(l, s, d)
    requires s.role.Candidate? && d.hard != h ==>
      (s.term, s.node) in l.candLog && l.candLog[(s.term, s.node)] == s.log
    ensures CandidateOk(l, s, d.(hard := h))
  {
  }

  lemma LogRelatedDisk(l: Ledger, s: State, d: Durable, d': Durable)
    requires LogRelated(l, s, d) && d'.log == d.log
    ensures LogRelated(l, s, d')
  {
    if s.log != d.log {
      var k: nat :| MergedTo(l, s, d, k);
      assert MergedTo(l, s, d', k);
    }
  }

  /** A candidate's own vote records the log it stands with. */
  lemma StoodRecorded(l: Ledger, n: NodeId, s: State, d: Durable, h: HardState)
    requires DiskOk(l, n, d) && s.node == n && s.role.Candidate? && CandidateOk(l, s, d)
    requires HardWriteOk(l, s, d, h) && d.hard != h
    ensures var l' := RecordVote(l, n, d.hard, h);
      (s.term, n) in l'.candLog && l'.candLog[(s.term, n)] == s.log
  {
    hide Claimed, VoteRecorded, AtLeastAsFresh, VoteJustified;
  }

  lemma HardWriteQueue(l: Ledger, l': Ledger, c: Core, d: Durable, h: HardState)
    requires CoreQueue(l, c, d) && CoreQueue(l', c, d) && c.state.pending.Some? && c.state.pending.value.hard == h
    requires HardWriteOk(l, c.state, d, h) && Grows(l, l')
    ensures CoreQueue(l', c, d.(hard := h))
  {
    hide Ordered, SendsOk, NoLogWrite, LogsGrow, AcksGrow, PromisesGrow, NoHardWrite;
    var p := c.state.pending.value;
    var all := [PersistHard(p.id, p.hard)] + p.deferred;
    assert FirstPersist(all) == 0;
  }

  lemma HardWriteOkForCore(l: Ledger, n: NodeId, peers: seq<NodeId>, c: Core, d: Durable)
    requires Inv(l) && DiskOk(l, n, d) && CoreOk(l, n, peers, c, d) && c.state.pending.Some?
    ensures var h := c.state.pending.value.hard;
      var l' := RecordVote(l, n, d.hard, h);
      && Inv(l') && Grows(l, l') && OnlyDisk(l, l', n) && DiskOk(l', n, d.(hard := h))
      && CoreOk(l', n, peers, c, d.(hard := h))
  {
    hide Inv, DiskOk, CoreQueue, Valid, Linked, Grows, SelfAcked, HardWriteOk, RecordVote, SameLeadership, SameDisk;
    var h := c.state.pending.value.hard;
    var l' := RecordVote(l, n, d.hard, h);
    LinkedNode(l, n, peers, c.state, d);
    PendingWriteOk(l, c, d);
    HardWriteKeepsInv(l, n, c.state, d, h);
    CoreFrame(l, l', n, peers, c, d);
    HardWriteRoles(l, l', n, peers, c.state, d, h);
    HardWriteQueue(l, l', c, d, h);
  }

  lemma LinkedNode(l: Ledger, n: NodeId, peers: seq<NodeId>, s: State, d: Durable)
    requires Linked(l, n, peers, s, d)
    ensures s.node == n
  {
  }

  // ---- The log -------------------------------------------------------------

  lemma LogWriteLedger(l: Ledger, n: NodeId, peers: seq<NodeId>, s: State, d: Durable)
    requires Inv(l) && DiskOk(l, n, d) && Linked(l, n, peers, s, d) && d.hard == Hard(s)
    ensures var l' := l.(dlog := l.dlog[n := s.log]); Inv(l') && Grows(l, l')
  {
    hide Inv, WellLog, CandidateOk, LeaderOk, CommitOk, Claimed, Grows;
    if s.log == d.log {
      assert l.dlog[n := s.log] == l.dlog;
      GrowsReflexive(l);
    } else {
      var k: nat :| MergedTo(l, s, d, k);
      assert l.(dlog := l.dlog[n := s.log]) == Write(l, n, s.term, k);
      WriteKeepsInv(l, n, s.term, k);
    }
  }

  lemma LogWriteDisk(l: Ledger, n: NodeId, d: Durable, log: Log)
    requires DiskOk(l, n, d) && Grows(l, l.(dlog := l.dlog[n := log]))
    ensures var l' := l.(dlog := l.dlog[n := log]);
      OnlyDisk(l, l', n) && DiskOk(l', n, d.(log := log))
  {
    hide Grows, Claimed;
    ClaimedGrows(l, l.(dlog := l.dlog[n := log]), d.applied);
  }

  lemma LogWriteLinked(l: Ledger, n: NodeId, peers: seq<NodeId>, s: State, d: Durable)
    requires Linked(l, n, peers, s, d)
    ensures Linked(l, n, peers, s, d.(log := s.log))
  {
    hide WellLog, CommitOk;
  }

  lemma LogWriteQueue(l: Ledger, c: Core, d: Durable)
    requires CoreQueue(l, c, d) && c.pendingLog.Some?
    ensures CoreQueue(l, c, d.(log := c.pendingLog.value.log))
    ensures d.hard == Hard(c.state) && c.pendingLog.value.log == c.state.log
  {
    hide QueueOk, SendsOk;
  }

  lemma ApplicationDisk(c: Core, d: Durable, log: Log)
    requires ApplicationOk(c, d)
    ensures ApplicationOk(c, d.(log := log))
  {
  }

  lemma LogWriteOkForCore(l: Ledger, n: NodeId, peers: seq<NodeId>, c: Core, d: Durable)
    requires Inv(l) && DiskOk(l, n, d) && CoreOk(l, n, peers, c, d) && c.pendingLog.Some?
    ensures var log := c.pendingLog.value.log;
      var l' := l.(dlog := l.dlog[n := log]);
      && Inv(l') && Grows(l, l') && OnlyDisk(l, l', n) && DiskOk(l', n, d.(log := log))
      && CoreOk(l', n, peers, c, d.(log := log))
  {
    LogWriteQueue(l, c, d);
    hide Inv, DiskOk, CoreQueue, Valid, Linked, Grows, SelfAcked, SameLeadership, SameDisk, ApplicationOk;
    assert ApplicationOk(c, d.(log := c.pendingLog.value.log)) by { ApplicationDisk(c, d, c.pendingLog.value.log); }
    var log := c.pendingLog.value.log;
    var l' := l.(dlog := l.dlog[n := log]);
    LogWriteLedger(l, n, peers, c.state, d);
    LogWriteDisk(l, n, d, log);
    CoreFrame(l, l', n, peers, c, d);
    LogWriteLinked(l', n, peers, c.state, d);
    LogWriteQueue(l', c, d);
  }

  // ---- The applied index ---------------------------------------------------

  lemma ClaimedBelow(l: Ledger, c: LogIndex, c': LogIndex)
    requires Claimed(l, c) && c' <= c
    ensures Claimed(l, c')
  {
  }

  lemma AppliedWriteLinked(l: Ledger, n: NodeId, peers: seq<NodeId>, s: State, d: Durable, applied: LogIndex)
    requires Linked(l, n, peers, s, d)
    ensures Linked(l, n, peers, s, d.(applied := applied))
  {
    hide WellLog, CommitOk;
    if s.log != d.log {
      var k: nat :| MergedTo(l, s, d, k);
      assert MergedTo(l, s, d.(applied := applied), k);
    }
  }

  lemma AppliedWriteQueue(l: Ledger, c: Core, d: Durable, applied: LogIndex)
    requires CoreQueue(l, c, d)
    ensures CoreQueue(l, c, d.(applied := applied))
  {
    hide SendsOk, Ordered, HardTail;
  }

  lemma AppliedWriteOkForCore(l: Ledger, n: NodeId, peers: seq<NodeId>, c: Core, d: Durable)
    requires Inv(l) && DiskOk(l, n, d) && CoreOk(l, n, peers, c, d) && c.application.Some?
    ensures var d' := d.(applied := c.application.value.entry.index);
      DiskOk(l, n, d') && CoreOk(l, n, peers, c, d')
  {
    hide Inv, CoreQueue, SelfAcked;
    var index := c.application.value.entry.index;
    assert index == c.state.applied + 1 by { ValidLog(l, c.state); }
    ClaimedBelow(l, c.state.commit, index);
    AppliedWriteLinked(l, n, peers, c.state, d, index);
    hide Linked;
    AppliedWriteQueue(l, c, d, index);
  }

  // ---- Restart -------------------------------------------------------------

  lemma RebornOk(l: Ledger, n: NodeId, peers: seq<NodeId>, d: Durable, maxReads: nat, maxHistory: nat)
    requires Inv(l) && DiskOk(l, n, d) && Constructible(n, peers, d.hard, d.log, d.applied)
    ensures CoreOk(l, n, peers, Construct(n, peers, d.hard, d.log, d.applied, maxReads, maxHistory), d)
  {
    hide VotesInv, CandidatesInv, LeadersInv, AcksInv, HolderInv, VoterInv, CompletenessInv, CommitInv;
    hide WellLog, Claimed, Valid, ConfigValid;
  }
}
