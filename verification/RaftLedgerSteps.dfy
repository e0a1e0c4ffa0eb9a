/** The transitions of the ledger; each keeps `RaftLedger.Inv`. */
module RaftLedgerSteps {
  import opened RaftTypes
  import opened RaftLedger

  // ---- What never shrinks --------------------------------------------------

  predicate PromisesGrow(l: Ledger, l': Ledger) {
    && l'.members == l.members
    && (forall n :: n in l.promised ==> n in l'.promised && l.promised[n] <= l'.promised[n])
    && (forall n :: n in l'.promised ==> n in l.promised)
  }

  predicate VotesGrow(l: Ledger, l': Ledger) {
    && (forall key :: key in l.votes ==> key in l'.votes && l'.votes[key] == l.votes[key])
    && (forall key :: key in l'.votes ==>
          key in l.votes || (key.1 in l.promised && l.promised[key.1] <= key.0))
    && (forall key :: key in l.candLog ==> key in l'.candLog && l'.candLog[key] == l.candLog[key])
  }

  predicate LogsGrow(l: Ledger, l': Ledger) {
    && (forall t :: t in l.termLog ==> t in l'.termLog && l.termLog[t] <= l'.termLog[t])
    && (forall t :: t in l.leaderOf ==> t in l'.leaderOf && l'.leaderOf[t] == l.leaderOf[t])
    && (forall t :: t in l.commitOf ==> t in l'.commitOf && l.commitOf[t] <= l'.commitOf[t])
  }

  predicate AcksGrow(l: Ledger, l': Ledger) {
    && (forall key :: key in l.acked ==> key in l'.acked && l.acked[key] <= l'.acked[key])
    && (forall key :: key in l'.acked ==>
          (key in l.acked && l'.acked[key] == l.acked[key])
          || (key.0 in l.promised && l.promised[key.0] <= key.1))
  }

  predicate Grows(l: Ledger, l': Ledger) {
    PromisesGrow(l, l') && VotesGrow(l, l') && LogsGrow(l, l') && AcksGrow(l, l')
  }

  lemma VotesGrowTransitive(l: Ledger, l': Ledger, l'': Ledger)
    requires PromisesGrow(l, l') && VotesGrow(l, l') && VotesGrow(l', l'')
    ensures VotesGrow(l, l'')
  {
  }

  lemma AcksGrowTransitive(l: Ledger, l': Ledger, l'': Ledger)
    requires PromisesGrow(l, l') && AcksGrow(l, l') && AcksGrow(l', l'')
    ensures AcksGrow(l, l'')
  {
  }

  lemma LogsGrowTransitive(l: Ledger, l': Ledger, l'': Ledger)
    requires LogsGrow(l, l') && LogsGrow(l', l'')
    ensures LogsGrow(l, l'')
  {
  }

  lemma GrowsTransitive(l: Ledger, l': Ledger, l'': Ledger)
    requires Grows(l, l') && Grows(l', l'')
    ensures Grows(l, l'')
  {
    hide VotesGrow, LogsGrow, AcksGrow;
    VotesGrowTransitive(l, l', l'');
    AcksGrowTransitive(l, l', l'');
    LogsGrowTransitive(l, l', l'');
  }

  lemma GrowsReflexive(l: Ledger)
    ensures Grows(l, l)
  {
  }

  lemma WellLogGrows(l: Ledger, l': Ledger, log: Log)
    requires LogsGrow(l, l') && WellLog(l, log)
    ensures WellLog(l', log)
  {
    forall i | 0 <= i < |log| ensures EntryPlaced(l', log, i) {
      assert EntryPlaced(l, log, i);
    }
  }

  lemma RiskShrinks(l: Ledger, l': Ledger, t: Term, k: nat)
    requires Grows(l, l')
    requires AtRisk(l', t, k) && t in l.termLog && k <= |l.termLog[t]|
    ensures AtRisk(l, t, k)
    ensures l.termLog[t][..k] == l'.termLog[t][..k]
  {
    hide VotesGrow;
    assert l.termLog[t] <= l'.termLog[t];
    var q :| QuorumMayAck(l', q, t, k);
    forall v | v in q ensures MayAck(l, v, t, k) {
      assert MayAck(l', v, t, k);
    }
    assert QuorumMayAck(l, q, t, k);
  }

  lemma ChosenGrows(l: Ledger, l': Ledger, t: Term, k: nat)
    requires Grows(l, l') && Chosen(l, t, k)
    ensures Chosen(l', t, k)
  {
    hide VotesGrow;
    var q :| QuorumAcked(l, q, t, k);
    forall v | v in q ensures HasAcked(l', v, t, k) {
      assert HasAcked(l, v, t, k);
    }
    assert QuorumAcked(l', q, t, k);
  }

  lemma CoveredGrows(l: Ledger, l': Ledger, t: Term, t': Term, c: LogIndex)
    requires Grows(l, l') && Covered(l, t, c) && t <= t'
    ensures Covered(l', t', c)
  {
    if c != 0 {
      var t0: Term, k: nat :| t0 <= t && c <= k && Chosen(l, t0, k);
      ChosenGrows(l, l', t0, k);
    }
  }

  lemma ChosenIsAtRisk(l: Ledger, t: Term, k: nat)
    requires Inv(l) && Chosen(l, t, k)
    ensures AtRisk(l, t, k)
  {
    hide DurableInv, VotesInv, CandidatesInv, LeadersInv, HolderInv, VoterInv, CommitInv, CompletenessInv;
    var q :| QuorumAcked(l, q, t, k);
    forall v | v in q ensures MayAck(l, v, t, k) {
      assert HasAcked(l, v, t, k);
    }
    assert QuorumMayAck(l, q, t, k);
  }

  // ---- Frames --------------------------------------------------------------

  /** The acknowledgements of `l'` are about entries that `l` already has. */
  predicate AcksWithin(l: Ledger, l': Ledger) {
    forall key :: key in l'.acked ==> key.1 in l.termLog && l'.acked[key] <= |l.termLog[key.1]|
  }

  lemma FrameVoter(l: Ledger, l': Ledger)
    requires VotesInv(l) && VoterInv(l) && Grows(l, l')
    requires l'.votes == l.votes && l'.candLog == l.candLog
    requires AcksWithin(l, l')
    ensures VoterInv(l')
  {
    hide LogsGrow;
    forall t': Term, v: NodeId, t: Term, k: nat |
      (t', v) in l'.votes && t < t' && HasAcked(l', v, t, k) && AtRisk(l', t, k)
      ensures (t', l'.votes[(t', v)]) in l'.candLog
      ensures l'.termLog[t][..k] <= l'.candLog[(t', l'.votes[(t', v)])]
    {
      assert (v, t) in l'.acked;
      RiskShrinks(l, l', t, k);
      assert t' <= l.promised[v];
      assert HasAcked(l, v, t, k);
    }
  }

  lemma FrameHolder(l: Ledger, l': Ledger)
    requires AcksInv(l) && HolderInv(l) && Grows(l, l')
    requires l'.dlog == l.dlog && l'.acked == l.acked
    ensures HolderInv(l')
  {
    hide VotesGrow, LogsGrow, AcksGrow;
    forall v: NodeId, t: Term, k: nat | HasAcked(l', v, t, k) && AtRisk(l', t, k) && v in l'.members
      ensures v in l'.dlog && l'.termLog[t][..k] <= l'.dlog[v]
    {
      assert (v, t) in l.acked;
      RiskShrinks(l, l', t, k);
      assert HasAcked(l, v, t, k);
    }
  }

  lemma FrameCompleteness(l: Ledger, l': Ledger)
    requires CompletenessInv(l) && Grows(l, l')
    requires l'.termLog == l.termLog
    ensures CompletenessInv(l')
  {
    hide VotesGrow, LogsGrow, AcksGrow;
    forall t': Term, t: Term, k: nat | t' in l'.termLog && t < t' && AtRisk(l', t, k)
      ensures l'.termLog[t][..k] <= l'.termLog[t']
    {
      RiskShrinks(l, l', t, k);
    }
  }

  lemma FrameCommit(l: Ledger, l': Ledger)
    requires CommitInv(l) && Grows(l, l')
    requires forall t :: t in l'.commitOf ==>
               (t in l.commitOf && l'.commitOf[t] == l.commitOf[t]) || Covered(l, t, l'.commitOf[t])
    ensures CommitInv(l')
  {
    forall t | t in l'.commitOf ensures Covered(l', t, l'.commitOf[t]) {
      assert Covered(l, t, l'.commitOf[t]);
      CoveredGrows(l, l', t, t, l'.commitOf[t]);
    }
  }

  lemma FrameElected(l: Ledger, l': Ledger, t: Term)
    requires LeadersInv(l) && Grows(l, l') && t in l.termLog && l'.termLog[t] == l.termLog[t]
    ensures ElectedInv(l', t)
  {
    hide AcksGrow;
    assert ElectedInv(l, t);
    WellLogGrows(l, l', l.termLog[t]);
    var q :| VotedFor(l, q, t, l.leaderOf[t]);
    assert VotedFor(l', q, t, l'.leaderOf[t]);
  }

  lemma FrameLeaders(l: Ledger, l': Ledger)
    requires LeadersInv(l) && Grows(l, l') && l'.termLog == l.termLog
    requires l'.leaderOf == l.leaderOf && l'.commitOf.Keys == l.commitOf.Keys
    ensures LeadersInv(l')
  {
    hide ElectedInv, VotesGrow, AcksGrow, PromisesGrow;
    forall t | t in l'.termLog ensures ElectedInv(l', t) {
      FrameElected(l, l', t);
    }
  }

  lemma FrameDurable(l: Ledger, l': Ledger)
    requires DurableInv(l) && Grows(l, l') && l'.dlog == l.dlog
    ensures DurableInv(l')
  {
    hide VotesGrow, AcksGrow, LogsGrow, WellLog;
    forall n | n in l'.members
      ensures n in l'.promised && n in l'.dlog && WellLog(l', l'.dlog[n])
      ensures TermsAtMost(l'.dlog[n], l'.promised[n])
    {
      WellLogGrows(l, l', l.dlog[n]);
    }
  }

  lemma FrameCandidates(l: Ledger, l': Ledger)
    requires CandidatesInv(l) && Grows(l, l') && l'.candLog == l.candLog
    ensures CandidatesInv(l')
  {
    hide AcksGrow, LogsGrow, WellLog;
    forall key | key in l'.candLog ensures WellLog(l', l'.candLog[key]) {
      WellLogGrows(l, l', l.candLog[key]);
    }
  }

  lemma FrameVotes(l: Ledger, l': Ledger)
    requires VotesInv(l) && Grows(l, l') && l'.votes == l.votes
    ensures VotesInv(l')
  {
  }

  lemma FrameAcks(l: Ledger, l': Ledger)
    requires AcksInv(l) && Grows(l, l') && l'.acked == l.acked
    ensures AcksInv(l') && AcksWithin(l, l')
  {
  }

  // ---- Promising a term ----------------------------------------------------

  function Promise(l: Ledger, n: NodeId, t: Term): Ledger {
    l.(promised := l.promised[n := t])
  }

  lemma PromiseGrows(l: Ledger, n: NodeId, t: Term)
    requires n in l.promised && l.promised[n] <= t
    ensures Grows(l, Promise(l, n, t))
  {
  }

  lemma PromiseKeepsInv(l: Ledger, n: NodeId, t: Term)
    requires Inv(l) && n in l.members && l.promised[n] <= t
    ensures Grows(l, Promise(l, n, t)) && Inv(Promise(l, n, t))
  {
    hide VotesInv, CandidatesInv, LeadersInv, AcksInv, HolderInv, VoterInv, CompletenessInv, CommitInv, Grows;
    var l' := Promise(l, n, t);
    PromiseGrows(l, n, t);
    FrameDurable(l, l');
    FrameVotes(l, l');
    FrameCandidates(l, l');
    FrameLeaders(l, l');
    FrameAcks(l, l');
    FrameHolder(l, l');
    FrameVoter(l, l');
    FrameCompleteness(l, l');
    FrameCommit(l, l');
  }

  // ---- Standing for election -----------------------------------------------

  function Stand(l: Ledger, c: NodeId, t: Term): Ledger
    requires c in l.dlog
  {
    l.(promised := l.promised[c := t],
       votes := l.votes[(t, c) := c],
       candLog := l.candLog[(t, c) := l.dlog[c]])
  }

  lemma StandGrows(l: Ledger, c: NodeId, t: Term)
    requires VotesInv(l) && CandidatesInv(l)
    requires c in l.promised && c in l.dlog && l.promised[c] < t
    ensures Grows(l, Stand(l, c, t))
  {
    assert (t, c) !in l.votes && (t, c) !in l.candLog;
  }

  lemma StandKeepsVotes(l: Ledger, c: NodeId, t: Term)
    requires VotesInv(l) && c in l.members && c in l.promised && c in l.dlog && l.promised[c] < t
    ensures VotesInv(Stand(l, c, t))
  {
  }

  lemma StandKeepsCandidates(l: Ledger, c: NodeId, t: Term)
    requires DurableInv(l) && VotesInv(l) && CandidatesInv(l)
    requires c in l.members && l.promised[c] < t
    ensures CandidatesInv(Stand(l, c, t))
  {
    hide AcksGrow, WellLog, VotesInv, VotesGrow, Grows;
    var l' := Stand(l, c, t);
    StandGrows(l, c, t);
    forall key | key in l'.candLog
      ensures WellLog(l', l'.candLog[key]) && TermsAtMost(l'.candLog[key], key.0 - 1)
    {
      WellLogGrows(l, l', if key == (t, c) then l.dlog[c] else l.candLog[key]);
    }
  }

  lemma StandKeepsVoter(l: Ledger, c: NodeId, t: Term)
    requires VotesInv(l) && CandidatesInv(l) && HolderInv(l) && VoterInv(l)
    requires c in l.members && c in l.promised && c in l.dlog && l.promised[c] < t
    ensures VoterInv(Stand(l, c, t))
  {
    hide LogsGrow, AcksGrow, VotesGrow;
    var l' := Stand(l, c, t);
    StandGrows(l, c, t);
    forall t': Term, v: NodeId, t0: Term, k: nat |
      (t', v) in l'.votes && t0 < t' && HasAcked(l', v, t0, k) && AtRisk(l', t0, k)
      ensures (t', l'.votes[(t', v)]) in l'.candLog
      ensures l'.termLog[t0][..k] <= l'.candLog[(t', l'.votes[(t', v)])]
    {
      RiskShrinks(l, l', t0, k);
      assert HasAcked(l, v, t0, k);
    }
  }

  lemma StandKeepsInv(l: Ledger, c: NodeId, t: Term)
    requires Inv(l) && c in l.members && l.promised[c] < t
    ensures Grows(l, Stand(l, c, t)) && Inv(Stand(l, c, t))
  {
    hide VotesInv, CandidatesInv, LeadersInv, AcksInv, HolderInv, VoterInv, CompletenessInv, CommitInv, Grows;
    var l' := Stand(l, c, t);
    StandGrows(l, c, t);
    FrameDurable(l, l');
    StandKeepsVotes(l, c, t);
    StandKeepsCandidates(l, c, t);
    FrameLeaders(l, l');
    FrameAcks(l, l');
    FrameHolder(l, l');
    StandKeepsVoter(l, c, t);
    FrameCompleteness(l, l');
    FrameCommit(l, l');
  }

  // ---- Voting --------------------------------------------------------------

  /** The heart of leader completeness: a log at least as fresh as one that holds a prefix
      which may still be chosen holds that prefix too. */
  lemma FreshLogHolds(l: Ledger, cand: Log, voter: Log, t: Term, k: nat)
    requires CompletenessInv(l) && LeadersInv(l) && AtRisk(l, t, k)
    requires WellLog(l, cand) && WellLog(l, voter) && AtLeastAsFresh(cand, voter)
    requires l.termLog[t][..k] <= voter
    ensures l.termLog[t][..k] <= cand
  {
    var x := l.termLog[t][..k];
    assert voter[k - 1] == x[k - 1];
    TermsAscend(l, voter, k - 1, |voter| - 1);
    assert cand != [] by { assert EntryPlaced(l, voter, |voter| - 1); }
    WholeLogPlaced(l, cand);
    WholeLogPlaced(l, voter);
    if LastTermOf(cand) != LastTermOf(voter) {
      assert x <= l.termLog[LastTermOf(cand)];
    }
  }

  lemma WholeLogPlaced(l: Ledger, log: Log)
    requires WellLog(l, log) && log != []
    ensures LastTermOf(log) in l.termLog && log <= l.termLog[LastTermOf(log)]
  {
    assert EntryPlaced(l, log, |log| - 1);
    assert log[..|log|] == log;
  }

  lemma TermsAscend(l: Ledger, log: Log, i: nat, j: nat)
    requires LeadersInv(l) && WellLog(l, log) && i <= j < |log|
    ensures log[i].term <= log[j].term
  {
    assert EntryPlaced(l, log, j);
    var t := log[j].term;
    assert ElectedInv(l, t);
    assert log[..j + 1][i] == l.termLog[t][i];
  }

  function CastVote(l: Ledger, v: NodeId, t: Term, c: NodeId): Ledger {
    l.(promised := l.promised[v := t], votes := l.votes[(t, v) := c])
  }

  predicate MayVote(l: Ledger, v: NodeId, t: Term, c: NodeId) {
    && v in l.members && v in l.promised && l.promised[v] <= t && (t, v) !in l.votes
    && v in l.dlog && (t, c) in l.candLog && AtLeastAsFresh(l.candLog[(t, c)], l.dlog[v])
  }

  lemma CastVoteGrows(l: Ledger, v: NodeId, t: Term, c: NodeId)
    requires MayVote(l, v, t, c)
    ensures Grows(l, CastVote(l, v, t, c))
  {
  }

  lemma CastVoteKeepsVotes(l: Ledger, v: NodeId, t: Term, c: NodeId)
    requires VotesInv(l) && CandidatesInv(l) && MayVote(l, v, t, c)
    ensures VotesInv(CastVote(l, v, t, c)) && CandidatesInv(CastVote(l, v, t, c))
  {
    hide AcksGrow, LogsGrow, WellLog;
    var l' := CastVote(l, v, t, c);
    CastVoteGrows(l, v, t, c);
    FrameCandidates(l, l');
  }

  lemma CastVoteKeepsVoter(l: Ledger, v: NodeId, t: Term, c: NodeId)
    requires DurableInv(l) && CandidatesInv(l) && LeadersInv(l) && HolderInv(l) && VoterInv(l)
    requires CompletenessInv(l) && MayVote(l, v, t, c)
    ensures VoterInv(CastVote(l, v, t, c))
  {
    hide LogsGrow, AcksGrow, VotesGrow, WellLog, ElectedInv;
    var l' := CastVote(l, v, t, c);
    CastVoteGrows(l, v, t, c);
    forall t': Term, v': NodeId, t0: Term, k: nat |
      (t', v') in l'.votes && t0 < t' && HasAcked(l', v', t0, k) && AtRisk(l', t0, k)
      ensures (t', l'.votes[(t', v')]) in l'.candLog
      ensures l'.termLog[t0][..k] <= l'.candLog[(t', l'.votes[(t', v')])]
    {
      RiskShrinks(l, l', t0, k);
      assert HasAcked(l, v', t0, k);
      if (t', v') == (t, v) {
        FreshLogHolds(l, l.candLog[(t, c)], l.dlog[v], t0, k);
      }
    }
  }

  lemma CastVoteKeepsInv(l: Ledger, v: NodeId, t: Term, c: NodeId)
    requires Inv(l) && MayVote(l, v, t, c)
    ensures Grows(l, CastVote(l, v, t, c)) && Inv(CastVote(l, v, t, c))
  {
    hide VotesInv, CandidatesInv, LeadersInv, AcksInv, HolderInv, VoterInv, CompletenessInv, CommitInv, Grows;
    var l' := CastVote(l, v, t, c);
    CastVoteGrows(l, v, t, c);
    FrameDurable(l, l');
    CastVoteKeepsVotes(l, v, t, c);
    FrameLeaders(l, l');
    FrameAcks(l, l');
    FrameHolder(l, l');
    CastVoteKeepsVoter(l, v, t, c);
    FrameCompleteness(l, l');
    FrameCommit(l, l');
  }

  // ---- Winning an election -------------------------------------------------

  function Elect(l: Ledger, t: Term, n: NodeId, c: LogIndex): Ledger
    requires (t, n) in l.candLog
  {
    l.(termLog := l.termLog[t := l.candLog[(t, n)]],
       leaderOf := l.leaderOf[t := n],
       commitOf := l.commitOf[t := c])
  }

  ghost predicate MayElect(l: Ledger, t: Term, n: NodeId, c: LogIndex) {
    && (t, n) in l.candLog && t !in l.termLog && Covered(l, t, c)
    && exists q :: VotedFor(l, q, t, n)
  }

  lemma ElectGrows(l: Ledger, t: Term, n: NodeId, c: LogIndex)
    requires LeadersInv(l) && MayElect(l, t, n, c)
    ensures Grows(l, Elect(l, t, n, c))
  {
    hide ElectedInv, Covered, VotedFor;
  }

  lemma ElectPlacesLeader(l: Ledger, t: Term, n: NodeId, c: LogIndex)
    requires CandidatesInv(l) && MayElect(l, t, n, c) && Grows(l, Elect(l, t, n, c))
    ensures ElectedInv(Elect(l, t, n, c), t)
  {
    var l' := Elect(l, t, n, c);
    WellLogGrows(l, l', l.candLog[(t, n)]);
    var q :| VotedFor(l, q, t, n);
    assert VotedFor(l', q, t, n);
  }

  lemma ElectKeepsLeaders(l: Ledger, t: Term, n: NodeId, c: LogIndex)
    requires LeadersInv(l) && CandidatesInv(l) && MayElect(l, t, n, c)
    ensures LeadersInv(Elect(l, t, n, c))
  {
    hide ElectedInv, Grows, CandidatesInv;
    var l' := Elect(l, t, n, c);
    ElectGrows(l, t, n, c);
    ElectPlacesLeader(l, t, n, c);
    forall t' | t' in l'.termLog && t' != t ensures ElectedInv(l', t') {
      FrameElected(l, l', t');
    }
  }

  /** An entry that may still be chosen in an earlier term is held by the new leader: some
      voter acknowledged it. */
  lemma VotersHold(l: Ledger, t: Term, n: NodeId, q: set<NodeId>, t0: Term, k: nat)
    requires VotesInv(l) && VoterInv(l) && VotedFor(l, q, t, n) && t0 < t && AtRisk(l, t0, k)
    ensures (t, n) in l.candLog && l.termLog[t0][..k] <= l.candLog[(t, n)]
  {
    var r :| QuorumMayAck(l, r, t0, k);
    var v := QuorumsIntersect(l.members, q, r);
    assert MayAck(l, v, t0, k) && (t, v) in l.votes;
    assert HasAcked(l, v, t0, k);
  }

  lemma ElectKeepsCompleteness(l: Ledger, t: Term, n: NodeId, c: LogIndex)
    requires VotesInv(l) && VoterInv(l) && LeadersInv(l) && CandidatesInv(l) && CompletenessInv(l)
    requires MayElect(l, t, n, c)
    ensures CompletenessInv(Elect(l, t, n, c))
  {
    hide AcksGrow, VotesGrow, PromisesGrow, WellLog, ElectedInv;
    var l' := Elect(l, t, n, c);
    ElectGrows(l, t, n, c);
    forall t': Term, t0: Term, k: nat | t' in l'.termLog && t0 < t' && AtRisk(l', t0, k)
      ensures l'.termLog[t0][..k] <= l'.termLog[t']
    {
      assert t0 != t by {
        assert TermsAtMost(l.candLog[(t, n)], t - 1);
      }
      RiskShrinks(l, l', t0, k);
      if t' == t {
        var q :| VotedFor(l, q, t, n);
        VotersHold(l, t, n, q, t0, k);
      }
    }
  }

  lemma ElectKeepsHolders(l: Ledger, t: Term, n: NodeId, c: LogIndex)
    requires LeadersInv(l) && AcksInv(l) && VotesInv(l) && HolderInv(l) && VoterInv(l)
    requires MayElect(l, t, n, c)
    ensures HolderInv(Elect(l, t, n, c)) && VoterInv(Elect(l, t, n, c))
  {
    var l' := Elect(l, t, n, c);
    ElectGrows(l, t, n, c);
    FrameAcks(l, l');
    FrameHolder(l, l');
    FrameVoter(l, l');
  }

  lemma ElectKeepsInv(l: Ledger, t: Term, n: NodeId, c: LogIndex)
    requires Inv(l) && MayElect(l, t, n, c)
    ensures Grows(l, Elect(l, t, n, c)) && Inv(Elect(l, t, n, c))
  {
    hide VotesInv, CandidatesInv, LeadersInv, AcksInv, HolderInv, VoterInv, CompletenessInv, CommitInv, Grows;
    var l' := Elect(l, t, n, c);
    ElectGrows(l, t, n, c);
    FrameDurable(l, l');
    FrameVotes(l, l');
    FrameCandidates(l, l');
    ElectKeepsLeaders(l, t, n, c);
    FrameAcks(l, l');
    ElectKeepsHolders(l, t, n, c);
    ElectKeepsCompleteness(l, t, n, c);
    FrameCommit(l, l');
  }

  /** Election safety: a second winner of a term is the first one. */
  lemma OneWinnerPerTerm(l: Ledger, t: Term, n: NodeId, q: set<NodeId>)
    requires Inv(l) && t in l.termLog && VotedFor(l, q, t, n)
    ensures l.leaderOf[t] == n
  {
    hide DurableInv, VotesInv, CandidatesInv, AcksInv, HolderInv, VoterInv, CommitInv, CompletenessInv;
    assert ElectedInv(l, t);
    var r :| VotedFor(l, r, t, l.leaderOf[t]);
    var v := QuorumsIntersect(l.members, q, r);
  }

  // ---- A leader appends ----------------------------------------------------

  function Extend(l: Ledger, t: Term, e: LogEntry): Ledger
    requires t in l.termLog
  {
    l.(termLog := l.termLog[t := l.termLog[t] + [e]])
  }

  predicate MayExtend(l: Ledger, t: Term, e: LogEntry) {
    t in l.termLog && e.term == t && 0 < t && e.index == |l.termLog[t]| + 1
  }

  lemma ExtendGrows(l: Ledger, t: Term, e: LogEntry)
    requires MayExtend(l, t, e)
    ensures Grows(l, Extend(l, t, e))
  {
  }

  lemma ExtendedWellLog(l: Ledger, log: Log, e: LogEntry)
    requires WellLog(l, log) && 0 < e.term && e.index == |log| + 1
    requires e.term in l.termLog && l.termLog[e.term] == log + [e]
    ensures WellLog(l, log + [e])
  {
    forall i | 0 <= i < |log| + 1 ensures EntryPlaced(l, log + [e], i) {
      if i < |log| {
        assert EntryPlaced(l, log, i);
        assert (log + [e])[..i + 1] == log[..i + 1];
      }
    }
  }

  lemma ExtendPlacesEntry(l: Ledger, t: Term, e: LogEntry)
    requires MayExtend(l, t, e) && ElectedInv(l, t) && Grows(l, Extend(l, t, e))
    ensures ElectedInv(Extend(l, t, e), t)
  {
    var l' := Extend(l, t, e);
    WellLogGrows(l, l', l.termLog[t]);
    ExtendedWellLog(l', l.termLog[t], e);
    var q :| VotedFor(l, q, t, l.leaderOf[t]);
    assert VotedFor(l', q, t, l'.leaderOf[t]);
  }

  lemma ExtendKeepsLeaders(l: Ledger, t: Term, e: LogEntry)
    requires LeadersInv(l) && MayExtend(l, t, e)
    ensures LeadersInv(Extend(l, t, e))
  {
    hide ElectedInv, Grows;
    var l' := Extend(l, t, e);
    ExtendGrows(l, t, e);
    ExtendPlacesEntry(l, t, e);
    forall t' | t' in l'.termLog && t' != t ensures ElectedInv(l', t') {
      FrameElected(l, l', t');
    }
  }

  /** Nothing new can be chosen in a term once a later leader has been elected. */
  lemma NothingNewAtRisk(l: Ledger, t: Term, t': Term, k: nat)
    requires LeadersInv(l) && VotesInv(l) && t in l.termLog && t' in l.termLog && t < t'
    requires forall v: NodeId :: !HasAcked(l, v, t, k)
    ensures !Choosable(l, t, k)
  {
    assert ElectedInv(l, t');
    var q :| VotedFor(l, q, t', l.leaderOf[t']);
    forall r ensures !QuorumMayAck(l, r, t, k) {
      if Quorum(l.members, r) {
        var v := QuorumsIntersect(l.members, q, r);
        assert (t', v) in l.votes;
        assert !MayAck(l, v, t, k);
      }
    }
  }

  lemma ExtendKeepsCompleteness(l: Ledger, t: Term, e: LogEntry)
    requires LeadersInv(l) && VotesInv(l) && AcksInv(l) && CompletenessInv(l) && MayExtend(l, t, e)
    ensures CompletenessInv(Extend(l, t, e))
  {
    hide LeadersInv, VotesInv, VotesGrow, AcksGrow, PromisesGrow;
    var l' := Extend(l, t, e);
    ExtendGrows(l, t, e);
    forall t': Term, t0: Term, k: nat | t' in l'.termLog && t0 < t' && AtRisk(l', t0, k)
      ensures l'.termLog[t0][..k] <= l'.termLog[t']
    {
      if t0 == t && k == |l'.termLog[t]| {
        assert Choosable(l, t, k) by {
          var r :| QuorumMayAck(l', r, t, k);
          assert QuorumMayAck(l, r, t, k);
        }
        NothingNewAtRisk(l, t, t', k);
      } else {
        RiskShrinks(l, l', t0, k);
      }
    }
  }

  lemma ExtendKeepsHolders(l: Ledger, t: Term, e: LogEntry)
    requires AcksInv(l) && VotesInv(l) && HolderInv(l) && VoterInv(l) && MayExtend(l, t, e)
    ensures HolderInv(Extend(l, t, e)) && VoterInv(Extend(l, t, e))
  {
    var l' := Extend(l, t, e);
    ExtendGrows(l, t, e);
    FrameAcks(l, l');
    FrameHolder(l, l');
    FrameVoter(l, l');
  }

  lemma ExtendKeepsInv(l: Ledger, t: Term, e: LogEntry)
    requires Inv(l) && MayExtend(l, t, e)
    ensures Grows(l, Extend(l, t, e)) && Inv(Extend(l, t, e))
  {
    hide VotesInv, CandidatesInv, LeadersInv, AcksInv, HolderInv, VoterInv, CompletenessInv, CommitInv, Grows;
    var l' := Extend(l, t, e);
    ExtendGrows(l, t, e);
    FrameDurable(l, l');
    FrameVotes(l, l');
    FrameCandidates(l, l');
    ExtendKeepsLeaders(l, t, e);
    FrameAcks(l, l');
    ExtendKeepsHolders(l, t, e);
    ExtendKeepsCompleteness(l, t, e);
    FrameCommit(l, l');
  }

  // ---- A member writes its log ---------------------------------------------

  function Write(l: Ledger, n: NodeId, t: Term, k: nat): Ledger
    requires n in l.dlog && t in l.termLog && k <= |l.termLog[t]|
  {
    l.(dlog := l.dlog[n := Merge(l.dlog[n], l.termLog[t][..k])])
  }

  predicate MayWrite(l: Ledger, n: NodeId, t: Term, k: nat) {
    n in l.members && n in l.promised && l.promised[n] == t && n in l.dlog
    && t in l.termLog && k <= |l.termLog[t]|
  }

  /** What the old log shares with the leader's survives the merge. */
  lemma MergeKeepsCommonPrefix(log: Log, whole: Log, k: nat, x: Log)
    requires k <= |whole| && x <= log && x <= whole
    ensures x <= Merge(log, whole[..k])
  {
    var m := whole[..k];
    if k < |x| {
      assert m == x[..k] == log[..k];
    }
  }

  lemma PrefixWellLog(l: Ledger, log: Log, k: nat)
    requires WellLog(l, log) && k <= |log|
    ensures WellLog(l, log[..k])
  {
    forall i | 0 <= i < k ensures EntryPlaced(l, log[..k], i) {
      assert EntryPlaced(l, log, i);
      assert log[..k][..i + 1] == log[..i + 1];
    }
  }

  lemma MergeWellLog(l: Ledger, log: Log, t: Term, k: nat)
    requires LeadersInv(l) && WellLog(l, log) && t in l.termLog && k <= |l.termLog[t]|
    ensures WellLog(l, Merge(log, l.termLog[t][..k]))
  {
    assert ElectedInv(l, t);
    PrefixWellLog(l, l.termLog[t], k);
  }

  lemma WriteKeepsDurable(l: Ledger, n: NodeId, t: Term, k: nat)
    requires DurableInv(l) && LeadersInv(l) && MayWrite(l, n, t, k)
    ensures DurableInv(Write(l, n, t, k))
  {
    hide LogsGrow, AcksGrow, VotesGrow, WellLog;
    var l' := Write(l, n, t, k);
    forall m | m in l'.members
      ensures m in l'.promised && m in l'.dlog && WellLog(l', l'.dlog[m])
      ensures TermsAtMost(l'.dlog[m], l'.promised[m])
    {
      assert ElectedInv(l, t);
      if m == n {
        MergeWellLog(l, l.dlog[n], t, k);
        WellLogGrows(l, l', l'.dlog[n]);
      } else {
        WellLogGrows(l, l', l.dlog[m]);
      }
    }
  }

  lemma WriteKeepsHolder(l: Ledger, n: NodeId, t: Term, k: nat)
    requires AcksInv(l) && HolderInv(l) && CompletenessInv(l) && MayWrite(l, n, t, k)
    ensures HolderInv(Write(l, n, t, k))
  {
    hide LogsGrow, AcksGrow, VotesGrow;
    var l' := Write(l, n, t, k);
    WriteGrows(l, n, t, k);
    forall v: NodeId, t0: Term, j: nat | HasAcked(l', v, t0, j) && AtRisk(l', t0, j) && v in l'.members
      ensures v in l'.dlog && l'.termLog[t0][..j] <= l'.dlog[v]
    {
      RiskShrinks(l, l', t0, j);
      assert HasAcked(l, v, t0, j);
      if v == n {
        assert (v, t0) in l.acked;
        MergeKeepsCommonPrefix(l.dlog[n], l.termLog[t], k, l.termLog[t0][..j]);
      }
    }
  }

  lemma WriteGrows(l: Ledger, n: NodeId, t: Term, k: nat)
    requires MayWrite(l, n, t, k)
    ensures Grows(l, Write(l, n, t, k))
  {
  }

  lemma WriteKeepsInv(l: Ledger, n: NodeId, t: Term, k: nat)
    requires Inv(l) && MayWrite(l, n, t, k)
    ensures Grows(l, Write(l, n, t, k)) && Inv(Write(l, n, t, k))
  {
    hide VotesInv, CandidatesInv, LeadersInv, AcksInv, HolderInv, VoterInv, CompletenessInv, CommitInv, Grows;
    var l' := Write(l, n, t, k);
    WriteGrows(l, n, t, k);
    WriteKeepsDurable(l, n, t, k);
    FrameVotes(l, l');
    FrameCandidates(l, l');
    FrameLeaders(l, l');
    FrameAcks(l, l');
    WriteKeepsHolder(l, n, t, k);
    FrameVoter(l, l');
    FrameCompleteness(l, l');
    FrameCommit(l, l');
  }

  // ---- Acknowledging -------------------------------------------------------

  function AckedBy(l: Ledger, n: NodeId, t: Term): nat {
    if (n, t) in l.acked then l.acked[(n, t)] else 0
  }

  function Acknowledge(l: Ledger, n: NodeId, t: Term, k: nat): Ledger {
    l.(acked := l.acked[(n, t) := Max(AckedBy(l, n, t), k)])
  }

  predicate MayAcknowledge(l: Ledger, n: NodeId, t: Term, k: nat) {
    n in l.members && n in l.promised && l.promised[n] == t && n in l.dlog
    && t in l.termLog && k <= |l.termLog[t]| && l.termLog[t][..k] <= l.dlog[n]
  }

  lemma AcknowledgeGrows(l: Ledger, n: NodeId, t: Term, k: nat)
    requires MayAcknowledge(l, n, t, k)
    ensures Grows(l, Acknowledge(l, n, t, k))
  {
  }

  lemma AcknowledgeKeepsAcks(l: Ledger, n: NodeId, t: Term, k: nat)
    requires AcksInv(l) && MayAcknowledge(l, n, t, k)
    ensures AcksInv(Acknowledge(l, n, t, k))
    ensures AcksWithin(l, Acknowledge(l, n, t, k))
  {
  }

  lemma AcknowledgeKeepsHolder(l: Ledger, n: NodeId, t: Term, k: nat)
    requires AcksInv(l) && HolderInv(l) && MayAcknowledge(l, n, t, k)
    ensures HolderInv(Acknowledge(l, n, t, k))
  {
    hide LogsGrow, VotesGrow;
    var l' := Acknowledge(l, n, t, k);
    AcknowledgeGrows(l, n, t, k);
    forall v: NodeId, t0: Term, j: nat | HasAcked(l', v, t0, j) && AtRisk(l', t0, j) && v in l'.members
      ensures v in l'.dlog && l'.termLog[t0][..j] <= l'.dlog[v]
    {
      RiskShrinks(l, l', t0, j);
      if (v, t0) == (n, t) && j <= k {
        assert l.termLog[t][..j] == l.termLog[t][..k][..j];
      } else {
        assert HasAcked(l, v, t0, j);
      }
    }
  }

  lemma AcknowledgeKeepsInv(l: Ledger, n: NodeId, t: Term, k: nat)
    requires Inv(l) && MayAcknowledge(l, n, t, k)
    ensures Grows(l, Acknowledge(l, n, t, k)) && Inv(Acknowledge(l, n, t, k))
  {
    hide VotesInv, CandidatesInv, LeadersInv, AcksInv, HolderInv, VoterInv, CompletenessInv, CommitInv, Grows;
    var l' := Acknowledge(l, n, t, k);
    AcknowledgeGrows(l, n, t, k);
    FrameDurable(l, l');
    FrameVotes(l, l');
    FrameCandidates(l, l');
    FrameLeaders(l, l');
    AcknowledgeKeepsAcks(l, n, t, k);
    AcknowledgeKeepsHolder(l, n, t, k);
    FrameVoter(l, l');
    FrameCompleteness(l, l');
    FrameCommit(l, l');
  }

  // ---- A leader's commit index ---------------------------------------------

  function RaiseCommit(l: Ledger, t: Term, c: LogIndex): Ledger {
    l.(commitOf := l.commitOf[t := c])
  }

  lemma RaiseCommitGrows(l: Ledger, t: Term, c: LogIndex)
    requires t in l.commitOf && l.commitOf[t] <= c
    ensures Grows(l, RaiseCommit(l, t, c)) && RaiseCommit(l, t, c).commitOf.Keys == l.commitOf.Keys
  {
  }

  lemma RaiseCommitKeepsInv(l: Ledger, t: Term, c: LogIndex)
    requires Inv(l) && t in l.commitOf && l.commitOf[t] <= c && Covered(l, t, c)
    ensures Grows(l, RaiseCommit(l, t, c)) && Inv(RaiseCommit(l, t, c))
  {
    hide VotesInv, CandidatesInv, LeadersInv, AcksInv, HolderInv, VoterInv, CompletenessInv, CommitInv, Grows;
    var l' := RaiseCommit(l, t, c);
    RaiseCommitGrows(l, t, c);
    FrameDurable(l, l');
    FrameVotes(l, l');
    FrameCandidates(l, l');
    FrameLeaders(l, l');
    FrameAcks(l, l');
    FrameHolder(l, l');
    FrameVoter(l, l');
    FrameCompleteness(l, l');
    FrameCommit(l, l');
  }

  // ---- Consequences --------------------------------------------------------

  /** `log` agrees up to `c` with what a majority has chosen. */
  ghost predicate DecidedTo(l: Ledger, log: Log, c: LogIndex) {
    c <= |log| &&
    (c == 0 || exists t0: Term, k: nat ::
       c <= k && Chosen(l, t0, k) && log[..c] == l.termLog[t0][..c])
  }

  /** Whatever was chosen in a term is in the log of every leader from that term on. */
  lemma LeaderCompleteness(l: Ledger, t0: Term, k: nat, t: Term)
    requires Inv(l) && Chosen(l, t0, k) && t in l.termLog && t0 <= t
    ensures l.termLog[t0][..k] <= l.termLog[t]
  {
    hide DurableInv, VotesInv, CandidatesInv, LeadersInv, AcksInv, HolderInv, VoterInv, CommitInv, Choosable;
    ChosenIsAtRisk(l, t0, k);
  }

  lemma CoveredIsHeld(l: Ledger, t: Term, c: LogIndex)
    requires Inv(l) && t in l.termLog && Covered(l, t, c)
    ensures DecidedTo(l, l.termLog[t], c)
  {
    hide Inv;
    if c != 0 {
      var t0: Term, k: nat :| t0 <= t && c <= k && Chosen(l, t0, k);
      LeaderCompleteness(l, t0, k, t);
      assert l.termLog[t][..c] == l.termLog[t0][..k][..c] == l.termLog[t0][..c];
    }
  }

  lemma ChosenAgree(l: Ledger, t1: Term, k1: nat, t2: Term, k2: nat, c: nat)
    requires Inv(l) && Chosen(l, t1, k1) && Chosen(l, t2, k2) && c <= k1 && c <= k2
    ensures l.termLog[t1][..c] == l.termLog[t2][..c]
  {
    hide Inv;
    if t1 <= t2 {
      LeaderCompleteness(l, t1, k1, t2);
      assert l.termLog[t1][..k1][..c] == l.termLog[t1][..c];
    } else {
      LeaderCompleteness(l, t2, k2, t1);
      assert l.termLog[t2][..k2][..c] == l.termLog[t2][..c];
    }
  }

  /** State machine safety, at the level of the ledger. */
  lemma DecidedAgree(l: Ledger, a: Log, c: LogIndex, b: Log, d: LogIndex, i: nat)
    requires Inv(l) && DecidedTo(l, a, c) && DecidedTo(l, b, d) && i < c && i < d
    ensures a[i] == b[i]
  {
    hide Inv;
    var t1: Term, k1: nat :| c <= k1 && Chosen(l, t1, k1) && a[..c] == l.termLog[t1][..c];
    var t2: Term, k2: nat :| d <= k2 && Chosen(l, t2, k2) && b[..d] == l.termLog[t2][..d];
    ChosenAgree(l, t1, k1, t2, k2, i + 1);
    assert a[i] == a[..c][i] == l.termLog[t1][..i + 1][i];
    assert b[i] == b[..d][i] == l.termLog[t2][..i + 1][i];
  }

  lemma DecidedGrows(l: Ledger, l': Ledger, log: Log, c: LogIndex)
    requires Grows(l, l') && DecidedTo(l, log, c)
    ensures DecidedTo(l', log, c)
  {
    if c != 0 {
      var t0: Term, k: nat :| c <= k && Chosen(l, t0, k) && log[..c] == l.termLog[t0][..c];
      ChosenGrows(l, l', t0, k);
      assert l'.termLog[t0][..c] == l.termLog[t0][..c];
    }
  }

  /** Log matching: the term of an entry fixes everything before it. */
  lemma LogMatching(l: Ledger, a: Log, b: Log, i: nat)
    requires WellLog(l, a) && WellLog(l, b) && i < |a| && i < |b| && a[i].term == b[i].term
    ensures a[..i + 1] == b[..i + 1]
  {
    assert EntryPlaced(l, a, i) && EntryPlaced(l, b, i);
  }
}
