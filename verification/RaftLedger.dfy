/** The protocol facts of a whole cluster, without messages, roles or volatile state.

    A ledger holds what every member has made durable (`promised`, `dlog`) and a history of
    what has ever been decided: durable votes, the log each candidate stood with, the log of
    each term's leader, the acknowledgements given in each term, and each leader's commit
    index. Every step of a run changes the ledger by one or two of the transitions below, each
    of which keeps `Inv`; the safety theorems are consequences of `Inv` alone. */
module RaftLedger {
  import opened RaftTypes

  type Log = seq<LogEntry>

  datatype Ledger = Ledger(
    members: set<NodeId>,
    promised: map<NodeId, Term>,
    dlog: map<NodeId, Log>,
    votes: map<(Term, NodeId), NodeId>,
    candLog: map<(Term, NodeId), Log>,
    termLog: map<Term, Log>,
    leaderOf: map<Term, NodeId>,
    commitOf: map<Term, LogIndex>,
    acked: map<(NodeId, Term), nat>)

  // ---- Quorums -------------------------------------------------------------

  predicate Quorum(members: set<NodeId>, q: set<NodeId>) {
    q <= members && |q| >= |members| / 2 + 1
  }

  lemma CardinalityMonotone(a: set<NodeId>, b: set<NodeId>)
    requires a <= b
    ensures |a| <= |b|
  {
    assert b == a + (b - a);
  }

  lemma QuorumsIntersect(members: set<NodeId>, q: set<NodeId>, r: set<NodeId>) returns (v: NodeId)
    requires Quorum(members, q) && Quorum(members, r)
    ensures v in q && v in r
  {
    if q * r == {} {
      assert |q + r| == |q| + |r|;
      CardinalityMonotone(q + r, members);
      assert false;
    }
    v :| v in q * r;
  }

  // ---- Logs ----------------------------------------------------------------

  function LastTermOf(log: Log): Term {
    if log == [] then 0 else log[|log| - 1].term
  }

  /** The freshness test of section 5.4.1, on whole logs. */
  predicate AtLeastAsFresh(candidate: Log, voter: Log) {
    LastTermOf(candidate) > LastTermOf(voter)
    || (LastTermOf(candidate) == LastTermOf(voter) && |candidate| >= |voter|)
  }

  /** Each entry's prefix is a prefix of the log of the leader that wrote the entry. */
  predicate WellLog(l: Ledger, log: Log) {
    forall i :: 0 <= i < |log| ==> EntryPlaced(l, log, i)
  }

  predicate EntryPlaced(l: Ledger, log: Log, i: nat)
    requires i < |log|
  {
    && log[i].index == i + 1
    && 0 < log[i].term
    && log[i].term in l.termLog
    && log[..i + 1] <= l.termLog[log[i].term]
  }

  predicate TermsAtMost(log: Log, t: Term) {
    forall i :: 0 <= i < |log| ==> log[i].term <= t
  }

  /** What a follower's log becomes when it accepts a prefix `m` of the leader's log. */
  function Merge(log: Log, m: Log): Log {
    if m <= log then log else m
  }

  // ---- Choosing ------------------------------------------------------------

  predicate HasAcked(l: Ledger, v: NodeId, t: Term, k: nat) {
    (v, t) in l.acked && l.acked[(v, t)] >= k
  }

  /** `v` has acknowledged, or may still acknowledge, index `k` in term `t`. */
  predicate MayAck(l: Ledger, v: NodeId, t: Term, k: nat) {
    v in l.promised && (HasAcked(l, v, t, k) || l.promised[v] <= t)
  }

  predicate QuorumMayAck(l: Ledger, q: set<NodeId>, t: Term, k: nat) {
    Quorum(l.members, q) && forall v :: v in q ==> MayAck(l, v, t, k)
  }

  ghost predicate Choosable(l: Ledger, t: Term, k: nat) {
    exists q :: QuorumMayAck(l, q, t, k)
  }

  predicate QuorumAcked(l: Ledger, q: set<NodeId>, t: Term, k: nat) {
    Quorum(l.members, q) && forall v :: v in q ==> HasAcked(l, v, t, k)
  }

  /** Index `k` of term `t`'s log is an entry of that term itself. */
  predicate OwnEntry(l: Ledger, t: Term, k: nat) {
    t in l.termLog && 1 <= k <= |l.termLog[t]| && l.termLog[t][k - 1].term == t
  }

  /** A majority durably holds term `t`'s log up to an entry of term `t`. */
  ghost predicate Chosen(l: Ledger, t: Term, k: nat) {
    OwnEntry(l, t, k) && exists q :: QuorumAcked(l, q, t, k)
  }

  ghost predicate AtRisk(l: Ledger, t: Term, k: nat) {
    OwnEntry(l, t, k) && Choosable(l, t, k)
  }

  // ---- The invariant -------------------------------------------------------

  predicate DurableInv(l: Ledger) {
    forall n :: n in l.members ==>
      n in l.promised && n in l.dlog && WellLog(l, l.dlog[n]) && TermsAtMost(l.dlog[n], l.promised[n])
  }

  predicate VotesInv(l: Ledger) {
    forall key :: key in l.votes ==>
      && key.1 in l.members && key.1 in l.promised && key.0 <= l.promised[key.1]
      && (key.0, l.votes[key]) in l.candLog
  }

  predicate CandidatesInv(l: Ledger) {
    forall key :: key in l.candLog ==>
      && key.1 in l.members && key.1 in l.promised && key.0 <= l.promised[key.1] && 0 < key.0
      && key in l.votes && l.votes[key] == key.1
      && WellLog(l, l.candLog[key])
      && TermsAtMost(l.candLog[key], key.0 - 1)
  }

  predicate VotedFor(l: Ledger, q: set<NodeId>, t: Term, n: NodeId) {
    Quorum(l.members, q) && forall v :: v in q ==> (t, v) in l.votes && l.votes[(t, v)] == n
  }

  ghost predicate ElectedInv(l: Ledger, t: Term)
    requires t in l.termLog
  {
    && t in l.leaderOf && t in l.commitOf
    && (t, l.leaderOf[t]) in l.candLog
    && l.candLog[(t, l.leaderOf[t])] <= l.termLog[t]
    && (forall i :: |l.candLog[(t, l.leaderOf[t])]| <= i < |l.termLog[t]| ==> l.termLog[t][i].term == t)
    && WellLog(l, l.termLog[t])
    && TermsAtMost(l.termLog[t], t)
    && exists q :: VotedFor(l, q, t, l.leaderOf[t])
  }

  ghost predicate LeadersInv(l: Ledger) {
    && (forall t :: t in l.termLog ==> ElectedInv(l, t))
    && l.leaderOf.Keys == l.termLog.Keys && l.commitOf.Keys == l.termLog.Keys
  }

  predicate AcksInv(l: Ledger) {
    forall key :: key in l.acked ==>
      && key.0 in l.promised && key.1 <= l.promised[key.0]
      && key.1 in l.termLog && l.acked[key] <= |l.termLog[key.1]|
  }

  /** A member keeps whatever it acknowledged, while it can still be chosen. */
  ghost predicate HolderInv(l: Ledger) {
    forall v: NodeId, t: Term, k: nat :: HasAcked(l, v, t, k) && AtRisk(l, t, k) && v in l.members ==>
      v in l.dlog && l.termLog[t][..k] <= l.dlog[v]
  }

  /** A vote goes only to a candidate that holds what the voter acknowledged earlier. */
  ghost predicate VoterInv(l: Ledger) {
    forall t': Term, v: NodeId, t: Term, k: nat ::
      (t', v) in l.votes && t < t' && HasAcked(l, v, t, k) && AtRisk(l, t, k) ==>
        (t', l.votes[(t', v)]) in l.candLog && l.termLog[t][..k] <= l.candLog[(t', l.votes[(t', v)])]
  }

  /** Leader completeness, for everything that can still be chosen. */
  ghost predicate CompletenessInv(l: Ledger) {
    forall t': Term, t: Term, k: nat ::
      t' in l.termLog && t < t' && AtRisk(l, t, k) ==> l.termLog[t][..k] <= l.termLog[t']
  }

  /** Commit index `c` is covered by a choice made in term `t` or before. */
  ghost predicate Covered(l: Ledger, t: Term, c: LogIndex) {
    c == 0 || exists t0: Term, k: nat :: t0 <= t && c <= k && Chosen(l, t0, k)
  }

  ghost predicate CommitInv(l: Ledger) {
    forall t :: t in l.commitOf ==> Covered(l, t, l.commitOf[t])
  }

  ghost predicate Inv(l: Ledger) {
    && DurableInv(l) && VotesInv(l) && CandidatesInv(l) && LeadersInv(l) && AcksInv(l)
    && HolderInv(l) && VoterInv(l) && CompletenessInv(l) && CommitInv(l)
  }
}
