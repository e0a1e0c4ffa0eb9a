/** When a node can start again: its disk always satisfies what the constructor asks for, except that
    the applied index may be ahead of the log. */
module RaftRestart {
  import opened RaftTypes
  import opened Figure2
  import opened RaftCore
  import opened RaftLedger
  import opened RaftCluster
  import opened RaftInvariant
  import opened RaftSafety
  import opened HardStateStore

  lemma DiskLog(l: Ledger, n: NodeId, d: Durable)
    requires Inv(l) && DiskOk(l, n, d)
    ensures forall i :: 0 <= i < |d.log| ==> d.log[i].index == i + 1 && 0 < d.log[i].term <= d.hard.term
  {
    hide VotesInv, CandidatesInv, LeadersInv, AcksInv, HolderInv, VoterInv, CompletenessInv, CommitInv, Claimed;
    assert WellLog(l, d.log) && TermsAtMost(d.log, d.hard.term);
    forall i | 0 <= i < |d.log| ensures d.log[i].index == i + 1 && 0 < d.log[i].term <= d.hard.term {
      assert EntryPlaced(l, d.log, i);
    }
  }

  lemma RecoveredIsValid(n: NodeId, peers: seq<NodeId>, d: Durable)
    requires ConfigValid(n, peers)
    requires forall i :: 0 <= i < |d.log| ==> d.log[i].index == i + 1 && 0 < d.log[i].term <= d.hard.term
    ensures Valid(Recovered(n, peers, d.hard, d.log, d.applied)) <==> d.applied <= |d.log|
  {
  }

  lemma DiskOf(c: Cluster, n: NodeId)
    requires ClusterInv(c) && n in c.config
    ensures n in c.durable && DiskOk(c.history.ledger, n, c.durable[n]) && Inv(c.history.ledger)
    ensures ConfigValid(n, c.config[n])
    ensures forall m :: m in c.history.ledger.members ==> m == n || m in c.config[n]
  {
    hide Inv, DiskOk, PacketOk, CoreOk, ConfigValid;
  }

  /** In every run, a node that is down can start if and only if its log on disk reaches its applied
      index on disk. */
  lemma RestartIff(r: Run, i: nat, n: NodeId)
    requires IsRun(r) && i < |r.states| && n in r.states[i].config && n !in r.states[i].up
    ensures n in r.states[i].durable
    ensures CanRestart(r.states[i], n) <==> r.states[i].durable[n].applied <= |r.states[i].durable[n].log|
  {
    hide IsRun, ClusterInv, Inv, DiskOk, Valid, Recovered;
    RunInv(r, i);
    var c := r.states[i];
    DiskOf(c, n);
    var d := c.durable[n];
    DiskLog(c.history.ledger, n, d);
    RecoveredIsValid(n, c.config[n], d);
    if d.hard.vote.Some? { RecordedVoteIsReal(c.history.ledger, n, d); }
  }
}
