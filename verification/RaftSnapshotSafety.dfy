/** Where the hypothesis on installed snapshots comes from: the snapshots that nodes of a cluster
    take of their applied state agree with whatever any other node has committed, ever. */
module RaftSnapshotSafety {
  import opened RaftTypes
  import opened Figure2
  import opened RaftCluster
  import opened RaftInvariant
  import opened RaftSafety
  import opened RaftCommit
  import opened RaftSnapshots

  /** The mark of a snapshot of everything the node has applied. */
  function MarkOf(s: State): SnapshotMark
    requires 0 < s.applied <= |s.log|
  {
    SnapshotMark(s.applied, s.log[s.applied - 1].term)
  }

  lemma AppliedIsCommitted(r: Run, i: nat, n: NodeId)
    requires IsRun(r) && Up(r, i, n)
    ensures var s := StateAt(r, i, n); s.applied <= s.commit <= |s.log| && s.snapshot.None?
  {
    hide IsRun, ClusterInv;
    RunInv(r, i);
    CoreHasState(r.states[i], n);
    hide LogRelated, CandidateOk, LeaderOk, CommitOk;
  }

  /** The entries of two nodes at two moments, in either order, agree where both are committed. */
  lemma CommittedAtAnyTime(r: Run, i: nat, j: nat, n: NodeId, m: NodeId, k: nat)
    requires IsRun(r) && Disciplined(r) && Up(r, i, n) && Up(r, j, m)
    requires k < StateAt(r, i, n).commit && k < StateAt(r, j, m).commit
    ensures k < |StateAt(r, i, n).log| && k < |StateAt(r, j, m).log|
    ensures StateAt(r, i, n).log[k] == StateAt(r, j, m).log[k]
  {
    hide IsRun, Disciplined;
    if i <= j { CommittedEntriesAgree(r, i, j, n, m, k); } else { CommittedEntriesAgree(r, j, i, m, n, k); }
  }

  /** In every run that follows the disk rule, a snapshot of any node's applied state at any
      moment is a snapshot that every node, at every moment, may be sent: it is the snapshot that
      node would take itself, or reaches beyond what it has committed. */
  lemma TakenSnapshotsAgree(r: Run, i: nat, j: nat, n: NodeId, m: NodeId, q: InstallRequest)
    requires IsRun(r) && Disciplined(r) && Up(r, i, n) && Up(r, j, m)
    requires 0 < StateAt(r, j, m).applied <= |StateAt(r, j, m).log| && q.metadata.mark == MarkOf(StateAt(r, j, m))
    ensures Agrees(StateAt(r, i, n), q)
  {
    hide IsRun, Disciplined;
    AppliedIsCommitted(r, i, n);
    AppliedIsCommitted(r, j, m);
    var s, index := StateAt(r, i, n), q.metadata.mark.index;
    if index <= s.commit {
      CommittedAtAnyTime(r, i, j, n, m, index - 1);
    }
  }

  /** Taking such a snapshot is what Core does: the mark it writes is the mark above. */
  lemma CreatedMarkIs(x: SnapCore, request: SnapshotRequest)
    requires x.core.state.snapshot.None? && x.pending.None? && BeginSnapshot(x, request).x.pending.Some?
    ensures var s := x.core.state;
      0 < s.applied <= |s.log| && BeginSnapshot(x, request).x.pending.value.snapshot.metadata.mark == MarkOf(s)
  {
    hide SortNodes, Members;
  }
}
