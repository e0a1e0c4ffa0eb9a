/** Agreement on committed entries, and the driver discipline it needs.

    An application may complete while a log or hard-state write is still in flight, so the
    record of the applied index can reach the disk before the entry does. A crash then brings the
    node back with a commit index that covers an entry nobody decided. What was handed to the
    state machines still agrees (`RaftSafety.StateMachineSafety`). The logs up to the commit
    indexes agree in every run whose driver writes the applied index only when the log on disk
    already reaches it, and a node that is restarted after a write against this rule comes back
    committed to something else (`RebornAgreesIff`). */
module RaftCommit {
  import opened RaftTypes
  import opened Figure2
  import opened RaftCore
  import opened RaftLedger
  import opened RaftLedgerSteps
  import opened RaftCluster
  import opened RaftInvariant
  import opened RaftGating
  import opened RaftHandlers
  import opened RaftReplication
  import opened RaftNode
  import opened RaftSafety
  import opened RaftScenarios
  import opened RaftRounds

  ghost predicate DiskPrecise(l: Ledger, d: Durable) {
    DecidedTo(l, d.log, d.applied)
  }

  ghost predicate NodePrecise(l: Ledger, c: Core) {
    DecidedTo(l, c.state.log, c.state.commit)
  }

  /** Every commit index, and every durable applied index, covers only decided entries. */
  ghost predicate Precise(c: Cluster) {
    && (forall n :: n in c.durable ==> DiskPrecise(c.history.ledger, c.durable[n]))
    && (forall n :: n in c.up ==> NodePrecise(c.history.ledger, c.up[n]))
  }

  /** The disk of `n` already holds the log up to the entry being applied. */
  predicate EntryOnDisk(c: Cluster, n: NodeId) {
    n in c.up && n in c.durable && c.up[n].application.Some? &&
    var index := c.up[n].application.value.entry.index;
    && index <= |c.durable[n].log| && index <= |c.up[n].state.log|
    && c.durable[n].log[..index] == c.up[n].state.log[..index]
  }

  /** The driver's rule, which it can check before it writes. */
  predicate Follows(c: Cluster, a: Action) {
    a.WriteApplied? ==> EntryOnDisk(c, a.node)
  }

  lemma DecidedDown(l: Ledger, log: Log, c: LogIndex, c': LogIndex)
    requires DecidedTo(l, log, c) && c' <= c
    ensures DecidedTo(l, log, c')
  {
    if c' != 0 {
      var t0: Term, k: nat :| c <= k && Chosen(l, t0, k) && log[..c] == l.termLog[t0][..c];
      assert log[..c'] == log[..c][..c'] == l.termLog[t0][..c'];
    }
  }

  lemma CoreStepPrecise(l: Ledger, n: NodeId, peers: seq<NodeId>, c: Core, d: Durable,
                        c': Core, effects: seq<Effect>, l': Ledger)
    requires NodePrecise(l, c) && StepOk(l, n, peers, c, d, c', effects, l')
    ensures NodePrecise(l', c')
  {
    hide StepOk, Grows, DecidedTo, CoreOk;
    StepFacts(l, n, peers, c, d, c', effects, l');
    StepCommit(l', n, peers, c', d);
    if c'.state.applied >= c'.state.commit {
      DecidedGrows(l, l', c.state.log, c.state.commit);
      DecidedSamePrefix(l', c.state.log, c'.state.log, c.state.commit);
    }
  }

  lemma StepFacts(l: Ledger, n: NodeId, peers: seq<NodeId>, c: Core, d: Durable,
                  c': Core, effects: seq<Effect>, l': Ledger)
    requires StepOk(l, n, peers, c, d, c', effects, l')
    ensures Grows(l, l') && CoreOk(l', n, peers, c', d) && Advanced(c.state, c'.state)
  {
    hide Inv, Untouched, CoreOk, AllSentOk, AppliesSlot, Grows, Advanced;
  }

  lemma StepCommit(l: Ledger, n: NodeId, peers: seq<NodeId>, c: Core, d: Durable)
    requires CoreOk(l, n, peers, c, d)
    ensures c.state.applied <= c.state.commit
    ensures c.state.applied < c.state.commit ==> DecidedTo(l, c.state.log, c.state.commit)
    ensures d.applied <= c.state.commit
    ensures c.application.Some? ==>
      c.application.value.entry.index == c.state.applied + 1 <= c.state.commit <= |c.state.log|
  {
    ValidLog(l, c.state);
    hide WellLog, LogRelated, CandidateOk, LeaderOk, CoreQueue, SelfAcked, DecidedTo, Claimed, Covered, Doomed, Valid;
  }

  lemma CoreCommit(c: Cluster, n: NodeId)
    requires ClusterInv(c) && n in c.up
    ensures n in c.durable && n in c.config
    ensures var s, d := c.up[n].state, c.durable[n];
      && d.applied <= s.commit
      && (c.up[n].application.Some? ==>
            c.up[n].application.value.entry.index == s.applied + 1 <= s.commit <= |s.log|)
  {
    hide Inv, DiskOk, PacketOk, Configured, CoreOk;
    StepCommit(c.history.ledger, n, c.config[n], c.up[n], c.durable[n]);
  }

  lemma PreciseGrows(c: Cluster, l': Ledger)
    requires Precise(c) && Grows(c.history.ledger, l')
    ensures forall n :: n in c.durable ==> DiskPrecise(l', c.durable[n])
    ensures forall n :: n in c.up ==> NodePrecise(l', c.up[n])
  {
    hide Grows, DecidedTo;
    forall n | n in c.durable ensures DiskPrecise(l', c.durable[n]) {
      DecidedGrows(c.history.ledger, l', c.durable[n].log, c.durable[n].applied);
    }
    forall n | n in c.up ensures NodePrecise(l', c.up[n]) {
      DecidedGrows(c.history.ledger, l', c.up[n].state.log, c.up[n].state.commit);
    }
  }

  lemma CoreActionPrecise(c: Cluster, a: Action)
    requires ClusterInv(c) && Precise(c) && CoreOutcomeOf(c, a).Stepped?
    ensures Next(c, a).Some? && Precise(Next(c, a).value)
  {
    var n, r := ActionNode(a), CoreOutcomeOf(c, a);
    hide CoreOutcomeOf, ClusterInv, DecidedTo, Next, Record, StepOk, Grows;
    CoreActionOk(c, a);
    CoreActionNext(c, a);
    NextKeeps(c, a);
    var c' := Next(c, a).value;
    PreciseGrows(c, c'.history.ledger);
    CoreStepPrecise(c.history.ledger, n, c.config[n], c.up[n], c.durable[n], r.core, r.effects, c'.history.ledger);
  }

  lemma WriteLogPrecise(c: Cluster, n: NodeId)
    requires ClusterInv(c) && Precise(c) && n in c.up && n in c.durable && c.up[n].pendingLog.Some?
    ensures Precise(AfterWriteLog(c, n, c.up[n].pendingLog.value.log))
  {
    hide ClusterInv, DecidedTo, Grows;
    CoreCommit(c, n);
    PendingLogIs(c, n);
    WriteLogKeeps(c, n);
    var log := c.up[n].state.log;
    var l' := AfterWriteLog(c, n, log).history.ledger;
    DecidedDown(c.history.ledger, log, c.up[n].state.commit, c.durable[n].applied);
    DecidedGrows(c.history.ledger, l', log, c.durable[n].applied);
    PreciseWithDisk(c, n, c.durable[n].(log := log), l');
  }

  lemma PreciseWithDisk(c: Cluster, n: NodeId, d: Durable, l': Ledger)
    requires Precise(c) && Grows(c.history.ledger, l') && DiskPrecise(l', d)
    ensures Precise(WithDisk(c, n, d, l'))
  {
    PreciseGrows(c, l');
    hide Grows, DiskPrecise, NodePrecise;
  }

  lemma PendingLogIs(c: Cluster, n: NodeId)
    requires ClusterInv(c) && n in c.up && c.up[n].pendingLog.Some?
    ensures c.up[n].pendingLog.value.log == c.up[n].state.log
  {
    hide Inv, DiskOk, PacketOk, Configured, StateOk, QueueOk, SelfAcked, ApplicationOk, SendsOk;
    assert CoreOk(c.history.ledger, n, c.config[n], c.up[n], c.durable[n]);
  }

  /** Writing the applied index keeps the disk right if and only if the entries are there. */
  lemma WriteAppliedPreciseIff(c: Cluster, n: NodeId)
    requires ClusterInv(c) && Precise(c) && n in c.up && n in c.durable && c.up[n].application.Some?
    ensures DiskPrecise(c.history.ledger, AfterWriteApplied(c, n).durable[n]) <==> EntryOnDisk(c, n)
  {
    CoreCommit(c, n);
    ClusterLedger(c);
    var l, s, d := c.history.ledger, c.up[n].state, c.durable[n];
    var index := c.up[n].application.value.entry.index;
    hide ClusterInv, Inv, DecidedTo;
    DecidedDown(l, s.log, s.commit, index);
    if DecidedTo(l, d.log, index) {
      DecidedPrefix(l, d.log, index, s.log, index);
    }
    if EntryOnDisk(c, n) {
      DecidedSamePrefix(l, s.log, d.log, index);
    }
  }

  lemma ClusterLedger(c: Cluster)
    requires ClusterInv(c)
    ensures Inv(c.history.ledger)
  {
    hide Inv;
  }

  lemma NextPrecise(c: Cluster, a: Action)
    requires ClusterInv(c) && Precise(c) && Next(c, a).Some? && Follows(c, a)
    ensures Precise(Next(c, a).value)
  {
    hide ClusterInv, DecidedTo, CoreOutcomeOf, AfterWriteHard, AfterWriteLog, Record, Constructible;
    var n := ActionNode(a);
    match a {
      case WriteHard(_) => WriteHardPrecise(c, n);
      case WriteLog(_) => WriteLogPrecise(c, n);
      case WriteApplied(_) => WriteAppliedPreciseIff(c, n);
      case Crash(_) =>
      case Restart(_) =>
      case _ => CoreActionPrecise(c, a);
    }
  }

  lemma WriteHardPrecise(c: Cluster, n: NodeId)
    requires ClusterInv(c) && Precise(c) && n in c.up && n in c.durable && c.up[n].state.pending.Some?
    ensures Precise(AfterWriteHard(c, n, c.up[n].state.pending.value.hard))
  {
    hide ClusterInv, DecidedTo, Grows, RecordVote;
    WriteHardKeeps(c, n);
    PreciseGrows(c, AfterWriteHard(c, n, c.up[n].state.pending.value.hard).history.ledger);
  }

  // ---- Runs ----------------------------------------------------------------

  predicate Disciplined(r: Run) {
    forall i :: 0 <= i < |r.actions| && i < |r.states| ==> Follows(r.states[i], r.actions[i])
  }

  lemma {:induction false} RunPrecise(r: Run, i: nat)
    requires IsRun(r) && Disciplined(r) && i < |r.states|
    ensures Precise(r.states[i])
  {
    hide Next, ClusterInv, DecidedTo, Follows, Init;
    if i == 0 {
      StartPrecise(r);
    } else {
      RunPrecise(r, i - 1);
      RunInv(r, i - 1);
      RunNext(r, i - 1);
      NextPrecise(r.states[i - 1], r.actions[i - 1]);
    }
  }

  lemma StartPrecise(r: Run)
    requires IsRun(r)
    ensures |r.states| > 0 && Precise(r.states[0])
  {
    hide Next, Configured;
  }

  /** In every disciplined run, two nodes whose commit indexes ever cover an index hold the
      same entry there. */
  lemma CommittedEntriesAgree(r: Run, i: nat, j: nat, n: NodeId, m: NodeId, k: nat)
    requires IsRun(r) && Disciplined(r) && i <= j && Up(r, i, n) && Up(r, j, m)
    requires k < StateAt(r, i, n).commit && k < StateAt(r, j, m).commit
    ensures k < |StateAt(r, i, n).log| && k < |StateAt(r, j, m).log|
    ensures StateAt(r, i, n).log[k] == StateAt(r, j, m).log[k]
  {
    hide IsRun, Disciplined, DecidedTo, Grows, Inv;
    RunPrecise(r, i);
    RunPrecise(r, j);
    RunGrows(r, i, j);
    RunLedger(r, j);
    var s, s' := StateAt(r, i, n), StateAt(r, j, m);
    DecidedLength(LedgerAt(r, i), s.log, s.commit);
    DecidedLength(LedgerAt(r, j), s'.log, s'.commit);
    DecidedGrows(LedgerAt(r, i), LedgerAt(r, j), s.log, s.commit);
    DecidedAgree(LedgerAt(r, j), s.log, s.commit, s'.log, s'.commit, k);
  }

  /** A chosen prefix that the node's log agrees with. */
  ghost predicate ChosenBehind(l: Ledger, log: Log, c: LogIndex, t0: Term, k: nat) {
    c <= |log| && c <= k && Chosen(l, t0, k) && log[..c] == l.termLog[t0][..c]
  }

  /** In every disciplined run, what any node has committed is in the log of every later leader
      from some term on, and that term had a leader already. */
  lemma CommittedReachesLeaders(r: Run, i: nat, n: NodeId) returns (t0: Term)
    requires IsRun(r) && Disciplined(r) && Up(r, i, n)
    ensures StateAt(r, i, n).commit <= |StateAt(r, i, n).log|
    ensures StateAt(r, i, n).commit > 0 ==> t0 in LedgerAt(r, i).termLog
    ensures forall j, m :: i <= j && Up(r, j, m) && StateAt(r, j, m).role.Leader? && t0 <= StateAt(r, j, m).term ==>
      StateAt(r, i, n).log[..StateAt(r, i, n).commit] <= StateAt(r, j, m).log
  {
    hide IsRun, Disciplined, Chosen, Inv, ChosenBehind;
    RunPrecise(r, i);
    var s, l := StateAt(r, i, n), LedgerAt(r, i);
    if s.commit == 0 {
      t0 := 0;
    } else {
      var t, k := DecidedBehind(l, s.log, s.commit);
      t0 := t;
      forall j, m | i <= j && Up(r, j, m) && StateAt(r, j, m).role.Leader? && t0 <= StateAt(r, j, m).term
        ensures s.log[..s.commit] <= StateAt(r, j, m).log
      {
        LeaderHolds(r, i, n, t, k, j, m);
      }
    }
  }

  lemma DecidedBehind(l: Ledger, log: Log, c: LogIndex) returns (t0: Term, k: nat)
    requires DecidedTo(l, log, c) && c > 0
    ensures ChosenBehind(l, log, c, t0, k) && t0 in l.termLog
  {
    t0, k :| c <= k && Chosen(l, t0, k) && log[..c] == l.termLog[t0][..c];
  }

  lemma ChosenHasLeader(l: Ledger, t0: Term, k: nat)
    requires Chosen(l, t0, k)
    ensures t0 in l.termLog && k <= |l.termLog[t0]|
  {
  }

  lemma LeaderHolds(r: Run, i: nat, n: NodeId, t0: Term, k: nat, j: nat, m: NodeId)
    requires IsRun(r) && Up(r, i, n)
    requires ChosenBehind(LedgerAt(r, i), StateAt(r, i, n).log, StateAt(r, i, n).commit, t0, k)
    requires i <= j && Up(r, j, m) && StateAt(r, j, m).role.Leader? && t0 <= StateAt(r, j, m).term
    ensures StateAt(r, i, n).log[..StateAt(r, i, n).commit] <= StateAt(r, j, m).log
  {
    hide IsRun, Chosen, Inv, Grows;
    var l, l', s := LedgerAt(r, i), LedgerAt(r, j), StateAt(r, i, n);
    LeaderIsRecorded(r, j, m);
    RunGrows(r, i, j);
    ChosenHasLeader(l, t0, k);
    ChosenGrows(l, l', t0, k);
    TermLogGrows(l, l', t0);
    LeaderCompleteness(l', t0, k, StateAt(r, j, m).term);
    assert l'.termLog[t0][..k][..s.commit] == l.termLog[t0][..s.commit];
  }

  lemma TermLogGrows(l: Ledger, l': Ledger, t: Term)
    requires Grows(l, l') && t in l.termLog
    ensures t in l'.termLog && l.termLog[t] <= l'.termLog[t]
  {
  }

  // ---- Breaking the rule ---------------------------------------------------

  /** The applied index has been written and the node has crashed. */
  function Lost(c: Cluster, n: NodeId): Cluster
    requires n in c.up && n in c.durable && c.up[n].application.Some?
  {
    AfterWriteApplied(c, n).(up := c.up - {n})
  }

  lemma RebornRun(r: Run, n: NodeId) returns (r': Run)
    requires IsRun(r) && n in End(r).up && n in End(r).durable && End(r).up[n].application.Some?
    requires CanRestart(Lost(End(r), n), n)
    ensures Continues(r, r') && r'.actions == r.actions + [WriteApplied(n), Crash(n), Restart(n)]
    ensures n in End(r).config && n in End(r').up && End(r').up[n] == Reborn(Lost(End(r), n), n)
  {
    hide IsRun, CanRestart, Reborn;
    RunLengths(r);
    RestartNeeds(Lost(End(r), n), n);
    var c := End(r);
    var c1, c2 := AfterWriteApplied(c, n), Lost(c, n);
    var c3 := c2.(up := c2.up[n := Reborn(c2, n)]);
    assert Next(c, WriteApplied(n)) == Some(c1) && Next(c1, Crash(n)) == Some(c2) && Next(c2, Restart(n)) == Some(c3);
    hide Next;
    AfterDisk(r, WriteApplied(n), c1);
    var r1 := Then(r, WriteApplied(n), c1);
    AfterDisk(r1, Crash(n), c2);
    var r2 := Then(r1, Crash(n), c2);
    AfterDisk(r2, Restart(n), c3);
    r' := Then(r2, Restart(n), c3);
    ContinuesOn(r, r1, r2);
    ContinuesOn(r, r2, r');
  }

  predicate SameUpTo(a: Log, b: Log, index: LogIndex) {
    index <= |a| && index <= |b| && forall k :: 0 <= k < index ==> a[k] == b[k]
  }

  lemma SamePrefix(a: Log, b: Log, index: LogIndex)
    requires index <= |a| && index <= |b|
    ensures SameUpTo(a, b, index) <==> a[..index] == b[..index]
  {
    if a[..index] == b[..index] {
      assert forall k :: 0 <= k < index ==> a[k] == a[..index][k] && b[k] == b[..index][k];
    }
  }

  /** The disk's log and the node's log agree up to any index at which their entries agree. */
  lemma DiskMatches(c: Cluster, n: NodeId, k: nat)
    requires ClusterInv(c) && n in c.up
    ensures n in c.durable
    ensures k < |c.durable[n].log| && k < |c.up[n].state.log| && c.durable[n].log[k] == c.up[n].state.log[k] ==>
      c.durable[n].log[..k + 1] == c.up[n].state.log[..k + 1]
  {
    hide ClusterInv, Inv, WellLog, StateOk, DiskOk, DurableInv;
    CoreHasState(c, n);
    ClusterLedger(c);
    var l, a, b := c.history.ledger, c.durable[n].log, c.up[n].state.log;
    DiskIsWell(c, n);
    NodeIsWell(l, n, c.config[n], c.up[n].state, c.durable[n]);
    if k < |a| && k < |b| && a[k] == b[k] { LogMatching(l, a, b, k); }
  }

  lemma DiskIsWell(c: Cluster, n: NodeId)
    requires ClusterInv(c) && n in c.durable
    ensures WellLog(c.history.ledger, c.durable[n].log)
  {
    hide VotesInv, CandidatesInv, LeadersInv, AcksInv, HolderInv, VoterInv, CompletenessInv, CommitInv;
    hide CoreOk, PacketOk, Configured, WellLog;
    assert DiskOk(c.history.ledger, n, c.durable[n]);
  }

  lemma NodeIsWell(l: Ledger, n: NodeId, peers: seq<NodeId>, s: State, d: Durable)
    requires StateOk(l, n, peers, s, d)
    ensures WellLog(l, s.log)
  {
    hide Valid, WellLog, LogRelated, CandidateOk, LeaderOk, CommitOk;
  }

  /** A node that records an applied index, crashes and comes back is committed to what it was
      committed to, and to the entry it handed out, if and only if the driver kept the rule. */
  lemma RebornAgreesIff(r: Run, n: NodeId) returns (r': Run)
    requires IsRun(r) && n in End(r).up && n in End(r).durable && End(r).up[n].application.Some?
    requires CanRestart(Lost(End(r), n), n)
    ensures Continues(r, r') && r'.actions == r.actions + [WriteApplied(n), Crash(n), Restart(n)] && n in End(r').up
    ensures var s, s', entry := End(r).up[n].state, End(r').up[n].state, End(r).up[n].application.value.entry;
      && 0 < entry.index <= s.commit && s'.commit == entry.index && s'.commit <= |s'.log|
      && (SameUpTo(s.log, s'.log, s'.commit) <==> EntryOnDisk(End(r), n))
      && (s'.log[s'.commit - 1] == entry <==> EntryOnDisk(End(r), n))
  {
    hide IsRun, ClusterInv, Constructible;
    r' := RebornRun(r, n);
    RunLengths(r);
    var c := End(r);
    RunInv(r, |r.states| - 1);
    CoreCommit(c, n);
    ApplicationEntry(c, n);
    var s, d, index := c.up[n].state, c.durable[n], c.up[n].application.value.entry.index;
    assert index <= |d.log| by { RestartReaches(Lost(c, n), n); }
    SamePrefix(s.log, d.log, index);
    DiskMatches(c, n, index - 1);
    if EntryOnDisk(c, n) {
      assert d.log[index - 1] == d.log[..index][index - 1] == s.log[..index][index - 1];
    }
  }

  lemma RestartReaches(c: Cluster, n: NodeId)
    requires CanRestart(c, n)
    ensures c.durable[n].applied <= |c.durable[n].log|
  {
  }

  lemma ApplicationEntry(c: Cluster, n: NodeId)
    requires ClusterInv(c) && n in c.up && c.up[n].application.Some?
    ensures n in c.durable && n in c.config
    ensures var s, e := c.up[n].state, c.up[n].application.value.entry;
      s.applied < |s.log| && e == s.log[s.applied] && e.index == s.applied + 1
  {
    hide Inv, DiskOk, PacketOk, Configured;
    assert CoreOk(c.history.ledger, n, c.config[n], c.up[n], c.durable[n]);
    hide Linked, CoreQueue, SelfAcked;
  }
}
