/** The invariant over whole runs, and the safety theorems that follow from it. */
module RaftSafety {
  import opened RaftTypes
  import opened Figure2
  import opened RaftCore
  import opened RaftLedger
  import opened RaftLedgerSteps
  import opened RaftCluster
  import opened RaftInvariant
  import opened RaftFrames
  import opened RaftGating
  import opened RaftHandlers
  import opened RaftNode
  import opened RaftNodeSteps
  import opened RaftDisk

  // ---- The membership ------------------------------------------------------

  lemma {:induction false} DistinctCount(s: seq<NodeId>, members: set<NodeId>)
    requires NoDuplicates(s) && forall m :: m in members <==> m in s
    ensures |members| == |s|
  {
    if s == [] {
      assert members == {};
    } else {
      var front, last := s[..|s| - 1], s[|s| - 1];
      assert last !in front;
      assert forall m :: m in s <==> m in front || m == last;
      DistinctCount(front, members - {last});
    }
  }

  lemma ConfigMembers(config: map<NodeId, seq<NodeId>>, n: NodeId)
    requires Configured(config) && n in config
    ensures MembersAre(config.Keys, n, config[n])
  {
    DistinctCount(config[n], config.Keys - {n});
  }

  // ---- One step ------------------------------------------------------------

  ghost predicate DisksOk(l: Ledger, durable: map<NodeId, Durable>) {
    forall n :: n in durable ==> DiskOk(l, n, durable[n])
  }

  predicate PacketsOk(l: Ledger, sent: set<Packet>) {
    forall p :: p in sent ==> PacketOk(l, p)
  }

  ghost predicate CoresOk(l: Ledger, c: Cluster) {
    forall n :: n in c.up && n in c.durable && n in c.config ==>
      CoreOk(l, n, c.config[n], c.up[n], c.durable[n])
  }

  lemma PacketsGrow(l: Ledger, l': Ledger, sent: set<Packet>)
    requires PacketsOk(l, sent) && Grows(l, l')
    ensures PacketsOk(l', sent)
  {
    hide PacketOk, Grows;
    forall p | p in sent ensures PacketOk(l', p) {
      PacketGrows(l, l', p);
    }
  }

  /** Nodes other than `n` keep their disks and Cores. */
  predicate SameOthers(c: Cluster, c': Cluster, n: NodeId) {
    && c'.config == c.config && c'.durable.Keys == c.durable.Keys
    && (forall m :: m in c.durable && m != n ==> c'.durable[m] == c.durable[m])
    && (forall m :: m in c'.up && m != n ==> m in c.up && c'.up[m] == c.up[m])
  }

  lemma OthersDisks(c: Cluster, c': Cluster, n: NodeId)
    requires DisksOk(c.history.ledger, c.durable) && SameOthers(c, c', n)
    requires Grows(c.history.ledger, c'.history.ledger)
    requires forall m: NodeId :: m != n ==> SameDisk(c.history.ledger, c'.history.ledger, m)
    requires n in c'.durable ==> DiskOk(c'.history.ledger, n, c'.durable[n])
    ensures DisksOk(c'.history.ledger, c'.durable)
  {
    hide DiskOk, Grows, SameDisk;
    forall m | m in c'.durable ensures DiskOk(c'.history.ledger, m, c'.durable[m]) {
      if m != n {
        DiskFrame(c.history.ledger, c'.history.ledger, m, c.durable[m]);
      }
    }
  }

  lemma OthersCores(c: Cluster, c': Cluster, n: NodeId)
    requires CoresOk(c.history.ledger, c) && SameOthers(c, c', n)
    requires Grows(c.history.ledger, c'.history.ledger)
    requires forall m: NodeId :: m != n ==> SameLeadership(c.history.ledger, c'.history.ledger, m)
    requires n in c'.up && n in c'.durable && n in c'.config ==>
               CoreOk(c'.history.ledger, n, c'.config[n], c'.up[n], c'.durable[n])
    ensures CoresOk(c'.history.ledger, c')
  {
    hide CoreOk, Grows, SameLeadership;
    forall m | m in c'.up && m in c'.durable && m in c'.config
      ensures CoreOk(c'.history.ledger, m, c'.config[m], c'.up[m], c'.durable[m])
    {
      if m != n {
        CoreFrame(c.history.ledger, c'.history.ledger, m, c.config[m], c.up[m], c.durable[m]);
      }
    }
  }

  lemma InputIsOk(c: Cluster, a: Action)
    requires ClusterInv(c) && InputOf(c, a).Some?
    ensures InputOk(c.history.ledger, ActionNode(a), c.durable[ActionNode(a)], InputOf(c, a).value)
  {
    hide Inv, DiskOk, CoreOk, Configured, PacketOk;
  }

  /** What a Core step of the cluster is, for the node that takes it. */
  lemma CoreActionOk(c: Cluster, a: Action)
    requires ClusterInv(c) && CoreOutcomeOf(c, a).Stepped?
    ensures var n := ActionNode(a);
      var r := CoreOutcomeOf(c, a);
      && n in c.up && n in c.config && n in c.durable
      && StepOk(c.history.ledger, n, c.config[n], c.up[n], c.durable[n], r.core, r.effects,
                Record(c, n, r.core, r.effects).ledger)
  {
    var n := ActionNode(a);
    InputIsOk(c, a);
    ConfigMembers(c.config, n);
    hide InputOf, Inv, DiskOk, CoreOk, MembersAre, PacketOk, CoreStep, StepOk, InputOk;
    CoreStepOk(c.history.ledger, n, c.config[n], c.up[n], c.durable[n], InputOf(c, a).value);
  }

  lemma ReleasedPackets(l: Ledger, n: NodeId, effects: seq<Effect>, sent: set<Packet>)
    requires PacketsOk(l, sent) && AllSentOk(l, n, effects)
    ensures PacketsOk(l, sent + Released(n, effects))
  {
    hide PacketOk;
  }

  lemma CoreActionKeeps(c: Cluster, n: NodeId, core': Core, effects: seq<Effect>)
    requires ClusterInv(c) && n in c.up && n in c.config && n in c.durable
    requires StepOk(c.history.ledger, n, c.config[n], c.up[n], c.durable[n], core', effects,
                    Record(c, n, core', effects).ledger)
    ensures var c' := AfterCore(c, n, core', effects);
      ClusterInv(c') && Grows(c.history.ledger, c'.history.ledger)
  {
    hide Inv, DiskOk, CoreOk, Configured, PacketOk, Grows, Record, AllSentOk, SameLeadership, SameDisk, Advanced,
        AppliesSlot;
    var c' := AfterCore(c, n, core', effects);
    var l, l' := c.history.ledger, c'.history.ledger;
    DiskFrame(l, l', n, c.durable[n]);
    OthersDisks(c, c', n);
    OthersCores(c, c', n);
    PacketsGrow(l, l', c.sent);
    ReleasedPackets(l', n, effects, c.sent);
    assert l'.members == l.members by { GrowsMembers(l, l'); }
  }

  lemma GrowsMembers(l: Ledger, l': Ledger)
    requires Grows(l, l')
    ensures l'.members == l.members
  {
  }

  /** The cluster after the disk of `n` becomes `d`. */
  function WithDisk(c: Cluster, n: NodeId, d: Durable, l: Ledger): Cluster {
    c.(durable := c.durable[n := d], history := c.history.(ledger := l))
  }

  lemma DiskActionKeeps(c: Cluster, n: NodeId, d: Durable, l': Ledger)
    requires ClusterInv(c) && n in c.config && n in c.durable && n in c.up
    requires Inv(l') && Grows(c.history.ledger, l') && OnlyDisk(c.history.ledger, l', n)
    requires DiskOk(l', n, d) && CoreOk(l', n, c.config[n], c.up[n], d)
    ensures ClusterInv(WithDisk(c, n, d, l'))
  {
    hide Inv, DiskOk, CoreOk, Configured, PacketOk, Grows, SameLeadership, SameDisk;
    var l := c.history.ledger;
    var c' := WithDisk(c, n, d, l');
    assert c'.durable.Keys == c.durable.Keys;
    OthersDisks(c, c', n);
    OthersCores(c, c', n);
    PacketsGrow(l, l', c.sent);
    GrowsMembers(l, l');
  }

  lemma WriteHardKeeps(c: Cluster, n: NodeId)
    requires ClusterInv(c) && n in c.up && n in c.durable && c.up[n].state.pending.Some?
    ensures var c' := AfterWriteHard(c, n, c.up[n].state.pending.value.hard);
      ClusterInv(c') && Grows(c.history.ledger, c'.history.ledger)
  {
    HardWriteOkForCore(c.history.ledger, n, c.config[n], c.up[n], c.durable[n]);
    hide Inv, DiskOk, CoreOk, Configured, PacketOk, Grows, OnlyDisk, RecordVote;
    var h := c.up[n].state.pending.value.hard;
    DiskActionKeeps(c, n, c.durable[n].(hard := h), RecordVote(c.history.ledger, n, c.durable[n].hard, h));
  }

  lemma WriteLogKeeps(c: Cluster, n: NodeId)
    requires ClusterInv(c) && n in c.up && n in c.durable && c.up[n].pendingLog.Some?
    ensures var c' := AfterWriteLog(c, n, c.up[n].pendingLog.value.log);
      ClusterInv(c') && Grows(c.history.ledger, c'.history.ledger)
  {
    LogWriteOkForCore(c.history.ledger, n, c.config[n], c.up[n], c.durable[n]);
    hide Inv, DiskOk, CoreOk, Configured, PacketOk, Grows, OnlyDisk;
    var log := c.up[n].pendingLog.value.log;
    var l := c.history.ledger;
    DiskActionKeeps(c, n, c.durable[n].(log := log), l.(dlog := l.dlog[n := log]));
  }

  function AfterWriteApplied(c: Cluster, n: NodeId): Cluster
    requires n in c.up && n in c.durable && c.up[n].application.Some?
  {
    c.(durable := c.durable[n := c.durable[n].(applied := c.up[n].application.value.entry.index)])
  }

  lemma WriteAppliedKeeps(c: Cluster, n: NodeId)
    requires ClusterInv(c) && n in c.up && n in c.durable && c.up[n].application.Some?
    ensures ClusterInv(AfterWriteApplied(c, n))
  {
    AppliedWriteOkForCore(c.history.ledger, n, c.config[n], c.up[n], c.durable[n]);
    NothingChanged(c.history.ledger, n);
    GrowsReflexive(c.history.ledger);
    hide Inv, DiskOk, CoreOk, Configured, PacketOk, Grows, OnlyDisk;
    DiskActionKeeps(c, n, AfterWriteApplied(c, n).durable[n], c.history.ledger);
  }

  lemma CrashKeeps(c: Cluster, n: NodeId)
    requires ClusterInv(c)
    ensures ClusterInv(c.(up := c.up - {n}))
  {
    hide Inv, DiskOk, CoreOk, Configured, PacketOk;
  }

  lemma RestartKeeps(c: Cluster, n: NodeId)
    requires ClusterInv(c) && CanRestart(c, n)
    ensures ClusterInv(c.(up := c.up[n := Reborn(c, n)]))
  {
    RebornOk(c.history.ledger, n, c.config[n], c.durable[n], c.maxReads, c.maxHistory);
    hide Inv, DiskOk, CoreOk, Configured, PacketOk, Reborn;
  }

  /** Every step of the cluster keeps the invariant, and the ledger only grows. */
  lemma NextKeeps(c: Cluster, a: Action)
    requires ClusterInv(c) && Next(c, a).Some?
    ensures var c' := Next(c, a).value; ClusterInv(c') && Grows(c.history.ledger, c'.history.ledger)
  {
    hide ClusterInv, Grows, CoreOutcomeOf, AfterCore, AfterWriteHard, AfterWriteLog, CanRestart, Reborn, StepOk;
    var n := ActionNode(a);
    var l := c.history.ledger;
    match a {
      case WriteHard(_) => WriteHardKeeps(c, n);
      case WriteLog(_) => WriteLogKeeps(c, n);
      case WriteApplied(_) => WriteAppliedKeeps(c, n); GrowsReflexive(l);
      case Crash(_) => CrashKeeps(c, n); GrowsReflexive(l);
      case Restart(_) => RestartKeeps(c, n); GrowsReflexive(l);
      case _ =>
        CoreActionOk(c, a);
        CoreActionKeeps(c, n, CoreOutcomeOf(c, a).core, CoreOutcomeOf(c, a).effects);
    }
  }

  lemma InitOk(c: Cluster)
    requires Init(c)
    ensures ClusterInv(c)
  {
    InitLedger(c.config.Keys, c.history.ledger);
    hide Inv, Configured;
  }

  lemma InitLedger(members: set<NodeId>, l: Ledger)
    requires l == Ledger(members, map n | n in members :: 0, map n | n in members :: [],
                         map[], map[], map[], map[], map[], map[])
    ensures Inv(l)
  {
    assert forall v: NodeId, t: Term, k: nat :: !HasAcked(l, v, t, k);
  }

  // ---- Runs ----------------------------------------------------------------

  function LedgerAt(r: Run, i: nat): Ledger
    requires i < |r.states|
  {
    r.states[i].history.ledger
  }

  lemma {:induction false} RunInv(r: Run, i: nat)
    requires IsRun(r) && i < |r.states|
    ensures ClusterInv(r.states[i])
  {
    hide Init, Next, ClusterInv;
    if i == 0 {
      InitOk(r.states[0]);
    } else {
      RunInv(r, i - 1);
      RunNext(r, i - 1);
      NextKeeps(r.states[i - 1], r.actions[i - 1]);
    }
  }

  lemma {:induction false} RunGrows(r: Run, i: nat, j: nat)
    requires IsRun(r) && i <= j < |r.states|
    ensures Grows(LedgerAt(r, i), LedgerAt(r, j))
  {
    hide Init, Next, ClusterInv, Grows;
    if i == j {
      GrowsReflexive(LedgerAt(r, i));
    } else {
      RunGrows(r, i, j - 1);
      RunInv(r, j - 1);
      RunNext(r, j - 1);
      NextKeeps(r.states[j - 1], r.actions[j - 1]);
      GrowsTransitive(LedgerAt(r, i), LedgerAt(r, j - 1), LedgerAt(r, j));
    }
  }

  /** Node `n` is up in state `i`. */
  predicate Up(r: Run, i: nat, n: NodeId) {
    i < |r.states| && n in r.states[i].up
  }

  function StateAt(r: Run, i: nat, n: NodeId): State
    requires Up(r, i, n)
  {
    r.states[i].up[n].state
  }

  lemma NodeOk(r: Run, i: nat, n: NodeId)
    requires IsRun(r) && Up(r, i, n)
    ensures n in r.states[i].config && n in r.states[i].durable
    ensures CoreOk(LedgerAt(r, i), n, r.states[i].config[n], r.states[i].up[n], r.states[i].durable[n])
    ensures Inv(LedgerAt(r, i))
  {
    hide IsRun, Inv, DiskOk, PacketOk, CoreOk, Configured;
    RunInv(r, i);
  }

  // ---- Election safety -----------------------------------------------------

  lemma LeaderIsRecorded(r: Run, i: nat, n: NodeId)
    requires IsRun(r) && Up(r, i, n) && StateAt(r, i, n).role.Leader?
    ensures var l := LedgerAt(r, i);
      var s := StateAt(r, i, n);
      && s.term in l.leaderOf && l.leaderOf[s.term] == n
      && s.term in l.termLog && l.termLog[s.term] == s.log
      && s.term in l.commitOf && l.commitOf[s.term] == s.commit
      && Inv(l)
  {
    NodeOk(r, i, n);
    hide IsRun, Inv, Valid, WellLog, LogRelated, CandidateOk, CommitOk, CoreQueue, ApplicationOk, SelfAcked;
  }

  lemma LeaderStaysRecorded(l: Ledger, l': Ledger, t: Term)
    requires Grows(l, l') && t in l.leaderOf && t in l.termLog && t in l.commitOf
    ensures t in l'.leaderOf && l'.leaderOf[t] == l.leaderOf[t]
    ensures t in l'.termLog && l.termLog[t] <= l'.termLog[t]
    ensures t in l'.commitOf && l.commitOf[t] <= l'.commitOf[t]
  {
    hide VotesGrow, AcksGrow, PromisesGrow;
  }

  /** No term ever has two leaders, at any two moments of a run. */
  lemma ElectionSafety(r: Run, i: nat, j: nat, n: NodeId, m: NodeId)
    requires IsRun(r) && i <= j && Up(r, i, n) && Up(r, j, m)
    requires StateAt(r, i, n).role.Leader? && StateAt(r, j, m).role.Leader?
    requires StateAt(r, i, n).term == StateAt(r, j, m).term
    ensures n == m
  {
    hide IsRun, Inv, Grows;
    LeaderIsRecorded(r, i, n);
    LeaderIsRecorded(r, j, m);
    RunGrows(r, i, j);
    LeaderStaysRecorded(LedgerAt(r, i), LedgerAt(r, j), StateAt(r, i, n).term);
  }

  // ---- Log matching --------------------------------------------------------

  lemma LogIsWell(r: Run, i: nat, n: NodeId)
    requires IsRun(r) && Up(r, i, n)
    ensures WellLog(LedgerAt(r, i), StateAt(r, i, n).log)
  {
    NodeOk(r, i, n);
    hide IsRun, Inv, Valid, WellLog, LogRelated, CandidateOk, LeaderOk, CommitOk, CoreQueue, ApplicationOk, SelfAcked;
  }

  lemma GrowsWell(l: Ledger, l': Ledger, log: Log)
    requires Grows(l, l') && WellLog(l, log)
    ensures WellLog(l', log)
  {
    hide VotesGrow, AcksGrow, PromisesGrow, LogsGrow, WellLog;
    WellLogGrows(l, l', log);
  }

  /** If two logs, at any two moments, have entries with the same index and term, they agree
      up to that index. */
  lemma LogsMatch(r: Run, i: nat, j: nat, n: NodeId, m: NodeId, k: nat)
    requires IsRun(r) && i <= j && Up(r, i, n) && Up(r, j, m)
    requires k < |StateAt(r, i, n).log| && k < |StateAt(r, j, m).log|
    requires StateAt(r, i, n).log[k].term == StateAt(r, j, m).log[k].term
    ensures StateAt(r, i, n).log[..k + 1] == StateAt(r, j, m).log[..k + 1]
  {
    hide IsRun, Grows, WellLog;
    LogIsWell(r, i, n);
    LogIsWell(r, j, m);
    RunGrows(r, i, j);
    GrowsWell(LedgerAt(r, i), LedgerAt(r, j), StateAt(r, i, n).log);
    LogMatching(LedgerAt(r, j), StateAt(r, i, n).log, StateAt(r, j, m).log, k);
  }

  // ---- Leader completeness -------------------------------------------------

  lemma CommitIsCovered(l: Ledger, t: Term)
    requires Inv(l) && t in l.commitOf
    ensures Covered(l, t, l.commitOf[t])
  {
    hide DurableInv, VotesInv, CandidatesInv, LeadersInv, AcksInv, HolderInv, VoterInv, CompletenessInv, Covered;
  }

  /** What a leader has committed is in the log of every later leader of that or a later term. */
  lemma LeadersComplete(r: Run, i: nat, j: nat, n: NodeId, m: NodeId)
    requires IsRun(r) && i <= j && Up(r, i, n) && Up(r, j, m)
    requires StateAt(r, i, n).role.Leader? && StateAt(r, j, m).role.Leader?
    requires StateAt(r, i, n).term <= StateAt(r, j, m).term
    ensures var s := StateAt(r, i, n);
      s.commit <= |s.log| && s.log[..s.commit] <= StateAt(r, j, m).log
  {
    hide IsRun, Inv, Grows, Covered, DecidedTo;
    var s, s' := StateAt(r, i, n), StateAt(r, j, m);
    var l, l' := LedgerAt(r, i), LedgerAt(r, j);
    LeaderIsRecorded(r, i, n);
    LeaderIsRecorded(r, j, m);
    RunGrows(r, i, j);
    LeaderStaysRecorded(l, l', s.term);
    CommitIsCovered(l, s.term);
    CoveredIsHeld(l, s.term, s.commit);
    CoveredGrows(l, l', s.term, s.term, s.commit);
    CoveredGrows(l, l', s.term, s'.term, s.commit);
    CoveredIsHeld(l', s'.term, s.commit);
    DecidedGrows(l, l', s.log, s.commit);
    DecidedPrefix(l', s.log, s.commit, s'.log, s.commit);
  }

  lemma DecidedLength(l: Ledger, log: Log, c: LogIndex)
    requires DecidedTo(l, log, c)
    ensures c <= |log|
  {
    hide Chosen;
  }

  lemma DecidedPrefix(l: Ledger, a: Log, c: LogIndex, b: Log, d: LogIndex)
    requires Inv(l) && DecidedTo(l, a, c) && DecidedTo(l, b, d) && c <= d
    ensures c <= |a| && c <= |b| && a[..c] == b[..c]
  {
    hide Inv, DecidedTo;
    DecidedLength(l, a, c);
    DecidedLength(l, b, d);
    forall i | 0 <= i < c ensures a[i] == b[i] {
      DecidedAgree(l, a, c, b, d, i);
    }
  }

  // ---- State machine safety ------------------------------------------------

  /** Step `i` hands entry `e` to the state machine of its node. */
  ghost predicate Applies(r: Run, i: nat, e: LogEntry) {
    i < |r.actions| && i < |r.states| &&
    exists id: nat :: ApplyEntry(id, e) in EffectsOf(r.states[i], r.actions[i])
  }

  lemma SlotIsDecided(l: Ledger, n: NodeId, peers: seq<NodeId>, c: Core, d: Durable)
    requires CoreOk(l, n, peers, c, d) && c.application.Some?
    ensures var s, e := c.state, c.application.value.entry;
      && e.index == s.applied + 1 && s.applied < s.commit <= |s.log| && s.log[s.applied] == e
      && DecidedTo(l, s.log, s.commit)
  {
    ApplicationIndex(l, n, peers, c, d);
    hide WellLog, LogRelated, CandidateOk, LeaderOk, CoreQueue, SelfAcked, DecidedTo, Claimed, Valid;
  }

  lemma CoreActionNext(c: Cluster, a: Action)
    requires CoreOutcomeOf(c, a).Stepped?
    ensures var r := CoreOutcomeOf(c, a);
      ActionNode(a) in c.up && Next(c, a) == Some(AfterCore(c, ActionNode(a), r.core, r.effects))
  {
    hide CoreStep, AfterCore;
  }

  /** An entry handed to a state machine is the next one in its node's log, and decided. */
  lemma AppliedIsDecided(r: Run, i: nat, e: LogEntry)
    requires IsRun(r) && Applies(r, i, e)
    ensures i < |r.actions| && i + 1 < |r.states|
    ensures var n := ActionNode(r.actions[i]);
      && Up(r, i + 1, n)
      && var s := StateAt(r, i + 1, n);
         && e.index == s.applied + 1 && s.applied < s.commit <= |s.log| && s.log[s.applied] == e
         && DecidedTo(LedgerAt(r, i + 1), s.log, s.commit)
  {
    var a, c, n := r.actions[i], r.states[i], ActionNode(r.actions[i]);
    assert Next(c, a) == Some(r.states[i + 1]);
    var out := CoreOutcomeOf(c, a);
    hide IsRun, CoreOutcomeOf, Next, DecidedTo, ClusterInv, Inv, CoreOk, Grows, Untouched, AllSentOk, Advanced, Record;
    RunInv(r, i);
    CoreActionOk(c, a);
    CoreActionNext(c, a);
    SlotIsDecided(LedgerAt(r, i + 1), n, c.config[n], out.core, c.durable[n]);
  }

  /** Two entries ever handed to state machines at the same index are the same entry, whatever
      crashes, losses, duplicates and reorderings happened. */
  lemma StateMachineSafety(r: Run, i: nat, j: nat, e: LogEntry, f: LogEntry)
    requires IsRun(r) && i <= j && Applies(r, i, e) && Applies(r, j, f) && e.index == f.index
    ensures e == f
  {
    hide IsRun, Applies, DecidedTo, Grows, Inv, ClusterInv;
    AppliedIsDecided(r, i, e);
    AppliedIsDecided(r, j, f);
    RunGrows(r, i + 1, j + 1);
    RunLedger(r, j + 1);
    var s := StateAt(r, i + 1, ActionNode(r.actions[i]));
    var s' := StateAt(r, j + 1, ActionNode(r.actions[j]));
    DecidedGrows(LedgerAt(r, i + 1), LedgerAt(r, j + 1), s.log, s.commit);
    DecidedAgree(LedgerAt(r, j + 1), s.log, s.commit, s'.log, s'.commit, e.index - 1);
  }

  lemma RunLedger(r: Run, i: nat)
    requires IsRun(r) && i < |r.states|
    ensures Inv(LedgerAt(r, i))
  {
    hide IsRun, Inv;
    RunInv(r, i);
  }

  // ---- Nothing leaves before it is durable ---------------------------------

  lemma QuiescentIsDurable(l: Ledger, n: NodeId, peers: seq<NodeId>, c: Core, d: Durable)
    requires CoreOk(l, n, peers, c, d) && Quiescent(c)
    ensures d.hard == Hard(c.state) && d.log == c.state.log
  {
    hide StateOk, ApplicationOk, SelfAcked, QueueOk, SendsOk;
  }

  /** When a step sends a message, the disk of its node holds exactly the term, vote and log
      that the node then has: no vote, RequestVote, replication or acknowledgement leaves before
      the state it speaks for is durable. */
  lemma SentIsDurable(r: Run, i: nat, e: Effect)
    requires IsRun(r) && i < |r.actions| && i < |r.states|
    requires e in EffectsOf(r.states[i], r.actions[i]) && e.Send?
    ensures i + 1 < |r.states|
    ensures var n := ActionNode(r.actions[i]);
      && Up(r, i + 1, n) && n in r.states[i + 1].durable
      && r.states[i + 1].durable[n].hard == Hard(StateAt(r, i + 1, n))
      && r.states[i + 1].durable[n].log == StateAt(r, i + 1, n).log
  {
    var a, c, n := r.actions[i], r.states[i], ActionNode(r.actions[i]);
    assert Next(c, a) == Some(r.states[i + 1]);
    var out := CoreOutcomeOf(c, a);
    assert out.Stepped? && e in out.effects;
    hide IsRun, CoreOutcomeOf, Next, ClusterInv, Inv, CoreOk, Grows, Untouched, AllSentOk, Advanced, Record, Quiescent,
        EffectsOf;
    RunInv(r, i);
    CoreActionOk(c, a);
    CoreActionNext(c, a);
    QuiescentIsDurable(LedgerAt(r, i + 1), n, c.config[n], out.core, c.durable[n]);
  }

  // ---- What one life of a node keeps ---------------------------------------

  /** Node `n` neither crashes nor restarts between states `i` and `j`. */
  predicate Alive(r: Run, n: NodeId, i: nat, j: nat) {
    && i <= j < |r.states| && |r.states| == |r.actions| + 1
    && (forall k :: i <= k <= j ==> n in r.states[k].up)
    && (forall k :: i <= k < j ==> r.actions[k] != Crash(n) && r.actions[k] != Restart(n))
  }

  /** In one step of its life a node's term and indexes never fall, at most one more entry is
      applied, and its committed prefix never changes. */
  lemma StepAdvances(c: Cluster, a: Action, c': Cluster, n: NodeId)
    requires ClusterInv(c) && Next(c, a) == Some(c') && n in c.up && n in c'.up
    requires a != Restart(n)
    ensures Advanced(c.up[n].state, c'.up[n].state)
  {
    hide Inv, DiskOk, CoreOk, PacketOk, Configured, CoreOutcomeOf, Advanced;
    if CoreOutcomeOf(c, a).Stepped? && ActionNode(a) == n {
      CoreActionOk(c, a);
      CoreActionNext(c, a);
      hide Next;
    } else {
      UnchangedNode(c, a, c', n);
      SelfAdvanced(c.history.ledger, n, c.config[n], c.up[n].state, c.durable[n]) by { CoreHasState(c, n); }
    }
  }

  lemma CoreHasState(c: Cluster, n: NodeId)
    requires ClusterInv(c) && n in c.up
    ensures n in c.config && n in c.durable
    ensures StateOk(c.history.ledger, n, c.config[n], c.up[n].state, c.durable[n])
  {
    hide Inv, DiskOk, PacketOk, Configured, StateOk, CoreQueue, SelfAcked, ApplicationOk;
    assert CoreOk(c.history.ledger, n, c.config[n], c.up[n], c.durable[n]);
  }

  lemma UnchangedNode(c: Cluster, a: Action, c': Cluster, n: NodeId)
    requires Next(c, a) == Some(c') && n in c.up && n in c'.up && a != Restart(n)
    requires !(CoreOutcomeOf(c, a).Stepped? && ActionNode(a) == n)
    ensures c'.up[n] == c.up[n]
  {
    hide CoreOutcomeOf, Record, Released, RecordVote, Reborn, CanRestart;
  }

  lemma {:induction false} LifeAdvances(r: Run, n: NodeId, i: nat, j: nat)
    requires IsRun(r) && Alive(r, n, i, j)
    ensures var s, s' := StateAt(r, i, n), StateAt(r, j, n);
      && s.term <= s'.term && s.commit <= s'.commit && s.applied <= s'.applied
      && s.commit <= |s.log| && s.commit <= |s'.log| && s'.log[..s.commit] == s.log[..s.commit]
  {
    hide IsRun, Next, ClusterInv;
    if i == j {
      NodeOk(r, i, n);
      SelfAdvanced(LedgerAt(r, i), n, r.states[i].config[n], StateAt(r, i, n), r.states[i].durable[n]) by {
        RunInv(r, i);
        CoreHasState(r.states[i], n);
      }
    } else {
      LifeAdvances(r, n, i, j - 1);
      RunInv(r, j - 1);
      StepAdvances(r.states[j - 1], r.actions[j - 1], r.states[j], n) by { RunNext(r, j - 1); }
      var s, s1, s' := StateAt(r, i, n), StateAt(r, j - 1, n), StateAt(r, j, n);
      assert s'.log[..s.commit] == s'.log[..s1.commit][..s.commit];
      assert s1.log[..s.commit] == s1.log[..s1.commit][..s.commit];
    }
  }

  lemma RunLengths(r: Run)
    requires IsRun(r)
    ensures |r.states| == |r.actions| + 1
  {
  }

  lemma RunNext(r: Run, i: nat)
    requires IsRun(r) && i < |r.actions|
    ensures i + 1 < |r.states| && Next(r.states[i], r.actions[i]) == Some(r.states[i + 1])
  {
  }

  // ---- Ordered application -------------------------------------------------

  /** Within one life of a node, a later application never goes back: entries reach the state
      machine in index order, and an index is repeated only while it has not completed. */
  lemma ApplicationsInOrder(r: Run, n: NodeId, i: nat, j: nat, e: LogEntry, f: LogEntry)
    requires IsRun(r) && Applies(r, i, e) && Applies(r, j, f) && i < j
    requires ActionNode(r.actions[i]) == n && ActionNode(r.actions[j]) == n && Alive(r, n, i + 1, j + 1)
    ensures e.index <= f.index
    ensures e.index == f.index ==> StateAt(r, j + 1, n).applied < e.index
    ensures f.index == StateAt(r, j + 1, n).applied + 1
  {
    hide IsRun, Applies, DecidedTo;
    AppliedIsDecided(r, i, e);
    AppliedIsDecided(r, j, f);
    LifeAdvances(r, n, i + 1, j + 1);
  }
}
