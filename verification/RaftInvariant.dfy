/** What holds of every node, disk and packet in every reachable cluster, stated against the
    ledger. */
module RaftInvariant {
  import opened RaftTypes
  import opened Figure2
  import opened RaftCore
  import opened RaftLedger
  import opened RaftLedgerSteps
  import opened RaftCluster

  function Hard(s: State): HardState {
    HardState(s.term, s.vote)
  }

  // ---- Disks ---------------------------------------------------------------

  /** Some leader has, or had, a commit index of at least `c`. */
  ghost predicate Claimed(l: Ledger, c: LogIndex) {
    c == 0 || exists t :: t in l.commitOf && c <= l.commitOf[t]
  }

  predicate VoteRecorded(l: Ledger, n: NodeId, hard: HardState) {
    if hard.vote.Some?
    then (hard.term, n) in l.votes && l.votes[(hard.term, n)] == hard.vote.value
    else (hard.term, n) !in l.votes
  }

  ghost predicate DiskOk(l: Ledger, n: NodeId, d: Durable) {
    && n in l.members
    && n in l.promised && l.promised[n] == d.hard.term
    && n in l.dlog && l.dlog[n] == d.log
    && VoteRecorded(l, n, d.hard)
    && Claimed(l, d.applied)
  }

  // ---- Packets -------------------------------------------------------------

  function PreviousTerm(log: Log, previous: nat): Term
    requires previous <= |log|
  {
    if previous == 0 then 0 else log[previous - 1].term
  }

  /** A slice of the log of its term's leader. */
  predicate AppendOk(l: Ledger, m: Message)
    requires m.AppendRequest?
  {
    && m.term in l.termLog && m.term in l.leaderOf && l.leaderOf[m.term] == m.leader
    && m.previous + |m.entries| <= |l.termLog[m.term]|
    && m.entries == l.termLog[m.term][m.previous..m.previous + |m.entries|]
    && m.previousTerm == PreviousTerm(l.termLog[m.term], m.previous)
    && m.term in l.commitOf && m.leaderCommit <= l.commitOf[m.term]
  }

  predicate PacketOk(l: Ledger, p: Packet) {
    match p.msg
    case VoteRequest(t, c, lastIndex, lastTerm) =>
      && p.from == c && (t, c) in l.candLog
      && |l.candLog[(t, c)]| == lastIndex && LastTermOf(l.candLog[(t, c)]) == lastTerm
    case VoteResponse(t, granted) =>
      granted ==> (t, p.from) in l.votes && l.votes[(t, p.from)] == p.to
    case AppendRequest(_, from, _, _, _, _, _) => p.from == from && AppendOk(l, p.msg)
    case AppendResponse(t, succeeded, matched, _) =>
      succeeded ==> HasAcked(l, p.from, t, matched)
  }

  lemma PacketGrows(l: Ledger, l': Ledger, p: Packet)
    requires Grows(l, l') && PacketOk(l, p)
    ensures PacketOk(l', p)
  {
    if p.msg.AppendRequest? {
      var t := p.msg.term;
      assert l.termLog[t] <= l'.termLog[t];
    }
  }

  // ---- Effects that wait ---------------------------------------------------

  /** A message is right for state `s`, once `s` is durable. */
  predicate SendOk(l: Ledger, s: State, e: Effect)
    requires e.Send?
  {
    match e.msg
    case VoteRequest(t, c, lastIndex, lastTerm) =>
      && s.role.Candidate? && t == s.term && c == s.node
      && lastIndex == |s.log| && lastTerm == LastTermOf(s.log)
    case VoteResponse(t, granted) => granted ==> t == s.term && s.vote == Some(e.to)
    case AppendRequest(_, from, _, _, _, _, _) => from == s.node && AppendOk(l, e.msg)
    case AppendResponse(t, succeeded, matched, _) =>
      succeeded ==>
        && t == s.term && t in l.termLog && matched <= |l.termLog[t]|
        && l.termLog[t][..matched] <= s.log
  }

  /** Effects that Core adds itself; no handler produces them. */
  predicate CoreOnly(e: Effect) {
    e.ApplyEntry? || e.ReadAnswered?
  }

  /** An effect that is neither a message nor a timer. */
  predicate IsPersist(e: Effect) {
    e.PersistHard? || e.PersistState? || e.PersistLog? || CoreOnly(e)
  }

  predicate NoHardWrite(effects: seq<Effect>) {
    forall i :: 0 <= i < |effects| ==> !effects[i].PersistHard?
  }

  predicate NoLogWrite(effects: seq<Effect>) {
    forall i :: 0 <= i < |effects| ==> !effects[i].PersistState? && !effects[i].PersistLog?
  }

  predicate NoApply(effects: seq<Effect>) {
    forall i :: 0 <= i < |effects| ==> !CoreOnly(effects[i])
  }

  /** Hard-state writes come first, then at most one log write, then the messages. */
  predicate Ordered(effects: seq<Effect>) {
    && (forall i, j :: 0 <= i < j < |effects| && IsPersist(effects[j]) ==> !effects[i].Send?)
    && (forall i, j :: 0 <= i < j < |effects| && IsPersist(effects[j]) ==> !effects[i].PersistState?)
    && (forall i :: 0 <= i < |effects| ==> !effects[i].PersistLog? && !CoreOnly(effects[i]))
  }

  predicate SendsOk(l: Ledger, s: State, effects: seq<Effect>) {
    forall i :: 0 <= i < |effects| && effects[i].Send? ==> SendOk(l, s, effects[i])
  }

  /** A write that a disk holding `a` accepts: terms rise, a vote is set once per term. */
  predicate HardStep(a: HardState, b: HardState) {
    a == b || a.term < b.term || (a.term == b.term && a.vote.None?)
  }

  /** The last hard-state write of `[h] + rest` is the node's current hard state. */
  predicate HardTail(s: State, h: HardState, rest: seq<Effect>) {
    || (NoHardWrite(rest) && h == Hard(s))
    || (|rest| > 0 && rest[0].PersistHard? && rest[0].hard == Hard(s)
        && NoHardWrite(rest[1..]) && h == HardState(s.term, None)
        && s.vote.Some? && s.vote.value != s.node)
  }

  /** A vote that is about to be written is one the ledger allows. */
  predicate VoteJustified(l: Ledger, s: State, d: Durable) {
    s.vote.Some? && d.hard != Hard(s) ==>
      && s.log == d.log
      && if s.vote.value == s.node then s.role.Candidate? && d.hard.term < s.term
         else (s.term, s.vote.value) in l.candLog
              && AtLeastAsFresh(l.candLog[(s.term, s.vote.value)], s.log)
  }

  predicate HardQueue(l: Ledger, s: State, d: Durable, effects: seq<Effect>) {
    var k := FirstPersist(effects);
    if k == |effects| then d.hard == Hard(s)
    else HardStep(d.hard, effects[k].hard) && HardTail(s, effects[k].hard, effects[k + 1..])
         && VoteJustified(l, s, d)
  }

  predicate QueueOk(l: Ledger, s: State, d: Durable, effects: seq<Effect>) {
    && Ordered(effects) && SendsOk(l, s, effects) && HardQueue(l, s, d, effects)
    && (NoLogWrite(effects) ==> d.log == s.log)
  }

  // ---- States --------------------------------------------------------------

  predicate MergedTo(l: Ledger, s: State, d: Durable, k: nat) {
    s.term in l.termLog && k <= |l.termLog[s.term]| && s.log == Merge(d.log, l.termLog[s.term][..k])
  }

  ghost predicate LogRelated(l: Ledger, s: State, d: Durable) {
    s.log == d.log || exists k: nat :: MergedTo(l, s, d, k)
  }

  /** A majority has moved past term `t` without electing `n`. */
  predicate DoomedBy(l: Ledger, q: set<NodeId>, t: Term, n: NodeId) {
    Quorum(l.members, q) &&
    forall v :: v in q ==>
      v in l.promised && l.promised[v] > t && !((t, v) in l.votes && l.votes[(t, v)] == n)
  }

  ghost predicate Doomed(l: Ledger, t: Term, n: NodeId) {
    exists q :: DoomedBy(l, q, t, n)
  }

  predicate CandidateOk(l: Ledger, s: State, d: Durable) {
    s.role.Candidate? ==>
      && s.vote == Some(s.node) && s.log == d.log && s.node in s.votes
      && !(s.term in l.leaderOf && l.leaderOf[s.term] == s.node)
      && (d.hard.term == s.term ==>
            (s.term, s.node) in l.candLog && l.candLog[(s.term, s.node)] == s.log)
      && (forall v :: v in s.votes && v != s.node ==>
            (s.term, v) in l.votes && l.votes[(s.term, v)] == s.node)
  }

  predicate LeaderOk(l: Ledger, s: State, d: Durable) {
    s.role.Leader? ==>
      && s.leader.Some? && d.hard == Hard(s) && d.log <= s.log
      && s.term in l.termLog && l.termLog[s.term] == s.log
      && s.term in l.leaderOf && l.leaderOf[s.term] == s.node
      && s.term in l.commitOf && l.commitOf[s.term] == s.commit
      && (forall p :: p in s.leader.value.progress ==>
            p in s.peers &&
            (s.leader.value.progress[p].match_ == 0
             || HasAcked(l, p, s.term, s.leader.value.progress[p].match_)))
  }

  ghost predicate CommitOk(l: Ledger, s: State) {
    && Claimed(l, s.commit)
    && (s.role.Candidate? ==> Covered(l, s.term, s.commit) || Doomed(l, s.term, s.node))
    && (s.applied < s.commit ==> DecidedTo(l, s.log, s.commit))
  }

  ghost predicate Linked(l: Ledger, n: NodeId, peers: seq<NodeId>, s: State, d: Durable) {
    && s.node == n && s.peers == peers && s.snapshot.None?
    && WellLog(l, s.log)
    && LogRelated(l, s, d)
    && CandidateOk(l, s, d) && LeaderOk(l, s, d) && CommitOk(l, s)
  }

  ghost predicate StateOk(l: Ledger, n: NodeId, peers: seq<NodeId>, s: State, d: Durable) {
    Valid(s) && Linked(l, n, peers, s, d)
  }

  // ---- Cores ---------------------------------------------------------------

  predicate CoreQueue(l: Ledger, c: Core, d: Durable) {
    if c.state.pending.Some? then
      var p := c.state.pending.value;
      c.pendingLog.None? && QueueOk(l, c.state, d, [PersistHard(p.id, p.hard)] + p.deferred)
    else if c.pendingLog.Some? then
      var p := c.pendingLog.value;
      && d.hard == Hard(c.state) && p.log == c.state.log
      && NoLogWrite(p.deferred) && NoApply(p.deferred) && NoHardWrite(p.deferred)
      && SendsOk(l, c.state, p.deferred)
    else
      d.hard == Hard(c.state) && d.log == c.state.log
  }

  predicate ApplicationOk(c: Core, d: Durable) {
    && (c.application.Some? ==>
          && c.state.applied < c.state.commit <= |c.state.log|
          && c.application.value.entry == c.state.log[c.state.applied])
    && (d.applied == c.state.applied
        || (c.application.Some? && d.applied == c.state.applied + 1))
  }

  predicate SelfAcked(l: Ledger, c: Core) {
    c.state.role.Leader? && Quiescent(c) ==> HasAcked(l, c.state.node, c.state.term, |c.state.log|)
  }

  ghost predicate CoreOk(l: Ledger, n: NodeId, peers: seq<NodeId>, c: Core, d: Durable) {
    && StateOk(l, n, peers, c.state, d)
    && CoreQueue(l, c, d)
    && ApplicationOk(c, d)
    && SelfAcked(l, c)
  }

  ghost predicate ClusterInv(c: Cluster) {
    var l := c.history.ledger;
    && Configured(c.config) && l.members == c.config.Keys
    && c.durable.Keys == c.config.Keys && c.up.Keys <= c.config.Keys
    && Inv(l)
    && (forall n :: n in c.durable ==> DiskOk(l, n, c.durable[n]))
    && (forall p :: p in c.sent ==> PacketOk(l, p))
    && (forall n :: n in c.up && n in c.durable && n in c.config ==>
          CoreOk(l, n, c.config[n], c.up[n], c.durable[n]))
  }
}
