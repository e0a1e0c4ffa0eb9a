/** A cluster of Cores over an unreliable network and crash-prone disks.

    Sent packets stay in `sent` for ever, so any of them may be delivered at any time, any
    number of times, or never. A disk write and its completion are separate steps, and a crash
    between them keeps the record and loses the completion. A restart sees only `durable`. */
module RaftCluster {
  import opened RaftTypes
  import opened Figure2
  import opened RaftCore
  import opened RaftLedger
  import opened RaftLedgerSteps

  datatype Durable = Durable(hard: HardState, log: seq<LogEntry>, applied: LogIndex)

  datatype Packet = Packet(from: NodeId, to: NodeId, msg: Message)

  /** Variables that no step reads; they only record the past. `issued` holds, for each node,
      the highest value its counter of read contexts ever had. */
  datatype History = History(ledger: Ledger, issued: map<NodeId, ReadContext>)

  datatype Cluster = Cluster(
    config: map<NodeId, seq<NodeId>>,
    maxReads: nat,
    maxHistory: nat,
    durable: map<NodeId, Durable>,
    up: map<NodeId, Core>,
    sent: set<Packet>,
    history: History)

  datatype Action =
    | Give(node: NodeId, input: Input)
    | Carry(packet: Packet)
    | WriteHard(node: NodeId)
    | FinishHard(node: NodeId)
    | WriteLog(node: NodeId)
    | FinishLog(node: NodeId)
    | WriteApplied(node: NodeId)
    | FinishApplied(node: NodeId)
    | Crash(node: NodeId)
    | Restart(node: NodeId)

  // ---- The past ------------------------------------------------------------

  /** A leader's log and commit index, as they are now. */
  function RecordLeader(l: Ledger, n: NodeId, s: State): Ledger {
    if s.role.Leader? then
      l.(termLog := l.termLog[s.term := s.log],
         leaderOf := l.leaderOf[s.term := n],
         commitOf := l.commitOf[s.term := s.commit])
    else l
  }

  /** The acknowledgements among released effects. */
  function RecordAcks(l: Ledger, n: NodeId, effects: seq<Effect>): Ledger {
    if effects == [] then l
    else
      var rest := RecordAcks(l, n, effects[..|effects| - 1]);
      var e := effects[|effects| - 1];
      if e.Send? && e.msg.AppendResponse? && e.msg.succeeded
      then Acknowledge(rest, n, e.msg.term, e.msg.matched)
      else rest
  }

  predicate Quiescent(c: Core) {
    c.state.pending.None? && c.pendingLog.None?
  }

  /** A leader counts itself once its log is durable. */
  function RecordSelf(l: Ledger, n: NodeId, c: Core): Ledger {
    if c.state.role.Leader? && Quiescent(c) then Acknowledge(l, n, c.state.term, |c.state.log|)
    else l
  }

  function RecordVote(l: Ledger, n: NodeId, was: HardState, hard: HardState): Ledger {
    if was == hard then l
    else if hard.vote.None? then Promise(l, n, hard.term)
    else if hard.vote.value == n && n in l.dlog then Stand(l, n, hard.term)
    else CastVote(l, n, hard.term, hard.vote.value)
  }

  /** `p` acknowledges the read with this context to the leader `n` of term `t`. */
  predicate ReadAck(p: Packet, n: NodeId, t: Term, context: ReadContext) {
    p.to == n && p.msg.AppendResponse? && p.msg.succeeded && p.msg.term == t
    && p.msg.context == Some(context)
  }

  function IssuedBy(h: History, n: NodeId): ReadContext {
    if n in h.issued then h.issued[n] else 1
  }

  function Record(c: Cluster, n: NodeId, core': Core, effects: seq<Effect>): History {
    var h := c.history;
    var l1 := RecordLeader(h.ledger, n, core'.state);
    var l2 := RecordAcks(l1, n, effects);
    History(RecordSelf(l2, n, core'), h.issued[n := Max(IssuedBy(h, n), core'.nextContext)])
  }

  // ---- Steps ---------------------------------------------------------------

  function Released(n: NodeId, effects: seq<Effect>): set<Packet> {
    set i | 0 <= i < |effects| && effects[i].Send? :: Packet(n, effects[i].to, effects[i].msg)
  }

  predicate FromEnvironment(input: Input) {
    !input.Deliver? && !input.HardDone? && !input.LogDone? && !input.Applied?
  }

  function ActionNode(a: Action): NodeId {
    if a.Carry? then a.packet.to else a.node
  }

  /** The Core input an action hands over, if its guard holds. */
  function InputOf(c: Cluster, a: Action): Option<Input> {
    var n := ActionNode(a);
    if n !in c.up || n !in c.durable then None
    else
      var core := c.up[n];
      var d := c.durable[n];
      match a
      case Give(_, input) => if FromEnvironment(input) then Some(input) else None
      case Carry(p) => if p in c.sent then Some(Deliver(p.from, p.msg)) else None
      case FinishHard(_) =>
        if core.state.pending.Some? && d.hard == core.state.pending.value.hard
        then Some(HardDone(core.state.pending.value.id, d.hard)) else None
      case FinishLog(_) =>
        if core.pendingLog.Some? && d.log == core.pendingLog.value.log
        then Some(LogDone(core.pendingLog.value.id, d.log)) else None
      case FinishApplied(_) =>
        if core.application.Some? && d.applied == core.application.value.entry.index
        then Some(Applied(core.application.value.id, d.applied)) else None
      case _ => None
  }

  function CoreOutcomeOf(c: Cluster, a: Action): CoreOutcome {
    var n := ActionNode(a);
    var input := InputOf(c, a);
    if input.None? || n !in c.up then Refused else CoreStep(c.up[n], input.value)
  }

  /** The effects a step hands to its environment. */
  function EffectsOf(c: Cluster, a: Action): seq<Effect> {
    var r := CoreOutcomeOf(c, a);
    if r.Refused? then [] else r.effects
  }

  function AfterCore(c: Cluster, n: NodeId, core': Core, effects: seq<Effect>): Cluster
    requires n in c.up
  {
    c.(up := c.up[n := core'],
       sent := c.sent + Released(n, effects),
       history := Record(c, n, core', effects))
  }

  function AfterWriteHard(c: Cluster, n: NodeId, hard: HardState): Cluster
    requires n in c.durable
  {
    c.(durable := c.durable[n := c.durable[n].(hard := hard)],
       history := c.history.(ledger := RecordVote(c.history.ledger, n, c.durable[n].hard, hard)))
  }

  function AfterWriteLog(c: Cluster, n: NodeId, log: seq<LogEntry>): Cluster
    requires n in c.durable
  {
    c.(durable := c.durable[n := c.durable[n].(log := log)],
       history := c.history.(ledger :=
         c.history.ledger.(dlog := c.history.ledger.dlog[n := log])))
  }

  function Reborn(c: Cluster, n: NodeId): Core
    requires n in c.durable && n in c.config
  {
    Construct(n, c.config[n], c.durable[n].hard, c.durable[n].log, c.durable[n].applied,
              c.maxReads, c.maxHistory)
  }

  predicate CanRestart(c: Cluster, n: NodeId) {
    n !in c.up && n in c.durable && n in c.config
    && Constructible(n, c.config[n], c.durable[n].hard, c.durable[n].log, c.durable[n].applied)
  }

  /** One step of the cluster; None where the action is not possible. */
  function Next(c: Cluster, a: Action): Option<Cluster> {
    var n := ActionNode(a);
    match a
    case WriteHard(_) =>
      if n in c.up && n in c.durable && c.up[n].state.pending.Some?
      then Some(AfterWriteHard(c, n, c.up[n].state.pending.value.hard)) else None
    case WriteLog(_) =>
      if n in c.up && n in c.durable && c.up[n].pendingLog.Some?
      then Some(AfterWriteLog(c, n, c.up[n].pendingLog.value.log)) else None
    case WriteApplied(_) =>
      if n in c.up && n in c.durable && c.up[n].application.Some?
      then Some(c.(durable := c.durable[n :=
                     c.durable[n].(applied := c.up[n].application.value.entry.index)]))
      else None
    case Crash(_) => if n in c.up then Some(c.(up := c.up - {n})) else None
    case Restart(_) => if CanRestart(c, n) then Some(c.(up := c.up[n := Reborn(c, n)])) else None
    case _ =>
      var r := CoreOutcomeOf(c, a);
      if r.Refused? || n !in c.up then None else Some(AfterCore(c, n, r.core, r.effects))
  }

  // ---- Runs ----------------------------------------------------------------

  ghost predicate Configured(config: map<NodeId, seq<NodeId>>) {
    forall n :: n in config ==>
      ConfigValid(n, config[n]) && forall m :: m in config[n] <==> m in config && m != n
  }

  const EMPTY_DISK: Durable := Durable(HardState(0, None), [], 0)

  /** Every member is down with an empty disk; nothing has been sent. */
  ghost predicate Init(c: Cluster) {
    && Configured(c.config)
    && c.durable == (map n | n in c.config :: EMPTY_DISK)
    && c.up == map[] && c.sent == {}
    && c.history == History(
         Ledger(c.config.Keys, map n | n in c.config :: 0, map n | n in c.config :: [],
                map[], map[], map[], map[], map[], map[]),
         map[])
  }

  datatype Run = Run(states: seq<Cluster>, actions: seq<Action>)

  /** A finite execution: `states[i+1]` follows from `states[i]` by `actions[i]`. */
  ghost predicate IsRun(r: Run) {
    && |r.states| == |r.actions| + 1
    && Init(r.states[0])
    && forall i :: 0 <= i < |r.actions| ==> Next(r.states[i], r.actions[i]) == Some(r.states[i + 1])
  }
}
