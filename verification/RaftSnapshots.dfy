/** Core with snapshots: local snapshots, InstallSnapshot in both directions, restoring the state
    machine, and requests replaced by snapshot transfers. The ordinary inputs are those of
    `RaftCore`; while a snapshot is being written or restored everything else is refused. */
module RaftSnapshots {
  import opened RaftTypes
  import opened Figure2
  import opened Figure2Proofs
  import opened RaftCore
  import opened RaftCoreOrder
  import opened Compaction

  // ---- Data ----------------------------------------------------------------

  datatype Metadata = Metadata(
    mark: SnapshotMark, store: int, compact: int, voters: seq<NodeId>, learners: seq<NodeId>, format: nat)

  datatype Snapshot = Snapshot(metadata: Metadata, state: seq<nat>)

  datatype InstallRequest = InstallRequest(
    term: Term, leader: NodeId, transfer: nat, metadata: Metadata, offset: nat, total: nat, chunk: seq<nat>,
    checksum: nat, done: bool, context: Option<ReadContext>)

  datatype InstallResponse = InstallResponse(
    term: Term, transfer: nat, succeeded: bool, index: LogIndex, context: Option<ReadContext>)

  datatype SnapshotRequest = SnapshotRequest(
    applied: LogIndex, store: int, compact: int, voters: seq<NodeId>, learners: seq<NodeId>, state: seq<nat>)

  datatype Rejection = Busy | NoAppliedEntry | Outdated | InvalidRevision | InvalidMembership | TooLarge

  datatype SnapEffect =
    | Basic(effect: Effect)
    | PersistSnapshot(id: nat, snapshot: Snapshot)
    | RestoreSnapshot(id: nat, snapshot: Snapshot)
    | TruncatePrefix(index: LogIndex)
    | SnapshotCreated(index: LogIndex)
    | SnapshotRejected(reason: Rejection)
    | SendInstall(to: NodeId, request: InstallRequest)
    | SendInstallResponse(to: NodeId, response: InstallResponse)

  /** A snapshot being written; `reply` is set when it came from a leader. */
  datatype PendingSnapshot = PendingSnapshot(id: nat, snapshot: Snapshot, reply: Option<(NodeId, InstallResponse)>)

  datatype PendingRestore = PendingRestore(id: nat, snapshot: Snapshot, to: NodeId, response: InstallResponse)

  datatype Transfer = Transfer(id: nat, term: Term, index: LogIndex)

  datatype SnapCore = SnapCore(
    core: Core,
    durable: Option<Snapshot>,
    pending: Option<PendingSnapshot>,
    restore: Option<PendingRestore>,
    awaiting: Option<(NodeId, InstallRequest)>,
    transfers: map<NodeId, Transfer>,
    nextSnapshot: nat,
    nextTransfer: nat,
    maxBytes: nat,
    maxMembers: nat)

  datatype SnapInput =
    | Ordinary(input: Input)
    | Create(create: SnapshotRequest)
    | Persisted(id: nat, snapshot: Snapshot)
    | Restored(id: nat, index: LogIndex)
    | Install(from: NodeId, install: InstallRequest)
    | InstallReply(replier: NodeId, reply: InstallResponse)

  /** `Thrown` keeps what an exception leaves behind. */
  datatype SnapOutcome = Thrown(x: SnapCore) | Took(x: SnapCore, effects: seq<SnapEffect>)

  type Checksum = seq<nat> -> nat

  const SNAPSHOT_ID_LIMIT: nat := 0x4000_0000_0000_0000
  const OVERHEAD: nat := 68

  // ---- Effects of Core -----------------------------------------------------

  function Lift(effects: seq<Effect>): (out: seq<SnapEffect>)
    ensures |out| == |effects| && forall i :: 0 <= i < |out| ==> out[i] == Basic(effects[i])
  {
    seq(|effects|, i requires 0 <= i < |effects| => Basic(effects[i]))
  }

  /** The peer lacks entries that only the snapshot still holds. */
  predicate NeedsSnapshot(x: SnapCore, e: Effect) {
    && e.Send? && e.msg.AppendRequest? && x.durable.Some?
    && x.core.state.role.Leader? && x.core.state.leader.Some? && e.to in x.core.state.leader.value.progress
    && x.core.state.leader.value.progress[e.to].next <= x.durable.value.metadata.mark.index
  }

  function InstallFor(x: SnapCore, e: Effect, crc: Checksum): InstallRequest
    requires NeedsSnapshot(x, e)
  {
    var snapshot := x.durable.value;
    InstallRequest(x.core.state.term, x.core.state.node, x.nextTransfer, snapshot.metadata, 0, |snapshot.state|,
                   snapshot.state, crc(snapshot.state), true, e.msg.context)
  }

  /** Requests that start below the snapshot become transfers; None where ids run out. */
  function ReplaceAppends(x: SnapCore, effects: seq<Effect>, crc: Checksum): Option<(SnapCore, seq<SnapEffect>)> {
    if effects == [] then Some((x, []))
    else
      var front := ReplaceAppends(x, effects[..|effects| - 1], crc);
      if front.None? then None
      else
        var y, e := front.value.0, effects[|effects| - 1];
        if !NeedsSnapshot(y, e) then Some((y, front.value.1 + [Basic(e)]))
        else if y.nextTransfer == 0 || y.nextTransfer >= U64_MAX then None
        else
          var index := y.durable.value.metadata.mark.index;
          Some((y.(transfers := y.transfers[e.to := Transfer(y.nextTransfer, y.core.state.term, index)],
                   nextTransfer := y.nextTransfer + 1),
                front.value.1 + [SendInstall(e.to, InstallFor(y, e, crc))]))
  }

  /** Takes over the outcome of a step of Core. */
  function Wrap(x: SnapCore, r: CoreOutcome, crc: Checksum): SnapOutcome {
    if r.Refused? then Thrown(x)
    else
      var deposed := x.core.state.role.Leader? && !r.core.state.role.Leader?;
      var y := ReplaceAppends(x.(core := r.core, transfers := if deposed then map[] else x.transfers), r.effects, crc);
      if y.None? then Thrown(x) else Took(y.value.0, y.value.1)
  }

  // ---- Compaction ----------------------------------------------------------

  /** `compact_to`: the state is compacted and an application at or below the mark is dropped. */
  function CompactCore(x: SnapCore, snapshot: Snapshot): SnapCore {
    var mark := snapshot.metadata.mark;
    var covered := x.core.application.Some? && x.core.application.value.entry.index <= mark.index;
    x.(core := x.core.(state := CompactTo(x.core.state, mark),
                       application := if covered then None else x.core.application),
       durable := Some(snapshot))
  }

  /** Ready reads are answered and the next entry is handed out. */
  function Resume(x: SnapCore, effects: seq<SnapEffect>): SnapOutcome {
    var r := Schedule(CompleteReads(x.core), Answers(x.core.waiting, x.core.state.applied));
    if r.Refused? then Thrown(x.(core := CompleteReads(x.core)))
    else Took(x.(core := r.core), effects + Lift(r.effects))
  }

  // ---- Snapshots of this node ----------------------------------------------

  function Insert(n: NodeId, sorted: seq<NodeId>): seq<NodeId> {
    if sorted == [] || n <= sorted[0] then [n] + sorted else [sorted[0]] + Insert(n, sorted[1..])
  }

  function SortNodes(nodes: seq<NodeId>): seq<NodeId> {
    if nodes == [] then [] else Insert(nodes[0], SortNodes(nodes[1..]))
  }

  predicate Members(s: State, voters: seq<NodeId>, learners: seq<NodeId>) {
    && SortNodes(voters) == SortNodes(s.peers + [s.node]) && NoDuplicates(voters) && NoDuplicates(learners)
    && 0 !in learners && forall n :: n in learners ==> n !in voters
  }

  function BeginSnapshot(x: SnapCore, q: SnapshotRequest): SnapOutcome {
    var s := x.core.state;
    var size := OVERHEAD + 8 * (|q.voters| + |q.learners|);
    if x.pending.Some? then Took(x, [SnapshotRejected(Busy)])
    else if q.applied == 0 || q.applied != s.applied then Took(x, [SnapshotRejected(NoAppliedEntry)])
    else if x.durable.Some? && q.applied <= x.durable.value.metadata.mark.index then
      Took(x, [SnapshotRejected(Outdated)])
    else if q.store < 0 || q.compact < 0 || q.compact > q.store then Took(x, [SnapshotRejected(InvalidRevision)])
    else if !Members(s, q.voters, q.learners) || |q.voters| + |q.learners| > x.maxMembers then
      Took(x, [SnapshotRejected(InvalidMembership)])
    else if size + |q.state| > x.maxBytes then Took(x, [SnapshotRejected(TooLarge)])
    else if x.nextSnapshot == 0 || x.nextSnapshot >= SNAPSHOT_ID_LIMIT || !(Base(s) <= q.applied <= LastIndex(s)) then
      Thrown(x)
    else
      var mark := SnapshotMark(q.applied, TermAt(s, q.applied));
      var metadata := Metadata(mark, q.store, q.compact, SortNodes(q.voters), SortNodes(q.learners), 1);
      var snapshot := Snapshot(metadata, q.state);
      Took(x.(pending := Some(PendingSnapshot(x.nextSnapshot, snapshot, None)), nextSnapshot := x.nextSnapshot + 1),
           [PersistSnapshot(x.nextSnapshot, snapshot)])
  }

  // ---- Snapshots from a leader ---------------------------------------------

  predicate ShapeOk(x: SnapCore, q: InstallRequest) {
    var m, count := q.metadata, |q.metadata.voters| + |q.metadata.learners|;
    && count <= x.maxMembers && OVERHEAD + 8 * count + q.total <= x.maxBytes
    && q.transfer != 0 && q.offset == 0 && q.done && q.total == |q.chunk|
    && m.mark.index != 0 && m.mark.term != 0 && m.mark.term <= q.term && m.format == 1
    && 0 <= m.store && 0 <= m.compact <= m.store
  }

  predicate InstallMembers(s: State, m: Metadata) {
    && SortNodes(m.voters) == SortNodes(s.peers + [s.node]) && 0 !in m.voters && 0 !in m.learners
    && SortNodes(m.voters) == m.voters && SortNodes(m.learners) == m.learners && NoDuplicates(m.voters + m.learners)
  }

  function Refusal(s: State, from: NodeId, q: InstallRequest): SnapEffect {
    SendInstallResponse(from, InstallResponse(s.term, q.transfer, false, 0, q.context))
  }

  /** A snapshot of the current term, once this node follows its sender. */
  function AcceptInstall(x: SnapCore, effects: seq<SnapEffect>, from: NodeId, q: InstallRequest, crc: Checksum)
    : SnapOutcome
  {
    var s, m := x.core.state, q.metadata;
    if !ShapeOk(x, q) || crc(q.chunk) != q.checksum || !InstallMembers(s, m) then
      Took(x, effects + [Refusal(s, from, q)])
    else if x.durable.Some? && m.mark.index <= x.durable.value.metadata.mark.index then
      var same := m == x.durable.value.metadata && q.chunk == x.durable.value.state;
      Took(x, effects + [SendInstallResponse(from, InstallResponse(s.term, q.transfer, same,
                                                                   x.durable.value.metadata.mark.index, q.context))])
    else if m.mark.index <= s.applied then Took(x, effects + [Refusal(s, from, q)])
    else if x.nextSnapshot == 0 || x.nextSnapshot >= SNAPSHOT_ID_LIMIT then Thrown(x)
    else
      var snapshot := Snapshot(m, q.chunk);
      var response := InstallResponse(s.term, q.transfer, true, m.mark.index, q.context);
      Took(x.(pending := Some(PendingSnapshot(x.nextSnapshot, snapshot, Some((from, response)))),
              nextSnapshot := x.nextSnapshot + 1),
           effects + [PersistSnapshot(x.nextSnapshot, snapshot)])
  }

  function Follow(s: State, from: NodeId): State {
    s.(role := Follower, leader := None, votes := {}, knownLeader := Some(from))
  }

  function ReceiveSnapshot(x: SnapCore, from: NodeId, q: InstallRequest, crc: Checksum): SnapOutcome {
    var s := x.core.state;
    if from !in s.peers || q.leader != from then Thrown(x)
    else if q.term < s.term then Took(x, [Refusal(s, from, q)])
    else if q.term > s.term then
      Wrap(x.(awaiting := Some((from, q))), StepSpec(x.core, ObserveTerm(q.term)), crc)
    else if x.pending.Some? then Took(x, [Refusal(s, from, q)])
    else
      var r := Wrap(x, Translate(x.core, Follow(s, from), [ResetElectionTimer], s.role), crc);
      if r.Thrown? then r else AcceptInstall(r.x, r.effects, from, q, crc)
  }

  /** A completed transfer counts as an acknowledgement of the snapshot's index. */
  function ReceiveReply(x: SnapCore, from: NodeId, m: InstallResponse, crc: Checksum): SnapOutcome {
    var s := x.core.state;
    if from !in s.peers then Thrown(x)
    else if m.term > s.term then Wrap(x, StepSpec(x.core, ObserveTerm(m.term)), crc)
    else if !s.role.Leader? || m.term != s.term || !m.succeeded || x.durable.None?
            || m.index != x.durable.value.metadata.mark.index
            || from !in x.transfers || x.transfers[from] != Transfer(m.transfer, m.term, m.index) then
      Took(x, [])
    else
      var x1 := x.(transfers := x.transfers - {from});
      var r := Wrap(x1, DeliverMessage(x1.core, from, AppendResponse(m.term, true, m.index, m.context)), crc);
      if r.Thrown? then Thrown(x)
      else
        var resumed := Wrap(r.x, StepSpec(r.x.core, HeartbeatTimeout), crc);
        if resumed.Thrown? then Thrown(x) else Took(resumed.x, r.effects + resumed.effects)
  }

  // ---- The step ------------------------------------------------------------

  function FinishPersist(x: SnapCore): SnapOutcome
    requires x.pending.Some?
  {
    var p := x.pending.value;
    var index := p.snapshot.metadata.mark.index;
    var x1 := x.(pending := None);
    if p.reply.None? then
      Resume(CompactCore(x1, p.snapshot), [TruncatePrefix(index), SnapshotCreated(index)])
    else
      Resume(x1.(restore := Some(PendingRestore(p.id, p.snapshot, p.reply.value.0, p.reply.value.1))),
             [RestoreSnapshot(p.id, p.snapshot)])
  }

  function FinishRestore(x: SnapCore): SnapOutcome
    requires x.restore.Some?
  {
    var p := x.restore.value;
    Resume(CompactCore(x.(restore := None), p.snapshot),
           [TruncatePrefix(p.snapshot.metadata.mark.index), SendInstallResponse(p.to, p.response)])
  }

  /** An ordinary input; a snapshot that waited for its term to become durable follows it. */
  function OrdinaryStep(x: SnapCore, input: Input, crc: Checksum): SnapOutcome {
    var r := Wrap(x, CoreStep(x.core, input), crc);
    if r.Took? && input.HardDone? && r.x.awaiting.Some? && r.x.core.state.pending.None? then
      var (from, q) := r.x.awaiting.value;
      var install := ReceiveSnapshot(r.x.(awaiting := None), from, q, crc);
      if install.Thrown? then install else Took(install.x, r.effects + install.effects)
    else r
  }

  function SnapStep(x: SnapCore, input: SnapInput, crc: Checksum): SnapOutcome {
    match input
    case Persisted(id, snapshot) =>
      if x.pending.None? || id != x.pending.value.id || snapshot != x.pending.value.snapshot then Thrown(x)
      else FinishPersist(x)
    case Restored(id, index) =>
      if x.restore.None? || id != x.restore.value.id || index != x.restore.value.snapshot.metadata.mark.index
      then Thrown(x)
      else FinishRestore(x)
    case _ =>
      if x.pending.Some? || x.restore.Some? then Thrown(x)
      else
        match input
        case Ordinary(i) => OrdinaryStep(x, i, crc)
        case Create(q) => if x.core.pendingLog.Some? then Thrown(x) else BeginSnapshot(x, q)
        case Install(from, q) => if x.core.pendingLog.Some? then Thrown(x) else ReceiveSnapshot(x, from, q, crc)
        case InstallReply(from, m) => if x.core.pendingLog.Some? then Thrown(x) else ReceiveReply(x, from, m, crc)
        case _ => Thrown(x)
  }

  // ---- The invariant -------------------------------------------------------

  /** A snapshot from a leader that this node may install. */
  predicate Incoming(s: State, mark: SnapshotMark) {
    && s.leader.None? && s.applied < mark.index && 0 < mark.term <= s.term
    && (SuffixKept(s, mark) || s.commit <= mark.index)
  }

  /** The state's snapshot is the durable one, and what is being written or restored fits. */
  predicate SnapInv(x: SnapCore) {
    && CoreSound(x.core)
    && x.core.state.snapshot == (if x.durable.Some? then Some(x.durable.value.metadata.mark) else None)
    && (x.pending.Some? ==> x.restore.None?)
    && (x.pending.Some? ==>
          var mark := x.pending.value.snapshot.metadata.mark;
          if x.pending.value.reply.None? then LocalMark(x.core.state, mark) else Incoming(x.core.state, mark))
    && (x.restore.Some? ==> Incoming(x.core.state, x.restore.value.snapshot.metadata.mark))
  }

  /** The hypothesis on what a leader sends: a snapshot at or below this node's commit index
      agrees with its log. State machine safety provides it. */
  predicate Agrees(s: State, q: InstallRequest) {
    q.metadata.mark.index <= s.commit ==> SuffixKept(s, q.metadata.mark)
  }

  predicate InputAgrees(x: SnapCore, input: SnapInput) {
    && (input.Install? ==> Agrees(x.core.state, input.install))
    && (input.Ordinary? && input.input.HardDone? && x.awaiting.Some? ==> Agrees(x.core.state, x.awaiting.value.1))
  }

  // ---- What a step does to the order ---------------------------------------

  function EntryAt(s: State, i: LogIndex): LogEntry
    requires Base(s) < i <= LastIndex(s)
  {
    s.log[i - Base(s) - 1]
  }

  /** Whatever both states still hold of the committed entries is the same. */
  predicate KeptAbove(s: State, s': State) {
    && Base(s) <= Base(s') && s.commit <= s'.commit <= LastIndex(s') && s.commit <= LastIndex(s)
    && forall i :: Base(s') < i <= s.commit ==> EntryAt(s', i) == EntryAt(s, i)
  }

  predicate HandsSlotOf(c: Core, effects: seq<SnapEffect>) {
    forall i :: 0 <= i < |effects| && effects[i].Basic? && effects[i].effect.ApplyEntry? ==>
      c.application.Some? && c.application.value.entry == effects[i].effect.entry
  }

  /** A filled slot stays filled with the same entry. */
  predicate SlotKept(c: Core, c': Core) {
    c.application.Some? ==> c'.application.Some? && c'.application.value.entry == c.application.value.entry
  }

  function EffectsOfOutcome(r: SnapOutcome): seq<SnapEffect> {
    if r.Took? then r.effects else []
  }

  lemma KeptIsAbove(s: State, s': State)
    requires Kept(s, s')
    ensures KeptAbove(s, s')
  {
    forall i | Base(s') < i <= s.commit ensures EntryAt(s', i) == EntryAt(s, i) {
      var n, k := s.commit - Base(s), i - Base(s) - 1;
      assert s'.log[k] == s'.log[..n][k] == s.log[..n][k] == s.log[k];
    }
  }

  lemma KeptAboveOn(a: State, b: State, c: State)
    requires KeptAbove(a, b) && KeptAbove(b, c)
    ensures KeptAbove(a, c)
  {
    forall i | Base(c) < i <= a.commit ensures EntryAt(c, i) == EntryAt(a, i) {
      assert EntryAt(c, i) == EntryAt(b, i) == EntryAt(a, i);
    }
  }

  // ---- Core steps under snapshots ------------------------------------------

  lemma {:induction false} ReplaceKeeps(x: SnapCore, effects: seq<Effect>, crc: Checksum)
    requires ReplaceAppends(x, effects, crc).Some?
    ensures var (y, out) := ReplaceAppends(x, effects, crc).value;
      && y == x.(transfers := y.transfers, nextTransfer := y.nextTransfer)
      && forall e :: Basic(e) in out ==> e in effects
  {
    if effects != [] {
      ReplaceKeeps(x, effects[..|effects| - 1], crc);
      assert effects == effects[..|effects| - 1] + [effects[|effects| - 1]];
    }
  }

  lemma ReplaceHands(c: Core, effects: seq<Effect>, out: seq<SnapEffect>)
    requires HandsSlot(c, effects) && forall e :: Basic(e) in out ==> e in effects
    ensures HandsSlotOf(c, out)
  {
    forall i | 0 <= i < |out| && out[i].Basic? && out[i].effect.ApplyEntry?
      ensures c.application.Some? && c.application.value.entry == out[i].effect.entry
    {
      assert Basic(out[i].effect) in out;
    }
  }

  /** What the wrapping of a Core step leaves. */
  predicate Wrapped(x: SnapCore, r: CoreOutcome, w: SnapOutcome) {
    if w.Thrown? then w.x == x
    else
      && r.Stepped? && w.x == x.(core := r.core, transfers := w.x.transfers, nextTransfer := w.x.nextTransfer)
      && HandsSlotOf(r.core, w.effects)
  }

  lemma WrapKeeps(x: SnapCore, r: CoreOutcome, crc: Checksum)
    requires r.Stepped? ==> HandsSlot(r.core, r.effects)
    ensures Wrapped(x, r, Wrap(x, r, crc))
  {
    hide HandsSlot, HandsSlotOf, ReplaceAppends;
    if r.Stepped? {
      var deposed := x.core.state.role.Leader? && !r.core.state.role.Leader?;
      var x1 := x.(core := r.core, transfers := if deposed then map[] else x.transfers);
      if ReplaceAppends(x1, r.effects, crc).Some? {
        ReplaceKeeps(x1, r.effects, crc);
        ReplaceHands(r.core, r.effects, ReplaceAppends(x1, r.effects, crc).value.1);
      }
    }
  }

  lemma ScheduleKeepsSlot(c: Core, effects: seq<Effect>)
    requires Schedule(c, effects).Stepped?
    ensures SlotKept(c, Schedule(c, effects).core)
  {
  }

  lemma TranslateKeepsSlot(c: Core, s: State, effects: seq<Effect>, previous: Role)
    requires Translate(c, s, effects, previous).Stepped?
    ensures SlotKept(c, Translate(c, s, effects, previous).core) && Translate(c, s, effects, previous).core.state == s
  {
    hide TranslateEffects, RoleEffects, LogWrites, FirstLogWrite;
  }

  lemma SpecKeepsSlot(c: Core, event: Event)
    requires StepSpec(c, event).Stepped?
    ensures SlotKept(c, StepSpec(c, event).core)
  {
    hide Figure2.Step, Translate;
    var r := Figure2.Step(c.state, event);
    TranslateKeepsSlot(c, r.state, r.effects, c.state.role);
  }

  // ---- Compacting in order -------------------------------------------------

  /** The suffix of a sound log is sound. */
  lemma SuffixReal(s: State, s': State, n: nat)
    requires Real(s) && n <= |s.log| && (s'.log == s.log[n..] || s'.log == []) && s'.role == s.role && s'.term == s.term
    ensures Real(s')
  {
    assert forall i :: 0 <= i < |s.log[n..]| ==> s.log[n..][i] == s.log[n + i];
  }

  lemma LocalInOrder(x: SnapCore, snapshot: Snapshot)
    requires CoreSound(x.core) && LocalMark(x.core.state, snapshot.metadata.mark)
    ensures var y := CompactCore(x, snapshot);
      && CoreSound(y.core) && KeptAbove(x.core.state, y.core.state) && y.core.state.applied == x.core.state.applied
      && SlotKept(x.core, y.core) && y.core.state.snapshot == Some(snapshot.metadata.mark)
  {
    hide Valid, IdsOk, NoHandOut, SuffixKept;
    var s, mark := x.core.state, snapshot.metadata.mark;
    SoundParts(s);
    LocalCompaction(s, mark);
    CompactedValid(s, mark);
    var s' := CompactTo(s, mark);
    SuffixReal(s, s', mark.index - Base(s));
    CompactedKeeps(s, mark);
    LocalSlot(x.core, mark);
  }

  lemma CompactedKeeps(s: State, mark: SnapshotMark)
    requires Base(s) <= s.commit <= LastIndex(s) && LocalMark(s, mark) && s.applied <= s.commit
    ensures KeptAbove(s, Compacted(s, mark))
  {
    hide TermAt;
  }

  lemma LocalSlot(c: Core, mark: SnapshotMark)
    requires CoreSound(c) && LocalMark(c.state, mark)
    ensures c.application.Some? ==>
      && c.application.value.entry.index > mark.index
      && Slot(c.(state := Compacted(c.state, mark)))
  {
    hide TermAt;
  }

  /** Installing a leader's snapshot: the applied index jumps to it, and nothing committed that
      is still held changes. */
  lemma InstallInOrder(x: SnapCore, snapshot: Snapshot)
    requires CoreSound(x.core) && Incoming(x.core.state, snapshot.metadata.mark)
    ensures var y := CompactCore(x, snapshot);
      && CoreSound(y.core) && KeptAbove(x.core.state, y.core.state)
      && y.core.state.applied == snapshot.metadata.mark.index && y.core.application.None?
      && y.core.state.snapshot == Some(snapshot.metadata.mark)
  {
    hide IdsOk, NoHandOut;
    var s, mark := x.core.state, snapshot.metadata.mark;
    SoundParts(s);
    assert Base(s) <= s.applied <= s.commit;
    assert x.core.application.Some? ==> x.core.application.value.entry.index == s.applied + 1;
    InstallIsValidIff(s, mark);
    hide Valid;
    var s' := CompactTo(s, mark);
    SuffixReal(s, s', if SuffixKept(s, mark) then mark.index - Base(s) else 0);
    InstalledKeeps(s, mark);
  }

  lemma InstalledKeeps(s: State, mark: SnapshotMark)
    requires Base(s) <= s.applied <= s.commit <= LastIndex(s) && Incoming(s, mark)
    ensures KeptAbove(s, CompactTo(s, mark))
  {
  }

  lemma ResumeInOrder(x: SnapCore, effects: seq<SnapEffect>)
    requires CoreSound(x.core) && HandsSlotOf(x.core, effects)
    ensures var r := Resume(x, effects);
      && r.x == x.(core := r.x.core) && r.x.core.state == x.core.state && CoreSound(r.x.core)
      && SlotKept(x.core, r.x.core) && HandsSlotOf(r.x.core, EffectsOfOutcome(r))
  {
    hide Sound, Real, Answers, StillWaiting;
    SoundParts(x.core.state);
    AnswersHandNothing(x.core.waiting, x.core.state.applied);
    var c1, answers := CompleteReads(x.core), Answers(x.core.waiting, x.core.state.applied);
    if Schedule(c1, answers).Stepped? {
      ScheduleInOrder(c1, answers);
      ScheduleKeepsSlot(c1, answers);
    }
  }

  // ---- Every step ----------------------------------------------------------

  /** What a step that is not a completion of a snapshot keeps. */
  predicate Ordered(x: SnapCore, r: SnapOutcome) {
    && SnapInv(r.x) && KeptAbove(x.core.state, r.x.core.state) && HandsSlotOf(r.x.core, EffectsOfOutcome(r))
  }

  lemma SnapInvParts(x: SnapCore)
    requires SnapInv(x)
    ensures CoreSound(x.core) && KeptAbove(x.core.state, x.core.state)
  {
    hide CoreSound, LocalMark, Incoming;
    assert Kept(x.core.state, x.core.state) by { KeptSame(x.core, x.core.state); }
    KeptIsAbove(x.core.state, x.core.state);
  }

  /** A wrapped Core step with nothing being written or restored. */
  lemma WrappedInOrder(x: SnapCore, r: CoreOutcome, crc: Checksum)
    requires SnapInv(x) && x.pending.None? && x.restore.None?
    requires r.Stepped? ==> InOrder(x.core, r)
    ensures Ordered(x, Wrap(x, r, crc)) && Wrapped(x, r, Wrap(x, r, crc))
  {
    hide CoreSound, Kept, HandsSlot, HandsSlotOf, KeptAbove, Wrap;
    SnapInvParts(x);
    WrapKeeps(x, r, crc);
    var w := Wrap(x, r, crc);
    if w.Took? {
      KeptIsAbove(x.core.state, r.core.state);
      assert r.core.state.snapshot == x.core.state.snapshot by { SnapshotKept(x.core.state, r.core.state); }
    } else {
      NothingHandedOut(x.core);
    }
  }

  lemma SnapshotKept(s: State, s': State)
    requires Kept(s, s')
    ensures s'.snapshot == s.snapshot
  {
  }

  lemma NothingHandedOut(c: Core)
    ensures HandsSlotOf(c, [])
  {
  }

  lemma CreateInOrder(x: SnapCore, q: SnapshotRequest)
    requires SnapInv(x) && x.pending.None? && x.restore.None?
    ensures Ordered(x, BeginSnapshot(x, q)) && BeginSnapshot(x, q).x.core == x.core
  {
    hide CoreSound, KeptAbove, SortNodes, Members;
    SnapInvParts(x);
    if BeginSnapshot(x, q).x.pending.Some? {
      AppliedMark(x.core, q.applied);
    }
  }

  lemma AppliedMark(c: Core, index: LogIndex)
    requires CoreSound(c) && index == c.state.applied && Base(c.state) < index
    ensures index <= LastIndex(c.state) && LocalMark(c.state, SnapshotMark(index, TermAt(c.state, index)))
  {
    SoundParts(c.state);
    hide Sound, Slot, Queued;
  }

  /** Following the sender of a snapshot. */
  lemma FollowInOrder(c: Core, from: NodeId)
    requires CoreSound(c)
    requires Translate(c, Follow(c.state, from), [ResetElectionTimer], c.state.role).Stepped?
    ensures InOrder(c, Translate(c, Follow(c.state, from), [ResetElectionTimer], c.state.role))
    ensures Translate(c, Follow(c.state, from), [ResetElectionTimer], c.state.role).core.state == Follow(c.state, from)
  {
    hide Translate, Slot;
    var s := Follow(c.state, from);
    SoundParts(c.state);
    assert Sound(s) && Real(s);
    KeptSame(c, s);
    SlotStays(c, s);
    hide Sound, Real, Kept;
    SoundParts(s);
    TranslateInOrder(c, s, [ResetElectionTimer]);
  }

  lemma AcceptInstallInOrder(x: SnapCore, effects: seq<SnapEffect>, from: NodeId, q: InstallRequest, crc: Checksum)
    requires SnapInv(x) && x.pending.None? && x.restore.None? && HandsSlotOf(x.core, effects)
    requires x.core.state.leader.None? && q.term == x.core.state.term && Agrees(x.core.state, q)
    ensures Ordered(x, AcceptInstall(x, effects, from, q, crc))
    ensures AcceptInstall(x, effects, from, q, crc).x.core == x.core
  {
    hide CoreSound, KeptAbove, SortNodes, InstallMembers, SuffixKept;
    SnapInvParts(x);
  }

  lemma ReceiveInOrder(x: SnapCore, from: NodeId, q: InstallRequest, crc: Checksum)
    requires SnapInv(x) && x.pending.None? && x.restore.None? && Agrees(x.core.state, q)
    ensures var r := ReceiveSnapshot(x, from, q, crc);
      Ordered(x, r) && r.x.core.state.applied == x.core.state.applied && SlotKept(x.core, r.x.core)
  {
    hide CoreSound, KeptAbove, Wrap, StepSpec, Translate, AcceptInstall, SuffixKept, InOrder, HandsSlotOf;
    SnapInvParts(x);
    NothingHandedOut(x.core);
    var s := x.core.state;
    if from in s.peers && q.leader == from {
      if q.term > s.term {
        ObserveSnapInOrder(x.(awaiting := Some((from, q))), q.term, crc);
      } else if q.term < s.term {
        OneMore(x.core, Refusal(s, from, q));
      } else {
        FollowThenAccept(x, from, q, crc);
      }
    }
  }

  lemma OneMore(c: Core, e: SnapEffect)
    requires !e.Basic?
    ensures HandsSlotOf(c, [e])
  {
  }

  lemma ObserveSnapInOrder(x: SnapCore, t: Term, crc: Checksum)
    requires SnapInv(x) && x.pending.None? && x.restore.None?
    ensures var r := Wrap(x, StepSpec(x.core, ObserveTerm(t)), crc);
      Ordered(x, r) && r.x.core.state.applied == x.core.state.applied && SlotKept(x.core, r.x.core)
  {
    hide CoreSound, KeptAbove, Wrap, StepSpec, HandsSlotOf, HandsSlot, Kept;
    SnapInvParts(x);
    if StepSpec(x.core, ObserveTerm(t)).Stepped? {
      SpecStepInOrder(x.core, ObserveTerm(t));
      SpecKeepsSlot(x.core, ObserveTerm(t));
    }
    WrappedInOrder(x, StepSpec(x.core, ObserveTerm(t)), crc);
  }

  lemma FollowThenAccept(x: SnapCore, from: NodeId, q: InstallRequest, crc: Checksum)
    requires SnapInv(x) && x.pending.None? && x.restore.None? && Agrees(x.core.state, q)
    requires q.term == x.core.state.term
    ensures var r := Wrap(x, Translate(x.core, Follow(x.core.state, from), [ResetElectionTimer], x.core.state.role),
        crc);
      var t := if r.Thrown? then r else AcceptInstall(r.x, r.effects, from, q, crc);
      Ordered(x, t) && t.x.core.state.applied == x.core.state.applied && SlotKept(x.core, t.x.core)
  {
    hide CoreSound, KeptAbove, Wrap, Translate, AcceptInstall, SuffixKept, HandsSlotOf, HandsSlot, Kept;
    SnapInvParts(x);
    var c := Translate(x.core, Follow(x.core.state, from), [ResetElectionTimer], x.core.state.role);
    if c.Stepped? {
      FollowInOrder(x.core, from);
      TranslateKeepsSlot(x.core, Follow(x.core.state, from), [ResetElectionTimer], x.core.state.role);
    }
    WrappedInOrder(x, c, crc);
    var r := Wrap(x, c, crc);
    if r.Took? {
      assert Agrees(r.x.core.state, q) by { SameSuffix(x.core.state, r.x.core.state, q); }
      AcceptInstallInOrder(r.x, r.effects, from, q, crc);
    }
  }

  lemma SameSuffix(s: State, s': State, q: InstallRequest)
    requires Agrees(s, q) && s'.log == s.log && s'.snapshot == s.snapshot && s'.commit == s.commit
    ensures Agrees(s', q)
  {
  }

  lemma HandsBoth(c: Core, c': Core, a: seq<SnapEffect>, b: seq<SnapEffect>)
    requires HandsSlotOf(c, a) && HandsSlotOf(c', b) && SlotKept(c, c')
    ensures HandsSlotOf(c', a + b)
  {
  }

  lemma HardDoneState(c: Core, id: nat, hard: HardState)
    requires CoreStep(c, HardDone(id, hard)).Stepped?
    ensures var c' := CoreStep(c, HardDone(id, hard)).core;
      c'.state == c.state.(pending := c'.state.pending) && c.pendingLog.None?
  {
    hide Valid, TranslateEffects, RoleEffects, LogWrites, FirstLogWrite, FirstPersist;
    var r := Figure2.Step(c.state, HardPersisted(id, hard));
    TranslateKeepsSlot(c, r.state, r.effects, c.state.role);
  }

  lemma OrdinaryInOrder(x: SnapCore, input: Input, crc: Checksum)
    requires SnapInv(x) && x.pending.None? && x.restore.None? && InputAgrees(x, Ordinary(input))
    ensures var r := OrdinaryStep(x, input, crc);
      && Ordered(x, r)
      && (r.x.core.state.applied == x.core.state.applied
          || (input.Applied? && r.x.core.state.applied == x.core.state.applied + 1))
  {
    hide CoreSound, KeptAbove, Wrap, CoreStep, ReceiveSnapshot, HandsSlotOf, HandsSlot, Kept, SuffixKept, Slot;
    SnapInvParts(x);
    if CoreStep(x.core, input).Stepped? { CoreStepInOrder(x.core, input); }
    WrappedInOrder(x, CoreStep(x.core, input), crc);
    var r := Wrap(x, CoreStep(x.core, input), crc);
    if r.Took? && input.HardDone? && r.x.awaiting.Some? && r.x.core.state.pending.None? {
      HardDoneState(x.core, input.hardId, input.hard);
      var (from, q) := r.x.awaiting.value;
      var y := r.x.(awaiting := None);
      SameSuffix(x.core.state, y.core.state, q);
      ReceiveInOrder(y, from, q, crc);
      var i := ReceiveSnapshot(y, from, q, crc);
      KeptAboveOn(x.core.state, y.core.state, i.x.core.state);
      if i.Took? { HandsBoth(y.core, i.x.core, r.effects, i.effects); }
    }
  }

  lemma ReplyInOrder(x: SnapCore, from: NodeId, m: InstallResponse, crc: Checksum)
    requires SnapInv(x) && x.pending.None? && x.restore.None? && x.core.pendingLog.None?
    ensures var r := ReceiveReply(x, from, m, crc); Ordered(x, r) && r.x.core.state.applied == x.core.state.applied
  {
    hide CoreSound, KeptAbove, Wrap, StepSpec, DeliverMessage, HandsSlotOf, HandsSlot, Kept, Slot;
    SnapInvParts(x);
    NothingHandedOut(x.core);
    if m.term > x.core.state.term {
      ObserveSnapInOrder(x, m.term, crc);
    } else {
      var x1 := x.(transfers := x.transfers - {from});
      var message := AppendResponse(m.term, true, m.index, m.context);
      var d := DeliverMessage(x1.core, from, message);
      if d.Stepped? { DeliverInOrder(x1.core, from, message); }
      WrappedInOrder(x1, d, crc);
      var r := Wrap(x1, d, crc);
      if r.Took? { HeartbeatAfter(x, r.x, r.effects, crc); }
    }
  }

  /** The heartbeat that resumes replication after a transfer. */
  lemma HeartbeatAfter(x: SnapCore, y: SnapCore, effects: seq<SnapEffect>, crc: Checksum)
    requires SnapInv(y) && y.pending.None? && y.restore.None? && KeptAbove(x.core.state, y.core.state)
    requires HandsSlotOf(y.core, effects)
    ensures var r := Wrap(y, StepSpec(y.core, HeartbeatTimeout), crc);
      r.Took? ==>
        && Ordered(x, Took(r.x, effects + r.effects)) && r.x.core.state.applied == y.core.state.applied
  {
    hide CoreSound, KeptAbove, Wrap, StepSpec, HandsSlotOf, HandsSlot, Kept, Slot;
    SnapInvParts(y);
    var h := StepSpec(y.core, HeartbeatTimeout);
    if h.Stepped? {
      SpecStepInOrder(y.core, HeartbeatTimeout);
      SpecKeepsSlot(y.core, HeartbeatTimeout);
    }
    WrappedInOrder(y, h, crc);
    var r := Wrap(y, h, crc);
    if r.Took? {
      KeptAboveOn(x.core.state, y.core.state, r.x.core.state);
      HandsBoth(y.core, r.x.core, effects, r.effects);
    }
  }

  lemma TwoPlain(c: Core, a: SnapEffect, b: SnapEffect)
    requires !a.Basic? && !b.Basic?
    ensures HandsSlotOf(c, [a, b]) && HandsSlotOf(c, [a])
  {
  }

  lemma PersistInOrder(x: SnapCore)
    requires SnapInv(x) && x.pending.Some?
    ensures var r := FinishPersist(x); Ordered(x, r) && r.x.core.state.applied == x.core.state.applied
  {
    hide CoreSound, KeptAbove, Resume, HandsSlotOf, Slot, CompactCore, LocalMark, Incoming;
    SnapInvParts(x);
    var p, x1 := x.pending.value, x.(pending := None);
    var index := p.snapshot.metadata.mark.index;
    if p.reply.None? {
      LocalInOrder(x1, p.snapshot);
      var y := CompactCore(x1, p.snapshot);
      CompactCoreKeeps(x1, p.snapshot);
      TwoPlain(y.core, TruncatePrefix(index), SnapshotCreated(index));
      ResumeInOrder(y, [TruncatePrefix(index), SnapshotCreated(index)]);
    } else {
      var y := x1.(restore := Some(PendingRestore(p.id, p.snapshot, p.reply.value.0, p.reply.value.1)));
      OneMore(y.core, RestoreSnapshot(p.id, p.snapshot));
      ResumeInOrder(y, [RestoreSnapshot(p.id, p.snapshot)]);
    }
  }

  lemma CompactCoreKeeps(x: SnapCore, snapshot: Snapshot)
    ensures CompactCore(x, snapshot) == x.(core := CompactCore(x, snapshot).core, durable := Some(snapshot))
  {
  }

  lemma RestoreInOrder(x: SnapCore)
    requires SnapInv(x) && x.restore.Some? && x.pending.None?
    ensures var r := FinishRestore(x);
      Ordered(x, r) && r.x.core.state.applied == x.restore.value.snapshot.metadata.mark.index > x.core.state.applied
  {
    hide CoreSound, KeptAbove, Resume, HandsSlotOf, Slot, CompactCore, SuffixKept;
    SnapInvParts(x);
    var p := x.restore.value;
    var x1 := x.(restore := None);
    var index := p.snapshot.metadata.mark.index;
    InstallInOrder(x1, p.snapshot);
    var y := CompactCore(x1, p.snapshot);
    CompactCoreKeeps(x1, p.snapshot);
    TwoPlain(y.core, TruncatePrefix(index), SendInstallResponse(p.to, p.response));
    ResumeInOrder(y, [TruncatePrefix(index), SendInstallResponse(p.to, p.response)]);
  }

  /** Every step, accepted or thrown, keeps the invariant and the committed entries it still
      holds, hands out only the next committed entry, and moves the applied index only by the
      completion of that entry, by one, or by a restored snapshot, up to its index. */
  lemma SnapStepKeeps(x: SnapCore, input: SnapInput, crc: Checksum)
    requires SnapInv(x) && InputAgrees(x, input)
    ensures var r := SnapStep(x, input, crc); var was, now := x.core.state.applied, r.x.core.state.applied;
      && Ordered(x, r)
      && (now == was
          || (input.Ordinary? && input.input.Applied? && now == was + 1)
          || (input.Restored? && now == input.index > was))
  {
    hide CoreSound, KeptAbove, OrdinaryStep, BeginSnapshot, ReceiveSnapshot, ReceiveReply, FinishPersist, FinishRestore;
    hide HandsSlotOf, Agrees, Incoming, LocalMark;
    SnapInvParts(x);
    NothingHandedOut(x.core);
    match input {
      case Persisted(_, _) => if x.pending.Some? { PersistInOrder(x); }
      case Restored(_, _) => if x.restore.Some? { RestoreInOrder(x); }
      case Ordinary(i) => if x.pending.None? && x.restore.None? { OrdinaryInOrder(x, i, crc); }
      case Create(q) => if x.pending.None? && x.restore.None? { CreateInOrder(x, q); }
      case Install(from, q) => if x.pending.None? && x.restore.None? { ReceiveInOrder(x, from, q, crc); }
      case InstallReply(from, m) =>
        if x.pending.None? && x.restore.None? && x.core.pendingLog.None? { ReplyInOrder(x, from, m, crc); }
    }
  }

  // ---- Construction --------------------------------------------------------

  /** The position of the entry with this index, or the length. */
  function PositionOf(log: seq<LogEntry>, index: LogIndex): (k: nat)
    ensures k <= |log| && (k < |log| ==> log[k].index == index)
  {
    if log == [] || log[0].index == index then 0 else 1 + PositionOf(log[1..], index)
  }

  /** A recovered log under a recovered snapshot; None where the two contradict each other. */
  function Trimmed(log: seq<LogEntry>, mark: SnapshotMark): Option<seq<LogEntry>> {
    var k := PositionOf(log, mark.index);
    if k < |log| then (if log[k].term != mark.term then None else Some(log[k + 1..]))
    else if log != [] && log[0].index != mark.index + 1 then None
    else Some(log)
  }

  function RecoveredState(self: NodeId, peers: seq<NodeId>, hard: HardState, log: seq<LogEntry>, applied: LogIndex,
                          snapshot: Option<Snapshot>): Option<State> {
    var s := Recovered(self, peers, hard, log, applied);
    if snapshot.None? then Some(s)
    else
      var mark := snapshot.value.metadata.mark;
      var rest := Trimmed(log, mark);
      if rest.None? then None
      else
        var index := Max(applied, mark.index);
        Some(s.(log := rest.value, snapshot := Some(mark), commit := index, applied := index))
  }

  predicate SnapshotOk(self: NodeId, peers: seq<NodeId>, snapshot: Snapshot, maxBytes: nat, maxMembers: nat) {
    var m := snapshot.metadata;
    var count := |m.voters| + |m.learners|;
    && m.mark.index != 0 && m.mark.term != 0 && m.format == 1 && 0 <= m.compact <= m.store
    && NoDuplicates(m.voters + m.learners) && 0 !in m.voters && 0 !in m.learners
    && SortNodes(m.voters) == SortNodes(peers + [self])
    && count <= maxMembers && OVERHEAD + 8 * count + |snapshot.state| <= maxBytes
  }

  /** The constructor, over what the disk holds; None where it throws. */
  function Recover(self: NodeId, peers: seq<NodeId>, hard: HardState, log: seq<LogEntry>, applied: LogIndex,
                   snapshot: Option<Snapshot>, maxReads: nat, maxHistory: nat, maxBytes: nat, maxMembers: nat)
    : Option<SnapCore>
  {
    var s := RecoveredState(self, peers, hard, log, applied, snapshot);
    if !ConfigValid(self, peers) || (hard.term == 0 && hard.vote.Some?)
       || (hard.vote.Some? && hard.vote.value != self && hard.vote.value !in peers)
       || (exists i :: 0 <= i < |log| && log[i].term == 0)
       || (snapshot.Some? && !SnapshotOk(self, peers, snapshot.value, maxBytes, maxMembers))
       || s.None? || !Valid(s.value)
    then None
    else
      Some(SnapCore(Construct(self, peers, hard, log, applied, maxReads, maxHistory).(state := s.value),
                    snapshot, None, None, None, map[], 1, 1, maxBytes, maxMembers))
  }

  lemma RecoverInOrder(self: NodeId, peers: seq<NodeId>, hard: HardState, log: seq<LogEntry>, applied: LogIndex,
                       snapshot: Option<Snapshot>, maxReads: nat, maxHistory: nat, maxBytes: nat, maxMembers: nat)
    requires Recover(self, peers, hard, log, applied, snapshot, maxReads, maxHistory, maxBytes, maxMembers).Some?
    ensures SnapInv(Recover(self, peers, hard, log, applied, snapshot, maxReads, maxHistory, maxBytes,
        maxMembers).value)
  {
    hide Valid, PositionOf;
  }

  // ---- Runs of one Core ----------------------------------------------------

  datatype SnapRun = SnapRun(states: seq<SnapCore>, inputs: seq<SnapInput>)

  ghost predicate Starts(x: SnapCore) {
    exists self, peers, hard, log, applied, snapshot ::
      Recover(self, peers, hard, log, applied, snapshot, x.core.maxReads, x.core.maxHistory, x.maxBytes, x.maxMembers)
      == Some(x)
  }

  /** One life of one Core: any inputs in any order, as long as the snapshots it is sent agree
      with what it has committed. */
  ghost predicate IsSnapRun(r: SnapRun, crc: Checksum) {
    && |r.states| == |r.inputs| + 1 && Starts(r.states[0])
    && forall i :: 0 <= i < |r.inputs| ==>
         InputAgrees(r.states[i], r.inputs[i]) && r.states[i + 1] == SnapStep(r.states[i], r.inputs[i], crc).x
  }

  lemma {:induction false} SnapRunInv(r: SnapRun, crc: Checksum, i: nat)
    requires IsSnapRun(r, crc) && i < |r.states|
    ensures SnapInv(r.states[i])
  {
    hide SnapStep, SnapInv, InputAgrees, Recover;
    if i == 0 {
      var x := r.states[0];
      var self, peers, hard, log, applied, snapshot :|
        Recover(self, peers, hard, log, applied, snapshot, x.core.maxReads, x.core.maxHistory, x.maxBytes, x.maxMembers)
        == Some(x);
      RecoverInOrder(self, peers, hard, log, applied, snapshot, x.core.maxReads, x.core.maxHistory, x.maxBytes,
                     x.maxMembers);
    } else {
      SnapRunInv(r, crc, i - 1);
      SnapStepKeeps(r.states[i - 1], r.inputs[i - 1], crc);
    }
  }

  lemma {:induction false} SnapRunKeeps(r: SnapRun, crc: Checksum, i: nat, j: nat)
    requires IsSnapRun(r, crc) && i <= j < |r.states|
    ensures r.states[i].core.state.applied <= r.states[j].core.state.applied
    ensures KeptAbove(r.states[i].core.state, r.states[j].core.state)
    decreases j
  {
    hide SnapStep, SnapInv, InputAgrees, KeptAbove, Starts;
    if i == j {
      SnapRunInv(r, crc, i);
      SnapInvParts(r.states[i]);
    } else {
      SnapRunKeeps(r, crc, i, j - 1);
      SnapRunInv(r, crc, j - 1);
      SnapStepKeeps(r.states[j - 1], r.inputs[j - 1], crc);
      KeptAboveOn(r.states[i].core.state, r.states[j - 1].core.state, r.states[j].core.state);
    }
  }

  /** Step `i` hands this entry to the state machine. */
  ghost predicate HandsOut(r: SnapRun, crc: Checksum, i: nat, e: LogEntry) {
    i < |r.inputs| && i < |r.states| &&
    exists id :: Basic(ApplyEntry(id, e)) in EffectsOfOutcome(SnapStep(r.states[i], r.inputs[i], crc))
  }

  /** An entry handed out is the committed one right after the last applied. */
  lemma HandedIsNext(r: SnapRun, crc: Checksum, i: nat, e: LogEntry)
    requires IsSnapRun(r, crc) && HandsOut(r, crc, i, e)
    ensures i + 1 < |r.states|
    ensures var s := r.states[i + 1].core.state;
      && e.index == s.applied + 1 && Base(s) < e.index <= s.commit <= LastIndex(s) && EntryAt(s, e.index) == e
  {
    hide SnapStep, InputAgrees, KeptAbove, Starts;
    SnapRunInv(r, crc, i);
    SnapStepKeeps(r.states[i], r.inputs[i], crc);
    var out := EffectsOfOutcome(SnapStep(r.states[i], r.inputs[i], crc));
    var id :| Basic(ApplyEntry(id, e)) in out;
    var k :| 0 <= k < |out| && out[k] == Basic(ApplyEntry(id, e));
    hide Valid, LocalMark, Incoming, Real, Queued;
    SlotEntry(r.states[i + 1].core);
  }

  lemma SlotEntry(c: Core)
    requires CoreSound(c) && c.application.Some?
    ensures var s, e := c.state, c.application.value.entry;
      e.index == s.applied + 1 && Base(s) < e.index <= s.commit <= LastIndex(s) && EntryAt(s, e.index) == e
  {
  }

  /** Ordered application with snapshots: in every life of a Core entries are handed out in index
      order; an index comes again only while it is not applied, and then with the same entry; and
      nothing at or below a snapshot that was installed before is handed out. */
  lemma AppliedInOrder(r: SnapRun, crc: Checksum, i: nat, j: nat, e: LogEntry, f: LogEntry)
    requires IsSnapRun(r, crc) && HandsOut(r, crc, i, e) && HandsOut(r, crc, j, f) && i < j
    ensures e.index <= f.index && r.states[j].core.state.applied < f.index
    ensures e.index == f.index ==> e == f && r.states[j].core.state.applied < e.index
    ensures r.states[i + 1].durable.Some? ==> r.states[i + 1].durable.value.metadata.mark.index < f.index
  {
    HandedIsNext(r, crc, i, e);
    HandedIsNext(r, crc, j, f);
    hide IsSnapRun, HandsOut;
    SnapRunKeeps(r, crc, i + 1, j + 1);
    SnapRunKeeps(r, crc, j, j + 1);
    SnapRunInv(r, crc, i + 1);
    var s, s' := r.states[i + 1].core.state, r.states[j + 1].core.state;
    if e.index == f.index {
      assert EntryAt(s', e.index) == EntryAt(s, e.index);
    }
  }
}
