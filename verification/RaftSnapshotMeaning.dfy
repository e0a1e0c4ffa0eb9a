/** What the snapshot inputs of Core mean: when a local snapshot is taken and what it holds, when one
    from a leader is stored, what replaces a request that its peer cannot use, and which transfer counts
    as an acknowledgement. */
module RaftSnapshotMeaning {
  import opened RaftTypes
  import opened Figure2
  import opened Figure2Meaning
  import opened RaftCore
  import opened RaftCoreOrder
  import opened RaftCoreMeaning
  import opened RaftSnapshots
  import opened Compaction

  // ---- Member lists --------------------------------------------------------

  predicate Ordered(s: seq<NodeId>) {
    forall i, j :: 0 <= i < j < |s| ==> s[i] <= s[j]
  }

  lemma {:induction false} InsertMeans(n: NodeId, s: seq<NodeId>)
    requires Ordered(s)
    ensures Ordered(Insert(n, s)) && multiset(Insert(n, s)) == multiset{n} + multiset(s)
  {
    if s != [] && n > s[0] {
      InsertMeans(n, s[1..]);
      var rest := Insert(n, s[1..]);
      assert s == [s[0]] + s[1..];
      forall k | k in rest ensures s[0] <= k {
        assert multiset(rest)[k] > 0;
        assert k == n || k in s[1..];
      }
      hide Insert;
      AheadOrdered(s[0], rest);
    }
  }

  lemma AheadOrdered(n: NodeId, s: seq<NodeId>)
    requires Ordered(s) && forall k :: k in s ==> n <= k
    ensures Ordered([n] + s)
  {
    assert forall i :: 0 <= i < |s| ==> s[i] in s;
  }

  lemma {:induction false} SortMeans(s: seq<NodeId>)
    ensures Ordered(SortNodes(s)) && multiset(SortNodes(s)) == multiset(s)
  {
    if s != [] {
      SortMeans(s[1..]);
      InsertMeans(s[0], SortNodes(s[1..]));
      assert s == [s[0]] + s[1..];
    }
  }

  lemma {:induction false} OrderedIsOne(a: seq<NodeId>, b: seq<NodeId>)
    requires Ordered(a) && Ordered(b) && multiset(a) == multiset(b)
    ensures a == b
  {
    assert |a| == |multiset(a)| == |multiset(b)| == |b|;
    if a != [] {
      SameLeast(a, b);
      SameLeast(b, a);
      SameRest(a, b);
      OrderedIsOne(a[1..], b[1..]);
      assert a == [a[0]] + a[1..] && b == [b[0]] + b[1..];
    }
  }

  lemma SameLeast(a: seq<NodeId>, b: seq<NodeId>)
    requires a != [] && b != [] && Ordered(a) && multiset(a) == multiset(b)
    ensures a[0] <= b[0]
  {
    assert b[0] in multiset(b);
    assert b[0] in a;
  }

  lemma SameRest(a: seq<NodeId>, b: seq<NodeId>)
    requires a != [] && b != [] && a[0] == b[0] && multiset(a) == multiset(b)
    ensures multiset(a[1..]) == multiset(b[1..])
  {
    assert a == [a[0]] + a[1..] && b == [b[0]] + b[1..];
    assert multiset(a[1..]) == multiset(a) - multiset{a[0]} && multiset(b[1..]) == multiset(b) - multiset{b[0]};
  }

  /** Two lists sort alike if and only if they name the same nodes equally often. */
  lemma SameSorted(a: seq<NodeId>, b: seq<NodeId>)
    ensures SortNodes(a) == SortNodes(b) <==> multiset(a) == multiset(b)
  {
    SortMeans(a);
    SortMeans(b);
    if multiset(a) == multiset(b) { OrderedIsOne(SortNodes(a), SortNodes(b)); }
  }

  // ---- Taking a snapshot ---------------------------------------------------

  /** The voters are this node and its peers, once each, and the learners are others. */
  predicate NamesMembers(s: State, voters: seq<NodeId>, learners: seq<NodeId>) {
    && multiset(voters) == multiset(s.peers + [s.node]) && NoDuplicates(voters) && NoDuplicates(learners)
    && 0 !in learners && forall n :: n in learners ==> n !in voters
  }

  predicate NewerThan(x: SnapCore, index: LogIndex) {
    x.durable.Some? ==> x.durable.value.metadata.mark.index < index
  }

  /** The snapshot ends with the last applied entry, as this node holds it, and carries what it was
      given, with its members in order. */
  predicate Describes(s: State, q: SnapshotRequest, snapshot: Snapshot) {
    var m := snapshot.metadata;
    && snapshot.state == q.state && m.mark.index == s.applied && Figure2Meaning.Holds(s, m.mark.index, m.mark.term)
    && m.store == q.store && m.compact == q.compact && m.format == 1
    && Ordered(m.voters) && multiset(m.voters) == multiset(q.voters)
    && Ordered(m.learners) && multiset(m.learners) == multiset(q.learners)
  }

  lemma CreateMeans(x: SnapCore, q: SnapshotRequest, crc: Checksum)
    requires SnapInv(x)
    ensures var r, s := SnapStep(x, Create(q), crc), x.core.state;
      if x.pending.Some? || x.restore.Some? || x.core.pendingLog.Some? then r == Thrown(x)
      else if q.applied == 0 || q.applied != s.applied then r == Took(x, [SnapshotRejected(NoAppliedEntry)])
      else if !NewerThan(x, q.applied) then r == Took(x, [SnapshotRejected(Outdated)])
      else if !(0 <= q.compact <= q.store) then r == Took(x, [SnapshotRejected(InvalidRevision)])
      else if !NamesMembers(s, q.voters, q.learners) || |q.voters| + |q.learners| > x.maxMembers then
        r == Took(x, [SnapshotRejected(InvalidMembership)])
      else if OVERHEAD + 8 * (|q.voters| + |q.learners|) + |q.state| > x.maxBytes then
        r == Took(x, [SnapshotRejected(TooLarge)])
      else if x.nextSnapshot == 0 || x.nextSnapshot >= SNAPSHOT_ID_LIMIT then r == Thrown(x)
      else
        exists snapshot :: Describes(s, q, snapshot)
          && r == Took(x.(pending := Some(PendingSnapshot(x.nextSnapshot, snapshot, None)),
                          nextSnapshot := x.nextSnapshot + 1),
                       [PersistSnapshot(x.nextSnapshot, snapshot)])
  {
    hide SnapInv, BeginSnapshot, Describes, NamesMembers;
    CoreIsSound(x);
    if x.pending.None? { BeginMeans(x, q); }
  }

  lemma CoreIsSound(x: SnapCore)
    requires SnapInv(x)
    ensures Valid(x.core.state)
  {
  }

  lemma MembersAre(s: State, voters: seq<NodeId>, learners: seq<NodeId>)
    ensures Members(s, voters, learners) <==> NamesMembers(s, voters, learners)
  {
    hide SortNodes;
    SameSorted(voters, s.peers + [s.node]);
  }

  lemma BeginMeans(x: SnapCore, q: SnapshotRequest)
    requires Valid(x.core.state) && x.pending.None?
    ensures var r, s := BeginSnapshot(x, q), x.core.state;
      if q.applied == 0 || q.applied != s.applied then r == Took(x, [SnapshotRejected(NoAppliedEntry)])
      else if !NewerThan(x, q.applied) then r == Took(x, [SnapshotRejected(Outdated)])
      else if !(0 <= q.compact <= q.store) then r == Took(x, [SnapshotRejected(InvalidRevision)])
      else if !NamesMembers(s, q.voters, q.learners) || |q.voters| + |q.learners| > x.maxMembers then
        r == Took(x, [SnapshotRejected(InvalidMembership)])
      else if OVERHEAD + 8 * (|q.voters| + |q.learners|) + |q.state| > x.maxBytes then
        r == Took(x, [SnapshotRejected(TooLarge)])
      else if x.nextSnapshot == 0 || x.nextSnapshot >= SNAPSHOT_ID_LIMIT then r == Thrown(x)
      else
        exists snapshot :: Describes(s, q, snapshot)
          && r == Took(x.(pending := Some(PendingSnapshot(x.nextSnapshot, snapshot, None)),
                          nextSnapshot := x.nextSnapshot + 1),
                       [PersistSnapshot(x.nextSnapshot, snapshot)])
  {
    var s := x.core.state;
    hide SortNodes, TermAt, Figure2Meaning.Holds, Members, NamesMembers, Describes;
    assert Base(s) <= s.applied <= LastIndex(s);
    hide Valid, Base, LastIndex;
    MembersAre(s, q.voters, q.learners);
    if q.applied == s.applied && q.applied != 0 {
      Described(s, q);
      var mark := SnapshotMark(q.applied, TermAt(s, q.applied));
      var metadata := Metadata(mark, q.store, q.compact, SortNodes(q.voters), SortNodes(q.learners), 1);
      var snapshot := Snapshot(metadata, q.state);
      assert Describes(s, q, snapshot);
    }
  }

  lemma Described(s: State, q: SnapshotRequest)
    requires Valid(s) && q.applied == s.applied && Base(s) <= s.applied <= LastIndex(s)
    ensures var mark := SnapshotMark(q.applied, TermAt(s, q.applied));
      Describes(s, q, Snapshot(Metadata(mark, q.store, q.compact, SortNodes(q.voters), SortNodes(q.learners), 1),
          q.state))
  {
    SortMeans(q.voters);
    SortMeans(q.learners);
    HoldsIs(s, q.applied, TermAt(s, q.applied));
    hide Valid, TermAt, Figure2Meaning.Holds, SortNodes, Ordered;
  }

  // ---- Sending one instead of entries --------------------------------------

  /** The peer's next entry is at or below the leader's durable snapshot. */
  predicate Behind(x: SnapCore, peer: NodeId) {
    var s := x.core.state;
    && s.role.Leader? && s.leader.Some? && peer in s.leader.value.progress && x.durable.Some?
    && s.leader.value.progress[peer].next <= x.durable.value.metadata.mark.index
  }

  /** The whole durable snapshot in one piece, with its checksum and the request's context. */
  predicate Transfers(x: SnapCore, context: Option<ReadContext>, q: InstallRequest, crc: Checksum) {
    && x.durable.Some? && q.metadata == x.durable.value.metadata && q.chunk == x.durable.value.state
    && q.term == x.core.state.term && q.leader == x.core.state.node && q.context == context
    && q.offset == 0 && q.done && q.total == |q.chunk| && q.checksum == crc(q.chunk)
  }

  /** Effect by effect: a request to a peer that is behind becomes a transfer to it, under an id that is
      new; every other effect stays as it is. */
  predicate Replaced(x: SnapCore, e: Effect, out: SnapEffect, nextTransfer: nat, crc: Checksum) {
    if e.Send? && e.msg.AppendRequest? && Behind(x, e.to) then
      && out.SendInstall? && out.to == e.to && Transfers(x, e.msg.context, out.request, crc)
      && x.nextTransfer <= out.request.transfer < nextTransfer
    else out == Basic(e)
  }

  lemma {:induction false} ReplaceMeans(x: SnapCore, effects: seq<Effect>, crc: Checksum)
    requires ReplaceAppends(x, effects, crc).Some?
    ensures var (y, out) := ReplaceAppends(x, effects, crc).value;
      && y == x.(transfers := y.transfers, nextTransfer := y.nextTransfer) && x.nextTransfer <= y.nextTransfer
      && |out| == |effects| && (forall i :: 0 <= i < |effects| ==> Replaced(x, effects[i], out[i], y.nextTransfer, crc))
      && (forall i, j :: 0 <= i < j < |out| && out[i].SendInstall? && out[j].SendInstall? ==>
            out[i].request.transfer < out[j].request.transfer)
  {
    if effects != [] {
      var n := |effects| - 1;
      ReplaceMeans(x, effects[..n], crc);
      var (y, out) := ReplaceAppends(x, effects[..n], crc).value;
      var e := effects[n];
      assert NeedsSnapshot(y, e) <==> e.Send? && e.msg.AppendRequest? && Behind(x, e.to);
      hide ReplaceAppends, NeedsSnapshot, Behind;
      forall i | 0 <= i < n && out[i].SendInstall? ensures out[i].request.transfer < y.nextTransfer {
        assert Replaced(x, effects[..n][i], out[i], y.nextTransfer, crc);
      }
      ReplaceLast(x, effects, y, out, crc);
    }
  }

  lemma ReplaceLast(x: SnapCore, effects: seq<Effect>, y: SnapCore, out: seq<SnapEffect>, crc: Checksum)
    requires effects != [] && ReplaceAppends(x, effects[..|effects| - 1], crc) == Some((y, out))
    requires ReplaceAppends(x, effects, crc).Some? && |out| == |effects| - 1
    requires y == x.(transfers := y.transfers, nextTransfer := y.nextTransfer) && x.nextTransfer <= y.nextTransfer
    requires forall i :: 0 <= i < |out| ==> Replaced(x, effects[i], out[i], y.nextTransfer, crc)
    ensures var (z, all) := ReplaceAppends(x, effects, crc).value;
      && z == x.(transfers := z.transfers, nextTransfer := z.nextTransfer) && y.nextTransfer <= z.nextTransfer
      && |all| == |effects| && all[..|out|] == out
      && (all[|out|].SendInstall? ==> all[|out|].request.transfer == y.nextTransfer)
      && (forall i :: 0 <= i < |effects| ==> Replaced(x, effects[i], all[i], z.nextTransfer, crc))
  {
    var (z, all) := ReplaceAppends(x, effects, crc).value;
    forall i | 0 <= i < |out| ensures Replaced(x, effects[i], all[i], z.nextTransfer, crc) {
      assert all[i] == out[i];
    }
  }

  // ---- Storing one from a leader -------------------------------------------

  lemma OrderedIff(s: seq<NodeId>)
    ensures SortNodes(s) == s <==> Ordered(s)
  {
    SortMeans(s);
    if Ordered(s) { OrderedIsOne(SortNodes(s), s); }
  }

  /** The request is one whole piece within the limits, its checksum is right, its mark is an entry of a
      term that the leader can know, and its voters are this node and its peers. */
  predicate WellFormed(x: SnapCore, q: InstallRequest, crc: Checksum) {
    var m, s := q.metadata, x.core.state;
    var members := m.voters + m.learners;
    && q.transfer != 0 && q.offset == 0 && q.done && q.total == |q.chunk| && q.checksum == crc(q.chunk)
    && |members| <= x.maxMembers && OVERHEAD + 8 * |members| + |q.chunk| <= x.maxBytes
    && 0 < m.mark.index && 0 < m.mark.term <= q.term && m.format == 1 && 0 <= m.compact <= m.store
    && multiset(m.voters) == multiset(s.peers + [s.node]) && Ordered(m.voters) && Ordered(m.learners)
    && NoDuplicates(members) && 0 !in members
  }

  lemma WellFormedIs(x: SnapCore, q: InstallRequest, crc: Checksum)
    ensures WellFormed(x, q, crc) <==>
      ShapeOk(x, q) && crc(q.chunk) == q.checksum && InstallMembers(x.core.state, q.metadata)
  {
    hide SortNodes, Ordered, NoDuplicates;
    var m, s := q.metadata, x.core.state;
    SameSorted(m.voters, s.peers + [s.node]);
    OrderedIff(m.voters);
    OrderedIff(m.learners);
    assert 0 !in m.voters + m.learners <==> 0 !in m.voters && 0 !in m.learners;
  }

  /** A snapshot of the node's own term is stored if and only if it is well formed, newer than the
      durable one, and above what is applied; its sender is answered only then. Otherwise it is refused
      at once, unless the durable snapshot already is this one. */
  lemma AcceptMeans(x: SnapCore, first: seq<SnapEffect>, from: NodeId, q: InstallRequest, crc: Checksum)
    ensures var r, s, index := AcceptInstall(x, first, from, q, crc), x.core.state, q.metadata.mark.index;
      var refused := Took(x,
          first + [SendInstallResponse(from, InstallResponse(s.term, q.transfer, false, 0, q.context))]);
      if !WellFormed(x, q, crc) then r == refused
      else if !NewerThan(x, index) then
        && x.durable.Some?
        && r == Took(x, first + [SendInstallResponse(from, InstallResponse(
                                   s.term, q.transfer, x.durable.value == Snapshot(q.metadata, q.chunk),
                                   x.durable.value.metadata.mark.index, q.context))])
      else if index <= s.applied then r == refused
      else if x.nextSnapshot == 0 || x.nextSnapshot >= SNAPSHOT_ID_LIMIT then r == Thrown(x)
      else
        var snapshot := Snapshot(q.metadata, q.chunk);
        r == Took(x.(pending := Some(PendingSnapshot(x.nextSnapshot, snapshot,
                       Some((from, InstallResponse(s.term, q.transfer, true, index, q.context))))),
                     nextSnapshot := x.nextSnapshot + 1),
                  first + [PersistSnapshot(x.nextSnapshot, snapshot)])
  {
    hide WellFormed, ShapeOk, InstallMembers;
    WellFormedIs(x, q, crc);
  }

  // ---- Counting a transfer -------------------------------------------------

  /** The reply is to the transfer that this leader has open with the peer, for its durable snapshot. */
  predicate IsOpen(x: SnapCore, from: NodeId, m: InstallResponse) {
    && x.core.state.role.Leader? && m.term == x.core.state.term && m.succeeded
    && x.durable.Some? && m.index == x.durable.value.metadata.mark.index
    && from in x.transfers && x.transfers[from] == Transfer(m.transfer, m.term, m.index)
  }

  lemma ReplyCounted(c: Core, from: NodeId, m: Message)
    requires CoreSound(c) && c.pendingLog.None? && DeliverMessage(c, from, m).Stepped? && from in c.state.peers
    requires c.state.role.Leader? && m.AppendResponse? && m.succeeded && m.term == c.state.term
    requires m.matched <= OwnLast(c.state).index
    ensures var s, s' := c.state, DeliverMessage(c, from, m).core.state;
      Recorded(s.(commit := s'.commit), from, m.matched, s') && s'.pending.None?
  {
    hide CoreSound, Valid, CommitsTo, Recorded, Handle, Translate;
    SoundParts(c.state);
    BlockedReceive(c, from, m);
    SuccessMeans(c.state, from, m);
    var h := Handle(c.state, Receive(from, m));
    assert Figure2.Step(c.state, Receive(from, m)).state == h.state;
    hide Figure2.Step;
    TranslateKeepsState(c, h.state, []);
    SuccessKeeps(c.state.(commit := h.state.commit), from, m.matched, h.state);
  }

  lemma BlockedReceive(c: Core, from: NodeId, m: Message)
    requires DeliverMessage(c, from, m).Stepped?
    ensures c.state.pending.None?
  {
    hide Valid, Translate, Handle, Gate, AppendRequestValid, AcknowledgeRead;
  }

  lemma SuccessKeeps(s: State, from: NodeId, matched: LogIndex, s': State)
    requires Recorded(s, from, matched, s')
    ensures s'.pending == s.pending
  {
  }

  lemma TranslateKeepsState(c: Core, s: State, effects: seq<Effect>)
    requires Translate(c, s, effects, c.state.role).Stepped?
    ensures Translate(c, s, effects, c.state.role).core.state == s
  {
    hide TranslateEffects, RoleEffects, LogWrites, FirstLogWrite;
  }

  lemma WrapCore(x: SnapCore, r: CoreOutcome, crc: Checksum)
    requires Wrap(x, r, crc).Took?
    ensures r.Stepped? && Wrap(x, r, crc).x.core == r.core
  {
    hide ReplaceAppends, Replaced;
    var deposed := x.core.state.role.Leader? && !r.core.state.role.Leader?;
    ReplaceMeans(x.(core := r.core, transfers := if deposed then map[] else x.transfers), r.effects, crc);
  }

  lemma HeartbeatKeepsState(c: Core)
    requires CoreSound(c) && c.state.role.Leader? && c.state.pending.None? && StepSpec(c, HeartbeatTimeout).Stepped?
    ensures StepSpec(c, HeartbeatTimeout).core.state == c.state
  {
    SoundParts(c.state);
    hide CoreSound, Valid, OffersAll, Figure2.Step, Translate;
    HeartbeatStep(c.state);
    TranslateKeepsState(c, c.state, Figure2.Step(c.state, HeartbeatTimeout).effects);
  }

  lemma MarkIsHeld(x: SnapCore)
    requires SnapInv(x) && x.durable.Some?
    ensures x.durable.value.metadata.mark.index <= OwnLast(x.core.state).index && CoreSound(x.core)
  {
    OwnLastIs(x.core.state);
  }

  lemma RecordedLeads(s: State, from: NodeId, matched: LogIndex, s': State)
    requires Recorded(s, from, matched, s')
    ensures s'.role == s.role
  {
  }

  /** The reply to a transfer: only a success of the open transfer counts, and it counts as an
      acknowledgement of the snapshot's index; any other reply of the term changes nothing. */
  lemma ReplyMeans(x: SnapCore, from: NodeId, m: InstallResponse, crc: Checksum)
    requires SnapInv(x) && x.pending.None? && x.restore.None? && x.core.pendingLog.None? && m.term <= x.core.state.term
    ensures var r, s := SnapStep(x, InstallReply(from, m), crc), x.core.state;
      if from !in s.peers then r == Thrown(x)
      else if !IsOpen(x, from, m) then r == Took(x, [])
      else r.Took? ==> Recorded(s.(commit := r.x.core.state.commit), from, m.index, r.x.core.state)
  {
    hide SnapInv, Wrap, DeliverMessage, StepSpec, Recorded, CoreSound;
    var r := SnapStep(x, InstallReply(from, m), crc);
    if from in x.core.state.peers && IsOpen(x, from, m) && r.Took? {
      var x1, ack := x.(transfers := x.transfers - {from}), AppendResponse(m.term, true, m.index, m.context);
      MarkIsHeld(x);
      var first := Wrap(x1, DeliverMessage(x.core, from, ack), crc);
      WrapCore(x1, DeliverMessage(x.core, from, ack), crc);
      ReplyCounted(x.core, from, ack);
      DeliverInOrder(x.core, from, ack);
      var c := first.x.core;
      RecordedLeads(x.core.state.(commit := c.state.commit), from, m.index, c.state);
      WrapCore(first.x, StepSpec(c, HeartbeatTimeout), crc);
      HeartbeatKeepsState(c);
    }
  }

  // ---- Completing one ------------------------------------------------------

  /** The snapshot is the durable one, the state starts from it, and what it covers may go. */
  predicate NowDurable(x: SnapCore, snapshot: Snapshot, x': SnapCore) {
    && x'.durable == Some(snapshot) && x'.pending.None? && x'.restore.None?
    && x'.core.state.snapshot == Some(snapshot.metadata.mark)
    && x'.core.state.applied == Max(x.core.state.applied, snapshot.metadata.mark.index)
  }

  lemma ResumeKeeps(x: SnapCore, first: seq<SnapEffect>)
    requires Resume(x, first).Took?
    ensures var r := Resume(x, first);
      && |first| <= |r.effects| && r.effects[..|first|] == first
      && r.x == x.(core := r.x.core) && r.x.core.state == x.core.state
  {
    hide StillWaiting, RaftCore.Answers;
    var r := Schedule(CompleteReads(x.core), RaftCore.Answers(x.core.waiting, x.core.state.applied));
    assert (first + Lift(r.effects))[..|first|] == first;
  }

  /** Only the completion of the write that is open is accepted. A local snapshot then replaces the
      log's prefix; one from a leader is first given to the state machine. */
  lemma PersistedMeans(x: SnapCore, id: nat, snapshot: Snapshot, crc: Checksum)
    ensures var r := SnapStep(x, Persisted(id, snapshot), crc);
      if x.pending.None? || x.pending.value.id != id || x.pending.value.snapshot != snapshot then r == Thrown(x)
      else r.Took? ==>
        var index := snapshot.metadata.mark.index;
        if x.pending.value.reply.None? then
          && (x.restore.None? ==> NowDurable(x, snapshot, r.x))
          && |r.effects| >= 2 && r.effects[..2] == [TruncatePrefix(index), SnapshotCreated(index)]
        else
          && |r.effects| >= 1 && r.effects[..1] == [RestoreSnapshot(id, snapshot)]
          && r.x.durable == x.durable && r.x.pending.None? && r.x.core.state == x.core.state
          && r.x.restore == Some(PendingRestore(id, snapshot, x.pending.value.reply.value.0,
              x.pending.value.reply.value.1))
  {
    hide Resume, CompactTo;
    if x.pending.Some? {
      var index := snapshot.metadata.mark.index;
      var local := CompactCore(x.(pending := None), snapshot);
      var to := x.pending.value.reply;
      CompactedStarts(x.core.state, snapshot.metadata.mark);
      if to.None? {
        var first := [TruncatePrefix(index), SnapshotCreated(index)];
        if Resume(local, first).Took? { ResumeKeeps(local, first); }
      } else {
        var given := x.(pending := None, restore := Some(PendingRestore(id, snapshot, to.value.0, to.value.1)));
        var first := [RestoreSnapshot(id, snapshot)];
        if Resume(given, first).Took? { ResumeKeeps(given, first); }
      }
    }
  }

  lemma CompactedStarts(s: State, mark: SnapshotMark)
    ensures CompactTo(s, mark).snapshot == Some(mark) && CompactTo(s, mark).applied == Max(s.applied, mark.index)
  {
  }

  /** Once the state machine holds it, a leader's snapshot replaces the log's prefix, and only then is
      the leader told. */
  lemma RestoredMeans(x: SnapCore, id: nat, index: LogIndex, crc: Checksum)
    ensures var r := SnapStep(x, Restored(id, index), crc);
      if x.restore.None? || x.restore.value.id != id || x.restore.value.snapshot.metadata.mark.index != index then
        r == Thrown(x)
      else r.Took? ==>
        && (x.pending.None? ==> NowDurable(x, x.restore.value.snapshot, r.x))
        && |r.effects| >= 2
        && r.effects[..2] == [TruncatePrefix(index), SendInstallResponse(x.restore.value.to, x.restore.value.response)]
  {
    hide Resume, CompactTo;
    if x.restore.Some? {
      var p := x.restore.value;
      var done := CompactCore(x.(restore := None), p.snapshot);
      var first := [TruncatePrefix(p.snapshot.metadata.mark.index), SendInstallResponse(p.to, p.response)];
      CompactedStarts(x.core.state, p.snapshot.metadata.mark);
      if Resume(done, first).Took? { ResumeKeeps(done, first); }
    }
  }

  // ---- Starting again ------------------------------------------------------

  /** What may still be on disk before the log's first entry: entries up to the snapshot's last one. */
  predicate Covered(early: seq<LogEntry>, mark: SnapshotMark) {
    && (early != [] ==> early[|early| - 1].index == mark.index && early[|early| - 1].term == mark.term)
    && forall i :: 0 <= i < |early| ==> early[i].index + |early| == mark.index + 1 + i && 0 < early[i].term
  }

  lemma {:induction false} PositionIs(log: seq<LogEntry>, index: LogIndex, k: nat)
    requires k <= |log| && (k < |log| ==> log[k].index == index)
    requires forall i :: 0 <= i < |log| && log[i].index == index ==> i == k
    ensures PositionOf(log, index) == k
  {
    if log != [] && log[0].index != index {
      assert forall i :: 0 <= i < |log| - 1 ==> log[1..][i] == log[i + 1];
      PositionIs(log[1..], index, k - 1);
    }
  }

  lemma TrimmedIs(early: seq<LogEntry>, log: seq<LogEntry>, mark: SnapshotMark)
    requires Covered(early, mark) && forall i :: 0 <= i < |log| ==> log[i].index == mark.index + 1 + i
    ensures Trimmed(early + log, mark) == Some(log)
  {
    var all := early + log;
    assert forall i :: 0 <= i < |early| ==> all[i] == early[i];
    assert forall i :: 0 <= i < |log| ==> all[|early| + i] == log[i];
    if early != [] {
      var k := |early| - 1;
      assert forall i :: 0 <= i < |all| && all[i].index == mark.index ==> i == k;
      PositionIs(all, mark.index, k);
      assert all[k + 1..] == log;
    } else {
      PositionIs(all, mark.index, |all|);
      assert all == log;
    }
  }

  /** A node starts again from what it made durable: its term, vote, log and snapshot, whether or not
      the entries that the snapshot covers have been removed from disk, with what it had applied. */
  lemma StartsAgain(x: SnapCore, early: seq<LogEntry>)
    requires SnapInv(x) && ConfigValid(x.core.state.node, x.core.state.peers)
    requires var vote := x.core.state.vote;
      vote.Some? ==> 0 < x.core.state.term && (vote.value == x.core.state.node || vote.value in x.core.state.peers)
    requires if x.durable.None? then early == []
             else Covered(early, x.durable.value.metadata.mark)
                  && SnapshotOk(x.core.state.node, x.core.state.peers, x.durable.value, x.maxBytes, x.maxMembers)
    ensures var s := x.core.state;
      var y := Recover(s.node, s.peers, HardState(s.term, s.vote), early + s.log, s.applied, x.durable,
                       x.core.maxReads, x.core.maxHistory, x.maxBytes, x.maxMembers);
      && y.Some? && y.value.durable == x.durable
      && y.value.core.state == Restarted(s)
  {
    var s := x.core.state;
    RestartedIs(x, early);
    RestartedValid(s);
    DiskTerms(x, early);
    hide SnapshotOk, Trimmed, Covered, Valid, SnapInv, RecoveredState, Restarted;
  }

  /** The state that a node has after it starts again. */
  function Restarted(s: State): State {
    s.(role := Follower, commit := s.applied, knownLeader := None, votes := {}, leader := None, nextRequest := 1,
       pending := None)
  }

  lemma RestartedValid(s: State)
    requires Valid(s)
    ensures Valid(Restarted(s))
  {
  }

  lemma DiskTerms(x: SnapCore, early: seq<LogEntry>)
    requires SnapInv(x) && if x.durable.None? then early == [] else Covered(early, x.durable.value.metadata.mark)
    ensures Valid(x.core.state)
    ensures forall i :: 0 <= i < |early + x.core.state.log| ==> 0 < (early + x.core.state.log)[i].term
  {
    hide Valid;
  }

  lemma RestartedIs(x: SnapCore, early: seq<LogEntry>)
    requires SnapInv(x) && if x.durable.None? then early == [] else Covered(early, x.durable.value.metadata.mark)
    ensures var s := x.core.state;
      RecoveredState(s.node, s.peers, HardState(s.term, s.vote), early + s.log, s.applied, x.durable)
      == Some(Restarted(s))
  {
    var s := x.core.state;
    assert early == [] ==> early + s.log == s.log;
    if x.durable.Some? { TrimmedIs(early, s.log, x.durable.value.metadata.mark); }
    hide Trimmed, Covered;
  }
}
