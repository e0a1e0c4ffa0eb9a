/** The loops of the specification, each proved against the function that `Figure2` uses. */
module Figure2Loops {
  import opened RaftTypes
  import opened Figure2

  /** The conflict scan and the splice of `handle_append_entries`, on a request whose previous
      entry matches. `None` is the refusal to overwrite a committed entry. */
  method SpliceEntries(s: State, m: Message) returns (spliced: Option<(seq<LogEntry>, bool)>)
    requires m.AppendRequest? && PreviousMatches(s, m)
    ensures var k := FirstMissing(s, m.previous, m.entries, 0);
      if k < |m.entries| && m.previous + 1 + k <= LastIndex(s) && m.previous + 1 + k <= s.commit
      then spliced.None?
      else
        && spliced.Some? && spliced.value.1 == (k < |m.entries|)
        && spliced.value.0 ==
             if k < |m.entries| then s.log[..m.previous + k - Base(s)] + m.entries[k..] else s.log
  {
    var log, changed, incoming := s.log, false, 0;
    while incoming < |m.entries|
      invariant 0 <= incoming <= |m.entries| && log == s.log && !changed
      invariant FirstMissing(s, m.previous, m.entries, 0)
             == FirstMissing(s, m.previous, m.entries, incoming)
      invariant m.previous + incoming <= LastIndex(s)
    {
      var index := m.previous + 1 + incoming;
      if index > LastIndex(s) { break; }
      if TermAt(s, index) != m.entries[incoming].term {
        if index <= s.commit { return None; }
        log := log[..index - Base(s) - 1];
        changed := true;
        break;
      }
      incoming := incoming + 1;
    }
    if incoming < |m.entries| {
      log := log + m.entries[incoming..];
      changed := true;
    }
    return Some((log, changed));
  }

  method CheckContiguous(previous: LogIndex, entries: seq<LogEntry>) returns (ok: bool)
    ensures ok <==> Contiguous(previous, entries)
  {
    var expected := previous + 1;
    for i := 0 to |entries|
      invariant expected == previous + 1 + i
      invariant forall j :: 0 <= j < i ==> entries[j].index == previous + 1 + j
    {
      if entries[i].index != expected { return false; }
      expected := expected + 1;
    }
    return true;
  }

  function HoldersAmong(progress: map<NodeId, Progress>, some: set<NodeId>, index: LogIndex): set<NodeId>
    requires some <= progress.Keys
  {
    set p | p in some && progress[p].match_ >= index
  }

  lemma OneMoreHolder(progress: map<NodeId, Progress>, some: set<NodeId>, p: NodeId, index: LogIndex)
    requires some <= progress.Keys && p in progress && p !in some
    ensures |HoldersAmong(progress, some + {p}, index)|
         == |HoldersAmong(progress, some, index)| + if progress[p].match_ >= index then 1 else 0
  {
    var before, after := HoldersAmong(progress, some, index), HoldersAmong(progress, some + {p}, index);
    if progress[p].match_ >= index {
      assert after == before + {p};
    } else {
      assert after == before;
    }
  }

  method CountHolders(s: State, index: LogIndex) returns (count: nat)
    requires s.leader.Some?
    ensures count == Replicated(s, index)
  {
    var progress := s.leader.value.progress;
    var rest := progress.Keys;
    count := 1;
    while rest != {}
      invariant rest <= progress.Keys
      invariant count == 1 + |HoldersAmong(progress, progress.Keys - rest, index)|
      decreases |rest|
    {
      var p :| p in rest;
      OneMoreHolder(progress, progress.Keys - rest, p, index);
      assert progress.Keys - (rest - {p}) == (progress.Keys - rest) + {p};
      rest := rest - {p};
      if progress[p].match_ >= index { count := count + 1; }
    }
    assert Holders(s, index) == HoldersAmong(progress, progress.Keys - rest, index);
  }

  /** The commit search walks down from the last index and stops at the first hit. */
  method AdvanceLeaderCommit(s: State) returns (commit: LogIndex)
    requires s.leader.Some? && Base(s) <= s.commit <= LastIndex(s)
    ensures commit == CommitFrom(s, LastIndex(s))
  {
    var candidate := LastIndex(s);
    while candidate > s.commit
      invariant s.commit <= candidate <= LastIndex(s)
      invariant CommitFrom(s, LastIndex(s)) == CommitFrom(s, candidate)
    {
      if TermAt(s, candidate) == s.term {
        var replicated := CountHolders(s, candidate);
        if replicated >= Majority(s) { return candidate; }
      }
      candidate := candidate - 1;
    }
    return s.commit;
  }

  method GateOnHardState(s: State, effects: seq<Effect>) returns (r: Outcome)
    ensures r == Gate(s, effects)
  {
    var k := 0;
    while k < |effects| && !effects[k].PersistHard?
      invariant 0 <= k <= |effects|
      invariant forall i :: 0 <= i < k ==> !effects[i].PersistHard?
    {
      k := k + 1;
    }
    if k == |effects| { return Done(s, effects); }
    if s.pending.Some? { return Failed(AlreadyPending); }
    var pending := PendingHard(effects[k].id, effects[k].hard, effects[k + 1..]);
    return Done(s.(pending := Some(pending)), effects[..k + 1]);
  }

  // ---- The state check -----------------------------------------------------

  method CheckPeers(s: State) returns (violations: nat)
    ensures violations == 0 <==> PeersValid(s)
  {
    violations := 0;
    var seen: set<NodeId> := {};
    for i := 0 to |s.peers|
      invariant seen == set j | 0 <= j < i :: s.peers[j]
      invariant violations == 0 <==> s.node !in s.peers[..i] && NoDuplicates(s.peers[..i])
    {
      assert s.peers[..i + 1] == s.peers[..i] + [s.peers[i]];
      if s.peers[i] == s.node { violations := violations + 1; }
      if s.peers[i] in seen {
        violations := violations + 1;
        var j :| 0 <= j < i && s.peers[j] == s.peers[i];
        assert s.peers[..i + 1][j] == s.peers[..i + 1][i];
      }
      seen := seen + {s.peers[i]};
    }
    assert s.peers[..|s.peers|] == s.peers;
  }

  /** Stops at the first entry out of place, as the code does. */
  method CheckLog(s: State) returns (violations: nat)
    ensures violations == 0 <==> LogValid(s)
  {
    var expected := Base(s) + 1;
    for i := 0 to |s.log|
      invariant expected == Base(s) + i + 1
      invariant forall j :: 0 <= j < i ==> s.log[j].index == Base(s) + j + 1 && s.log[j].term <= s.term
    {
      if s.log[i].index != expected { return 1; }
      expected := expected + 1;
      if s.log[i].term > s.term { return 1; }
    }
    return 0;
  }

  method CheckIndexes(s: State) returns (violations: nat)
    ensures violations == 0 <==> SnapshotValid(s) && IndexesValid(s)
  {
    violations := 0;
    if s.snapshot.Some? && s.snapshot.value.index == 0 { violations := violations + 1; }
    if s.snapshot.Some? && (s.snapshot.value.term == 0 || s.snapshot.value.term > s.term) {
      violations := violations + 1;
    }
    if s.commit < Base(s) || s.applied < Base(s) { violations := violations + 1; }
    if s.commit > LastIndex(s) { violations := violations + 1; }
    if s.applied > s.commit { violations := violations + 1; }
  }

  method CheckRoles(s: State) returns (violations: nat)
    ensures violations == 0 <==> RolesValid(s) && RequestsValid(s)
  {
    violations := 0;
    if s.role.Leader? && s.leader.None? { violations := violations + 1; }
    if !s.role.Leader? && s.leader.Some? { violations := violations + 1; }
    if !s.role.Candidate? && s.votes != {} { violations := violations + 1; }
    if s.nextRequest == 0 { violations := violations + 1; }
    if s.pending.Some? && s.pending.value.id == 0 { violations := violations + 1; }
    ghost var before := violations;
    var rest := s.votes;
    while rest != {}
      invariant rest <= s.votes
      invariant violations >= before
      invariant violations == before <==> forall v :: v in s.votes - rest ==> v == s.node || v in s.peers
      decreases |rest|
    {
      var v :| v in rest;
      rest := rest - {v};
      if v != s.node && v !in s.peers {
        violations := violations + 1;
        assert v in s.votes - rest;
      }
    }
    assert s.votes - rest == s.votes;
  }

  method CheckProgress(s: State) returns (violations: nat)
    requires s.leader.Some?
    ensures violations == 0 <==>
      forall p :: p in s.peers ==>
        p in s.leader.value.progress && ProgressValid(s, s.leader.value.progress[p])
  {
    violations := 0;
    for i := 0 to |s.peers|
      invariant violations == 0 <==>
        forall j :: 0 <= j < i ==>
          s.peers[j] in s.leader.value.progress && ProgressValid(s, s.leader.value.progress[s.peers[j]])
    {
      if s.peers[i] !in s.leader.value.progress {
        violations := violations + 1;
      } else {
        var p := s.leader.value.progress[s.peers[i]];
        if p.next < 1 || p.next > LastIndex(s) + 1 { violations := violations + 1; }
        if p.match_ > LastIndex(s) || p.match_ >= p.next { violations := violations + 1; }
      }
    }
  }

  method CheckClients(s: State) returns (violations: nat)
    requires s.leader.Some?
    ensures violations == 0 <==> forall c :: c in s.leader.value.clients ==> 0 < c <= LastIndex(s)
  {
    violations := 0;
    var clients := s.leader.value.clients;
    var rest := clients;
    while rest != {}
      invariant rest <= clients
      invariant violations == 0 <==> forall c :: c in clients - rest ==> 0 < c <= LastIndex(s)
      decreases |rest|
    {
      var c :| c in rest;
      assert clients - (rest - {c}) == (clients - rest) + {c};
      rest := rest - {c};
      if c == 0 || c > LastIndex(s) {
        violations := violations + 1;
        assert c in clients - rest;
      }
    }
    assert clients - rest == clients;
  }

  method Validate(s: State) returns (violations: nat)
    ensures violations == 0 <==> Valid(s)
  {
    var peers := CheckPeers(s);
    var indexes := CheckIndexes(s);
    var log := CheckLog(s);
    var roles := CheckRoles(s);
    violations := peers + indexes + log + roles;
    if s.leader.Some? {
      if |s.leader.value.progress| != |s.peers| { violations := violations + 1; }
      var progress := CheckProgress(s);
      var clients := CheckClients(s);
      violations := violations + progress + clients;
    }
  }
}
