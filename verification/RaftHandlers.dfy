/** Each handler of the specification, run by a node whose disk is up to date, takes the
    ledger by a legal transition and leaves a state and a queue of effects that fit it. */
module RaftHandlers {
  import opened RaftTypes
  import opened Figure2
  import opened RaftLedger
  import opened RaftLedgerSteps
  import opened RaftCluster
  import opened RaftInvariant

  predicate MembersAre(members: set<NodeId>, n: NodeId, peers: seq<NodeId>) {
    && n in members && n !in peers && |members| == |peers| + 1 && |peers| >= 2
    && (forall p :: p in peers ==> p in members)
    && (forall m :: m in members ==> m == n || m in peers)
  }

  /** A node with nothing in flight. */
  ghost predicate Calm(l: Ledger, n: NodeId, peers: seq<NodeId>, s: State, d: Durable) {
    && Inv(l) && MembersAre(l.members, n, peers) && DiskOk(l, n, d) && StateOk(l, n, peers, s, d)
    && s.pending.None? && d.hard == Hard(s) && d.log == s.log
    && (s.role.Leader? ==> HasAcked(l, n, s.term, |s.log|))
  }

  /** The committed part of the log never changes, and the indexes never fall. */
  predicate Kept(s: State, s': State) {
    && s.term <= s'.term && s.applied == s'.applied && s.commit <= s'.commit
    && s.commit <= |s.log| && s.commit <= |s'.log| && s'.log[..s.commit] == s.log[..s.commit]
  }

  ghost predicate HandledOk(l: Ledger, n: NodeId, peers: seq<NodeId>, s: State, d: Durable,
                            s': State, effects: seq<Effect>) {
    var l' := RecordLeader(l, n, s');
    && Inv(l') && Grows(l, l')
    && Linked(l', n, peers, s', d) && QueueOk(l', s', d, effects)
    && Kept(s, s') && s'.pending.None?
  }

  /** A node that does not lead records nothing new. */
  lemma HandledByFollower(l: Ledger, n: NodeId, peers: seq<NodeId>, s: State, d: Durable,
                          s': State, effects: seq<Effect>)
    requires Inv(l) && Linked(l, n, peers, s', d) && QueueOk(l, s', d, effects) && Kept(s, s')
    requires s'.pending.None? && !s'.role.Leader?
    ensures HandledOk(l, n, peers, s, d, s', effects)
  {
    hide Inv, Linked, QueueOk, Kept, Grows;
    GrowsReflexive(l);
  }

  // ---- Small facts ---------------------------------------------------------

  lemma LastTermIs(s: State)
    requires s.snapshot.None?
    ensures LastTerm(s) == LastTermOf(s.log) && LastIndex(s) == |s.log| && Base(s) == 0
  {
  }

  lemma ValidLog(l: Ledger, s: State)
    requires Valid(s) && s.snapshot.None?
    ensures s.applied <= s.commit <= |s.log|
    ensures forall i :: 0 <= i < |s.log| ==> s.log[i].index == i + 1 && s.log[i].term <= s.term
  {
  }

  /** A node that stood in its current term voted for itself. */
  lemma StoodMeansSelfVote(l: Ledger, n: NodeId, s: State, d: Durable)
    requires CandidatesInv(l) && DiskOk(l, n, d) && d.hard == Hard(s) && (s.term, n) in l.candLog
    ensures s.vote == Some(n)
  {
  }

  lemma LeaderVotedSelf(l: Ledger, n: NodeId, peers: seq<NodeId>, s: State, d: Durable)
    requires Calm(l, n, peers, s, d) && s.role.Leader?
    ensures s.vote == Some(n)
  {
    hide DurableInv, VotesInv, AcksInv, HolderInv, VoterInv, CompletenessInv, CommitInv, Valid;
    assert ElectedInv(l, s.term);
    StoodMeansSelfVote(l, n, s, d);
  }

  // ---- Observing a term ----------------------------------------------------

  /** The state after a higher term is observed, and its single write. */
  predicate ObservedAs(s: State, s': State, effects: seq<Effect>) {
    || (s' == s && effects == [])
    || (&& s'.term > s.term && s'.vote.None? && s'.role.Follower?
        && s' == s.(term := s'.term, vote := None, role := Follower, knownLeader := None,
                    votes := {}, leader := None, nextRequest := s'.nextRequest)
        && |effects| == 1 && effects[0].PersistHard? && effects[0].hard == HardState(s'.term, None))
  }

  lemma ObserveFacts(s: State, t: Term)
    requires Observe(s, t).Done?
    ensures ObservedAs(s, Observe(s, t).state, Observe(s, t).effects)
    ensures Observe(s, t).state.term == Max(s.term, t)
  {
  }

  lemma FollowerLinked(l: Ledger, n: NodeId, peers: seq<NodeId>, s: State, d: Durable, s': State)
    requires Calm(l, n, peers, s, d)
    requires s'.node == n && s'.peers == peers && s'.snapshot.None? && s'.log == s.log
    requires s'.commit == s.commit && s'.applied == s.applied
    requires !s'.role.Candidate? && !s'.role.Leader?
    ensures Linked(l, n, peers, s', d)
  {
    hide Inv, Valid, Claimed, DecidedTo, Covered, Doomed, WellLog;
  }

  /** Writes, then an optional log write, then messages: the only shape handlers produce. */
  lemma OrderedShape(hards: seq<Effect>, mid: seq<Effect>, tail: seq<Effect>)
    requires forall i :: 0 <= i < |hards| ==> hards[i].PersistHard?
    requires forall i :: 0 <= i < |mid| ==>
               (mid[i].ResetElectionTimer? || (i == |mid| - 1 && mid[i].PersistState?))
    requires forall i :: 0 <= i < |tail| ==> !IsPersist(tail[i])
    ensures Ordered(hards + mid + tail)
    ensures NoLogWrite(hards + mid + tail) ==> forall i :: 0 <= i < |mid| ==> !mid[i].PersistState?
  {
    var all := hards + mid + tail;
    assert forall i :: 0 <= i < |hards| ==> all[i] == hards[i];
    assert forall i :: 0 <= i < |mid| ==> all[|hards| + i] == mid[i];
    assert forall i :: |hards| + |mid| <= i < |all| ==> all[i] == tail[i - |hards| - |mid|];
  }

  lemma SendsShape(l: Ledger, s: State, front: seq<Effect>, tail: seq<Effect>)
    requires forall i :: 0 <= i < |front| ==> !front[i].Send?
    requires SendsOk(l, s, tail)
    ensures SendsOk(l, s, front + tail)
  {
    var all := front + tail;
    forall i | 0 <= i < |all| && all[i].Send? ensures SendOk(l, s, all[i]) {
      assert all[i] == tail[i - |front|];
    }
  }

  /** A queue of one optional term write, then some unconditional refusals and timer resets. */
  lemma RefusalQueue(l: Ledger, s: State, s': State, d: Durable, e1: seq<Effect>, tail: seq<Effect>)
    requires ObservedAs(s, s', e1) && d.hard == Hard(s) && d.log == s.log
    requires forall i :: 0 <= i < |tail| ==> !IsPersist(tail[i])
    requires SendsOk(l, s', tail)
    ensures QueueOk(l, s', d, e1 + tail)
  {
    hide Ordered, SendsOk;
    var all := e1 + tail;
    assert e1 + [] + tail == all;
    OrderedShape(e1, [], tail);
    SendsShape(l, s', e1, tail);
    if e1 == [] {
      assert all == tail;
    } else {
      assert all[0] == e1[0] && all[1..] == tail;
    }
  }

  lemma CalmShape(l: Ledger, n: NodeId, peers: seq<NodeId>, s: State, d: Durable)
    requires Calm(l, n, peers, s, d)
    ensures s.node == n && s.peers == peers && s.snapshot.None?
    ensures s.applied <= s.commit <= |s.log|
    ensures n !in peers && |peers| >= 2 && Inv(l) && s.pending.None? && d.hard == Hard(s) && d.log == s.log
  {
    ValidLog(l, s);
  }

  lemma RecordSame(l: Ledger, n: NodeId, peers: seq<NodeId>, s: State, d: Durable)
    requires Linked(l, n, peers, s, d)
    ensures RecordLeader(l, n, s) == l
  {
    hide CommitOk, CandidateOk, LogRelated, WellLog;
    if s.role.Leader? {
      assert l.termLog[s.term := s.log] == l.termLog;
      assert l.leaderOf[s.term := n] == l.leaderOf;
      assert l.commitOf[s.term := s.commit] == l.commitOf;
    }
  }

  /** A handler that at most observes a term and answers. */
  lemma AnswerOnly(l: Ledger, n: NodeId, peers: seq<NodeId>, s: State, d: Durable,
                s': State, e1: seq<Effect>, tail: seq<Effect>)
    requires Calm(l, n, peers, s, d) && ObservedAs(s, s', e1)
    requires forall i :: 0 <= i < |tail| ==> !IsPersist(tail[i])
    requires SendsOk(l, s', tail)
    ensures HandledOk(l, n, peers, s, d, s', e1 + tail)
  {
    CalmShape(l, n, peers, s, d);
    hide Inv, Valid, QueueOk, Linked, DiskOk, SendsOk;
    if s' != s {
      FollowerLinked(l, n, peers, s, d, s');
    }
    RecordSame(l, n, peers, s', d);
    RefusalQueue(l, s, s', d, e1, tail);
    GrowsReflexive(l);
  }

  // ---- RequestVote ---------------------------------------------------------

  lemma GrantedQueue(l: Ledger, s: State, s1: State, s': State, d: Durable,
                     e1: seq<Effect>, e3: seq<Effect>, to: NodeId)
    requires ObservedAs(s, s1, e1) && d.hard == Hard(s) && d.log == s.log
    requires s' == s1.(vote := Some(to), nextRequest := s'.nextRequest) && s'.node != to
    requires (s1.vote == Some(to) && e3 == [])
          || (s1.vote.None? && |e3| == 1 && e3[0].PersistHard? && e3[0].hard == Hard(s'))
    requires (s'.term, to) in l.candLog && AtLeastAsFresh(l.candLog[(s'.term, to)], s'.log)
    ensures QueueOk(l, s', d, e1 + e3 + [ResetElectionTimer, Send(to, VoteResponse(s'.term, true))])
  {
    hide Ordered, SendsOk;
    var tail := [ResetElectionTimer, Send(to, VoteResponse(s'.term, true))];
    var hards := e1 + e3;
    var all := hards + tail;
    assert hards + [] + tail == all;
    OrderedShape(hards, [], tail);
    GrantSends(l, s', to);
    SendsShape(l, s', hards, tail);
    if e3 == [] {
      assert e1 == [] && all == tail;
    } else if e1 == [] {
      assert hards == e3 && all[0] == e3[0] && all[1..] == tail;
    } else {
      assert hards[0] == e1[0] && hards[1] == e3[0];
      assert all[0] == e1[0] && all[1..] == e3 + tail && all[1..][0] == e3[0];
      assert all[1..][1..] == tail;
    }
  }

  lemma GrantSends(l: Ledger, s: State, to: NodeId)
    requires s.vote == Some(to)
    ensures SendsOk(l, s, [ResetElectionTimer, Send(to, VoteResponse(s.term, true))])
  {
  }

  lemma GrantLinked(l: Ledger, n: NodeId, peers: seq<NodeId>, s: State, d: Durable, s1: State, to: NodeId, s': State)
    requires Calm(l, n, peers, s, d) && to != n && (s1.vote.None? || s1.vote == Some(to))
    requires s1 == s || (s1.role.Follower? && s1.log == s.log && s1.commit == s.commit
                         && s1.applied == s.applied && s1.node == n && s1.peers == peers && s1.snapshot.None?)
    requires s' == s1.(vote := Some(to), nextRequest := s'.nextRequest)
    ensures Linked(l, n, peers, s', d) && !s'.role.Leader?
  {
    CalmShape(l, n, peers, s, d);
    assert !s1.role.Candidate? && !s1.role.Leader? by {
      if s1 == s && s.role.Leader? {
        LeaderVotedSelf(l, n, peers, s, d);
      }
    }
    FollowerLinked(l, n, peers, s, d, s');
  }

  lemma GrantHandled(l: Ledger, n: NodeId, peers: seq<NodeId>, s: State, d: Durable,
                     s1: State, e1: seq<Effect>, s': State, e3: seq<Effect>, to: NodeId)
    requires Calm(l, n, peers, s, d) && ObservedAs(s, s1, e1) && to in peers
    requires s' == s1.(vote := Some(to), nextRequest := s'.nextRequest)
    requires (s1.vote == Some(to) && e3 == [])
          || (s1.vote.None? && |e3| == 1 && e3[0].PersistHard? && e3[0].hard == Hard(s'))
    requires (s'.term, to) in l.candLog && AtLeastAsFresh(l.candLog[(s'.term, to)], s'.log)
    ensures HandledOk(l, n, peers, s, d, s',
              e1 + e3 + [ResetElectionTimer, Send(to, VoteResponse(s'.term, true))])
  {
    hide Calm, Linked, QueueOk, Inv, AtLeastAsFresh, HandledOk;
    CalmShape(l, n, peers, s, d);
    GrantLinked(l, n, peers, s, d, s1, to, s');
    GrantedQueue(l, s, s1, s', d, e1, e3, to);
    assert Kept(s, s') && s'.pending.None?;
    hide ObservedAs, Kept;
    HandledByFollower(l, n, peers, s, d, s', e1 + e3 + [ResetElectionTimer, Send(to, VoteResponse(s'.term, true))]);
  }

  /** What HandleVoteRequest does, in terms of the observed state. */
  lemma VoteRequestShape(s: State, from: NodeId, m: Message)
    returns (s1: State, e1: seq<Effect>, granted: bool, e3: seq<Effect>)
    requires m.VoteRequest? && HandleVoteRequest(s, from, m).Done? && s.snapshot.None?
    ensures ObservedAs(s, s1, e1) && from in s.peers
    ensures var r := HandleVoteRequest(s, from, m);
      if granted then
        && m.term == s1.term && m.candidate == from
        && r.state == s1.(vote := Some(from), nextRequest := r.state.nextRequest)
        && ((s1.vote == Some(from) && e3 == [])
            || (s1.vote.None? && |e3| == 1 && e3[0].PersistHard? && e3[0].hard == Hard(r.state)))
        && r.effects == e1 + e3 + [ResetElectionTimer, Send(from, VoteResponse(r.state.term, true))]
        && (m.lastTerm > LastTermOf(s1.log) || (m.lastTerm == LastTermOf(s1.log) && m.lastIndex >= |s1.log|))
      else
        r.state == s1 && r.effects == e1 + [Send(from, VoteResponse(s1.term, false))]
  {
    ObserveFacts(s, m.term);
    s1, e1 := Observe(s, m.term).state, Observe(s, m.term).effects;
    LastTermIs(s1);
    granted := m.term == s1.term && (s1.vote.None? || s1.vote == Some(m.candidate))
               && UpToDate(s1, m.lastTerm, m.lastIndex);
    var s2 := s1.(vote := Some(m.candidate));
    var o := if s1.vote.None? then PersistHardState(s2) else Done(s2, []);
    e3 := if granted then o.effects else [];
  }

  lemma VoteRequestOk(l: Ledger, n: NodeId, peers: seq<NodeId>, s: State, d: Durable,
                      from: NodeId, m: Message)
    requires Calm(l, n, peers, s, d) && m.VoteRequest? && PacketOk(l, Packet(from, n, m))
    requires HandleVoteRequest(s, from, m).Done?
    ensures var r := HandleVoteRequest(s, from, m); HandledOk(l, n, peers, s, d, r.state, r.effects)
  {
    CalmShape(l, n, peers, s, d);
    hide Calm, HandledOk, Inv, HandleVoteRequest;
    var s1, e1, granted, e3 := VoteRequestShape(s, from, m);
    if granted {
      GrantHandled(l, n, peers, s, d, s1, e1, HandleVoteRequest(s, from, m).state, e3, from);
    } else {
      AnswerOnly(l, n, peers, s, d, s1, e1, [Send(from, VoteResponse(s1.term, false))]);
    }
  }
}
