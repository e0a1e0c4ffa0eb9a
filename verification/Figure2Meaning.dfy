/** What each event means to a node, said in terms of the entries, votes and match indexes that the
    node holds, for every valid state, snapshot or not. Together with the gating and post-check
    results these fix the outcome of every step of the specification. */
module Figure2Meaning {
  import opened RaftTypes
  import opened Figure2
  import opened Figure2Proofs

  // ---- Reading a state -----------------------------------------------------

  /** The node holds an entry with this index and term, as an entry or as its snapshot's last; every
      log holds the empty entry 0. */
  predicate Holds(s: State, index: LogIndex, term: Term) {
    || (index == 0 && term == 0)
    || (s.snapshot == Some(SnapshotMark(index, term)))
    || exists k :: 0 <= k < |s.log| && s.log[k].index == index && s.log[k].term == term
  }

  /** The index and term of the node's last entry. */
  function OwnLast(s: State): SnapshotMark {
    if s.log != [] then SnapshotMark(s.log[|s.log| - 1].index, s.log[|s.log| - 1].term)
    else if s.snapshot.Some? then s.snapshot.value
    else SnapshotMark(0, 0)
  }

  predicate AtLeast(term: Term, index: LogIndex, last: SnapshotMark) {
    term > last.term || (term == last.term && index >= last.index)
  }

  lemma OwnLastIs(s: State)
    requires Valid(s)
    ensures OwnLast(s) == SnapshotMark(LastIndex(s), LastTerm(s))
  {
  }

  lemma HoldsIs(s: State, index: LogIndex, term: Term)
    requires Valid(s) && (index == 0 || Base(s) <= index <= LastIndex(s))
    ensures Holds(s, index, term) <==> TermAt(s, index) == term
  {
    if index != 0 && index > Base(s) {
      assert s.log[index - Base(s) - 1].index == index;
    }
  }

  lemma HoldsWithin(s: State, index: LogIndex, term: Term)
    requires Valid(s)
    ensures Holds(s, index, term) ==> index == 0 || Base(s) <= index <= LastIndex(s)
  {
  }

  // ---- Terms ---------------------------------------------------------------

  /** Seeing a term: a later one makes the node a follower without a vote, and is written first. */
  function Seen(s: State, t: Term): State {
    if t <= s.term then s
    else s.(term := t, vote := None, role := Follower, knownLeader := None, votes := {}, leader := None,
            nextRequest := s.nextRequest + 1)
  }

  function SeenWrites(s: State, t: Term): seq<Effect> {
    if t <= s.term then [] else [PersistHard(s.nextRequest, HardState(t, None))]
  }

  predicate IdLeft(s: State) {
    s.nextRequest != 0 && s.nextRequest != U64_MAX
  }

  lemma ObserveMeans(s: State, t: Term)
    ensures Observe(s, t) == if t <= s.term || IdLeft(s) then Done(Seen(s, t), SeenWrites(s, t)) else Failed(Exhausted)
  {
  }

  // ---- Votes ---------------------------------------------------------------

  /** The vote is free, or already this candidate's, in the request's own term, and the candidate's
      log is at least as up to date as the node's. */
  predicate Grants(s: State, m: Message)
    requires m.VoteRequest?
  {
    && s.term <= m.term
    && (s.term < m.term || s.vote.None? || s.vote == Some(m.candidate))
    && AtLeast(m.lastTerm, m.lastIndex, OwnLast(s))
  }

  /** RequestVote: exactly one answer, the last effect, true if and only if the vote is granted; a
      newly given vote is written before it, after a newly seen term. */
  lemma VoteRequestMeans(s: State, from: NodeId, m: Message)
    requires Valid(s) && s.pending.None? && m.VoteRequest?
    ensures var r := Handle(s, Receive(from, m));
      if from !in s.peers then r == Failed(NotPeer)
      else if m.candidate != from then r == Failed(SenderMismatch)
      else
        var seen := Seen(s, m.term);
        var isNew := Grants(s, m) && seen.vote.None?;
        && (r.Failed? ==> r.error.Exhausted?)
        && (r.Done? ==>
              && r.state == seen.(vote := if Grants(s, m) then Some(from) else seen.vote,
                                  nextRequest := seen.nextRequest + if isNew then 1 else 0)
              && r.effects == SeenWrites(s, m.term)
                 + (if isNew then [PersistHard(seen.nextRequest, HardState(m.term, Some(from)))] else [])
                 + (if Grants(s, m) then [ResetElectionTimer] else [])
                 + [Send(from, VoteResponse(seen.term, Grants(s, m)))])
        && (s.nextRequest + 1 < U64_MAX ==> r.Done?)
  {
    OwnLastIs(s);
    ObserveMeans(s, m.term);
    hide Valid, Observe;
    if from in s.peers && m.candidate == from {
      var seen, writes := Seen(s, m.term), SeenWrites(s, m.term);
      assert LastTerm(seen) == LastTerm(s) && LastIndex(seen) == LastIndex(s);
      assert m.term >= seen.term <==> m.term >= s.term;
      var answer := Send(from, VoteResponse(seen.term, Grants(s, m)));
      assert writes + [] + [ResetElectionTimer, answer] == writes + [] + [ResetElectionTimer] + [answer];
      assert writes + [] + [] + [answer] == writes + [answer];
      if Grants(s, m) && seen.vote.None? {
        var write := [PersistHard(seen.nextRequest, HardState(m.term, Some(from)))];
        assert writes + write + [ResetElectionTimer, answer] == writes + write + [ResetElectionTimer] + [answer];
      }
    }
  }

  /** More than half of the members, the node itself and its peers, are counted. */
  predicate MostOf(count: nat, s: State) {
    2 * count > |s.peers| + 1
  }

  lemma MostIsMajority(count: nat, s: State)
    ensures MostOf(count, s) <==> count >= Majority(s)
  {
  }

  /** The new leader expects every peer to hold its own log, and knows of none that does. */
  ghost predicate NewlyLeads(s: State, s': State) {
    && s' == s.(role := Leader, votes := {}, knownLeader := Some(s.node), leader := s'.leader) && s'.leader.Some?
    && s'.leader.value.clients == {} && (forall p :: p in s'.leader.value.progress <==> p in s.peers)
    && forall p :: p in s.peers ==> s'.leader.value.progress[p] == Progress(OwnLast(s).index + 1, 0)
  }

  /** A request for one peer: everything after the entry before its next index, or after the
      snapshot, with that entry's index and term, and the leader's commit index. */
  predicate Offers(s: State, p: NodeId, context: Option<ReadContext>, m: Message) {
    && m.AppendRequest? && m.term == s.term && m.leader == s.node && m.leaderCommit == s.commit && m.context == context
    && s.leader.Some? && p in s.leader.value.progress
    && var next := s.leader.value.progress[p].next;
       var base := if s.snapshot.Some? then s.snapshot.value.index else 0;
    && m.previous + 1 == (if next > base then next else base + 1)
    && Holds(s, m.previous, m.previousTerm) && m.previous <= OwnLast(s).index
    && |m.entries| == OwnLast(s).index - m.previous && |m.entries| <= |s.log|
        && m.entries == s.log[|s.log| - |m.entries|..]
  }

  /** One request for each peer, in the order of the peers. */
  predicate OffersAll(s: State, effects: seq<Effect>) {
    |effects| == |s.peers| && forall i :: 0 <= i < |s.peers| ==>
      effects[i].Send? && effects[i].to == s.peers[i] && Offers(s, s.peers[i], None, effects[i].msg)
  }

  lemma AppendForMeans(s: State, p: NodeId, context: Option<ReadContext>)
    requires Valid(s) && s.leader.Some? && p in s.peers
    ensures p in s.leader.value.progress && ProgressValid(s, s.leader.value.progress[p])
    ensures Offers(s, p, context, AppendFor(s, p, context))
  {
    OwnLastIs(s);
    var m := AppendFor(s, p, context);
    HoldsIs(s, m.previous, m.previousTerm);
  }

  lemma ReplicateMeans(s: State)
    requires Valid(s) && s.leader.Some?
    ensures CanReplicate(s) && OffersAll(s, Replicate(s, s.peers))
  {
    hide AppendFor, Offers;
    forall i | 0 <= i < |s.peers|
      ensures s.peers[i] in s.leader.value.progress && Offers(s, s.peers[i], None, AppendFor(s, s.peers[i], None))
    {
      AppendForMeans(s, s.peers[i], None);
    }
  }

  lemma InitializeMeans(s: State)
    requires Valid(s) && s.role.Candidate? && s.pending.None?
    ensures var r := InitializeLeader(s);
      if OwnLast(s).index >= U64_MAX then r == Failed(Exhausted)
      else r.Done? && NewlyLeads(s, r.state) && OffersAll(r.state, r.effects)
  {
    OwnLastIs(s);
    if LastIndex(s) < U64_MAX {
      var s1 := InitializeLeader(s).state;
      LeadsValid(s, s1);
      ReplicateMeans(s1);
    }
  }

  lemma LeadsValid(s: State, s1: State)
    requires Valid(s) && InitializeLeader(s).Done? && s1 == InitializeLeader(s).state
    ensures Valid(s1)
  {
    ProgressCount(s.peers, FreshProgress(s));
  }

  lemma VoteCounted(s: State, from: NodeId, m: Message)
    requires m.VoteResponse? && from in s.peers && s.role.Candidate? && m.term == s.term && m.granted
    ensures var counted := s.(votes := s.votes + {from});
      HandleVoteResponse(s, from, m)
      == if |counted.votes| >= Majority(counted) then InitializeLeader(counted) else Done(counted, [])
  {
    hide InitializeLeader, Majority, Observe;
    ObserveMeans(s, m.term);
    var i := InitializeLeader(s.(votes := s.votes + {from}));
    if i.Done? { assert [] + i.effects == i.effects; }
  }

  lemma VoteIgnored(s: State, from: NodeId, m: Message)
    requires m.VoteResponse? && !(s.role.Candidate? && m.term == s.term && m.granted)
    ensures HandleVoteResponse(s, from, m)
         == if from !in s.peers then Failed(NotPeer) else Observe(s, m.term)
  {
    hide InitializeLeader;
  }

  /** RequestVote's answer: a granted vote of the candidate's own term is counted, and more than
      half make it the leader. */
  lemma VoteResponseMeans(s: State, from: NodeId, m: Message)
    requires Valid(s) && s.pending.None? && m.VoteResponse?
    ensures var r := Handle(s, Receive(from, m));
      if from !in s.peers then r == Failed(NotPeer)
      else if m.term > s.term then
        r == if IdLeft(s) then Done(Seen(s, m.term), SeenWrites(s, m.term)) else Failed(Exhausted)
      else if !s.role.Candidate? || m.term != s.term || !m.granted then r == Done(s, [])
      else
        var counted := s.(votes := s.votes + {from});
        if !MostOf(|counted.votes|, s) then r == Done(counted, [])
        else if OwnLast(s).index >= U64_MAX then r == Failed(Exhausted)
        else r.Done? && NewlyLeads(counted, r.state) && OffersAll(r.state, r.effects)
  {
    hide HandleVoteResponse, InitializeLeader, OffersAll, NewlyLeads, Observe, Majority, MostOf;
    ObserveMeans(s, m.term);
    if from in s.peers && s.role.Candidate? && m.term == s.term && m.granted {
      var counted := s.(votes := s.votes + {from});
      CountedValid(s, from);
      MostIsMajority(|counted.votes|, counted);
      SameMost(|counted.votes|, s, counted);
      VoteCounted(s, from, m);
      InitializeMeans(counted);
    } else if !(s.role.Candidate? && m.term == s.term && m.granted) {
      VoteIgnored(s, from, m);
    } else {
      NotPeerFails(s, from, m);
    }
  }

  lemma CountedValid(s: State, from: NodeId)
    requires Valid(s) && s.role.Candidate? && from in s.peers
    ensures Valid(s.(votes := s.votes + {from})) && OwnLast(s.(votes := s.votes + {from})) == OwnLast(s)
  {
  }

  lemma SameMost(count: nat, s: State, s': State)
    requires s.peers == s'.peers
    ensures MostOf(count, s) == MostOf(count, s')
  {
  }

  lemma NotPeerFails(s: State, from: NodeId, m: Message)
    requires m.VoteResponse? && from !in s.peers
    ensures HandleVoteResponse(s, from, m) == Failed(NotPeer)
  {
  }

  // ---- The commit rule -----------------------------------------------------

  function Copies(s: State, index: LogIndex): set<NodeId> {
    set p | p in s.peers && s.leader.Some? && p in s.leader.value.progress && s.leader.value.progress[p].match_ >= index
  }

  /** An entry of the leader's own term that the leader and enough match indexes cover. */
  predicate Eligible(s: State, index: LogIndex) {
    && (exists k :: 0 <= k < |s.log| && s.log[k].index == index && s.log[k].term == s.term)
    && MostOf(1 + |Copies(s, index)|, s)
  }

  /** The commit index goes to the greatest eligible entry above it, and stays if there is none. */
  predicate CommitsTo(s: State, commit: LogIndex) {
    && (commit == s.commit || (commit > s.commit && Eligible(s, commit)))
    && forall k :: 0 <= k < |s.log| && s.log[k].index > s.commit && Eligible(s, s.log[k].index) ==>
         s.log[k].index <= commit
  }

  lemma PeersAreProgress(s: State)
    requires Valid(s) && s.leader.Some?
    ensures s.leader.value.progress.Keys == set p | p in s.peers
  {
    var all := FreshProgress(s);
    ProgressCount(s.peers, all);
    assert all.Keys == set p | p in s.peers;
    SameSize(all.Keys, s.leader.value.progress.Keys);
  }

  lemma SameSize(a: set<NodeId>, b: set<NodeId>)
    requires a <= b && |a| == |b|
    ensures a == b
  {
    assert b == a + (b - a) && |b| == |a| + |b - a|;
  }

  lemma EligibleIs(s: State, index: LogIndex)
    requires Valid(s) && s.leader.Some? && Base(s) < index <= LastIndex(s)
    ensures Eligible(s, index) <==> Committable(s, index)
  {
    PeersAreProgress(s);
    assert Copies(s, index) == Holders(s, index);
    MostIsMajority(1 + |Copies(s, index)|, s);
    assert s.log[index - Base(s) - 1].index == index;
  }

  lemma AdvanceMeans(s: State)
    requires Valid(s) && s.leader.Some?
    ensures AdvanceCommit(s) == s.(commit := AdvanceCommit(s).commit) && CommitsTo(s, AdvanceCommit(s).commit)
  {
    hide Eligible;
    var c := CommitFrom(s, LastIndex(s));
    hide CommitFrom, Committable;
    if c != s.commit { EligibleIs(s, c); }
    forall k | 0 <= k < |s.log| && s.log[k].index > s.commit
        && Eligible(s, s.log[k].index) ensures s.log[k].index <= c {
      EligibleIs(s, s.log[k].index);
    }
  }

  // ---- AppendEntries answers -----------------------------------------------

  /** The sender's match index rises to what it acknowledged, never falls, and the next index
      follows it; no other peer's changes. */
  predicate Recorded(s: State, from: NodeId, matched: LogIndex, s': State) {
    && s.leader.Some? && s'.leader.Some? && from in s.leader.value.progress
    && s' == s.(leader := s'.leader) && s'.leader.value.clients == s.leader.value.clients
    && s'.leader.value.progress.Keys == s.leader.value.progress.Keys
    && (forall p :: p in s.leader.value.progress && p != from ==>
          s'.leader.value.progress[p] == s.leader.value.progress[p])
    && var was, now := s.leader.value.progress[from], s'.leader.value.progress[from];
    && was.match_ <= now.match_ && matched <= now.match_ && (now.match_ == was.match_ || now.match_ == matched)
    && now.next == now.match_ + 1
  }

  /** A success of the leader's own term within its log: it is recorded, and the commit index goes to
      the greatest entry of the term that more than half now hold. */
  lemma SuccessMeans(s: State, from: NodeId, m: Message)
    requires Valid(s) && s.pending.None? && s.role.Leader? && from in s.peers
    requires m.AppendResponse? && m.succeeded && m.term == s.term && m.matched <= OwnLast(s).index
    ensures var r := Handle(s, Receive(from, m));
      && r.Done? && r.effects == [] && Recorded(s.(commit := r.state.commit), from, m.matched, r.state)
      && CommitsTo(r.state.(commit := s.commit), r.state.commit)
  {
    OwnLastIs(s);
    ObserveMeans(s, m.term);
    var p := s.leader.value.progress[from];
    var matched := Max(p.match_, m.matched);
    var recorded := SetProgress(s, from, Progress(matched + 1, matched));
    RecordedValid(s, from, matched);
    AdvanceMeans(recorded);
    assert s.leader.value.progress[from := Progress(matched + 1, matched)].Keys == s.leader.value.progress.Keys;
    hide Observe, AdvanceCommit, CommitsTo, Eligible;
    var r := Handle(s, Receive(from, m));
    assert r == Done(AdvanceCommit(recorded), []);
    assert r.state.(commit := s.commit) == recorded;
  }

  lemma RecordedValid(s: State, from: NodeId, matched: LogIndex)
    requires Valid(s) && s.leader.Some? && from in s.peers && matched <= LastIndex(s)
    ensures Valid(SetProgress(s, from, Progress(matched + 1, matched)))
  {
    var p := s.leader.value.progress;
    assert |p[from := Progress(matched + 1, matched)]| == |p| by {
      assert p[from := Progress(matched + 1, matched)].Keys == p.Keys;
    }
  }

  /** Any other answer: unknown senders and acknowledgements beyond the log are errors, a later
      term is observed, and what is not for this leader's term is ignored. */
  lemma OtherResponsesMean(s: State, from: NodeId, m: Message)
    requires Valid(s) && s.pending.None? && m.AppendResponse?
    ensures var r := Handle(s, Receive(from, m));
      if from !in s.peers then r == Failed(NotPeer)
      else if m.term > s.term then
        r == if IdLeft(s) then Done(Seen(s, m.term), SeenWrites(s, m.term)) else Failed(Exhausted)
      else if !s.role.Leader? || m.term != s.term then r == Done(s, [])
      else m.succeeded && m.matched > OwnLast(s).index ==> r == Failed(MatchedBeyondLog)
  {
    OwnLastIs(s);
    ObserveMeans(s, m.term);
    hide Observe, AdvanceCommit, AppendFor;
    assert SeenWrites(s, m.term) + [] == SeenWrites(s, m.term);
  }

  /** The sender's next index steps back by one, but not to or below what it is known to hold. */
  predicate SteppedBack(s: State, from: NodeId, s': State) {
    && s.leader.Some? && s'.leader.Some? && from in s.leader.value.progress
    && s' == s.(leader := s'.leader) && s'.leader.value.clients == s.leader.value.clients
    && s'.leader.value.progress.Keys == s.leader.value.progress.Keys
    && (forall p :: p in s.leader.value.progress && p != from ==>
          s'.leader.value.progress[p] == s.leader.value.progress[p])
    && var was, now := s.leader.value.progress[from], s'.leader.value.progress[from];
    && now.match_ == was.match_
    && (if was.next > was.match_ + 1 then now.next == was.next - 1 else now.next == was.match_ + 1)
  }

  function BackFor(s: State, from: NodeId): State
    requires s.leader.Some? && from in s.leader.value.progress && s.leader.value.progress[from].next > 0
  {
    var p := s.leader.value.progress[from];
    SetProgress(s, from, Progress(Max(p.match_ + 1, Max(1, p.next - 1)), p.match_))
  }

  lemma BackIs(s: State, from: NodeId)
    requires Valid(s) && s.leader.Some? && from in s.peers
    ensures from in s.leader.value.progress && s.leader.value.progress[from].next > 0
    ensures SteppedBack(s, from, BackFor(s, from)) && Valid(BackFor(s, from))
  {
    BackValid(s, from);
    assert BackFor(s, from).leader.value.progress.Keys == s.leader.value.progress.Keys;
    hide LogValid, RolesValid, IndexesValid;
  }

  lemma RetryIs(s: State, from: NodeId, m: Message)
    requires Valid(s) && s.role.Leader? && s.leader.Some? && from in s.peers && from in s.leader.value.progress
    requires m.AppendResponse? && !m.succeeded && m.term == s.term && s.leader.value.progress[from].next > 0
    requires ProgressValid(BackFor(s, from), BackFor(s, from).leader.value.progress[from])
    ensures HandleAppendResponse(s, from, m)
         == Done(BackFor(s, from), [Send(from, AppendFor(BackFor(s, from), from, m.context))])
  {
    hide Observe, AppendFor, AdvanceCommit;
    ObserveMeans(s, m.term);
    var out := [Send(from, AppendFor(BackFor(s, from), from, m.context))];
    assert [] + out == out;
  }

  /** A refusal of the leader's own term: the request is repeated from one entry further back, with
      the refusal's context. */
  lemma RefusalMeans(s: State, from: NodeId, m: Message)
    requires Valid(s) && s.pending.None? && s.role.Leader? && from in s.peers
    requires m.AppendResponse? && !m.succeeded && m.term == s.term
    ensures var r := Handle(s, Receive(from, m));
      && r.Done? && SteppedBack(s, from, r.state) && |r.effects| == 1 && r.effects[0].Send? && r.effects[0].to == from
      && Offers(r.state, from, m.context, r.effects[0].msg)
  {
    hide Valid, HandleAppendResponse, AppendFor, Offers, SteppedBack, BackFor, HandleVoteRequest, HandleVoteResponse,
        HandleAppendRequest, HandleTimeout, HandleClient, HandleApply, Observe, ProgressValid;
    LeaderIs(s);
    BackIs(s, from);
    SteppedPeers(s, from, BackFor(s, from));
    AppendForMeans(BackFor(s, from), from, m.context);
    RetryIs(s, from, m);
  }

  lemma LeaderIs(s: State)
    requires Valid(s)
    ensures s.role.Leader? <==> s.leader.Some?
  {
  }

  lemma SteppedPeers(s: State, from: NodeId, s': State)
    requires SteppedBack(s, from, s')
    ensures s'.peers == s.peers && s'.leader.Some?
  {
  }

  lemma BackValid(s: State, from: NodeId)
    requires Valid(s) && s.leader.Some? && from in s.peers
    ensures var p := s.leader.value.progress[from];
      Valid(SetProgress(s, from, Progress(Max(p.match_ + 1, Max(1, p.next - 1)), p.match_)))
  {
    var p := s.leader.value.progress;
    var q := Progress(Max(p[from].match_ + 1, Max(1, p[from].next - 1)), p[from].match_);
    assert |p[from := q]| == |p| by { assert p[from := q].Keys == p.Keys; }
  }

  // ---- AppendEntries -------------------------------------------------------

  /** The node already holds the request's entry `j`. */
  predicate Held(s: State, m: Message, j: nat)
    requires m.AppendRequest? && j < |m.entries|
  {
    Holds(s, m.previous + 1 + j, m.entries[j].term)
  }

  predicate AllHeld(s: State, m: Message)
    requires m.AppendRequest?
  {
    forall j :: 0 <= j < |m.entries| ==> Held(s, m, j)
  }

  /** The entry before the request's is held, above or at the snapshot, and nothing committed
      contradicts it. */
  predicate Fits(s: State, m: Message)
    requires m.AppendRequest?
  {
    && (s.snapshot.Some? ==> s.snapshot.value.index <= m.previous) && Holds(s, m.previous, m.previousTerm)
    && forall j :: 0 <= j < |m.entries| && m.previous + 1 + j <= s.commit ==> Held(s, m, j)
  }

  /** The log after an accepted request: unchanged if it holds every entry, and otherwise cut
      before the first it does not hold and continued with the request's. */
  ghost predicate Spliced(s: State, m: Message, log: seq<LogEntry>)
    requires m.AppendRequest?
  {
    if AllHeld(s, m) then log == s.log
    else exists j: nat, n: nat :: FirstNotHeld(s, m, j) && EndsAt(s, n, m.previous + j) && n <= |log|
           && log[..n] == s.log[..n] && log[n..] == m.entries[j..]
  }

  predicate FirstNotHeld(s: State, m: Message, j: nat)
    requires m.AppendRequest?
  {
    j < |m.entries| && !Held(s, m, j) && forall i :: 0 <= i < j ==> Held(s, m, i)
  }

  /** The first `n` entries of the log, with the snapshot before them, end at an index. */
  predicate EndsAt(s: State, n: nat, index: LogIndex) {
    n <= |s.log|
    && index == if n > 0 then s.log[n - 1].index else if s.snapshot.Some? then s.snapshot.value.index else 0
  }

  lemma FitsIs(s: State, m: Message)
    requires Valid(s) && m.AppendRequest?
    ensures Fits(s, m) <==>
      && PreviousMatches(s, m)
      && var k := FirstMissing(s, m.previous, m.entries, 0);
         !(k < |m.entries| && m.previous + 1 + k <= LastIndex(s) && m.previous + 1 + k <= s.commit)
  {
    if Base(s) <= m.previous <= LastIndex(s) {
      HoldsIs(s, m.previous, m.previousTerm);
      var k := FirstMissing(s, m.previous, m.entries, 0);
      HeldUpTo(s, m, k);
      hide FirstMissing, TermAt;
      if Holds(s, m.previous, m.previousTerm)
          && !(k < |m.entries| && m.previous + 1 + k <= LastIndex(s) && m.previous + 1 + k <= s.commit) {
        forall j | 0 <= j < |m.entries| && m.previous + 1 + j <= s.commit ensures Held(s, m, j) {
          assert j < k;
        }
      }
    } else {
      HoldsWithin(s, m.previous, m.previousTerm);
    }
  }

  /** The scan stops at the first entry that is not held. */
  lemma HeldUpTo(s: State, m: Message, k: nat)
    requires Valid(s) && m.AppendRequest? && Base(s) <= m.previous <= LastIndex(s)
    requires k == FirstMissing(s, m.previous, m.entries, 0)
    ensures k <= |m.entries| && m.previous + k <= LastIndex(s)
    ensures forall j :: 0 <= j < k ==> Held(s, m, j)
    ensures k < |m.entries| ==> !Held(s, m, k)
    ensures k < |m.entries| && m.previous + 1 + k > LastIndex(s) ==> m.previous + k == LastIndex(s)
  {
    forall j | 0 <= j < k ensures Held(s, m, j) {
      HoldsIs(s, m.previous + 1 + j, m.entries[j].term);
    }
    if k < |m.entries| {
      if m.previous + 1 + k <= LastIndex(s) {
        HoldsIs(s, m.previous + 1 + k, m.entries[k].term);
      } else {
        HoldsWithin(s, m.previous + 1 + k, m.entries[k].term);
      }
    }
  }

  lemma SplicedIs(s: State, from: NodeId, m: Message)
    requires Valid(s) && m.AppendRequest? && PreviousMatches(s, m)
    ensures var k := FirstMissing(s, m.previous, m.entries, 0);
      && k <= |m.entries| && (k < |m.entries| ==> m.previous + k <= LastIndex(s))
      && Spliced(s, m, AcceptAppend(s, from, m, k).0.log)
      && (AllHeld(s, m) <==> k == |m.entries|)
  {
    hide FirstMissing, TermAt, Holds, Held, RolesValid, RequestsValid, LeaderValid, PeersValid, SnapshotValid;
    var k := FirstMissing(s, m.previous, m.entries, 0);
    HeldUpTo(s, m, k);
    if k < |m.entries| {
      var n := m.previous + k - Base(s);
      var log := s.log[..n] + m.entries[k..];
      assert log[..n] == s.log[..n] && log[n..] == m.entries[k..];
      assert EndsAt(s, n, m.previous + k) && FirstNotHeld(s, m, k);
    }
  }

  predicate Follows(entries: seq<LogEntry>, previous: LogIndex) {
    forall j :: 0 <= j < |entries| ==> entries[j].index == previous + 1 + j
  }

  /** What an accepted request leaves: its log, the leader's commit index as far as the request
      reaches, and one acknowledgement behind the write of a changed log. */
  ghost predicate Accepted(s: State, from: NodeId, m: Message, s': State, effects: seq<Effect>)
    requires m.AppendRequest?
  {
    && s' == s.(log := s'.log, commit := s'.commit) && Spliced(s, m, s'.log)
    && s'.commit == Max(s.commit, Min(m.leaderCommit, m.previous + |m.entries|))
    && effects == (if AllHeld(s, m) then [] else [PersistState])
                  + [Send(from, AppendResponse(s.term, true, m.previous + |m.entries|, m.context))]
  }

  lemma AcceptShape(s: State, from: NodeId, m: Message, k: nat)
    requires m.AppendRequest? && PreviousMatches(s, m)
    requires k <= |m.entries| && (k < |m.entries| ==> m.previous + k <= LastIndex(s))
    ensures var r := AcceptAppend(s, from, m, k);
      && r.0 == s.(log := r.0.log, commit := Max(s.commit, Min(m.leaderCommit, m.previous + |m.entries|)))
      && r.1 == (if k == |m.entries| then [] else [PersistState])
                + [Send(from, AppendResponse(s.term, true, m.previous + |m.entries|, m.context))]
  {
    hide TermAt;
  }

  lemma AcceptedIs(s: State, from: NodeId, m: Message)
    requires Valid(s) && m.AppendRequest? && PreviousMatches(s, m)
    ensures var k := FirstMissing(s, m.previous, m.entries, 0);
      && k <= |m.entries| && (k < |m.entries| ==> m.previous + k <= LastIndex(s))
      && var r := AcceptAppend(s, from, m, k); Accepted(s, from, m, r.0, r.1)
  {
    hide FirstMissing, TermAt, Spliced, AllHeld, Valid, AcceptAppend;
    SplicedIs(s, from, m);
    AcceptShape(s, from, m, FirstMissing(s, m.previous, m.entries, 0));
  }

  /** AppendEntries: a late request is refused as it is; otherwise the node follows its sender, and
      accepts if and only if the request fits its log. */
  lemma AppendRequestMeans(s: State, from: NodeId, m: Message)
    requires Valid(s) && s.pending.None? && m.AppendRequest?
    ensures var r := Handle(s, Receive(from, m));
      if from !in s.peers then r == Failed(NotPeer)
      else if m.leader != from then r == Failed(SenderMismatch)
      else if m.term < s.term then r == Done(s, [Send(from, AppendResponse(s.term, false, 0, m.context))])
      else if m.term > s.term && !IdLeft(s) then r == Failed(Exhausted)
      else
        var follower := Seen(s, m.term).(role := Follower, leader := None, votes := {}, knownLeader := Some(from));
        var first := SeenWrites(s, m.term) + [ResetElectionTimer];
        if Fits(s, m) && Follows(m.entries, m.previous) then
          && r.Done? && |first| <= |r.effects| && r.effects[..|first|] == first
          && Accepted(follower, from, m, r.state, r.effects[|first|..])
        else if Fits(s, m) || (PreviousHeld(s, m) && !Follows(m.entries, m.previous)) then r == Failed(NotContiguous)
        else r == Done(follower, first + [Send(from, AppendResponse(m.term, false, 0, m.context))])
  {
    ObserveMeans(s, m.term);
    if from in s.peers && m.leader == from && m.term >= s.term && (m.term > s.term ==> IdLeft(s)) {
      var follower := Seen(s, m.term).(role := Follower, leader := None, votes := {}, knownLeader := Some(from));
      var first := SeenWrites(s, m.term) + [ResetElectionTimer];
      FollowerValid(s, m.term, from);
      SameFits(s, follower, m);
      MatchMeans(follower, first, from, m);
      hide Valid, MatchAppend, Observe, Fits, Accepted, PreviousHeld;
    } else {
      hide Valid, MatchAppend, Observe, Fits, Accepted, PreviousHeld;
      assert [] + [Send(from, AppendResponse(s.term, false, 0, m.context))]
          == [Send(from, AppendResponse(s.term, false, 0, m.context))];
    }
  }

  predicate PreviousHeld(s: State, m: Message)
    requires m.AppendRequest?
  {
    (s.snapshot.Some? ==> s.snapshot.value.index <= m.previous) && Holds(s, m.previous, m.previousTerm)
  }

  lemma PreviousIs(s: State, m: Message)
    requires Valid(s) && m.AppendRequest?
    ensures PreviousHeld(s, m) <==> PreviousMatches(s, m)
  {
    if Base(s) <= m.previous <= LastIndex(s) {
      HoldsIs(s, m.previous, m.previousTerm);
    } else {
      HoldsWithin(s, m.previous, m.previousTerm);
    }
  }

  lemma FollowerValid(s: State, t: Term, from: NodeId)
    requires Valid(s)
    ensures Valid(Seen(s, t).(role := Follower, leader := None, votes := {}, knownLeader := Some(from)))
  {
  }

  lemma SameFits(s: State, s': State, m: Message)
    requires m.AppendRequest? && s'.log == s.log && s'.snapshot == s.snapshot && s'.commit == s.commit
    ensures Fits(s, m) == Fits(s', m) && PreviousHeld(s, m) == PreviousHeld(s', m)
  {
    assert forall j :: 0 <= j < |m.entries| ==> Held(s, m, j) == Held(s', m, j);
  }

  /** The same, once the request's term has been seen. */
  lemma MatchMeans(s: State, first: seq<Effect>, from: NodeId, m: Message)
    requires Valid(s) && m.AppendRequest?
    ensures var r := MatchAppend(s, first, from, m);
      if Fits(s, m) && Follows(m.entries, m.previous) then
        && r.Done? && |first| <= |r.effects| && r.effects[..|first|] == first
        && Accepted(s, from, m, r.state, r.effects[|first|..])
      else if Fits(s, m) || (PreviousHeld(s, m) && !Follows(m.entries, m.previous)) then r == Failed(NotContiguous)
      else r == Done(s, first + [Send(from, AppendResponse(s.term, false, 0, m.context))])
  {
    FitsIs(s, m);
    PreviousIs(s, m);
    if PreviousMatches(s, m) { AcceptedIs(s, from, m); }
    hide Valid, FirstMissing, AcceptAppend, PreviousMatches, Fits, PreviousHeld, Accepted;
    if r :| r == MatchAppend(s, first, from, m) && r.Done? && PreviousMatches(s, m) && Fits(s, m) {
      var e3 := AcceptAppend(s, from, m, FirstMissing(s, m.previous, m.entries, 0)).1;
      assert (first + e3)[..|first|] == first && (first + e3)[|first|..] == e3;
    }
  }

  // ---- Timers, commands and application ------------------------------------

  /** The candidate of the next term, with its own vote. */
  function Standing(s: State): State {
    s.(term := s.term + 1, vote := Some(s.node), role := Candidate, knownLeader := None, leader := None,
       votes := {s.node}, nextRequest := s.nextRequest + 1)
  }

  /** One request for each peer, in the order of the peers, with the candidate's last entry. */
  predicate Solicits(s: State, effects: seq<Effect>) {
    |effects| == |s.peers| && forall i :: 0 <= i < |s.peers| ==>
      effects[i] == Send(s.peers[i], VoteRequest(s.term, s.node, OwnLast(s).index, OwnLast(s).term))
  }

  /** The election timer: a follower or candidate stands in the next term, writing its own vote before
      it asks any peer; a leader and a learner do nothing. Alone in its cluster it leads at once. */
  lemma ElectionMeans(s: State)
    requires Valid(s) && s.pending.None?
    ensures var r := Handle(s, ElectionTimeout);
      if s.role.Leader? || s.role.Learner? then r == Done(s, [])
      else if s.term >= U64_MAX || !IdLeft(s) then r == Failed(Exhausted)
      else
        var first := [PersistHard(s.nextRequest, HardState(s.term + 1, Some(s.node))), ResetElectionTimer];
        var asked := 2 + |s.peers|;
        if s.peers == [] && OwnLast(s).index >= U64_MAX then r == Failed(Exhausted)
        else
          && r.Done? && asked <= |r.effects| && r.effects[..2] == first && Solicits(Standing(s), r.effects[2..asked])
          && if s.peers != [] then r.state == Standing(s) && |r.effects| == asked
             else NewlyLeads(Standing(s), r.state) && OffersAll(r.state, r.effects[asked..])
  {
    if !s.role.Leader? && !s.role.Learner? && s.term < U64_MAX && IdLeft(s) {
      StandingValid(s);
      ElectionIs(s);
      OwnLastIs(Standing(s));
      var asks := Solicit(Standing(s), s.peers);
      var first := [PersistHard(s.nextRequest, HardState(s.term + 1, Some(s.node))), ResetElectionTimer];
      InitializeMeans(Standing(s));
      hide Valid, StartElection, InitializeLeader, NewlyLeads, OffersAll, Solicit;
      var led := InitializeLeader(Standing(s));
      var more := if s.peers == [] && led.Done? then led.effects else [];
      var all := first + asks + more;
      assert all[..2] == first && all[2..2 + |s.peers|] == asks && all[2 + |s.peers|..] == more;
      assert first + asks + [] == first + asks;
    }
  }

  lemma StandingValid(s: State)
    requires Valid(s) && s.pending.None? && s.nextRequest != U64_MAX
    ensures Valid(Standing(s)) && OwnLast(Standing(s)) == OwnLast(s)
  {
  }

  lemma ElectionIs(s: State)
    requires s.term < U64_MAX && IdLeft(s)
    ensures var first := [PersistHard(s.nextRequest, HardState(s.term + 1, Some(s.node))), ResetElectionTimer];
      var asks := Solicit(Standing(s), s.peers);
      StartElection(s)
      == if s.peers != [] then Done(Standing(s), first + asks)
         else match InitializeLeader(Standing(s))
              case Failed(e) => Failed(e)
              case Done(s', e) => Done(s', first + asks + e)
  {
    hide InitializeLeader, Solicit;
    var first := [PersistHard(s.nextRequest, HardState(s.term + 1, Some(s.node)))];
    assert first + [ResetElectionTimer]
        == [PersistHard(s.nextRequest, HardState(s.term + 1, Some(s.node))), ResetElectionTimer];
  }

  /** The heartbeat timer: a leader offers its log to every peer, any other role does nothing. */
  lemma HeartbeatMeans(s: State)
    requires Valid(s) && s.pending.None?
    ensures var r := Handle(s, HeartbeatTimeout);
      r.Done? && r.state == s && if s.role.Leader? then OffersAll(s, r.effects) else r.effects == []
  {
    if s.role.Leader? {
      ReplicateMeans(s);
      hide Valid, Replicate, OffersAll;
    }
  }

  function Extended(s: State, command: Command): State
    requires s.leader.Some?
  {
    var index := OwnLast(s).index + 1;
    s.(log := s.log + [LogEntry(s.term, index, command)],
       leader := Some(s.leader.value.(clients := s.leader.value.clients + {index})))
  }

  /** A client's command: the leader appends it after its last entry in its own term, registers the
      client, writes the log before it offers the entry to every peer, and commits what it may. */
  lemma ClientMeans(s: State, command: Command)
    requires Valid(s) && s.pending.None?
    ensures s.role.Leader? <==> s.leader.Some?
    ensures var r := Handle(s, ClientCommand(command));
      if !s.role.Leader? then r == Done(s, [])
      else if OwnLast(s).index >= U64_MAX then r == Failed(Exhausted)
      else
        && r.Done? && |r.effects| > 0 && r.effects[0] == PersistState
        && OffersAll(Extended(s, command), r.effects[1..])
        && r.state == Extended(s, command).(commit := r.state.commit)
        && CommitsTo(Extended(s, command), r.state.commit)
  {
    OwnLastIs(s);
    LeaderIs(s);
    hide Valid, HandleClient, Replicate, AdvanceCommit, OffersAll, CommitsTo, CanReplicate, Extended;
    if s.role.Leader? && OwnLast(s).index < U64_MAX {
      var s1 := Extended(s, command);
      ExtendedValid(s, command);
      ReplicateMeans(s1);
      AdvanceMeans(s1);
      ClientIs(s, command);
      var offers := Replicate(s1, s1.peers);
      assert ([PersistState] + offers)[1..] == offers;
    } else {
      ClientIs(s, command);
    }
  }

  lemma ClientIs(s: State, command: Command)
    requires Valid(s) && OwnLast(s).index == LastIndex(s)
    ensures !s.role.Leader? ==> HandleClient(s, command) == Done(s, [])
    ensures s.role.Leader? && LastIndex(s) >= U64_MAX ==> HandleClient(s, command) == Failed(Exhausted)
    ensures s.role.Leader? && LastIndex(s) < U64_MAX && CanReplicate(Extended(s, command)) && Base(s) <= s.commit ==>
      var s1 := Extended(s, command);
      HandleClient(s, command) == Done(AdvanceCommit(s1), [PersistState] + Replicate(s1, s1.peers))
  {
    hide AdvanceCommit, Replicate, CanReplicate;
  }

  lemma ExtendedValid(s: State, command: Command)
    requires Valid(s) && s.leader.Some?
    ensures Valid(Extended(s, command)) && OwnLast(s).index == LastIndex(s) && Base(s) <= s.commit
    ensures Extended(s, command).leader.Some?
  {
    OwnLastIs(s);
    hide RolesValid, RequestsValid, PeersValid;
    var s1 := Extended(s, command);
    assert LastIndex(s1) == LastIndex(s) + 1;
    forall p | p in s.peers ensures ProgressValid(s1, s1.leader.value.progress[p]) {
      assert ProgressValid(s, s.leader.value.progress[p]);
    }
  }

  /** Application within the specification: the entry after the last applied, if it is committed, and
      the completion of its client if one is registered. */
  lemma ApplyMeans(s: State)
    requires Valid(s) && s.pending.None?
    ensures var r := Handle(s, ApplyCommitted);
      if s.applied == s.commit then r == Done(s, [])
      else
        var index := s.applied + 1;
        var owned := s.leader.Some? && index in s.leader.value.clients;
        && r.Done? && |r.effects| > 0 && r.effects[0].ApplyCommand? && r.effects[0].applyIndex == index
        && (exists k :: 0 <= k < |s.log| && s.log[k].index == index && s.log[k].command == r.effects[0].command)
        && r.effects[1..] == (if owned then [CompleteClient(index)] else [])
        && r.state == s.(applied := index, leader := r.state.leader)
        && (!owned ==> r.state.leader == s.leader)
        && (owned ==> r.state.leader == Some(s.leader.value.(clients := s.leader.value.clients - {index})))
  {
    if s.applied < s.commit {
      assert s.log[s.applied - Base(s)].index == s.applied + 1;
    }
  }

  /** While a hard-state write is open only its own completion is accepted, which frees what waited
      for it; without one, no completion is. */
  lemma CompletionMeans(s: State, event: Event)
    requires Valid(s)
    ensures s.pending.Some? && !event.HardPersisted? ==> Step(s, event) == Failed(Blocked)
    ensures s.pending.None? && event.HardPersisted? ==> Step(s, event) == Failed(UnexpectedCompletion)
    ensures s.pending.Some? && event.HardPersisted? ==>
      var open := s.pending.value;
      Handle(s, event) == if event.id == open.id && event.hard == open.hard then Done(s.(pending :=
          None), open.deferred)
                          else Failed(MismatchedCompletion)
  {
    hide Valid, Gate;
  }
}
