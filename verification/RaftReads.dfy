/** ReadIndex: an answered read has seen everything committed before it was accepted.

    The theorem needs that no acknowledgement carrying the read's context was on the network
    when the read was accepted. A context that the leader has not sent before guarantees it; one
    that a restarted node issues again does not, since a refusal from an old term brings the
    old context back and the leader repeats it (`RaftWitnesses.StaleRead`). */
module RaftReads {
  import opened RaftTypes
  import opened Figure2
  import opened RaftCore
  import opened RaftLedger
  import opened RaftLedgerSteps
  import opened RaftCluster
  import opened RaftInvariant
  import opened RaftFrames
  import opened RaftGating
  import opened RaftHandlers
  import opened RaftNode
  import opened RaftNodeSteps
  import opened RaftReadSteps
  import opened RaftSafety

  // ---- The argument on the ledger ------------------------------------------

  /** A majority that has not moved past term `t` rules out any later leader, and an entry of
      term `t` at `index` is above everything committed in an earlier term. */
  lemma ReadIndexCovers(l: Ledger, q: set<NodeId>, t: Term, index: LogIndex, t': Term)
    requires Inv(l) && OwnEntry(l, t, index) && t in l.commitOf && l.commitOf[t] == index
    requires Quorum(l.members, q) && forall v :: v in q ==> v in l.promised && l.promised[v] <= t
    requires t' in l.commitOf
    ensures l.commitOf[t'] <= index
  {
    hide Inv, Quorum, OwnEntry;
    NoLaterLeader(l, q, t, t');
    if t' < t {
      EarlierIsBelow(l, t, index, t');
    }
  }

  lemma NoLaterLeader(l: Ledger, q: set<NodeId>, t: Term, t': Term)
    requires Inv(l) && t' in l.commitOf && Quorum(l.members, q)
    requires forall v :: v in q ==> v in l.promised && l.promised[v] <= t
    ensures t' <= t
  {
    hide DurableInv, CandidatesInv, AcksInv, HolderInv, VoterInv, CompletenessInv, CommitInv;
    assert ElectedInv(l, t');
    var r :| VotedFor(l, r, t', l.leaderOf[t']);
    var v := QuorumsIntersect(l.members, q, r);
    assert (t', v) in l.votes;
  }

  lemma EarlierIsBelow(l: Ledger, t: Term, index: LogIndex, t': Term)
    requires Inv(l) && OwnEntry(l, t, index) && t' in l.commitOf && t' < t
    ensures l.commitOf[t'] <= index
  {
    hide Inv, OwnEntry, Chosen;
    CommitIsCovered(l, t');
    var c := l.commitOf[t'];
    if c != 0 {
      var t0: Term, k: nat :| t0 <= t' && c <= k && Chosen(l, t0, k);
      ChosenIsBelow(l, t, index, t0, k);
    }
  }

  lemma ChosenIsBelow(l: Ledger, t: Term, index: LogIndex, t0: Term, k: nat)
    requires Inv(l) && OwnEntry(l, t, index) && Chosen(l, t0, k) && t0 < t
    ensures k < index
  {
    hide Inv;
    LeaderCompleteness(l, t0, k, t);
    assert l.termLog[t][k - 1] == l.termLog[t0][..k][k - 1];
    if index <= k {
      LeaderTermsAscend(l, t, index - 1, k - 1);
    }
  }

  lemma LeaderTermsAscend(l: Ledger, t: Term, i: nat, j: nat)
    requires Inv(l) && t in l.termLog && i <= j < |l.termLog[t]|
    ensures l.termLog[t][i].term <= l.termLog[t][j].term
  {
    hide DurableInv, VotesInv, CandidatesInv, AcksInv, HolderInv, VoterInv, CompletenessInv, CommitInv;
    assert ElectedInv(l, t);
    TermsAscend(l, l.termLog[t], i, j);
  }

  // ---- Tracing a read back to its acceptance -------------------------------

  /** Step `i` accepts read `q` at node `n`. */
  predicate AcceptedAt(r: Run, i: nat, n: NodeId, q: RequestId) {
    && i < |r.actions| && Up(r, i, n) && r.actions[i] == Give(n, Read(q))
    && AcceptsRead(r.states[i].up[n], q)
  }

  /** Every counted acknowledgement is the leader's own or a packet that was sent to it. */
  predicate Backed(sent: set<Packet>, n: NodeId, peers: seq<NodeId>, t: Term, w: PendingRead) {
    && (forall v :: v in w.acks && v != n ==>
          v in peers && exists p :: p in sent && p.from == v && ReadAck(p, n, t, w.context))
    && (w.confirmed ==> |w.acks| >= (|peers| + 1) / 2 + 1)
  }

  predicate Traced(r: Run, i: nat, j: nat, n: NodeId, w: PendingRead) {
    && i < j < |r.states| && AcceptedAt(r, i, n, w.request) && Alive(r, n, i, j)
    && w.context == r.states[i].up[n].nextContext && w.index == StateAt(r, i, n).commit
    && Backed(r.states[j].sent, n, StateAt(r, i, n).peers, StateAt(r, i, n).term, w)
  }

  ghost predicate TracedIn(r: Run, j: nat, n: NodeId, w: PendingRead, t: Term) {
    exists i: nat :: Traced(r, i, j, n, w) && StateAt(r, i, n).term == t
  }

  ghost predicate WaitingTraced(r: Run, j: nat, n: NodeId)
    requires Up(r, j, n)
  {
    && (r.states[j].up[n].waiting != [] ==> StateAt(r, j, n).role.Leader?)
    && (forall w :: w in r.states[j].up[n].waiting ==> TracedIn(r, j, n, w, StateAt(r, j, n).term))
  }

  lemma BackedGrows(sent: set<Packet>, sent': set<Packet>, n: NodeId, peers: seq<NodeId>, t: Term, w: PendingRead)
    requires Backed(sent, n, peers, t, w) && sent <= sent'
    ensures Backed(sent', n, peers, t, w)
  {
    forall v | v in w.acks && v != n
      ensures v in peers && exists p :: p in sent' && p.from == v && ReadAck(p, n, t, w.context)
    {
      var p :| p in sent && p.from == v && ReadAck(p, n, t, w.context);
      assert p in sent';
    }
  }

  lemma SentGrows(c: Cluster, a: Action)
    requires Next(c, a).Some?
    ensures c.sent <= Next(c, a).value.sent
  {
    hide CoreOutcomeOf, Record, RecordVote, CanRestart, Reborn, Released;
  }

  lemma TraceStays(r: Run, j: nat, n: NodeId, w: PendingRead, t: Term)
    requires IsRun(r) && j + 1 < |r.states| && Alive(r, n, j, j + 1) && TracedIn(r, j, n, w, t)
    ensures TracedIn(r, j + 1, n, w, t)
  {
    hide Next, Init, AcceptsRead, Backed;
    var i: nat :| Traced(r, i, j, n, w) && StateAt(r, i, n).term == t;
    RunNext(r, j);
    SentGrows(r.states[j], r.actions[j]);
    BackedGrows(r.states[j].sent, r.states[j + 1].sent, n, StateAt(r, i, n).peers, t, w);
    assert Traced(r, i, j + 1, n, w);
  }

  lemma TraceOpened(r: Run, j: nat, n: NodeId, q: RequestId, w: PendingRead)
    requires IsRun(r) && AcceptedAt(r, j, n, q) && Alive(r, n, j, j + 1)
    requires StateAt(r, j, n).node == n
    requires Opened(r.states[j].up[n], Read(q), w)
    ensures TracedIn(r, j + 1, n, w, StateAt(r, j, n).term)
  {
    hide AcceptsRead, IsRun;
    assert Traced(r, j, j + 1, n, w);
  }

  lemma BackedCounted(sent: set<Packet>, n: NodeId, peers: seq<NodeId>, t: Term, c: Core, w: PendingRead,
                      w': PendingRead, p: Packet)
    requires Backed(sent, n, peers, t, w) && c.state.peers == peers && c.state.term == t
    requires p in sent && p.to == n && Counted(c, Deliver(p.from, p.msg), w, w')
    ensures Backed(sent, n, peers, t, w')
  {
    assert ReadAck(p, n, t, w.context);
    CardinalityMonotone(w.acks, w'.acks);
    forall v | v in w'.acks && v != n
      ensures v in peers && exists p :: p in sent && p.from == v && ReadAck(p, n, t, w'.context)
    {
      if v in w.acks {
        var p0 :| p0 in sent && p0.from == v && ReadAck(p0, n, t, w.context);
        assert ReadAck(p0, n, t, w'.context);
      } else {
        assert v == p.from && ReadAck(p, n, t, w'.context);
      }
    }
  }

  lemma TraceCounted(r: Run, j: nat, n: NodeId, w: PendingRead, w': PendingRead, p: Packet)
    requires IsRun(r) && j + 1 < |r.states| && Alive(r, n, j, j + 1)
    requires TracedIn(r, j, n, w, StateAt(r, j, n).term)
    requires forall i: nat :: i <= j && Up(r, i, n) ==> StateAt(r, i, n).peers == StateAt(r, j, n).peers
    requires p in r.states[j].sent && p.to == n
    requires Counted(r.states[j].up[n], Deliver(p.from, p.msg), w, w')
    ensures TracedIn(r, j + 1, n, w', StateAt(r, j, n).term)
  {
    hide Next, Init, AcceptsRead, Backed;
    var t := StateAt(r, j, n).term;
    var i: nat :| Traced(r, i, j, n, w) && StateAt(r, i, n).term == t;
    BackedCounted(r.states[j].sent, n, StateAt(r, i, n).peers, t, r.states[j].up[n], w, w', p);
    hide Counted;
    assert w'.context == w.context && w'.index == w.index && w'.request == w.request by {
      CountedSame(r.states[j].up[n], Deliver(p.from, p.msg), w, w');
    }
    assert Traced(r, i, j, n, w');
    TraceStays(r, j, n, w', t);
  }

  lemma CountedSame(c: Core, input: Input, w: PendingRead, w': PendingRead)
    requires Counted(c, input, w, w')
    ensures w'.context == w.context && w'.index == w.index && w'.request == w.request
  {
  }

  lemma PeersStay(r: Run, i: nat, j: nat, n: NodeId)
    requires IsRun(r) && Up(r, i, n) && Up(r, j, n)
    ensures StateAt(r, i, n).peers == StateAt(r, j, n).peers
    ensures StateAt(r, i, n).node == n && r.states[i].config == r.states[j].config
  {
    hide IsRun, CoreOk, Inv;
    NodeOk(r, i, n);
    NodeOk(r, j, n);
    CorePeers(LedgerAt(r, i), n, r.states[i].config[n], r.states[i].up[n], r.states[i].durable[n]);
    CorePeers(LedgerAt(r, j), n, r.states[j].config[n], r.states[j].up[n], r.states[j].durable[n]);
    ConfigStays(r, i);
    ConfigStays(r, j);
  }

  lemma {:induction false} ConfigStays(r: Run, i: nat)
    requires IsRun(r) && i < |r.states|
    ensures r.states[i].config == r.states[0].config
  {
    hide Next, Init;
    if i > 0 {
      ConfigStays(r, i - 1);
      RunNext(r, i - 1);
      NextConfig(r.states[i - 1], r.actions[i - 1]);
    }
  }

  lemma NextConfig(c: Cluster, a: Action)
    requires Next(c, a).Some?
    ensures Next(c, a).value.config == c.config
  {
    hide CoreOutcomeOf, Record, RecordVote, CanRestart, Reborn, Released;
  }

  /** A read that a step leaves waiting, or answers, was accepted earlier in the same life. */
  lemma TraceStep(r: Run, j: nat, n: NodeId, w: PendingRead)
    requires IsRun(r) && j < |r.actions| && j + 1 < |r.states| && Alive(r, n, j, j + 1)
    requires WaitingTraced(r, j, n) && ActionNode(r.actions[j]) == n
    requires InputOf(r.states[j], r.actions[j]).Some?
    requires ReadFrom(r.states[j].up[n], InputOf(r.states[j], r.actions[j]).value, w)
    ensures TracedIn(r, j + 1, n, w, StateAt(r, j, n).term)
  {
    hide IsRun, TracedIn, Counted, Opened, AcceptsRead;
    var c, a := r.states[j], r.actions[j];
    var core, input := c.up[n], InputOf(c, a).value;
    if Opened(core, input, w) {
      PeersStay(r, j, j, n);
      OpenedInput(core, input, w);
      TraceOpened(r, j, n, input.request, w);
    } else {
      var w0 :| w0 in core.waiting && (w == w0 || Counted(core, input, w0, w));
      if w == w0 {
        TraceStays(r, j, n, w, StateAt(r, j, n).term);
      } else {
        CountedInput(core, input, w0, w);
        forall i: nat | i <= j && Up(r, i, n) ensures StateAt(r, i, n).peers == StateAt(r, j, n).peers {
          PeersStay(r, i, j, n);
        }
        TraceCounted(r, j, n, w0, w, a.packet);
      }
    }
  }

  lemma OpenedInput(c: Core, input: Input, w: PendingRead)
    requires Opened(c, input, w)
    ensures input.Read? && AcceptsRead(c, input.request)
  {
  }

  lemma CountedInput(c: Core, input: Input, w: PendingRead, w': PendingRead)
    requires Counted(c, input, w, w')
    ensures input.Deliver?
  {
  }

  lemma CoreActionReads(c: Cluster, a: Action)
    requires ClusterInv(c) && CoreOutcomeOf(c, a).Stepped?
    requires var n := ActionNode(a); n in c.up && (c.up[n].waiting != [] ==> c.up[n].state.role.Leader?)
    ensures InputOf(c, a).Some?
    ensures ReadsOk(c.up[ActionNode(a)], InputOf(c, a).value, CoreOutcomeOf(c, a).core, CoreOutcomeOf(c, a).effects)
  {
    var n := ActionNode(a);
    InputIsOk(c, a);
    ConfigMembers(c.config, n);
    hide InputOf, Inv, DiskOk, CoreOk, MembersAre, PacketOk, CoreStep, ReadsOk, InputOk;
    CoreStepReads(c.history.ledger, n, c.config[n], c.up[n], c.durable[n], InputOf(c, a).value);
  }

  lemma {:induction false} ReadsTraced(r: Run, j: nat, n: NodeId)
    requires IsRun(r) && Up(r, j, n)
    ensures WaitingTraced(r, j, n)
  {
    hide IsRun, TracedIn, ReadFrom, AnswerFrom, CoreOutcomeOf, InputOf, ClusterInv;
    if j == 0 {
      NobodyUpAtStart(r, n);
    } else {
      RunLengths(r);
      RunNext(r, j - 1);
      var c, a := r.states[j - 1], r.actions[j - 1];
      if a == Restart(n) {
        assert r.states[j].up[n].waiting == [];
      } else {
        WasUp(c, a, r.states[j], n);
        ReadsTraced(r, j - 1, n);
        if CoreOutcomeOf(c, a).Stepped? && ActionNode(a) == n {
          ReadsTracedByCore(r, j - 1, n);
        } else {
          UnchangedNode(c, a, r.states[j], n);
          var waiting, t := r.states[j].up[n].waiting, StateAt(r, j, n).term;
          forall w | w in waiting ensures TracedIn(r, j, n, w, t) {
            TraceStays(r, j - 1, n, w, t);
          }
        }
      }
    }
  }

  lemma NobodyUpAtStart(r: Run, n: NodeId)
    requires IsRun(r)
    ensures |r.states| > 0 && n !in r.states[0].up
  {
    hide Next;
  }

  lemma WasUp(c: Cluster, a: Action, c': Cluster, n: NodeId)
    requires Next(c, a) == Some(c') && n in c'.up && a != Restart(n)
    ensures n in c.up && a != Crash(n)
  {
    hide CoreOutcomeOf, Record, RecordVote, CanRestart, Reborn, Released;
  }

  lemma ReadsTracedByCore(r: Run, j: nat, n: NodeId)
    requires IsRun(r) && j < |r.actions| && j + 1 < |r.states| && Up(r, j, n) && Up(r, j + 1, n)
    requires ActionNode(r.actions[j]) == n && r.actions[j] != Crash(n) && r.actions[j] != Restart(n)
    requires WaitingTraced(r, j, n) && CoreOutcomeOf(r.states[j], r.actions[j]).Stepped?
    ensures WaitingTraced(r, j + 1, n)
  {
    hide IsRun, TracedIn, ReadFrom, AnswerFrom, CoreOutcomeOf, InputOf, ClusterInv, Next;
    var c, a := r.states[j], r.actions[j];
    RunInv(r, j);
    RunNext(r, j);
    RunLengths(r);
    CoreActionNext(c, a);
    CoreActionReads(c, a);
    var waiting, t := r.states[j + 1].up[n].waiting, StateAt(r, j + 1, n).term;
    forall w | w in waiting ensures TracedIn(r, j + 1, n, w, t) {
      TraceStep(r, j, n, w);
    }
  }

  // ---- Acknowledgements after acceptance -----------------------------------

  /** A packet that was not there at state `i` was sent by a node whose durable term at state
      `i` had not passed the packet's. */
  lemma {:induction false} LateAck(r: Run, i: nat, j: nat, p: Packet)
    requires IsRun(r) && i <= j < |r.states| && p in r.states[j].sent && p !in r.states[i].sent
    requires p.msg.AppendResponse? && p.msg.succeeded
    ensures p.from in LedgerAt(r, i).promised && LedgerAt(r, i).promised[p.from] <= p.msg.term
    decreases j
  {
    hide IsRun, ClusterInv, Grows, Next;
    RunLengths(r);
    if j > i && p in r.states[j - 1].sent {
      LateAck(r, i, j - 1, p);
    } else if j > i {
      RunNext(r, j - 1);
      RunInv(r, j - 1);
      SentByCore(r.states[j - 1], r.actions[j - 1], p);
      RunGrows(r, i, j);
      PromiseBelow(LedgerAt(r, i), LedgerAt(r, j), p.from);
    }
  }

  lemma PromiseBelow(l: Ledger, l': Ledger, n: NodeId)
    requires Grows(l, l') && n in l'.promised
    ensures n in l.promised && l.promised[n] <= l'.promised[n]
  {
  }

  lemma SentByCore(c: Cluster, a: Action, p: Packet)
    requires ClusterInv(c) && Next(c, a).Some? && p !in c.sent && p in Next(c, a).value.sent
    requires p.msg.AppendResponse? && p.msg.succeeded
    ensures var l := Next(c, a).value.history.ledger;
      p.from in l.promised && l.promised[p.from] == p.msg.term
  {
    hide ClusterInv, CoreOutcomeOf, Record, RecordVote, CanRestart, Reborn, PacketOk;
    hide Inv, Grows, Untouched, CoreOk, AppliesSlot, Advanced;
    assert CoreOutcomeOf(c, a).Stepped?;
    CoreActionNext(c, a);
    CoreActionOk(c, a);
  }

  // ---- The theorem ---------------------------------------------------------

  lemma AcceptedEntry(r: Run, i: nat, n: NodeId, q: RequestId)
    requires IsRun(r) && AcceptedAt(r, i, n, q)
    ensures var l, s := LedgerAt(r, i), StateAt(r, i, n);
      && Inv(l) && OwnEntry(l, s.term, s.commit) && s.term in l.commitOf && l.commitOf[s.term] == s.commit
      && n in l.promised && l.promised[n] == s.term
      && MembersAre(l.members, n, s.peers)
  {
    hide IsRun, Inv;
    LeaderIsRecorded(r, i, n);
    NodeOk(r, i, n);
    RunInv(r, i);
    ConfigMembers(r.states[i].config, n);
    LeaderDisk(LedgerAt(r, i), n, r.states[i].config[n], r.states[i].up[n], r.states[i].durable[n]);
    CorePeers(LedgerAt(r, i), n, r.states[i].config[n], r.states[i].up[n], r.states[i].durable[n]);
    hide CoreOk, DiskOk, PacketOk, Configured, MembersAre;
  }

  lemma LeaderDisk(l: Ledger, n: NodeId, peers: seq<NodeId>, c: Core, d: Durable)
    requires CoreOk(l, n, peers, c, d) && DiskOk(l, n, d) && c.state.role.Leader?
    ensures n in l.promised && l.promised[n] == c.state.term && c.state.snapshot.None?
    ensures c.state.commit <= |c.state.log|
  {
    ValidLog(l, c.state);
    hide Valid, WellLog, LogRelated, CandidateOk, CommitOk, CoreQueue, ApplicationOk, SelfAcked;
  }

  predicate Unpassed(l: Ledger, q: set<NodeId>, t: Term) {
    forall v :: v in q ==> v in l.promised && l.promised[v] <= t
  }

  /** Peer `v` has acknowledged this context to the leader `n` in its term. */
  predicate EarlyFrom(c: Cluster, n: NodeId, v: NodeId, context: ReadContext)
    requires n in c.up
  {
    exists p :: p in c.sent && p.from == v && ReadAck(p, n, c.up[n].state.term, context)
  }

  /** The durable term of `v` has not passed the leader's. */
  predicate Behind(c: Cluster, n: NodeId, v: NodeId)
    requires n in c.up
  {
    v in c.durable && c.durable[v].hard.term <= c.up[n].state.term
  }

  /** The peers that have acknowledged the context already or may still do so. */
  function Confirmers(c: Cluster, n: NodeId, context: ReadContext): set<NodeId>
    requires n in c.up
  {
    set v | v in c.up[n].state.peers && (EarlyFrom(c, n, v, context) || Behind(c, n, v))
  }

  /** No peer that has passed the leader's term has acknowledged the context. */
  predicate NoPassedAck(c: Cluster, n: NodeId, context: ReadContext)
    requires n in c.up
  {
    forall v :: v in c.up[n].state.peers && EarlyFrom(c, n, v, context) ==> Behind(c, n, v)
  }

  lemma NothingEarly(c: Cluster, n: NodeId, context: ReadContext)
    requires n in c.up && forall p :: p in c.sent ==> !ReadAck(p, n, c.up[n].state.term, context)
    ensures NoPassedAck(c, n, context)
  {
  }

  /** A counted acknowledgement is an early one, or from a peer that had not passed the term. */
  lemma CountedFrom(r: Run, i: nat, j: nat, n: NodeId, w: PendingRead, v: NodeId)
    requires IsRun(r) && Traced(r, i, j, n, w) && v in w.acks && v != n
    ensures v in Confirmers(r.states[i], n, w.context)
  {
    hide IsRun, AcceptsRead, Backed, Inv;
    var s := StateAt(r, i, n);
    var p := AckPacket(r.states[j].sent, n, s.peers, s.term, w, v);
    if p in r.states[i].sent {
      assert EarlyFrom(r.states[i], n, v, w.context);
    } else {
      LateAck(r, i, j, p);
      PromiseOnDisk(r, i, n, v);
    }
  }

  lemma PromiseOnDisk(r: Run, i: nat, n: NodeId, v: NodeId)
    requires IsRun(r) && Up(r, i, n) && (v == n || v in StateAt(r, i, n).peers)
    ensures v in r.states[i].durable && v in LedgerAt(r, i).promised
    ensures LedgerAt(r, i).promised[v] == r.states[i].durable[v].hard.term
  {
    hide IsRun, CoreOk;
    NodeOk(r, i, n);
    RunInv(r, i);
    CorePeers(LedgerAt(r, i), n, r.states[i].config[n], r.states[i].up[n], r.states[i].durable[n]);
    MemberOnDisk(r.states[i], n, v);
  }

  lemma MemberOnDisk(c: Cluster, n: NodeId, v: NodeId)
    requires ClusterInv(c) && n in c.config && (v == n || v in c.config[n])
    ensures v in c.durable && v in c.history.ledger.promised
    ensures c.history.ledger.promised[v] == c.durable[v].hard.term
  {
    hide Inv, PacketOk, CoreOk;
    assert v in c.config;
    assert DiskOk(c.history.ledger, v, c.durable[v]);
  }

  /** The nodes counted for a confirmed read are a majority of the early and the possible. */
  lemma CountedMajority(r: Run, i: nat, j: nat, n: NodeId, w: PendingRead)
    requires IsRun(r) && Traced(r, i, j, n, w) && w.confirmed
    ensures |Confirmers(r.states[i], n, w.context) + {n}| >= Majority(StateAt(r, i, n))
  {
    hide IsRun, AcceptsRead, Confirmers;
    forall v | v in w.acks ensures v in Confirmers(r.states[i], n, w.context) + {n} {
      if v != n { CountedFrom(r, i, j, n, w, v); }
    }
    CardinalityMonotone(w.acks, Confirmers(r.states[i], n, w.context) + {n});
  }

  /** If nobody that had passed the leader's term acknowledged early, the nodes counted for a
      confirmed read are a majority that had not passed it when the read was accepted. */
  lemma ConfirmedQuorum(r: Run, i: nat, j: nat, n: NodeId, w: PendingRead)
    requires IsRun(r) && Traced(r, i, j, n, w) && w.confirmed && NoPassedAck(r.states[i], n, w.context)
    ensures Quorum(LedgerAt(r, i).members, w.acks + {n})
    ensures Unpassed(LedgerAt(r, i), w.acks + {n}, StateAt(r, i, n).term)
  {
    hide IsRun, Inv, AcceptsRead, OwnEntry, Backed, MembersAre, EarlyFrom;
    AcceptedEntry(r, i, n, w.request);
    var l, s := LedgerAt(r, i), StateAt(r, i, n);
    var q := w.acks + {n};
    forall v | v in q ensures v in l.members && v in l.promised && l.promised[v] <= s.term {
      if v == n {
        SelfMember(l.members, n, s.peers);
      } else {
        CountedFrom(r, i, j, n, w, v);
        PeerMember(l.members, n, s.peers, v);
        PromiseOnDisk(r, i, n, v);
      }
    }
    QuorumSize(r.states[j].sent, l.members, n, s.peers, s.term, w);
  }

  lemma SelfMember(members: set<NodeId>, n: NodeId, peers: seq<NodeId>)
    requires MembersAre(members, n, peers)
    ensures n in members
  {
  }

  lemma PeerMember(members: set<NodeId>, n: NodeId, peers: seq<NodeId>, v: NodeId)
    requires MembersAre(members, n, peers) && v in peers
    ensures v in members
  {
  }

  lemma QuorumSize(sent: set<Packet>, members: set<NodeId>, n: NodeId, peers: seq<NodeId>, t: Term, w: PendingRead)
    requires MembersAre(members, n, peers) && Backed(sent, n, peers, t, w) && w.confirmed
    ensures |w.acks + {n}| >= |members| / 2 + 1
  {
    CardinalityMonotone(w.acks, w.acks + {n});
  }

  lemma AckPacket(sent: set<Packet>, n: NodeId, peers: seq<NodeId>, t: Term, w: PendingRead, v: NodeId)
    returns (p: Packet)
    requires Backed(sent, n, peers, t, w) && v in w.acks && v != n
    ensures p in sent && p.from == v && ReadAck(p, n, t, w.context) && v in peers
  {
    p :| p in sent && p.from == v && ReadAck(p, n, t, w.context);
  }

  /** Everything committed by anyone up to the acceptance is at most the read's index. */
  lemma ConfirmedReadCovers(r: Run, i: nat, j: nat, n: NodeId, w: PendingRead, k: nat, m: NodeId)
    requires IsRun(r) && Traced(r, i, j, n, w) && w.confirmed && NoPassedAck(r.states[i], n, w.context)
    requires k <= i && Up(r, k, m)
    ensures StateAt(r, k, m).commit <= w.index
  {
    hide IsRun, Inv, AcceptsRead, OwnEntry, Backed, Quorum, NoPassedAck;
    var l, t := LedgerAt(r, i), StateAt(r, i, n).term;
    AcceptedEntry(r, i, n, w.request);
    ConfirmedQuorum(r, i, j, n, w);
    CommitWasClaimed(r, k, i, m);
    var c := StateAt(r, k, m).commit;
    if c != 0 {
      var t' :| t' in l.commitOf && c <= l.commitOf[t'];
      ReadIndexCovers(l, w.acks + {n}, t, w.index, t');
    }
  }

  lemma CommitWasClaimed(r: Run, k: nat, i: nat, m: NodeId)
    requires IsRun(r) && k <= i < |r.states| && Up(r, k, m)
    ensures Claimed(LedgerAt(r, i), StateAt(r, k, m).commit)
  {
    hide IsRun, Grows, Claimed;
    NodeOk(r, k, m);
    RunGrows(r, k, i);
    CoreClaims(LedgerAt(r, k), m, r.states[k].config[m], r.states[k].up[m], r.states[k].durable[m]);
    ClaimedGrows(LedgerAt(r, k), LedgerAt(r, i), StateAt(r, k, m).commit);
  }

  lemma CoreClaims(l: Ledger, n: NodeId, peers: seq<NodeId>, c: Core, d: Durable)
    requires CoreOk(l, n, peers, c, d)
    ensures Claimed(l, c.state.commit)
  {
    hide Valid, WellLog, LogRelated, CandidateOk, LeaderOk, CoreQueue, ApplicationOk, SelfAcked, Claimed, DecidedTo;
  }

  ghost predicate CommitsAtMost(r: Run, i: nat, index: LogIndex) {
    forall k: nat, m: NodeId :: k <= i && Up(r, k, m) ==> StateAt(r, k, m).commit <= index
  }

  /** Every answered read was accepted earlier in the same life of the node; the node has
      applied up to the index; the leader with the peers that had acknowledged the read's context
      already or had not passed its term is a majority; and unless one of them had done both, no
      node had committed more than the index when the read was accepted. */
  lemma AnsweredReadIsLinearizable(r: Run, j: nat, q: RequestId, index: LogIndex) returns (i: nat)
    requires IsRun(r) && j < |r.actions| && j < |r.states|
    requires ReadAnswered(q, index) in EffectsOf(r.states[j], r.actions[j])
    ensures var n := ActionNode(r.actions[j]);
      && i <= j && AcceptedAt(r, i, n, q) && Alive(r, n, i, j + 1)
      && index == StateAt(r, i, n).commit && index <= StateAt(r, j + 1, n).applied
      && |Confirmers(r.states[i], n, r.states[i].up[n].nextContext) + {n}| >= Majority(StateAt(r, i, n))
      && (NoPassedAck(r.states[i], n, r.states[i].up[n].nextContext) ==> CommitsAtMost(r, i, index))
  {
    hide IsRun, CoreOutcomeOf, InputOf, Next, AcceptsRead, Ready, Backed, EffectsOf, NoPassedAck, Alive, Confirmers;
    var n := ActionNode(r.actions[j]);
    var w := AnsweredRead(r, j, q, index);
    i := TraceStart(r, j + 1, n, w, StateAt(r, j, n).term);
    ReadyMeans(w, StateAt(r, j + 1, n).applied);
    CountedMajority(r, i, j + 1, n, w);
    if NoPassedAck(r.states[i], n, w.context) {
      forall k: nat, m: NodeId | k <= i && Up(r, k, m) ensures StateAt(r, k, m).commit <= index {
        ConfirmedReadCovers(r, i, j + 1, n, w, k, m);
      }
    }
  }

  lemma AnswerIsCore(c: Cluster, a: Action, e: Effect)
    requires e in EffectsOf(c, a)
    ensures CoreOutcomeOf(c, a).Stepped? && e in CoreOutcomeOf(c, a).effects
  {
    hide CoreOutcomeOf;
  }

  lemma AnsweredRead(r: Run, j: nat, q: RequestId, index: LogIndex) returns (w: PendingRead)
    requires IsRun(r) && j < |r.actions| && j < |r.states|
    requires ReadAnswered(q, index) in EffectsOf(r.states[j], r.actions[j])
    ensures var n := ActionNode(r.actions[j]);
      && Up(r, j, n) && Up(r, j + 1, n) && TracedIn(r, j + 1, n, w, StateAt(r, j, n).term)
      && w.request == q && w.index == index && Ready(w, StateAt(r, j + 1, n).applied)
  {
    hide IsRun, TracedIn, ReadFrom, CoreOutcomeOf, InputOf, ClusterInv, Next, Ready, EffectsOf;
    var c, a, n := r.states[j], r.actions[j], ActionNode(r.actions[j]);
    var e := ReadAnswered(q, index);
    AnswerIsCore(c, a, e);
    RunInv(r, j);
    RunNext(r, j);
    RunLengths(r);
    CoreActionNext(c, a);
    ReadsTraced(r, j, n);
    CoreActionReads(c, a);
    var input, out := InputOf(c, a).value, CoreOutcomeOf(c, a).core;
    w :| ReadFrom(c.up[n], input, w) && w.request == e.request && w.index == e.readIndex && Ready(w, out.state.applied);
    InputIsNotLife(c, a);
    TraceStep(r, j, n, w);
  }

  lemma TraceStart(r: Run, j: nat, n: NodeId, w: PendingRead, t: Term) returns (i: nat)
    requires TracedIn(r, j, n, w, t)
    ensures Traced(r, i, j, n, w) && StateAt(r, i, n).term == t
  {
    i :| Traced(r, i, j, n, w) && StateAt(r, i, n).term == t;
  }

  lemma ReadyMeans(w: PendingRead, applied: LogIndex)
    requires Ready(w, applied)
    ensures w.confirmed && w.index <= applied
  {
  }

  lemma InputIsNotLife(c: Cluster, a: Action)
    requires InputOf(c, a).Some?
    ensures !a.Crash? && !a.Restart?
  {
  }
}
