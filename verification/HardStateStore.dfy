/** The durable cell for a node's term and vote: its transitions, its 48-byte record and its
    replacement on disk with a crash at any boundary. */
module HardStateStore {
  import opened RaftTypes
  import opened Figure2
  import opened ByteCodec
  import opened RaftCore
  import opened RaftLedger
  import opened RaftCluster
  import opened RaftInvariant
  import opened RaftDisk
  import opened RaftSafety

  // ---- Transitions ---------------------------------------------------------

  predicate TransitionAccepted(current: HardState, next: HardState) {
    && next.vote != Some(0)
    && !(next.term == 0 && next.vote.Some?)
    && current.term <= next.term
    && !(next.term == current.term && current.vote != next.vote && current.vote.Some?)
  }

  /** The term does not fall, and a vote recorded in a term is neither replaced nor cleared in it. */
  predicate Advances(was: HardState, now: HardState) {
    now.term > was.term || (now.term == was.term && (was.vote.Some? ==> now.vote == was.vote))
  }

  /** The vote is for a node, and is cast in a term. */
  predicate Storable(hard: HardState) {
    hard.vote.Some? ==> hard.vote.value != 0 && hard.term > 0
  }

  /** The store accepts exactly the storable values that advance what it holds. */
  lemma AcceptedIff(current: HardState, next: HardState)
    ensures TransitionAccepted(current, next) <==> Advances(current, next) && Storable(next)
  {
  }

  lemma MembersNonzero(c: Cluster, n: NodeId)
    requires ClusterInv(c) && n in c.history.ledger.members
    ensures n != 0
  {
    hide Inv, DiskOk, PacketOk, CoreOk;
    assert ConfigValid(n, c.config[n]);
  }

  /** A vote on disk or about to be written is for a member, in a term above zero. */
  lemma VoteIsReal(l: Ledger, t: Term, v: NodeId)
    requires Inv(l) && (t, v) in l.candLog
    ensures 0 < t && v in l.members
  {
    hide DurableInv, VotesInv, LeadersInv, AcksInv, HolderInv, VoterInv, CompletenessInv, CommitInv, WellLog;
  }

  lemma RecordedVoteIsReal(l: Ledger, n: NodeId, d: Durable)
    requires Inv(l) && DiskOk(l, n, d) && d.hard.vote.Some?
    ensures 0 < d.hard.term && d.hard.vote.value in l.members
  {
    hide DurableInv, CandidatesInv, LeadersInv, AcksInv, HolderInv, VoterInv, CompletenessInv, CommitInv, Claimed;
    assert (d.hard.term, n) in l.votes;
    VoteIsReal(l, d.hard.term, d.hard.vote.value);
  }

  lemma PendingVoteIsReal(c: Cluster, n: NodeId)
    requires ClusterInv(c) && n in c.up && c.up[n].state.pending.Some?
    ensures n in c.durable
    ensures var h := c.up[n].state.pending.value.hard;
      && HardStep(c.durable[n].hard, h)
      && (h.vote.Some? ==> h.vote.value in c.history.ledger.members && 0 < h.term)
  {
    var l, d, s := c.history.ledger, c.durable[n], c.up[n].state;
    var h := s.pending.value.hard;
    CoreHasState(c, n);
    hide Inv, DiskOk, PacketOk, Configured, StateOk, SelfAcked, ApplicationOk, CoreQueue, AtLeastAsFresh;
    assert CoreOk(l, n, c.config[n], c.up[n], d) && DiskOk(l, n, d);
    PendingWriteOk(l, c.up[n], d);
    SelfIs(l, n, c.config[n], s, d);
    if h.vote.Some? {
      if d.hard == h {
        RecordedVoteIsReal(l, n, d);
      } else if h.vote.value != n {
        VoteIsReal(l, h.term, h.vote.value);
      }
    }
  }

  lemma SelfIs(l: Ledger, n: NodeId, peers: seq<NodeId>, s: State, d: Durable)
    requires StateOk(l, n, peers, s, d) && DiskOk(l, n, d)
    ensures s.node == n && n in l.members
  {
    hide Valid, WellLog, LogRelated, CandidateOk, LeaderOk, CommitOk, Claimed;
  }

  /** In every run, the store accepts every write a node asks for. */
  lemma EveryWriteIsAccepted(r: Run, i: nat, n: NodeId)
    requires IsRun(r) && Up(r, i, n) && StateAt(r, i, n).pending.Some?
    ensures n in r.states[i].durable
    ensures TransitionAccepted(r.states[i].durable[n].hard, StateAt(r, i, n).pending.value.hard)
  {
    hide IsRun, ClusterInv;
    RunInv(r, i);
    PendingVoteIsReal(r.states[i], n);
    var h := StateAt(r, i, n).pending.value.hard;
    if h.vote.Some? { MembersNonzero(r.states[i], h.vote.value); }
  }

  /** Over every run, through every crash and restart, a node's disk only advances. */
  lemma {:induction false} DiskAdvances(r: Run, i: nat, j: nat, n: NodeId)
    requires IsRun(r) && i <= j < |r.states| && n in r.states[i].durable
    ensures n in r.states[j].durable && Advances(r.states[i].durable[n].hard, r.states[j].durable[n].hard)
    decreases j
  {
    hide IsRun, Next;
    if i < j {
      DiskAdvances(r, i, j - 1, n);
      RunLengths(r);
      RunNext(r, j - 1);
      var c, a := r.states[j - 1], r.actions[j - 1];
      HardOnlyWritten(c, a, r.states[j], n);
      if a == WriteHard(n) {
        EveryWriteIsAccepted(r, j - 1, n);
        AcceptedIff(c.durable[n].hard, r.states[j].durable[n].hard);
      }
    }
  }

  lemma HardOnlyWritten(c: Cluster, a: Action, c': Cluster, n: NodeId)
    requires Next(c, a) == Some(c') && n in c.durable
    ensures n in c'.durable
    ensures if a == WriteHard(n)
            then n in c.up && c.up[n].state.pending.Some? && c'.durable[n].hard == c.up[n].state.pending.value.hard
            else c'.durable[n].hard == c.durable[n].hard
  {
    hide CoreOutcomeOf, Record, Released, RecordVote, Reborn, CanRestart;
  }

  // ---- The record ----------------------------------------------------------

  const RECORD_SIZE: nat := 48
  const FORMAT_VERSION: nat := 1
  /** "KURAHST1" */
  const MAGIC: Bytes := [0x4B, 0x55, 0x52, 0x41, 0x48, 0x53, 0x54, 0x31]

  type Checksum = Bytes -> nat

  datatype Stored = Stored(generation: nat, hard: HardState)

  predicate Fits(s: Stored) {
    s.generation < Span(8) && s.hard.term < Span(8) && (s.hard.vote.Some? ==> s.hard.vote.value < Span(8))
  }

  predicate Encodable(s: Stored) {
    s.generation != 0 && s.hard.vote != Some(0) && !(s.hard.term == 0 && s.hard.vote.Some?)
  }

  function VoteField(vote: Option<NodeId>): nat {
    if vote.Some? then vote.value else 0
  }

  function Covered40(s: Stored): (bytes: Bytes)
    ensures |bytes| == 40
  {
    MAGIC + Le(FORMAT_VERSION, 2) + Le(RECORD_SIZE, 2) + Le(0, 4)
    + Le(s.generation, 8) + Le(s.hard.term, 8) + Le(VoteField(s.hard.vote), 8)
  }

  function Encode(s: Stored, crc: Checksum): Option<Bytes> {
    if !Encodable(s) then None
    else Some(Covered40(s) + Le(crc(Covered40(s)), 4) + Le(0, 4))
  }

  function Decode(bytes: Bytes, crc: Checksum): Option<Stored> {
    if |bytes| != RECORD_SIZE then None
    else if bytes[..8] != MAGIC then None
    else if Field(bytes, 8, 2) != FORMAT_VERSION || Field(bytes, 10, 2) != RECORD_SIZE
            || Field(bytes, 12, 4) != 0 || Field(bytes, 44, 4) != 0 then None
    else
      var generation, term, vote := Field(bytes, 16, 8), Field(bytes, 24, 8), Field(bytes, 32, 8);
      if generation == 0 then None
      else if term == 0 && vote != 0 then None
      else if Field(bytes, 40, 4) != crc(bytes[..40]) then None
      else Some(Stored(generation, HardState(term, if vote == 0 then None else Some(vote))))
  }

  /** Where the fields of a record lie. */
  lemma RecordSlices(s: Stored, sum: Bytes, tail: Bytes)
    requires |sum| == 4 && |tail| == 4
    ensures var b := Covered40(s) + sum + tail;
      && |b| == 48 && b[..40] == Covered40(s) && b[..8] == MAGIC
      && b[8..10] == Le(FORMAT_VERSION, 2) && b[10..12] == Le(RECORD_SIZE, 2) && b[12..16] == Le(0, 4)
      && b[16..24] == Le(s.generation, 8) && b[24..32] == Le(s.hard.term, 8)
      && b[32..40] == Le(VoteField(s.hard.vote), 8) && b[40..44] == sum && b[44..48] == tail
  {
    hide Le;
    var s1 := MAGIC + Le(FORMAT_VERSION, 2);
    var s2 := s1 + Le(RECORD_SIZE, 2);
    var s3 := s2 + Le(0, 4);
    var s4 := s3 + Le(s.generation, 8);
    var s5 := s4 + Le(s.hard.term, 8);
    var h := s5 + Le(VoteField(s.hard.vote), 8);
    var s7 := h + sum;
    var b := s7 + tail;
    Piece(MAGIC, Le(FORMAT_VERSION, 2), b);
    Piece(s1, Le(RECORD_SIZE, 2), b);
    Piece(s2, Le(0, 4), b);
    Piece(s3, Le(s.generation, 8), b);
    Piece(s4, Le(s.hard.term, 8), b);
    Piece(s5, Le(VoteField(s.hard.vote), 8), b);
    Piece(h, sum, b);
    Piece(s7, tail, b);
  }

  /** A stored record reads back as what was stored. */
  lemma DecodesWhatWasEncoded(s: Stored, crc: Checksum)
    requires Fits(s) && Encodable(s) && forall b :: crc(b) < Span(4)
    ensures Encode(s, crc).Some? && Decode(Encode(s, crc).value, crc) == Some(s)
  {
    Spans();
    var sum := Le(crc(Covered40(s)), 4);
    RecordSlices(s, sum, Le(0, 4));
    hide Covered40, Le, FromLe, Span;
    ReadsBack(FORMAT_VERSION, 2);
    ReadsBack(RECORD_SIZE, 2);
    ReadsBack(0, 4);
    ReadsBack(s.generation, 8);
    ReadsBack(s.hard.term, 8);
    ReadsBack(VoteField(s.hard.vote), 8);
    ReadsBack(crc(Covered40(s)), 4);
  }

  /** Decoding accepts nothing but the canonical record: encoding the result gives it back. */
  lemma EncodesWhatWasDecoded(bytes: Bytes, crc: Checksum)
    requires Decode(bytes, crc).Some?
    ensures Fits(Decode(bytes, crc).value) && Encode(Decode(bytes, crc).value, crc) == Some(bytes)
  {
    hide Le, FromLe, Span;
    var s := Decode(bytes, crc).value;
    FieldBack(bytes, 8, 2);
    FieldBack(bytes, 10, 2);
    FieldBack(bytes, 12, 4);
    FieldBack(bytes, 16, 8);
    FieldBack(bytes, 24, 8);
    FieldBack(bytes, 32, 8);
    FieldBack(bytes, 40, 4);
    FieldBack(bytes, 44, 4);
    SplitRecord(bytes);
  }

  lemma SplitRecord(bytes: Bytes)
    requires |bytes| == RECORD_SIZE
    ensures bytes[..40] == bytes[..8] + bytes[8..10] + bytes[10..12] + bytes[12..16] + bytes[16..24]
                           + bytes[24..32] + bytes[32..40]
    ensures bytes == bytes[..40] + bytes[40..44] + bytes[44..48]
  {
  }

  /** Exactly the encodings of storable values are accepted, each stands for one value only, and
      no accepted record is the beginning of another: there is no torn value. */
  lemma DecodeAcceptsIff(bytes: Bytes, crc: Checksum)
    requires forall b :: crc(b) < Span(4)
    ensures Decode(bytes, crc).Some? <==> exists s :: Fits(s) && Encode(s, crc) == Some(bytes)
    ensures forall s :: Fits(s) && Encode(s, crc) == Some(bytes) ==> Decode(bytes, crc) == Some(s)
    ensures forall longer :: Decode(bytes, crc).Some? && Decode(longer, crc).Some? && bytes <= longer ==>
        longer == bytes
  {
    hide Encode;
    if Decode(bytes, crc).Some? {
      EncodesWhatWasDecoded(bytes, crc);
    }
    forall s | Fits(s) && Encode(s, crc) == Some(bytes) ensures Decode(bytes, crc) == Some(s) {
      OnlyEncodable(s, crc);
      DecodesWhatWasEncoded(s, crc);
    }
  }

  lemma OnlyEncodable(s: Stored, crc: Checksum)
    requires Encode(s, crc).Some?
    ensures Encodable(s)
  {
  }

  // ---- The store -----------------------------------------------------------

  /** The points at which a write may be interrupted. */
  datatype Boundary =
    | TemporaryCreated | RecordWritten | TemporarySynchronized | TemporaryClosed
    | FinalReplaced | DirectorySynchronized

  predicate Replaced(at: Option<Boundary>) {
    at.None? || at.value.FinalReplaced? || at.value.DirectorySynchronized?
  }

  class Store {
    var file: Option<Bytes>
    var generation: nat
    var hard: HardState
    var healthy: bool
    const crc: Checksum

    ghost predicate Sums() {
      forall b :: crc(b) < Span(4)
    }

    /** What a fresh process would load. */
    function OnDisk(): Option<Stored>
      reads this
    {
      if file.None? then Some(Stored(0, HardState(0, None))) else Decode(file.value, crc)
    }

    ghost predicate Valid()
      reads this
    {
      && Sums() && OnDisk().Some?
      && (healthy ==> OnDisk() == Some(Stored(generation, hard)))
      && generation < Span(8) && hard.term < Span(8) && (hard.vote.Some? ==> hard.vote.value < Span(8))
    }

    constructor (crc: Checksum, file: Option<Bytes>)
      requires forall b :: crc(b) < Span(4)
      requires file.Some? ==> Decode(file.value, crc).Some?
      ensures Valid() && healthy && this.file == file && this.crc == crc
    {
      this.crc, this.file := crc, file;
      var loaded := if file.None? then Stored(0, HardState(0, None)) else Decode(file.value, crc).value;
      generation, hard, healthy := loaded.generation, loaded.hard, true;
      new;
      assert Span(8) > 0 by { Spans(); }
      if file.Some? { EncodesWhatWasDecoded(file.value, crc); }
    }

    /** Replaces the record; `fault` names the boundary at which the process dies, if it does.
        Whatever the boundary, the disk holds the old value or the new one, and the new one once
        the caller has been told. */
    method Persist(id: nat, next: HardState, fault: Option<Boundary>) returns (ok: bool)
      requires Valid() && next.term < Span(8) && (next.vote.Some? ==> next.vote.value < Span(8))
      modifies this
      ensures Valid()
      ensures ok ==> old(healthy) && id != 0 && TransitionAccepted(old(hard), next)
      ensures ok ==> healthy && hard == next && OnDisk().value.hard == next
      ensures !ok ==> OnDisk() == old(OnDisk()) || OnDisk().value.hard == next
      ensures OnDisk() != old(OnDisk()) ==>
                old(healthy) && TransitionAccepted(old(hard), next) && OnDisk().value.generation == old(generation) + 1
      ensures Advances(old(OnDisk().value.hard), OnDisk().value.hard)
      ensures (fault.None? && old(healthy) && id != 0 && TransitionAccepted(old(hard), next)
               && old(generation) + 1 < Span(8)) ==> ok
    {
      if !healthy || id == 0 { return false; }
      if !TransitionAccepted(hard, next) { return false; }
      if next == hard { return true; }
      if generation + 1 >= Span(8) { return false; }
      var stored := Stored(generation + 1, next);
      var bytes := Encode(stored, crc);
      DecodesWhatWasEncoded(stored, crc);
      if Replaced(fault) { file := bytes; }
      if fault.Some? {
        healthy := false;
        return false;
      }
      generation, hard := generation + 1, next;
      return true;
    }
  }
}
