/** Two runs of three nodes that show where the promises end: one with a stale read, one with
    a node that comes back committed to an entry nobody decided. */
module RaftWitnesses {
  import opened RaftTypes
  import opened Figure2
  import opened RaftCore
  import opened RaftLedger
  import opened RaftCluster
  import opened RaftInvariant
  import opened RaftSafety
  import opened RaftReads
  import opened RaftCommit
  import opened RaftScenarios
  import opened RaftStaleReads
  import opened RaftRounds

  // ---- The start -----------------------------------------------------------

  const CONFIG: map<NodeId, seq<NodeId>> := map[1 := [2, 3], 2 := [1, 3], 3 := [1, 2]]

  function Start(): Cluster {
    Cluster(CONFIG, 8, 8, map n | n in CONFIG :: EMPTY_DISK, map[], {},
            History(Ledger(CONFIG.Keys, map n | n in CONFIG :: 0, map n | n in CONFIG :: [],
                           map[], map[], map[], map[], map[], map[]),
                    map[]))
  }

  lemma StartIsConfigured()
    ensures Configured(CONFIG)
  {
    assert CONFIG.Keys == {1, 2, 3};
  }

  lemma StartIsInit()
    ensures IsRun(Run([Start()], []))
  {
    hide Configured, Next;
    StartIsConfigured();
  }

  function Fresh(n: NodeId): Core
    requires n in CONFIG
  {
    Construct(n, CONFIG[n], HardState(0, None), [], 0, 8, 8)
  }

  predicate InConfig(r: Run) {
    |r.states| > 0 && End(r).config == CONFIG && End(r).maxReads == 8 && End(r).maxHistory == 8
  }

  lemma BootOne(r: Run, n: NodeId) returns (r': Run)
    requires IsRun(r) && InConfig(r) && n in CONFIG && n !in End(r).up && n in End(r).durable
    requires End(r).durable[n] == EMPTY_DISK
    ensures Continues(r, r') && InConfig(r') && End(r').up == End(r).up[n := Fresh(n)]
    ensures End(r').durable == End(r).durable
  {
    hide IsRun;
    assert CanRestart(End(r), n);
    r' := RestartRound(r, n);
  }

  /** All three nodes are up with empty logs. */
  lemma Boot() returns (r: Run)
    ensures IsRun(r) && InConfig(r) && End(r).up == map[1 := Fresh(1), 2 := Fresh(2), 3 := Fresh(3)]
    ensures End(r).durable == map[1 := EMPTY_DISK, 2 := EMPTY_DISK, 3 := EMPTY_DISK]
  {
    hide IsRun, Fresh;
    StartIsInit();
    var r0 := Run([Start()], []);
    assert End(r0) == Start();
    var r1 := BootOne(r0, 1);
    var r2 := BootOne(r1, 2);
    r := BootOne(r2, 3);
  }

  // ---- Sharing a log -------------------------------------------------------

  predicate RealTerms(log: Log) {
    forall i :: 0 <= i < |log| ==> 0 < log[i].term
  }

  /** What the leader sends to a follower whose next index is `next`. */
  lemma OfferIs(s: State, f: NodeId, context: Option<ReadContext>)
    requires s.snapshot.None? && s.leader.Some? && f in s.leader.value.progress
    requires ProgressValid(s, s.leader.value.progress[f])
    ensures var previous := s.leader.value.progress[f].next - 1;
      && previous <= |s.log|
      && AppendFor(s, f, context)
         == AppendRequest(s.term, s.node, previous, PreviousTerm(s.log, previous), s.log[previous..], s.commit, context)
  {
  }

  lemma OfferIsValid(s: State, f: NodeId, context: Option<ReadContext>)
    requires Valid(s) && s.snapshot.None? && s.leader.Some? && f in s.leader.value.progress
    requires ProgressValid(s, s.leader.value.progress[f]) && RealTerms(s.log)
    requires s.term != 0 && s.node != 0 && |s.log| <= U64_MAX
    ensures AppendRequestValid(AppendFor(s, f, context))
  {
    OfferIs(s, f, context);
    hide AppendFor, LeaderValid, RolesValid;
    var previous := s.leader.value.progress[f].next - 1;
    var entries := s.log[previous..];
    assert forall j :: 0 <= j < |entries| ==> entries[j] == s.log[previous + j];
  }

  /** A request that starts beyond the follower's log is refused. */
  lemma AheadIsRefused(s: State, sv: State, v: NodeId)
    requires Valid(s) && s.snapshot.None? && s.leader.Some? && v in s.leader.value.progress
    requires ProgressValid(s, s.leader.value.progress[v]) && RealTerms(s.log)
    requires s.term != 0 && s.node != 0 && |s.log| <= U64_MAX
    requires s.node in sv.peers && sv.term == s.term && sv.snapshot.None?
    requires |sv.log| < s.leader.value.progress[v].next - 1
    ensures Refusable(sv, s.node, AppendFor(s, v, None))
  {
    OfferIs(s, v, None);
    OfferIsValid(s, v, None);
    hide AppendFor, Valid, AppendRequestValid;
  }

  /** The leader's log on its way to a follower that holds a shorter prefix of it. */
  predicate Shares(r: Run, n: NodeId, f: NodeId, context: Option<ReadContext>) {
    && |r.states| > 0 && n in End(r).up && f in End(r).up && n != f
    && var c, cf := End(r).up[n], End(r).up[f];
    && Calm(c) && Calm(cf) && c.state.role.Leader? && cf.state.role.Follower? && c.state.term == cf.state.term != 0
    && f in c.state.peers && n in cf.state.peers && |c.state.peers| == 2 && RealTerms(c.state.log)
    && |cf.state.log| < |c.state.log| && cf.state.log == c.state.log[..|cf.state.log|]
    && c.state.log[|c.state.log| - 1].term == c.state.term && n != 0
    && c.state.commit == c.state.applied == cf.state.commit < |c.state.log|
    && c.waiting == [] && c.application.None? && c.nextApplyId < APPLY_ID_LIMIT
    && Repeated(c.state, n, f, context, End(r).sent)
    && c.state.leader.value.progress[f].next - 1 <= |cf.state.log|
  }

  lemma SharedFits(r: Run, n: NodeId, f: NodeId, context: Option<ReadContext>)
    requires IsRun(r) && Shares(r, n, f, context)
    ensures var c, cf := End(r).up[n], End(r).up[f];
      Extension(cf.state, n, AppendFor(c.state, f, context), c.state.log)
  {
    hide IsRun, Valid;
    NodeIsValid(r, n);
    NodeIsValid(r, f);
    var c, cf := End(r).up[n], End(r).up[f];
    OfferIs(c.state, f, context);
    OfferIsValid(c.state, f, context);
    hide AppendFor, AppendRequestValid;
    var previous := c.state.leader.value.progress[f].next - 1;
    assert previous > 0 ==> cf.state.log[previous - 1] == c.state.log[previous - 1];
  }

  /** The follower takes the log, and its acknowledgement commits it. */
  lemma ShareRound(r: Run, n: NodeId, f: NodeId, context: Option<ReadContext>) returns (r': Run)
    requires IsRun(r) && Shares(r, n, f, context)
    ensures Continues(r, r') && f in End(r).durable
    ensures var c, cf := End(r).up[n], End(r).up[f]; var whole := c.state.log;
      && End(r').up == End(r).up[f := Copied(cf, n, whole)][n := Applying(c.(state := Confirmed(c.state, f)))]
      && End(r').durable == End(r).durable[f := End(r).durable[f].(log := whole)]
      && Packet(f, n, AppendResponse(c.state.term, true, |whole|, context)) in End(r').sent
  {
    hide IsRun, Applying, Confirmed, AppendFor, Extension;
    var c, cf := End(r).up[n], End(r).up[f];
    SharedFits(r, n, f, context);
    OfferIs(c.state, f, context) by { NodeIsValid(r, n); }
    var m := AppendFor(c.state, f, context);
    var r1 := ReplicationRound(r, Packet(n, f, m), c.state.log);
    var p := Packet(f, n, AppendResponse(c.state.term, true, |c.state.log|, context));
    assert End(r1).up[n] == c;
    r' := ConfirmRound(r1, p);
    ContinuesOn(r, r1, r');
  }

  // ---- A whole term --------------------------------------------------------

  function Leading(c: Core, command: Command): Core {
    c.(state := Commanded(Elected(Stood(c.state)), command), nextLogId := c.nextLogId + 1)
  }

  lemma ElectedIsBare(s: State)
    ensures NothingToCommit(Elected(Stood(s)))
  {
  }

  /** An election, and the new leader's first command. */
  lemma OpenTerm(r: Run, n: NodeId, v: NodeId, command: Command) returns (r': Run)
    requires IsRun(r) && CanWin(r, n, v)
    ensures Continues(r, r') && n in End(r).durable && v in End(r).durable
    ensures var c, cv := End(r).up[n], End(r).up[v]; var t := c.state.term + 1;
      var c' := Leading(c, command);
      && End(r').up == End(r).up[v := cv.(state := Granted(cv.state, t, n))][n := c']
      && End(r').durable == End(r).durable[v := End(r).durable[v].(hard := HardState(t, Some(n)))]
                                          [n := End(r).durable[n].(hard := HardState(t, Some(n)), log := c'.state.log)]
      && Offered(c'.state, n, End(r').sent)
  {
    hide IsRun, UpToDate, Commanded, FreshProgress, NothingToCommit, Offered;
    var c, cv := End(r).up[n], End(r).up[v];
    var r1 := Election(r, n, v);
    ElectedIsBare(c.state);
    assert End(r1).up[n] == c.(state := Elected(Stood(c.state)));
    r' := CommandRound(r1, n, command);
    ContinuesOn(r, r1, r');
  }

  lemma ConfirmedOnce(s: State, f: NodeId)
    ensures Confirmed(SteppedBack(s, f), f) == Confirmed(s, f)
  {
    if s.leader.Some? && f in s.leader.value.progress {
      var p, q := SteppedBack(s, f), Progress(|s.log| + 1, |s.log|);
      assert p.leader.value.progress[f := q] == s.leader.value.progress[f := q];
    }
  }

  /** A leader whose follower lacks the last two entries, and a request it will refuse. */
  predicate Lags(r: Run, n: NodeId, v: NodeId, p: Packet) {
    && |r.states| > 0 && n in End(r).up && v in End(r).up && n != v && n != 0
    && var c, cv := End(r).up[n], End(r).up[v]; var log := c.state.log;
    && Calm(c) && Calm(cv) && c.state.role.Leader? && cv.state.role.Follower? && c.state.term == cv.state.term != 0
    && v in c.state.peers && n in cv.state.peers && |c.state.peers| == 2 && RealTerms(log)
    && 2 <= |log| && cv.state.log == log[..|log| - 2] && log[|log| - 1].term == c.state.term
    && c.state.commit == c.state.applied == cv.state.commit < |log|
    && c.waiting == [] && c.application.None? && c.nextApplyId < APPLY_ID_LIMIT
    && c.state.leader.Some? && v in c.state.leader.value.progress
    && c.state.leader.value.progress[v] == Progress(|log|, 0)
    && p in End(r).sent && p.from == n && p.to == v && Refusable(cv.state, n, p.msg)
  }

  /** The request is refused and repeated from one index earlier. */
  lemma RepeatRound(r: Run, n: NodeId, v: NodeId, p: Packet) returns (r': Run)
    requires IsRun(r) && Lags(r, n, v, p)
    ensures Continues(r, r') && End(r').durable == End(r).durable && p.msg.AppendRequest?
    ensures var c, cv := End(r).up[n], End(r).up[v]; var s := SteppedBack(c.state, v);
      && End(r').up == End(r).up[v := cv.(state := AfterRefusal(cv.state, n, p.msg))][n := c.(state := s)]
      && Repeated(s, n, v, p.msg.context, End(r').sent)
  {
    hide IsRun, PreviousMatches, AppendRequestValid, AfterRefusal, SteppedBack, Repeated, RealTerms;
    var c, cv := End(r).up[n], End(r).up[v];
    var r1 := RefusalRound(r, p);
    assert End(r1).up[n] == c;
    r' := RetryRound(r1, Packet(v, n, Refusal(cv.state, p.msg)));
    ContinuesOn(r, r1, r');
  }

  /** One index earlier is where the follower's log ends. */
  lemma LagsThenShares(r: Run, r': Run, n: NodeId, v: NodeId, p: Packet)
    requires Lags(r, n, v, p) && |r'.states| > 0 && p.msg.AppendRequest?
    requires var c, cv := End(r).up[n], End(r).up[v]; var s := SteppedBack(c.state, v);
      && End(r').up == End(r).up[v := cv.(state := AfterRefusal(cv.state, n, p.msg))][n := c.(state := s)]
      && Repeated(s, n, v, p.msg.context, End(r').sent)
    ensures Shares(r', n, v, p.msg.context)
  {
    hide Refusable, AppendFor, RealTerms;
  }

  /** The refusal makes the leader repeat itself from further back, and the answer to that
      commits its log. */
  lemma CloseTerm(r: Run, n: NodeId, v: NodeId, p: Packet) returns (r': Run)
    requires IsRun(r) && Lags(r, n, v, p)
    ensures Continues(r, r') && v in End(r).durable && p.msg.AppendRequest?
    ensures var c, cv := End(r).up[n], End(r).up[v]; var whole := c.state.log;
      && End(r').up == End(r).up[v := Copied(cv, n, whole)][n := Applying(c.(state := Confirmed(c.state, v)))]
      && End(r').durable == End(r).durable[v := End(r).durable[v].(log := whole)]
      && Packet(v, n, AppendResponse(c.state.term, true, |whole|, p.msg.context)) in End(r').sent
  {
    hide IsRun, Applying, Confirmed, Refusable, RealTerms, Shares, Repeated;
    var c, cv := End(r).up[n], End(r).up[v];
    var r1 := RepeatRound(r, n, v, p);
    LagsThenShares(r, r1, n, v, p);
    r' := ShareRound(r1, n, v, p.msg.context);
    ContinuesOn(r, r1, r');
    ConfirmedOnce(c.state, v);
    RefusedThenCopied(c, cv, n, v, p.msg, c.state.log);
    assert End(r').up
        == End(r).up[v := Copied(cv, n, c.state.log)][n := Applying(c.(state := Confirmed(c.state, v)))];
  }

  lemma RefusedThenCopied(c: Core, cv: Core, n: NodeId, v: NodeId, m: Message, whole: Log)
    requires m.AppendRequest?
    ensures Copied(cv.(state := AfterRefusal(cv.state, n, m)), n, whole) == Copied(cv, n, whole)
    ensures SteppedBack(c.state, v).log == c.state.log && SteppedBack(c.state, v).term == c.state.term
  {
  }

  // ---- The first term ------------------------------------------------------

  function Op(t: Term): Command {
    Command(RequestId(t, t), 0, [])
  }

  function E(t: Term, i: LogIndex): LogEntry {
    LogEntry(t, i, Op(t))
  }

  lemma FreshProgressIs(s: State, a: NodeId, b: NodeId)
    requires s.peers == [a, b] && s.snapshot.None?
    ensures FreshProgress(s) == map[a := Progress(|s.log| + 1, 0), b := Progress(|s.log| + 1, 0)]
  {
  }

  /** Node 1 leads term 1 with entry 1 committed and being applied. */
  function Leader1(): Core {
    var s := State(1, [2, 3], Leader, 1, Some(1), None, [E(1, 1)], 1, 0, Some(1), {},
                   Some(LeaderState(map[2 := Progress(2, 1), 3 := Progress(1, 0)], {1})), 2, None);
    Core(s, None, Some(PendingApplication(FIRST_APPLY_ID, E(1, 1), false)), [], {}, 1, FIRST_LOG_ID + 1,
        FIRST_APPLY_ID + 1, 8, 8)
  }

  /** Node 2 follows it. */
  function Follower2(): Core {
    Core(State(2, [1, 3], Follower, 1, Some(1), None, [E(1, 1)], 0, 0, Some(1), {}, None, 3, None),
         None, None, [], {}, 1, FIRST_LOG_ID + 1, FIRST_APPLY_ID, 8, 8)
  }

  const VOTED_ONE: Durable := Durable(HardState(1, Some(1)), [E(1, 1)], 0)

  lemma FirstLeading()
    ensures var c := Leading(Fresh(1), Op(1));
      c == Core(State(1, [2, 3], Leader, 1, Some(1), None, [E(1, 1)], 0, 0, Some(1), {},
                      Some(LeaderState(map[2 := Progress(1, 0), 3 := Progress(1, 0)], {1})), 2, None),
                None, None, [], {}, 1, FIRST_LOG_ID + 1, FIRST_APPLY_ID, 8, 8)
  {
    FreshProgressIs(Stood(Fresh(1).state), 2, 3);
    hide FreshProgress;
    assert [] + [E(1, 1)] == [E(1, 1)];
    assert {} + {1} == {1};
  }

  lemma FirstConfirmed()
    ensures var c := Leading(Fresh(1), Op(1)); Applying(c.(state := Confirmed(c.state, 2))) == Leader1()
  {
    FirstLeading();
    hide Leading;
    var was := map[2 := Progress(1, 0), 3 := Progress(1, 0)];
    assert was[2 := Progress(2, 1)] == map[2 := Progress(2, 1), 3 := Progress(1, 0)];
  }

  lemma FirstCopied()
    ensures Copied(Fresh(2).(state := Granted(Fresh(2).state, 1, 1)), 1, [E(1, 1)]) == Follower2()
  {
  }

  /** Node 1 has been elected by node 2 and has taken its first command. */
  lemma FirstOpened() returns (r: Run)
    ensures IsRun(r) && InConfig(r)
    ensures End(r).up == map[1 := Leading(Fresh(1), Op(1)), 2 := Fresh(2).(state := Granted(Fresh(2).state, 1, 1)),
                             3 := Fresh(3)]
    ensures End(r).durable == map[1 := VOTED_ONE, 2 := Durable(HardState(1, Some(1)), [], 0), 3 := EMPTY_DISK]
    ensures Offered(Leading(Fresh(1), Op(1)).state, 1, End(r).sent)
  {
    hide IsRun, Leading, Granted, Offered;
    var r0 := Boot();
    assert CanWin(r0, 1, 2);
    r := OpenTerm(r0, 1, 2, Op(1));
    FirstLeading();
    assert End(r).up == map[1 := Leading(Fresh(1), Op(1)), 2 := Fresh(2).(state := Granted(Fresh(2).state, 1, 1)),
                            3 := Fresh(3)];
  }

  lemma FirstShares(r: Run)
    requires |r.states| > 0 && 1 in End(r).up && 2 in End(r).up && End(r).up[1] == Leading(Fresh(1), Op(1))
    requires End(r).up[2] == Fresh(2).(state := Granted(Fresh(2).state, 1, 1))
    requires Offered(Leading(Fresh(1), Op(1)).state, 1, End(r).sent)
    ensures Shares(r, 1, 2, None)
  {
    hide Leading, AppendFor;
    FirstLeading();
    assert 2 in End(r).up[1].state.peers;
  }

  lemma FirstTerm() returns (r: Run)
    ensures IsRun(r) && InConfig(r) && End(r).up == map[1 := Leader1(), 2 := Follower2(), 3 := Fresh(3)]
    ensures End(r).durable == map[1 := VOTED_ONE, 2 := VOTED_ONE, 3 := EMPTY_DISK]
  {
    hide IsRun, Applying, Confirmed, Leading, Copied, Offered, Shares, Granted, Fresh, Leader1, Follower2;
    var r1 := FirstOpened();
    FirstShares(r1);
    r := ShareRound(r1, 1, 2, None);
    FirstLog();
    FirstConfirmed();
    FirstCopied();
    assert End(r).up == map[1 := Leader1(), 2 := Follower2(), 3 := Fresh(3)];
    assert End(r).durable == map[1 := VOTED_ONE, 2 := VOTED_ONE, 3 := EMPTY_DISK];
  }

  lemma FirstLog()
    ensures Leading(Fresh(1), Op(1)).state.log == [E(1, 1)]
  {
    FirstLeading();
  }

  // ---- A stale read --------------------------------------------------------

  const QUERY := RequestId(7, 7)

  /** The request of node 1's first life that reaches node 3 only in its second. */
  const LATE := Packet(1, 3, AppendRequest(1, 1, 0, 0, [E(1, 1)], 1, Some(1)))

  function Reborn1(): Core {
    Construct(1, [2, 3], HardState(1, Some(1)), [E(1, 1)], 0, 8, 8)
  }

  lemma LateIsSent(sent: set<Packet>)
    requires Released(1, ReadSends(Leader1())) <= sent
    ensures LATE in sent
  {
    hide Released;
    var s := Leader1().state;
    assert CanReplicate(s);
    LateOffer(s);
    hide AppendFor;
    var sends := ReadSends(Leader1());
    assert sends[1] == MarkRead(Send(3, AppendFor(s, 3, None)), 1);
    SentBy(1, sends, sends[1]);
  }

  lemma LateOffer(s: State)
    requires s == Leader1().state && CanReplicate(s)
    ensures MarkRead(Send(3, AppendFor(s, 3, None)), 1) == Send(3, LATE.msg)
  {
    OfferIs(s, 3, None);
    hide AppendFor;
    assert s.log[0..] == [E(1, 1)];
  }

  /** Node 1 takes a read in its first life and crashes with the request on its way. */
  lemma FirstLife() returns (r: Run)
    ensures IsRun(r) && InConfig(r) && End(r).up == map[2 := Follower2(), 3 := Fresh(3)]
    ensures End(r).durable == map[1 := VOTED_ONE, 2 := VOTED_ONE, 3 := EMPTY_DISK] && LATE in End(r).sent
  {
    hide IsRun, ReadSends, Released;
    var r0 := FirstTerm();
    assert CanOpen(End(r0), 1, QUERY);
    var r1 := OpenRead(r0, 1, QUERY);
    LateIsSent(End(r1).sent);
    r := CrashRound(r1, 1);
    assert End(r).up == map[2 := Follower2(), 3 := Fresh(3)];
  }

  lemma SecondLife() returns (r: Run)
    ensures IsRun(r) && InConfig(r) && End(r).up == map[1 := Reborn1(), 2 := Follower2(), 3 := Fresh(3)]
    ensures End(r).durable == map[1 := VOTED_ONE, 2 := VOTED_ONE, 3 := EMPTY_DISK] && LATE in End(r).sent
  {
    hide IsRun, Fresh, Follower2;
    var r0 := FirstLife();
    assert CanRestart(End(r0), 1);
    r := RestartRound(r0, 1);
    assert End(r).up == map[1 := Reborn1(), 2 := Follower2(), 3 := Fresh(3)];
  }

  const TWO: Log := [E(1, 1), E(2, 2)]

  /** Node 1 leads term 2, before and after node 3 has taken its log. */
  function Leader2(match3: Progress, commit: LogIndex, applied: LogIndex, clients: set<LogIndex>): State {
    State(1, [2, 3], Leader, 2, Some(1), None, TWO, commit, applied, Some(1), {},
          Some(LeaderState(map[2 := Progress(2, 0), 3 := match3], clients)), 2, None)
  }

  function Core2(s: State, application: Option<PendingApplication>, id: nat): Core {
    Core(s, None, application, [], {}, 1, FIRST_LOG_ID + 1, id, 8, 8)
  }

  function Voter3(): Core {
    Core(State(3, [1, 2], Follower, 2, Some(1), None, [], 0, 0, None, {}, None, 3, None),
         None, None, [], {}, 1, FIRST_LOG_ID, FIRST_APPLY_ID, 8, 8)
  }

  function Follower3(): Core {
    Core(State(3, [1, 2], Follower, 2, Some(1), None, TWO, 0, 0, Some(1), {}, None, 3, None),
         None, None, [], {}, 1, FIRST_LOG_ID + 1, FIRST_APPLY_ID, 8, 8)
  }

  lemma SecondLeading()
    ensures Leading(Reborn1(), Op(2)) == Core2(Leader2(Progress(2, 0), 0, 0, {2}), None, FIRST_APPLY_ID)
    ensures Fresh(3).(state := Granted(Fresh(3).state, 2, 1)) == Voter3()
    ensures Voter3().(state := Following(Voter3().state, 1).(log := TWO), nextLogId := FIRST_LOG_ID + 1) == Follower3()
  {
    FreshProgressIs(Stood(Reborn1().state), 2, 3);
    hide FreshProgress;
    assert [E(1, 1)] + [E(2, 2)] == TWO;
    assert {} + {2} == {2};
  }

  lemma SecondConfirmed()
    ensures var c := Core2(Leader2(Progress(2, 0), 0, 0, {2}), None, FIRST_APPLY_ID);
      var c1 := Core2(Leader2(Progress(3, 2), 2, 0, {2}),
                      Some(PendingApplication(FIRST_APPLY_ID, E(1, 1), false)), FIRST_APPLY_ID + 1);
      var c2 := Core2(Leader2(Progress(3, 2), 2, 1, {2}),
                      Some(PendingApplication(FIRST_APPLY_ID + 1, E(2, 2), false)), FIRST_APPLY_ID + 2);
      && Applying(c.(state := Confirmed(c.state, 3))) == c1 && NextApplied(c1) == c2
      && NextApplied(c2) == Core2(Leader2(Progress(3, 2), 2, 2, {}), None, FIRST_APPLY_ID + 2)
  {
    var was := map[2 := Progress(2, 0), 3 := Progress(2, 0)];
    assert was[3 := Progress(3, 2)] == map[2 := Progress(2, 0), 3 := Progress(3, 2)];
    assert {2} - {2} == {};
  }

  const EARLY := Packet(3, 1, AppendResponse(2, true, 2, Some(1)))

  function Leader2Done(): Core {
    Core2(Leader2(Progress(3, 2), 2, 2, {}), None, FIRST_APPLY_ID + 2)
  }

  function Leader2Applying(): Core {
    Core2(Leader2(Progress(3, 2), 2, 0, {2}),
          Some(PendingApplication(FIRST_APPLY_ID, E(1, 1), false)), FIRST_APPLY_ID + 1)
  }

  lemma SecondLags(r: Run)
    requires |r.states| > 0 && 1 in End(r).up && 3 in End(r).up && LATE in End(r).sent
    requires End(r).up[1] == Core2(Leader2(Progress(2, 0), 0, 0, {2}), None, FIRST_APPLY_ID)
    requires End(r).up[3] == Voter3()
    ensures Lags(r, 1, 3, LATE)
  {
    hide PreviousMatches;
  }

  /** The late request of node 1's first life is refused, repeated and acknowledged. */
  lemma SecondCommit() returns (r: Run)
    ensures IsRun(r) && InConfig(r) && End(r).up == map[1 := Leader2Applying(), 2 := Follower2(), 3 := Follower3()]
    ensures End(r).durable.Keys == {1, 2, 3} && EARLY in End(r).sent
  {
    hide IsRun, Applying, Confirmed, Leading, NextApplied, Granted, Following;
    var r0 := SecondLife();
    assert CanWin(r0, 1, 3);
    var r1 := OpenTerm(r0, 1, 3, Op(2));
    SecondLeading();
    SecondConfirmed();
    assert End(r1).up == map[1 := Leading(Reborn1(), Op(2)), 2 := Follower2(), 3 := Voter3()];
    SecondLags(r1);
    hide Lags;
    r := CloseTerm(r1, 1, 3, LATE);
    assert End(r).up == map[1 := Leader2Applying(), 2 := Follower2(), 3 := Follower3()];
  }

  /** Node 1 leads term 2 with both entries applied. */
  lemma SecondTerm() returns (r: Run)
    ensures IsRun(r) && InConfig(r) && End(r).up == map[1 := Leader2Done(), 2 := Follower2(), 3 := Follower3()]
    ensures End(r).durable.Keys == {1, 2, 3} && EARLY in End(r).sent
  {
    hide IsRun, NextApplied;
    var r0 := SecondCommit();
    SecondConfirmed();
    var r1 := ApplyRound(r0, 1);
    r := ApplyRound(r1, 1);
    assert End(r).up == map[1 := Leader2Done(), 2 := Follower2(), 3 := Follower3()];
  }

  const THREE: Log := [E(1, 1), E(2, 2), E(3, 3)]

  /** Node 3 leads term 3, with the vote of node 2. */
  function Leader3(): Core {
    Core(State(3, [1, 2], Leader, 3, Some(3), None, THREE, 0, 0, Some(3), {},
               Some(LeaderState(map[1 := Progress(3, 0), 2 := Progress(3, 0)], {3})), 4, None),
         None, None, [], {}, 1, FIRST_LOG_ID + 2, FIRST_APPLY_ID, 8, 8)
  }

  lemma ThirdLeading()
    ensures Leading(Follower3(), Op(3)) == Leader3()
  {
    FreshProgressIs(Stood(Follower3().state), 1, 2);
    hide FreshProgress;
    assert TWO + [E(3, 3)] == THREE;
    assert {} + {3} == {3};
  }

  lemma ThirdLags(r: Run, p: Packet)
    requires |r.states| > 0 && 3 in End(r).up && 2 in End(r).up && p in End(r).sent && p.from == 3 && p.to == 2
    requires End(r).up[3] == Leader3() && End(r).up[2] == Follower2().(state := Granted(Follower2().state, 3, 3))
    requires Refusable(End(r).up[2].state, 3, p.msg)
    ensures Lags(r, 3, 2, p)
  {
    hide Refusable;
  }

  /** Node 3 has committed index 3 in term 3 while node 1 still leads term 2. */
  lemma ThirdTerm() returns (r: Run)
    ensures IsRun(r) && 1 in End(r).up && End(r).up[1] == Leader2Done() && EARLY in End(r).sent
    ensures 3 in End(r).up && End(r).up[3].state.commit == 3
  {
    hide IsRun, Leading, Offered, Refusable, Valid;
    var r0 := SecondTerm();
    assert CanWin(r0, 3, 2);
    var r1 := OpenTerm(r0, 3, 2, Op(3));
    ThirdLeading();
    var s := Leader3().state;
    NodeIsValid(r1, 3);
    AheadIsRefused(s, End(r1).up[2].state, 2);
    var p := Packet(3, 2, AppendFor(s, 2, None));
    assert p in End(r1).sent by { OfferedTo(s, 3, 2, End(r1).sent); }
    ThirdLags(r1, p);
    hide Lags;
    r := CloseTerm(r1, 3, 2, p);
  }

  lemma OfferedTo(s: State, n: NodeId, p: NodeId, sent: set<Packet>)
    requires Offered(s, n, sent) && p in s.peers
    ensures CanReplicate(s) && Packet(n, p, AppendFor(s, p, None)) in sent
  {
  }

  /** A run in which a read is accepted, and answered by a leader that has been replaced, at an
      index below what another node had committed before the read was accepted. */
  lemma StaleRead() returns (r: Run, i: nat, j: nat)
    ensures IsRun(r) && i < j < |r.actions| && j < |r.states| && AcceptedAt(r, i, 1, QUERY)
    ensures ReadAnswered(QUERY, 2) in EffectsOf(r.states[j], r.actions[j]) && ActionNode(r.actions[j]) == 1
    ensures Up(r, i, 3) && StateAt(r, i, 3).commit == 3 && !CommitsAtMost(r, i, 2)
  {
    hide IsRun, EffectsOf;
    var r0 := ThirdTerm();
    RunLengths(r0);
    assert ReadyToRead(End(r0), 1, QUERY);
    assert Senders([EARLY]) == {3} && |{1} + {3}| == 2;
    assert EarlyMajority(End(r0), 1, [EARLY]);
    r := EarlyMajorityAnswers(r0, 1, QUERY, [EARLY]);
    i, j := |r0.actions|, |r.actions| - 1;
    RunLengths(r);
    assert r.states[i] == End(r0);
    assert Up(r, i, 3) && StateAt(r, i, 3).commit == 3;
  }

  // ---- An entry applied before it is durable -------------------------------

  /** An entry that node 1 writes in term 1 and nobody else ever sees. */
  const ORPHAN := LogEntry(1, 2, Op(7))
  const STALE: Log := [E(1, 1), ORPHAN]

  function Leader1Ahead(): Core {
    Leader1().(nextLogId := FIRST_LOG_ID + 2, state := Leader1().state.(log := STALE,
      leader := Some(LeaderState(map[2 := Progress(2, 1), 3 := Progress(1, 0)], {1, 2}))))
  }

  lemma OrphanCommanded()
    ensures Commanded(Leader1().state, Op(7)) == Leader1Ahead().state
  {
    assert [E(1, 1)] + [ORPHAN] == STALE;
    assert {1} + {2} == {1, 2};
  }

  /** Node 2 leads term 2, before and after node 3 has taken its log. */
  function Rival(match3: Progress, commit: LogIndex): State {
    State(2, [1, 3], Leader, 2, Some(2), None, TWO, commit, 0, Some(2), {},
          Some(LeaderState(map[1 := Progress(2, 0), 3 := match3], {2})), 4, None)
  }

  function RivalCore(s: State, application: Option<PendingApplication>, id: nat): Core {
    Core(s, None, application, [], {}, 1, FIRST_LOG_ID + 2, id, 8, 8)
  }

  function RivalDone(): Core {
    RivalCore(Rival(Progress(3, 2), 2), Some(PendingApplication(FIRST_APPLY_ID, E(1, 1), false)), FIRST_APPLY_ID + 1)
  }

  lemma RivalLeading()
    ensures Leading(Follower2(), Op(2)) == RivalCore(Rival(Progress(2, 0), 0), None, FIRST_APPLY_ID)
  {
    FreshProgressIs(Stood(Follower2().state), 1, 3);
    hide FreshProgress;
    assert [E(1, 1)] + [E(2, 2)] == TWO;
    assert {} + {2} == {2};
  }

  lemma RivalConfirmed()
    ensures var c := RivalCore(Rival(Progress(2, 0), 0), None, FIRST_APPLY_ID);
      Applying(c.(state := Confirmed(c.state, 3))) == RivalDone()
  {
    var was := map[1 := Progress(2, 0), 3 := Progress(2, 0)];
    assert was[3 := Progress(3, 2)] == map[1 := Progress(2, 0), 3 := Progress(3, 2)];
  }

  lemma RivalLags(r: Run, p: Packet)
    requires |r.states| > 0 && 2 in End(r).up && 3 in End(r).up && p in End(r).sent && p.from == 2 && p.to == 3
    requires End(r).up[2] == RivalCore(Rival(Progress(2, 0), 0), None, FIRST_APPLY_ID)
    requires End(r).up[3] == Fresh(3).(state := Granted(Fresh(3).state, 2, 2))
    requires Refusable(End(r).up[3].state, 2, p.msg)
    ensures Lags(r, 2, 3, p)
  {
    hide Refusable;
  }

  const STALE_DISK: Durable := Durable(HardState(1, Some(1)), STALE, 0)

  /** Node 1 has an orphan on its disk; node 2 leads term 2 and has committed index 2. */
  lemma RivalTerm() returns (r: Run)
    ensures IsRun(r) && InConfig(r) && 1 in End(r).up && 2 in End(r).up
    ensures End(r).up[1] == Leader1Ahead() && End(r).up[2] == RivalDone()
    ensures 1 in End(r).durable && 2 in End(r).durable && End(r).durable[1] == STALE_DISK
  {
    hide IsRun, Leading, Offered, Refusable, Valid, Commanded, Applying, Confirmed, AppendFor;
    var r0 := FirstTerm();
    var r1 := CommandRound(r0, 1, Op(7));
    OrphanCommanded();
    assert CanWin(r1, 2, 3);
    var r2 := OpenTerm(r1, 2, 3, Op(2));
    RivalLeading();
    RivalConfirmed();
    var s := Rival(Progress(2, 0), 0);
    NodeIsValid(r2, 2);
    AheadIsRefused(s, End(r2).up[3].state, 3);
    var p := Packet(2, 3, AppendFor(s, 3, None));
    assert p in End(r2).sent by { OfferedTo(s, 2, 3, End(r2).sent); }
    RivalLags(r2, p);
    hide Lags;
    r := CloseTerm(r2, 2, 3, p);
  }

  /** The request with which node 2 replaces the orphan. */
  const REPLACE := AppendRequest(2, 2, 1, 1, [E(2, 2)], 2, None)

  lemma RivalHeartbeat(r: Run) returns (r': Run)
    requires IsRun(r) && 2 in End(r).up && End(r).up[2] == RivalDone()
    ensures Continues(r, r') && End(r').up == End(r).up && End(r').durable == End(r).durable
    ensures Packet(2, 1, REPLACE) in End(r').sent
  {
    hide IsRun, Released, StepSpec, Valid, Replicate, CoreOutcomeOf;
    RunLengths(r);
    var c := RivalDone();
    NodeIsValid(r, 2);
    HeartbeatMoves(c);
    RivalOffers(c.state);
    var sends := Replicate(c.state, c.state.peers);
    HeartbeatInput(End(r), 2);
    r' := Move(r, Give(2, Heartbeat), c, sends);
    assert End(r').up == End(r).up;
    SentBy(2, sends, sends[0]);
  }

  lemma RivalOffers(s: State)
    requires s == RivalDone().state
    ensures CanReplicate(s) && |Replicate(s, s.peers)| > 0 && Replicate(s, s.peers)[0] == Send(1, REPLACE)
  {
    assert CanReplicate(s);
    OfferIs(s, 1, None);
    hide AppendFor;
    assert TWO[1..] == [E(2, 2)];
  }

  lemma HeartbeatInput(c: Cluster, n: NodeId)
    requires n in c.up && n in c.durable && c.up[n].state.role.Leader? && c.up[n].pendingLog.None?
    ensures CoreOutcomeOf(c, Give(n, Heartbeat)) == StepSpec(c.up[n], HeartbeatTimeout)
  {
    hide StepSpec;
  }

  /** Node 1 after the request: its log is replaced and committed, nothing of it durable. */
  function Replaced(): State {
    State(1, [2, 3], Follower, 2, None, None, TWO, 2, 0, Some(2), {}, None, 3, None)
  }

  const REST: seq<Effect> := [Send(2, AppendResponse(2, true, 2, None))]

  lemma ReplaceAccepted()
    ensures PreviousMatches(Replaced().(log := STALE, commit := 1), REPLACE)
    ensures FirstMissing(Replaced().(log := STALE, commit := 1), 1, [E(2, 2)], 0) == 0
    ensures AcceptAppend(Replaced().(log := STALE, commit := 1), 2, REPLACE, 0) == (Replaced(), [PersistState] + REST)
  {
    var s := Replaced().(log := STALE, commit := 1);
    assert TermAt(s, 2) == 1;
    assert s.log[..1] + [E(2, 2)][0..] == TWO;
  }

  lemma ReplaceHandled()
    ensures HandleAppendRequest(Leader1Ahead().state, 2, REPLACE)
         == Done(Replaced(), [] + [PersistHard(2, HardState(2, None))] + ([ResetElectionTimer] + [PersistState] + REST))
  {
    ReplaceAccepted();
    hide FirstMissing, AcceptAppend, PreviousMatches;
    var a := [PersistHard(2, HardState(2, None))];
    assert a + [ResetElectionTimer] + ([PersistState] + REST)
        == [] + a + ([ResetElectionTimer] + [PersistState] + REST);
    assert Contiguous(1, [E(2, 2)]);
  }

  function Deposing(): State {
    Replaced().(pending := Some(PendingHard(2, HardState(2, None), [ResetElectionTimer] + [PersistState] + REST)))
  }

  lemma ReplaceMoves() returns (effects: seq<Effect>)
    requires Valid(Leader1Ahead().state)
    ensures CoreStep(Leader1Ahead(), Deliver(2, REPLACE)) == Stepped(Leader1Ahead().(state := Deposing()), effects)
  {
    hide StepSpec, Translate, Valid, HandleAppendRequest, RoleEffects;
    var c := Leader1Ahead();
    var rest := [ResetElectionTimer] + [PersistState] + REST;
    var front := [] + [PersistHard(2, HardState(2, None))];
    ReplaceHandled();
    assert Handle(c.state, Receive(2, REPLACE)) == Done(Replaced(), front + rest);
    hide Handle;
    assert AppendRequestValid(REPLACE);
    EntriesFit(c.state, 2, REPLACE);
    SpecMoves(c, Receive(2, REPLACE), Replaced(), front + rest);
    GateFirst(Replaced(), [], 2, HardState(2, None), rest);
    TranslatePlain(c, Deposing(), front);
    effects := RoleEffects(c, Deposing(), c.state.role) + front;
  }

  function Deposed(): Core {
    Leader1Ahead().(state := Replaced(), nextLogId := FIRST_LOG_ID + 3,
                    pendingLog := Some(PendingLog(FIRST_LOG_ID + 2, TWO, REST)))
  }

  lemma DeposeMoves(c: Core) returns (effects: seq<Effect>)
    requires c == Leader1Ahead().(state := Deposing()) && Valid(c.state)
    ensures StepSpec(c, HardPersisted(2, HardState(2, None))) == Stepped(Deposed(), effects)
  {
    hide StepSpec, Translate, Valid, RoleEffects;
    var event := HardPersisted(2, HardState(2, None));
    var all := [ResetElectionTimer] + [PersistState] + REST;
    assert Handle(c.state, event) == Done(Replaced(), all);
    hide Handle;
    SpecMoves(c, event, Replaced(), all);
    GateNothing(Replaced(), all);
    TranslateWrite(c, Replaced(), [ResetElectionTimer], REST);
    effects := RoleEffects(c, Replaced(), c.state.role) + [ResetElectionTimer] + [PersistLog(FIRST_LOG_ID + 2, TWO)];
  }

  /** Node 1 hands out entry 2 while the log that holds it is still being written. */
  lemma HandedOut() returns (r: Run)
    ensures IsRun(r) && InConfig(r) && 1 in End(r).up && 1 in End(r).durable
    ensures End(r).up[1].state.log == TWO && End(r).up[1].state.commit == 2
    ensures End(r).up[1].application.Some? && End(r).up[1].application.value.entry == E(2, 2)
    ensures End(r).durable[1] == Durable(HardState(2, None), STALE, 1)
  {
    hide IsRun, StepSpec, CoreStep, Released, Valid;
    var r0 := RivalTerm();
    var r1 := RivalHeartbeat(r0);
    NodeIsValid(r1, 1);
    var e1 := ReplaceMoves();
    var r2 := Delivery(r1, Packet(2, 1, REPLACE), Leader1Ahead().(state := Deposing()), e1);
    NodeIsValid(r2, 1);
    var e2 := DeposeMoves(End(r2).up[1]);
    var r3 := PersistHardRound(r2, 1, Deposed(), e2);
    r := ApplyRound(r3, 1);
  }

  lemma StaleRestarts()
    ensures Constructible(1, [2, 3], HardState(2, None), STALE, 2)
  {
  }

  /** A run in which the applied index reaches the disk before its entry does, and the node
      comes back committed to another entry at that index. */
  lemma AppliedBeforeDurable() returns (r: Run, i: nat, j: nat)
    ensures IsRun(r) && i < j && Up(r, i, 1) && Up(r, j, 1)
    ensures StateAt(r, i, 1).commit == 2 && StateAt(r, j, 1).commit == 2
    ensures |StateAt(r, i, 1).log| == 2 && |StateAt(r, j, 1).log| == 2
    ensures StateAt(r, i, 1).log[1] == E(2, 2) && StateAt(r, j, 1).log[1] == ORPHAN != E(2, 2)
    ensures !Disciplined(r)
  {
    hide IsRun, Constructible;
    var r0 := HandedOut();
    StaleRestarts();
    var c := End(r0);
    assert CanRestart(Lost(c, 1), 1);
    assert !EntryOnDisk(c, 1) by { assert STALE[..2][1] == ORPHAN && TWO[..2][1] == E(2, 2); }
    r := RebornRun(r0, 1);
    RunLengths(r0);
    RunLengths(r);
    i, j := |r0.states| - 1, |r.states| - 1;
    assert r.states[i] == c && r.actions[i] == WriteApplied(1);
  }
}
