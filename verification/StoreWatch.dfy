/** Watches: a bounded history of mutation batches, replay, live delivery and backpressure.
    For every watch and every run, what is polled and pending is exactly what the mutations from
    its start revision call for. */
module StoreWatch {
  import opened RaftTypes
  import opened KeyOrder
  import opened StoreModel

  datatype Filter = NoFilter | ExcludePut | ExcludeErase

  /** An empty `end` watches the single key `start`. `from` is the first revision of interest. */
  datatype WatchRequest = WatchRequest(
    id: int, start: Key, end: Key, filter: Filter, progress: bool, from: int)

  datatype Batch = Batch(revision: int, events: seq<Event>)

  datatype Delivery = Delivery(revision: int, events: seq<Event>, cancelled: bool)

  datatype Watch = Watch(request: WatchRequest, pending: seq<Delivery>, terminal: Option<Delivery>)

  datatype Feed = Feed(compact: int, history: seq<Batch>, watchers: map<int, Watch>)

  // ---- What a watch should see ---------------------------------------------

  function EventKey(e: Event): Key {
    match e
    case Stored(current, _) => current.key
    case Erased(previous) => previous.key
  }

  predicate Interested(r: WatchRequest, e: Event) {
    && !(r.filter.ExcludePut? && e.Stored?)
    && !(r.filter.ExcludeErase? && e.Erased?)
    && (if r.end == [] then EventKey(e) == r.start
        else AtMost(r.start, EventKey(e)) && Less(EventKey(e), r.end))
  }

  function Matching(r: WatchRequest, events: seq<Event>): seq<Event> {
    if events == [] then []
    else Matching(r, events[..|events| - 1])
         + if Interested(r, events[|events| - 1]) then [events[|events| - 1]] else []
  }

  /** The responses one batch calls for: none if nothing matches and no progress is wanted. */
  function ResponsesTo(r: WatchRequest, b: Batch): seq<Delivery> {
    var matching := Matching(r, b.events);
    if b.revision < r.from then []
    else if matching == [] && !r.progress then []
    else [Delivery(b.revision, matching, false)]
  }

  /** The responses a whole log of batches calls for, in order. */
  function Expected(r: WatchRequest, log: seq<Batch>): seq<Delivery> {
    if log == [] then []
    else Expected(r, log[..|log| - 1]) + ResponsesTo(r, log[|log| - 1])
  }

  lemma {:induction false} ExpectedAppend(r: WatchRequest, a: seq<Batch>, b: seq<Batch>)
    ensures Expected(r, a + b) == Expected(r, a) + Expected(r, b)
  {
    hide ResponsesTo;
    if b == [] {
      assert a + b == a && Expected(r, a) + [] == Expected(r, a);
    } else {
      var n := |b| - 1;
      var front, last := b[..n], ResponsesTo(r, b[n]);
      assert (a + b)[..|a| + n] == a + front && (a + b)[|a| + n] == b[n] && |a + b| == |a| + n + 1;
      ExpectedAppend(r, a, front);
      assert Expected(r, a + b) == Expected(r, a + front) + last;
      assert Expected(r, a) + (Expected(r, front) + last) == (Expected(r, a) + Expected(r, front)) + last;
    }
  }

  lemma {:induction false} ExpectedBefore(r: WatchRequest, log: seq<Batch>)
    requires forall i :: 0 <= i < |log| ==> log[i].revision < r.from
    ensures Expected(r, log) == []
  {
    if log != [] {
      ExpectedBefore(r, log[..|log| - 1]);
    }
  }

  // ---- Publishing ----------------------------------------------------------

  function Deliver(w: Watch, b: Batch, limits: Limits): Watch {
    var due := ResponsesTo(w.request, b);
    if w.terminal.Some? || due == [] then w
    else if |w.pending| >= limits.maxPending then
      w.(pending := [], terminal := Some(Delivery(b.revision, [], true)))
    else w.(pending := w.pending + due)
  }

  function Trim(compact: int, history: seq<Batch>, max: nat): (int, seq<Batch>)
    decreases |history|
  {
    if |history| <= max then (compact, history)
    else Trim(history[0].revision, history[1..], max)
  }

  function Publish(f: Feed, b: Batch, limits: Limits): Feed {
    var t := Trim(f.compact, f.history + [b], limits.maxHistory);
    Feed(t.0, t.1, map id | id in f.watchers :: Deliver(f.watchers[id], b, limits))
  }

  // ---- Watch commands ------------------------------------------------------

  function StartRevision(revision: int, requested: int): Option<int> {
    if requested != 0 then Some(requested)
    else if revision == INT64_MAX then None
    else Some(revision + 1)
  }

  predicate CreateOk(f: Feed, revision: int, limits: Limits, r: WatchRequest) {
    && 0 < r.id && r.start != [] && (r.end == [] || Less(r.start, r.end)) && 0 <= r.from
    && r.id !in f.watchers && |f.watchers| < limits.maxWatchers
    && StartRevision(revision, r.from).Some?
    && var from := StartRevision(revision, r.from).value;
       && f.compact < from
       && (from <= revision || (revision != INT64_MAX && from == revision + 1))
  }

  /** None where the code throws; a replay that overflows the pending queue throws too. */
  function Create(f: Feed, revision: int, limits: Limits, r: WatchRequest): Option<Feed> {
    if !CreateOk(f, revision, limits, r) then None
    else
      var request := r.(from := StartRevision(revision, r.from).value);
      var replay := Expected(request, f.history);
      if |replay| > limits.maxPending then None
      else Some(f.(watchers := f.watchers[r.id := Watch(request, replay, None)]))
  }

  datatype Polled = Polled(feed: Feed, response: Option<Delivery>)

  function Poll(f: Feed, id: int): Option<Polled> {
    if id !in f.watchers then None
    else
      var w := f.watchers[id];
      if w.terminal.Some? then Some(Polled(f.(watchers := f.watchers - {id}), w.terminal))
      else if w.pending == [] then Some(Polled(f, None))
      else Some(Polled(f.(watchers := f.watchers[id := w.(pending := w.pending[1..])]), Some(w.pending[0])))
  }

  function Progress(f: Feed, revision: int, limits: Limits, id: int): Option<Feed> {
    if id !in f.watchers then None
    else
      var w := f.watchers[id];
      if w.terminal.Some? then Some(f)
      else if |w.pending| >= limits.maxPending then
        Some(f.(watchers := f.watchers[id := w.(pending := [], terminal := Some(Delivery(revision, [], true)))]))
      else Some(f.(watchers := f.watchers[id := w.(pending := w.pending + [Delivery(revision, [], false)])]))
  }

  function Cancel(f: Feed, id: int): Option<Feed> {
    if id !in f.watchers then None else Some(f.(watchers := f.watchers - {id}))
  }

  // ---- The past ------------------------------------------------------------

  /** The feed with what it no longer holds: every batch ever published after `base`, and what
      each live watch has already handed out. */
  datatype Trace = Trace(feed: Feed, base: int, log: seq<Batch>, polled: map<int, seq<Delivery>>)

  datatype Action =
    | Publication(events: seq<Event>)
    | CreateWatch(request: WatchRequest)
    | PollWatch(id: int)
    | RequestProgress(id: int)
    | CancelWatch(id: int)

  function Revision(t: Trace): int {
    t.base + |t.log|
  }

  function Step(t: Trace, limits: Limits, a: Action): Trace {
    match a
    case Publication(events) =>
      var b := Batch(Revision(t) + 1, events);
      t.(feed := Publish(t.feed, b, limits), log := t.log + [b])
    case CreateWatch(r) =>
      var f := Create(t.feed, Revision(t), limits, r);
      if f.None? then t else t.(feed := f.value, polled := t.polled[r.id := []])
    case PollWatch(id) =>
      var p := Poll(t.feed, id);
      if p.None? then t
      else if id !in p.value.feed.watchers then t.(feed := p.value.feed, polled := t.polled - {id})
      else if p.value.response.None? then t
      else t.(feed := p.value.feed,
              polled := t.polled[id := (if id in t.polled then t.polled[id] else []) + [p.value.response.value]])
    case RequestProgress(id) =>
      var f := Progress(t.feed, Revision(t), limits, id);
      if f.None? then t else t.(feed := f.value)
    case CancelWatch(id) =>
      var f := Cancel(t.feed, id);
      if f.None? then t else t.(feed := f.value, polled := t.polled - {id})
  }

  function After(t: Trace, limits: Limits, actions: seq<Action>): Trace {
    if actions == [] then t else Step(After(t, limits, actions[..|actions| - 1]), limits, actions[|actions| - 1])
  }

  const NEW: Trace := Trace(Feed(0, [], map[]), 0, [], map[])

  // ---- The invariant -------------------------------------------------------

  /** Responses that carry events; the others only report progress. */
  function EventsOnly(s: seq<Delivery>): seq<Delivery> {
    if s == [] then []
    else EventsOnly(s[..|s| - 1]) + if s[|s| - 1].events != [] then [s[|s| - 1]] else []
  }

  lemma {:induction false} EventsOnlyAppend(a: seq<Delivery>, b: seq<Delivery>)
    ensures EventsOnly(a + b) == EventsOnly(a) + EventsOnly(b)
  {
    if b == [] {
      assert a + b == a;
    } else {
      var n := |b| - 1;
      assert (a + b)[..|a| + n] == a + b[..n] && (a + b)[|a| + n] == b[n];
      EventsOnlyAppend(a, b[..n]);
    }
  }

  predicate LogOk(t: Trace) {
    forall i :: 0 <= i < |t.log| ==> t.log[i].revision == t.base + 1 + i
  }

  /** The history holds exactly the revisions after the compacted one, up to the current, and as many
      as there is room for. */
  predicate HistoryOk(t: Trace, limits: Limits) {
    && t.base <= t.feed.compact <= Revision(t)
    && |t.feed.history| == Revision(t) - t.feed.compact
    && t.feed.history == t.log[t.feed.compact - t.base..]
    && |t.feed.history| == Min(|t.log|, limits.maxHistory)
  }

  /** Polled, then pending, is what the log calls for; a terminated watch has handed out a
      prefix of it. */
  predicate WatchOk(w: Watch, polled: seq<Delivery>, log: seq<Batch>) {
    if w.terminal.Some? then EventsOnly(polled) <= EventsOnly(Expected(w.request, log))
    else EventsOnly(polled + w.pending) == EventsOnly(Expected(w.request, log))
  }

  predicate WatchesOk(t: Trace) {
    forall id :: id in t.feed.watchers ==> id in t.polled && WatchOk(t.feed.watchers[id], t.polled[id], t.log)
  }

  predicate TraceInv(t: Trace, limits: Limits) {
    LogOk(t) && HistoryOk(t, limits) && WatchesOk(t)
  }

  // ---- Publishing keeps it -------------------------------------------------

  lemma {:induction false} TrimKeepsTail(base: int, log: seq<Batch>, compact: int, history: seq<Batch>, max: nat)
    requires forall i :: 0 <= i < |log| ==> log[i].revision == base + 1 + i
    requires base <= compact <= base + |log| && history == log[compact - base..]
    ensures var t := Trim(compact, history, max);
      base <= t.0 <= base + |log| && t.1 == log[t.0 - base..] && |t.1| == Min(|history|, max)
    decreases |history|
  {
    if |history| > max {
      assert history[0] == log[compact - base] && history[1..] == log[compact + 1 - base..];
      TrimKeepsTail(base, log, compact + 1, history[1..], max);
    }
  }

  lemma PublicationKeepsHistory(t: Trace, limits: Limits, events: seq<Event>)
    requires LogOk(t) && HistoryOk(t, limits)
    ensures var t' := Step(t, limits, Publication(events)); LogOk(t') && HistoryOk(t', limits)
  {
    var b := Batch(Revision(t) + 1, events);
    var log := t.log + [b];
    assert t.feed.history + [b] == log[t.feed.compact - t.base..];
    TrimKeepsTail(t.base, log, t.feed.compact, t.feed.history + [b], limits.maxHistory);
  }

  lemma ExpectedOneMore(r: WatchRequest, log: seq<Batch>, b: Batch)
    ensures Expected(r, log + [b]) == Expected(r, log) + ResponsesTo(r, b)
  {
    assert (log + [b])[..|log|] == log;
  }

  lemma DeliverKeeps(w: Watch, polled: seq<Delivery>, log: seq<Batch>, b: Batch, limits: Limits)
    requires WatchOk(w, polled, log)
    ensures WatchOk(Deliver(w, b, limits), polled, log + [b])
  {
    hide Expected, EventsOnly, ResponsesTo;
    var due := ResponsesTo(w.request, b);
    var want := Expected(w.request, log);
    ExpectedOneMore(w.request, log, b);
    EventsOnlyAppend(want, due);
    EventsOnlyAppend(polled, w.pending);
    if w.terminal.None? && due != [] && |w.pending| < limits.maxPending {
      EventsOnlyAppend(polled + w.pending, due);
      assert polled + (w.pending + due) == (polled + w.pending) + due;
    } else if due == [] {
      assert want + due == want;
    }
  }

  lemma PublicationKeeps(t: Trace, limits: Limits, events: seq<Event>)
    requires TraceInv(t, limits)
    ensures TraceInv(Step(t, limits, Publication(events)), limits)
  {
    hide WatchOk, Deliver, HistoryOk;
    PublicationKeepsHistory(t, limits, events);
    var b := Batch(Revision(t) + 1, events);
    var t' := Step(t, limits, Publication(events));
    forall id | id in t'.feed.watchers ensures id in t'.polled && WatchOk(t'.feed.watchers[id], t'.polled[id], t'.log) {
      DeliverKeeps(t.feed.watchers[id], t.polled[id], t.log, b, limits);
    }
  }

  // ---- Creating keeps it ---------------------------------------------------

  /** Replaying the history gives everything from the start revision: what was compacted away
      is older than the start. */
  lemma ReplayIsComplete(t: Trace, limits: Limits, r: WatchRequest)
    requires LogOk(t) && HistoryOk(t, limits) && t.feed.compact < r.from
    ensures Expected(r, t.feed.history) == Expected(r, t.log)
  {
    var cut := t.feed.compact - t.base;
    var old_, kept := t.log[..cut], t.log[cut..];
    assert t.log == old_ + kept;
    ExpectedAppend(r, old_, kept);
    ExpectedBefore(r, old_);
  }

  lemma CreateKeeps(t: Trace, limits: Limits, r: WatchRequest)
    requires TraceInv(t, limits)
    ensures TraceInv(Step(t, limits, CreateWatch(r)), limits)
  {
    hide Expected, EventsOnly;
    var f := Create(t.feed, Revision(t), limits, r);
    if f.Some? {
      var request := r.(from := StartRevision(Revision(t), r.from).value);
      ReplayIsComplete(t, limits, request);
      assert [] + Expected(request, t.feed.history) == Expected(request, t.feed.history);
      var t' := Step(t, limits, CreateWatch(r));
      assert WatchOk(t'.feed.watchers[r.id], t'.polled[r.id], t'.log);
      assert OnlyWatch(t, t', r.id);
      OneWatchKeeps(t, t', limits, r.id);
    }
  }

  // ---- The other actions ---------------------------------------------------

  /** Only the watch `id` has changed. */
  predicate OnlyWatch(t: Trace, t': Trace, id: int) {
    && t'.base == t.base && t'.log == t.log
    && t'.feed.compact == t.feed.compact && t'.feed.history == t.feed.history
    && forall i :: i in t'.feed.watchers && i != id ==>
         i in t.feed.watchers && t'.feed.watchers[i] == t.feed.watchers[i]
         && (i in t.polled ==> i in t'.polled && t'.polled[i] == t.polled[i])
  }

  lemma OneWatchKeeps(t: Trace, t': Trace, limits: Limits, id: int)
    requires TraceInv(t, limits) && OnlyWatch(t, t', id)
    requires id in t'.feed.watchers ==> id in t'.polled && WatchOk(t'.feed.watchers[id], t'.polled[id], t'.log)
    ensures TraceInv(t', limits)
  {
    hide WatchOk, LogOk, HistoryOk;
    SameHistory(t, t', limits, id);
    forall i | i in t'.feed.watchers ensures i in t'.polled && WatchOk(t'.feed.watchers[i], t'.polled[i], t'.log) {
      if i != id { assert i in t.feed.watchers; }
    }
  }

  lemma SameHistory(t: Trace, t': Trace, limits: Limits, id: int)
    requires LogOk(t) && HistoryOk(t, limits) && OnlyWatch(t, t', id)
    ensures LogOk(t') && HistoryOk(t', limits)
  {
  }

  lemma PollKeeps(t: Trace, limits: Limits, id: int)
    requires TraceInv(t, limits)
    ensures TraceInv(Step(t, limits, PollWatch(id)), limits)
  {
    hide TraceInv, Expected, EventsOnly;
    var t' := Step(t, limits, PollWatch(id));
    assert OnlyWatch(t, t', id);
    if id in t.feed.watchers {
      LiveWatch(t, limits, id);
      var w := t.feed.watchers[id];
      if w.terminal.None? && w.pending != [] {
        assert (t.polled[id] + [w.pending[0]]) + w.pending[1..] == t.polled[id] + w.pending;
      }
    }
    OneWatchKeeps(t, t', limits, id);
  }

  lemma LiveWatch(t: Trace, limits: Limits, id: int)
    requires TraceInv(t, limits) && id in t.feed.watchers
    ensures id in t.polled && WatchOk(t.feed.watchers[id], t.polled[id], t.log)
  {
    hide WatchOk;
  }

  lemma ProgressKeeps(t: Trace, limits: Limits, id: int)
    requires TraceInv(t, limits)
    ensures TraceInv(Step(t, limits, RequestProgress(id)), limits)
  {
    hide TraceInv, Expected, EventsOnly;
    var t' := Step(t, limits, RequestProgress(id));
    assert OnlyWatch(t, t', id);
    if id in t.feed.watchers {
      LiveWatch(t, limits, id);
      ProgressIsSilent(t.polled[id], t.feed.watchers[id].pending, [Delivery(Revision(t), [], false)]);
    }
    OneWatchKeeps(t, t', limits, id);
  }

  lemma ProgressIsSilent(polled: seq<Delivery>, pending: seq<Delivery>, note: seq<Delivery>)
    requires |note| == 1 && note[0].events == []
    ensures EventsOnly(polled + (pending + note)) == EventsOnly(polled + pending)
    ensures EventsOnly(polled) <= EventsOnly(polled + pending)
  {
    assert polled + (pending + note) == (polled + pending) + note;
    EventsOnlyAppend(polled + pending, note);
    EventsOnlyAppend(polled, pending);
    assert EventsOnly(note) == [];
  }

  lemma CancelKeeps(t: Trace, limits: Limits, id: int)
    requires TraceInv(t, limits)
    ensures TraceInv(Step(t, limits, CancelWatch(id)), limits)
  {
    hide TraceInv, WatchOk;
    var t' := Step(t, limits, CancelWatch(id));
    assert OnlyWatch(t, t', id);
    OneWatchKeeps(t, t', limits, id);
  }

  lemma StepKeeps(t: Trace, limits: Limits, a: Action)
    requires TraceInv(t, limits)
    ensures TraceInv(Step(t, limits, a), limits)
  {
    hide TraceInv, Step;
    match a {
      case Publication(events) => PublicationKeeps(t, limits, events);
      case CreateWatch(r) => CreateKeeps(t, limits, r);
      case PollWatch(id) => PollKeeps(t, limits, id);
      case RequestProgress(id) => ProgressKeeps(t, limits, id);
      case CancelWatch(id) => CancelKeeps(t, limits, id);
    }
  }

  lemma NewIsValid(limits: Limits)
    ensures TraceInv(NEW, limits)
  {
    hide WatchOk;
  }

  lemma {:induction false} RunKeepsTrace(t: Trace, limits: Limits, actions: seq<Action>)
    requires TraceInv(t, limits)
    ensures TraceInv(After(t, limits, actions), limits)
  {
    hide TraceInv, Step;
    if actions != [] {
      RunKeepsTrace(t, limits, actions[..|actions| - 1]);
      StepKeeps(After(t, limits, actions[..|actions| - 1]), limits, actions[|actions| - 1]);
    }
  }

  /** Watch exactness: in every run from a new store, a live watch has handed out and holds,
      in order and once each, exactly the matching mutations from its start revision; one that
      overflowed has handed out a prefix of them. */
  lemma WatchExactness(limits: Limits, actions: seq<Action>, id: int)
    requires id in After(NEW, limits, actions).feed.watchers
    ensures var t := After(NEW, limits, actions);
      && id in t.polled
      && var w := t.feed.watchers[id];
         && (w.terminal.None? ==> EventsOnly(t.polled[id] + w.pending) == EventsOnly(Expected(w.request, t.log)))
         && (w.terminal.Some? ==> EventsOnly(t.polled[id]) <= EventsOnly(Expected(w.request, t.log)))
  {
    hide Step, Expected, EventsOnly;
    NewIsValid(limits);
    RunKeepsTrace(NEW, limits, actions);
  }

  /** In every run the history is exactly the latest revisions, as many as it may hold, and the
      compacted revision is the one before them. */
  lemma HistoryExactness(limits: Limits, actions: seq<Action>)
    ensures var t := After(NEW, limits, actions);
      && |t.feed.history| == Revision(t) - t.feed.compact == Min(|t.log|, limits.maxHistory)
      && forall i :: 0 <= i < |t.feed.history| ==> t.feed.history[i].revision == t.feed.compact + 1 + i
  {
    hide Step, Expected, EventsOnly, WatchOk;
    NewIsValid(limits);
    RunKeepsTrace(NEW, limits, actions);
  }

  /** The matching events of a batch are its events of interest, in order. */
  lemma {:induction false} MatchingIsFilter(r: WatchRequest, events: seq<Event>, e: Event)
    ensures e in Matching(r, events) <==> e in events && Interested(r, e)
    ensures |Matching(r, events)| <= |events|
  {
    if events != [] {
      var n := |events| - 1;
      MatchingIsFilter(r, events[..n], e);
      assert events == events[..n] + [events[n]];
    }
  }

  predicate DeliversAt(s: seq<Delivery>, revision: int, e: Event) {
    exists i :: 0 <= i < |s| && s[i].revision == revision && e in s[i].events
  }

  predicate PublishedAt(log: seq<Batch>, revision: int, e: Event) {
    exists i :: 0 <= i < |log| && log[i].revision == revision && e in log[i].events
  }

  lemma DeliversMore(a: seq<Delivery>, b: seq<Delivery>, revision: int, e: Event)
    ensures DeliversAt(a + b, revision, e) <==> DeliversAt(a, revision, e) || DeliversAt(b, revision, e)
  {
    var all := a + b;
    if i :| 0 <= i < |a| && a[i].revision == revision && e in a[i].events { assert all[i] == a[i]; }
    if i :| 0 <= i < |b| && b[i].revision == revision && e in b[i].events { assert all[|a| + i] == b[i]; }
  }

  lemma {:induction false} EventsOnlyDelivers(s: seq<Delivery>, revision: int, e: Event)
    ensures DeliversAt(EventsOnly(s), revision, e) <==> DeliversAt(s, revision, e)
  {
    if s != [] {
      var n := |s| - 1;
      EventsOnlyDelivers(s[..n], revision, e);
      assert s == s[..n] + [s[n]];
      DeliversMore(s[..n], [s[n]], revision, e);
      DeliversMore(EventsOnly(s[..n]), if s[n].events != [] then [s[n]] else [], revision, e);
    }
  }

  lemma ResponseDelivers(r: WatchRequest, b: Batch, revision: int, e: Event)
    ensures DeliversAt(ResponsesTo(r, b), revision, e)
       <==> b.revision == revision && r.from <= revision && e in b.events && Interested(r, e)
  {
    hide Matching, Interested;
    MatchingIsFilter(r, b.events, e);
    var due := ResponsesTo(r, b);
    if due != [] { assert due[0].events == Matching(r, b.events); }
  }

  lemma {:induction false} ExpectedDelivers(r: WatchRequest, log: seq<Batch>, revision: int, e: Event)
    ensures DeliversAt(Expected(r, log), revision, e)
       <==> PublishedAt(log, revision, e) && r.from <= revision && Interested(r, e)
  {
    hide ResponsesTo, Interested;
    if log != [] {
      var n := |log| - 1;
      ExpectedDelivers(r, log[..n], revision, e);
      ResponseDelivers(r, log[n], revision, e);
      DeliversMore(Expected(r, log[..n]), ResponsesTo(r, log[n]), revision, e);
      assert forall i :: 0 <= i < n ==> log[i] == log[..n][i];
    }
  }

  /** In every run a live watch has handed out or holds an event, at a revision, if and only if
      it was published at that revision, not before the watch's first, and the watch asked for
      it. */
  lemma WatchSeesExactly(limits: Limits, actions: seq<Action>, id: int, revision: int, e: Event)
    requires id in After(NEW, limits, actions).feed.watchers
    requires After(NEW, limits, actions).feed.watchers[id].terminal.None?
    ensures var t := After(NEW, limits, actions);
      && id in t.polled
      && var w := t.feed.watchers[id];
         DeliversAt(t.polled[id] + w.pending, revision, e)
         <==> PublishedAt(t.log, revision, e) && w.request.from <= revision && Interested(w.request, e)
  {
    hide After, Expected, EventsOnly, Interested, DeliversAt, PublishedAt;
    WatchExactness(limits, actions, id);
    var t := After(NEW, limits, actions);
    var w := t.feed.watchers[id];
    EventsOnlyDelivers(t.polled[id] + w.pending, revision, e);
    EventsOnlyDelivers(Expected(w.request, t.log), revision, e);
    ExpectedDelivers(w.request, t.log, revision, e);
  }

  // ---- How a watch ends ----------------------------------------------------

  predicate Ended(f: Feed, id: int) {
    id in f.watchers && f.watchers[id].terminal.Some?
  }

  predicate Lives(f: Feed, id: int) {
    id in f.watchers && f.watchers[id].terminal.None?
  }

  /** The batch holds an event of interest, or the watch wants to hear of every batch. */
  predicate Due(r: WatchRequest, b: Batch) {
    r.from <= b.revision && (r.progress || exists i :: 0 <= i < |b.events| && Interested(r, b.events[i]))
  }

  lemma DueIs(r: WatchRequest, b: Batch)
    ensures ResponsesTo(r, b) != [] <==> Due(r, b)
  {
    hide Interested, Matching;
    var matching := Matching(r, b.events);
    if matching != [] {
      MatchingIsFilter(r, b.events, matching[0]);
      assert matching[0] in b.events;
    }
    if i :| 0 <= i < |b.events| && Interested(r, b.events[i]) {
      MatchingIsFilter(r, b.events, b.events[i]);
    }
  }

  /** A live watch ends exactly when a response is due while its queue is full, and goes only when it is
      cancelled; one that has ended goes when its last response is polled. */
  lemma EndsOnlyWhenFull(t: Trace, limits: Limits, a: Action, id: int)
    ensures Lives(t.feed, id) ==>
      (Ended(Step(t, limits, a).feed, id) <==>
         && |t.feed.watchers[id].pending| >= limits.maxPending
         && (a == RequestProgress(id)
             || (a.Publication? && Due(t.feed.watchers[id].request, Batch(Revision(t) + 1, a.events)))))
    ensures Lives(t.feed, id) ==> (id !in Step(t, limits, a).feed.watchers <==> a == CancelWatch(id))
    ensures Ended(t.feed, id) ==>
      (id !in Step(t, limits, a).feed.watchers <==> a == CancelWatch(id) || a == PollWatch(id))
    ensures Ended(t.feed, id) && id in Step(t, limits, a).feed.watchers ==>
      Step(t, limits, a).feed.watchers[id] == t.feed.watchers[id]
  {
    hide Due, ResponsesTo, Trim, Expected;
    if id in t.feed.watchers && a.Publication? {
      DueIs(t.feed.watchers[id].request, Batch(Revision(t) + 1, a.events));
    }
  }

  /** A poll hands out the next response; it has none only when everything that was due has been
      handed out. */
  lemma PollIsComplete(limits: Limits, actions: seq<Action>, id: int)
    requires Lives(After(NEW, limits, actions).feed, id)
    ensures var t := After(NEW, limits, actions);
      && id in t.polled
      && var p, due := Poll(t.feed, id), EventsOnly(Expected(t.feed.watchers[id].request, t.log));
      && p.Some?
      && (p.value.response.None? ==> EventsOnly(t.polled[id]) == due)
      && (p.value.response.Some? ==> EventsOnly(t.polled[id] + [p.value.response.value]) <= due)
  {
    hide After, Expected, EventsOnly;
    WatchExactness(limits, actions, id);
    var t := After(NEW, limits, actions);
    var w := t.feed.watchers[id];
    if w.pending == [] {
      assert t.polled[id] + w.pending == t.polled[id];
    } else {
      assert t.polled[id] + w.pending == (t.polled[id] + [w.pending[0]]) + w.pending[1..];
      EventsOnlyAppend(t.polled[id] + [w.pending[0]], w.pending[1..]);
    }
  }

  /** A request for progress is answered after what is pending, without events, at the revision. */
  lemma ProgressIsAnswered(t: Trace, limits: Limits, id: int)
    requires Lives(t.feed, id) && |t.feed.watchers[id].pending| < limits.maxPending
    ensures var f := Step(t, limits, RequestProgress(id)).feed;
      && Lives(f, id) && |f.watchers[id].pending| == |t.feed.watchers[id].pending| + 1
      && t.feed.watchers[id].pending <= f.watchers[id].pending
      && f.watchers[id].pending[|t.feed.watchers[id].pending|] == Delivery(Revision(t), [], false)
  {
  }

  /** The first revision of interest: the one asked for, or the next one. */
  function FirstWanted(t: Trace, r: WatchRequest): int {
    if r.from == 0 then Revision(t) + 1 else r.from
  }

  /** Nothing from the revision on has been dropped from the history, and it is not beyond the next. */
  predicate Available(t: Trace, from: int) {
    && 0 < from <= Revision(t) + 1 && (from == Revision(t) + 1 ==> Revision(t) != INT64_MAX)
    && forall i :: 0 <= i < |t.log| && t.log[i].revision >= from ==> t.log[i] in t.feed.history
  }

  lemma AvailableIs(t: Trace, limits: Limits, from: int)
    requires LogOk(t) && HistoryOk(t, limits) && t.base == 0 && 0 < from <= Revision(t) + 1
    ensures t.feed.compact < from <==> forall i :: 0 <= i < |t.log| && t.log[i].revision >= from ==>
        t.log[i] in t.feed.history
  {
    var history, compact := t.feed.history, t.feed.compact;
    assert forall i :: 0 <= i < |history| ==> history[i] == t.log[compact + i] && history[i].revision > compact;
    if from <= compact {
      assert t.log[from - 1].revision == from && t.log[from - 1] !in history;
    } else {
      forall i | 0 <= i < |t.log| && t.log[i].revision >= from ensures t.log[i] in history {
        assert history[i - compact] == t.log[i];
      }
    }
  }

  /** In every run a watch is created if and only if its id is free, it watches a key or a range in
      order, there is room for it, everything from its first revision on is still in the history, and
      what is due of it fits its queue. */
  lemma CreateIff(limits: Limits, actions: seq<Action>, r: WatchRequest)
    ensures var t := After(NEW, limits, actions);
      var from := FirstWanted(t, r);
      Create(t.feed, Revision(t), limits, r).Some? <==>
        && 0 < r.id && r.id !in t.feed.watchers && |t.feed.watchers| < limits.maxWatchers && 0 <= r.from
        && r.start != [] && (r.end == [] || Less(r.start, r.end)) && Available(t, from)
        && |Expected(r.(from := from), t.log)| <= limits.maxPending
  {
    hide After, Step, Expected, EventsOnly, WatchOk, Less;
    NewIsValid(limits);
    RunKeepsTrace(NEW, limits, actions);
    BaseStays(limits, actions);
    var t := After(NEW, limits, actions);
    var from := FirstWanted(t, r);
    if 0 < from <= Revision(t) + 1 {
      AvailableIs(t, limits, from);
      if t.feed.compact < from { ReplayIsComplete(t, limits, r.(from := from)); }
    }
  }

  lemma {:induction false} BaseStays(limits: Limits, actions: seq<Action>)
    ensures After(NEW, limits, actions).base == 0
  {
    hide Publish, Create, Poll, Progress, Cancel;
    if actions != [] { BaseStays(limits, actions[..|actions| - 1]); }
  }
}
