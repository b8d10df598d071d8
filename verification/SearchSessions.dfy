/** One search session (app/services/search.py): its cached snapshot, its row, the background
    worker and any number of pollers, interleaved between their awaits. The cache may lose the
    entry at any time, and every write to cache or table may be swallowed. The row is written in
    two awaits: it is loaded, and then the columns that differ from what was loaded are updated,
    whatever the row holds by then. Times are microseconds. */
module SearchSessions {
  import opened Wrappers

  datatype Status = Pending | Done | SearchFailed

  /** A provider answer; an offer is represented by a number. */
  datatype Result = Found(offers: seq<nat>) | TimedOut | Broken(message: string)

  datatype Snapshot = Snapshot(
    agent: Option<nat>,
    params: string,
    status: Status,
    offers: seq<nat>,
    itemsFound: nat,
    error: Option<string>,
    created: int,
    expires: int)

  /** The row stores status and count only, no offers. */
  datatype Row = Row(
    agent: Option<nat>, params: string, status: Status, itemsFound: nat, error: Option<string>, created: int,
        expires: int)

  datatype Entry = Entry(snapshot: Snapshot, gone: int)

  datatype Worker =
    | Searching(base: Snapshot)
    | WorkerReading(base: Snapshot, result: Result)
    | WorkerStoring(snapshot: Snapshot)
    | WorkerLoading(snapshot: Snapshot)
    | WorkerFlushing(snapshot: Snapshot, loaded: Row)
    | WorkerGone

  datatype Answer = Served(snapshot: Snapshot) | Expired | NotYours

  datatype Poller =
    | Asking(asker: Option<nat>)
    | Loading(asker: Option<nat>)
    | Deciding(asker: Option<nat>, snapshot: Snapshot)
    | FailStoring(asker: Option<nat>, snapshot: Snapshot)
    | FailLoading(asker: Option<nat>, snapshot: Snapshot)
    | FailFlushing(asker: Option<nat>, snapshot: Snapshot, loaded: Row)
    | Answering(asker: Option<nat>, snapshot: Snapshot)
    | Answered(asker: Option<nat>, at: int, answer: Answer)

  /** search_deadline_seconds and search_session_ttl_seconds. */
  datatype Settings = Settings(deadline: nat, ttl: nat)

  datatype State = State(now: int, cache: Option<Entry>, row: Row, worker: Worker, pollers: map<nat, Poller>)

  const SECOND := 1_000_000
  const GRACE := 5
  const DEADLINE_EXCEEDED := "deadline_exceeded"

  // ---------------------------------------------------------------- what the code computes

  /** _is_stale */
  predicate Stale(settings: Settings, sn: Snapshot, now: int) {
    now - sn.created > (settings.deadline + GRACE) * SECOND
  }

  /** int() of a number of seconds: towards zero. */
  function WholeSeconds(span: int): int {
    if span >= 0 then span / SECOND else -((-span) / SECOND)
  }

  /** _store_snapshot: the entry lives for the rest of the session, and for a second at least. */
  function StoredEntry(sn: Snapshot, now: int): Entry {
    var remaining := WholeSeconds(sn.expires - now);
    Entry(sn, now + (if remaining > 1 then remaining else 1) * SECOND)
  }

  /** _load_snapshot_from_db */
  function FromRow(row: Row): Snapshot {
    Snapshot(row.agent, row.params, row.status, [], row.itemsFound, row.error, row.created, row.expires)
  }

  /** The COMMIT of _persist_result: an UPDATE of the columns in which the snapshot differs from
      the row as it was loaded. The other columns stay as they are now. */
  function Flushed(loaded: Row, current: Row, sn: Snapshot): Row {
    current.(status := if sn.status != loaded.status then sn.status else current.status,
             itemsFound := if sn.itemsFound != loaded.itemsFound then sn.itemsFound else current.itemsFound,
             error := if sn.error != loaded.error then sn.error else current.error)
  }

  /** What a poll makes of a stale pending snapshot. */
  function LazilyFailed(sn: Snapshot): Snapshot {
    sn.(status := SearchFailed, error := Some(DEADLINE_EXCEEDED))
  }

  /** What the worker writes into the snapshot. */
  function Finished(sn: Snapshot, result: Result): Snapshot {
    match result
    case Found(offers) => sn.(status := Done, offers := offers, itemsFound := |offers|, error := None)
    case TimedOut => sn.(status := SearchFailed, offers := [], itemsFound := 0, error := Some("provider_timeout"))
    case Broken(message) =>
      sn.(status := SearchFailed, offers := [], itemsFound := 0, error := Some("provider_error: " + message))
  }

  /** The end of get_search: expiry first, then ownership. */
  function AnswerOf(sn: Snapshot, asker: Option<nat>, now: int): Answer {
    if now > sn.expires then Expired
    else if sn.agent.Some? && asker.Some? && sn.agent != asker then NotYours
    else Served(sn)
  }

  function Live(cache: Option<Entry>, now: int): Option<Snapshot> {
    if cache.Some? && now < cache.value.gone then Some(cache.value.snapshot) else None
  }

  // ---------------------------------------------------------------- steps

  /** `ok` tells whether the external call of the step works: a cache that is reachable, a
      write that is not swallowed. */
  datatype Event =
    | Tick(span: nat)
    | Evict
    | Poll(id: nat, asker: Option<nat>)
    | PollStep(id: nat, ok: bool)
    | ProviderAnswers(result: Result)
    | WorkerStep(ok: bool)
    | WorkerCrash

  predicate Enabled(s: State, event: Event) {
    match event
    case Tick(_) => true
    case Evict => true
    case Poll(id, _) => id !in s.pollers
    case PollStep(id, _) => id in s.pollers && !s.pollers[id].Answered?
    case ProviderAnswers(_) => s.worker.Searching?
    case WorkerStep(_) => !s.worker.Searching? && !s.worker.WorkerGone?
    case WorkerCrash => true
  }

  /** One stretch of get_search between two awaits: the store and the poller afterwards. */
  function StepPoller(settings: Settings, s: State, p: Poller, ok: bool): (Option<Entry>, Row, Poller)
    requires !p.Answered?
  {
    match p
    case Asking(asker) =>
      var hit := Live(s.cache, s.now);
      (s.cache, s.row, if ok && hit.Some? then Deciding(asker, hit.value) else Loading(asker))
    case Loading(asker) => (s.cache, s.row, Deciding(asker, FromRow(s.row)))
    case Deciding(asker, sn) =>
      (s.cache, s.row,
       if sn.status == Pending && Stale(settings, sn, s.now)
       then FailStoring(asker, LazilyFailed(sn))
       else Answered(asker, s.now, AnswerOf(sn, asker, s.now)))
    case FailStoring(asker, sn) =>
      (if ok then Some(StoredEntry(sn, s.now)) else s.cache, s.row, FailLoading(asker, sn))
    case FailLoading(asker, sn) =>
      (s.cache, s.row, if ok then FailFlushing(asker, sn, s.row) else Answering(asker, sn))
    case FailFlushing(asker, sn, loaded) =>
      (s.cache, if ok then Flushed(loaded, s.row, sn) else s.row, Answering(asker, sn))
    case Answering(asker, sn) => (s.cache, s.row, Answered(asker, s.now, AnswerOf(sn, asker, s.now)))
  }

  /** One stretch of _run_search between two awaits. */
  function StepWorker(s: State, ok: bool): (Option<Entry>, Row, Worker)
    requires !s.worker.Searching? && !s.worker.WorkerGone?
  {
    match s.worker
    case WorkerReading(base, result) =>
      var hit := Live(s.cache, s.now);
      (s.cache, s.row, WorkerStoring(Finished(if ok && hit.Some? then hit.value else base, result)))
    case WorkerStoring(sn) => (if ok then Some(StoredEntry(sn, s.now)) else s.cache, s.row, WorkerLoading(sn))
    case WorkerLoading(sn) => (s.cache, s.row, if ok then WorkerFlushing(sn, s.row) else WorkerGone)
    case WorkerFlushing(sn, loaded) => (s.cache, if ok then Flushed(loaded, s.row, sn) else s.row, WorkerGone)
  }

  function Take(settings: Settings, s: State, event: Event): State
    requires Enabled(s, event)
  {
    match event
    case Tick(span) => s.(now := s.now + span)
    case Evict => s.(cache := None)
    case Poll(id, asker) => s.(pollers := s.pollers[id := Asking(asker)])
    case PollStep(id, ok) =>
      var (cache, row, poller) := StepPoller(settings, s, s.pollers[id], ok);
      s.(cache := cache, row := row, pollers := s.pollers[id := poller])
    case ProviderAnswers(result) => s.(worker := WorkerReading(s.worker.base, result))
    case WorkerStep(ok) =>
      var (cache, row, worker) := StepWorker(s, ok);
      s.(cache := cache, row := row, worker := worker)
    case WorkerCrash => s.(worker := WorkerGone)
  }

  /** start_search has committed the row, tried to cache the snapshot, and launched the worker. */
  function Started(settings: Settings, agent: Option<nat>, params: string, created: int, rowCreated: int,
                   cached: bool): State
    requires created <= rowCreated
  {
    var expires := created + settings.ttl * SECOND;
    var base := Snapshot(agent, params, Pending, [], 0, None, created, expires);
    State(rowCreated,
          if cached then Some(Entry(base, rowCreated + settings.ttl * SECOND)) else None,
          Row(agent, params, Pending, 0, None, rowCreated, expires),
          Searching(base),
          map[])
  }

  predicate Feasible(settings: Settings, s: State, events: seq<Event>)
    decreases |events|
  {
    events == [] || (Enabled(s, events[0]) && Feasible(settings, Take(settings, s, events[0]), events[1..]))
  }

  function Exec(settings: Settings, s: State, events: seq<Event>): State
    requires Feasible(settings, s, events)
    decreases |events|
  {
    if events == [] then s else Exec(settings, Take(settings, s, events[0]), events[1..])
  }

  // ---------------------------------------------------------------- the shape of a session

  /** Pending and failed sessions have no offers; a done one has all of them, or none when it
      was restored from its row; an error is there exactly when it failed. */
  predicate Shape(sn: Snapshot) {
    && (sn.error.Some? <==> sn.status == SearchFailed)
    && (sn.status != Done ==> sn.offers == [] && sn.itemsFound == 0)
    && (sn.offers == [] || |sn.offers| == sn.itemsFound)
  }

  /** The same session as the row: agent, parameters and expiry, created no later. */
  predicate SameSession(sn: Snapshot, row: Row) {
    sn.agent == row.agent && sn.params == row.params && sn.expires == row.expires && sn.created <= row.created
  }

  predicate Good(sn: Snapshot, row: Row) {
    Shape(sn) && SameSession(sn, row)
  }

  /** What the columns of a row can be before any write to it. */
  predicate Initial(row: Row) {
    row.status == Pending && row.itemsFound == 0 && row.error == None
  }

  /** What a poll writes. */
  predicate FailedByPoll(row: Row) {
    row.status == SearchFailed && row.itemsFound == 0 && row.error == Some(DEADLINE_EXCEEDED)
  }

  /** What holds of every row, even one with the columns of two writers. */
  predicate Loose(row: Row) {
    && (row.status == Pending ==> Initial(row))
    && (row.status == SearchFailed ==> row.error.Some?)
  }

  /** What a poll serves is well shaped, or restored from a row with the columns of two writers. */
  predicate LooseShape(sn: Snapshot) {
    || Shape(sn)
    || (sn.offers == [] && sn.error.Some? && (sn.status == Done || (sn.status == SearchFailed && sn.itemsFound > 0)))
  }

  /** The row is one that was read before the current one, while the worker may be at work. */
  predicate Past(loaded: Row, row: Row, workerGone: bool) {
    && Loose(loaded)
    && (!workerGone ==> Initial(loaded) || (FailedByPoll(loaded) && FailedByPoll(row)))
    && (loaded.status == Done ==>
        (loaded.itemsFound == 0 ==> row.itemsFound == 0) && (loaded.error.Some? ==> row.error.Some?))
    && (loaded.status == SearchFailed && !FailedByPoll(loaded) ==>
          row.status == SearchFailed && (row.itemsFound == 0 || loaded.itemsFound > 0))
    && (loaded.status != Pending ==> row.status != Pending)
  }

  /** The poll is failing the session with this snapshot. */
  predicate Failing(sn: Snapshot, row: Row) {
    Good(sn, row) && sn.status == SearchFailed && sn.error == Some(DEADLINE_EXCEEDED)
  }

  predicate PollerGood(settings: Settings, p: Poller, row: Row, workerGone: bool) {
    match p
    case Asking(_) => true
    case Loading(_) => true
    case Deciding(_, sn) => SameSession(sn, row) && LooseShape(sn)
    case FailStoring(_, sn) => Failing(sn, row)
    case FailLoading(_, sn) => Failing(sn, row)
    case FailFlushing(_, sn, loaded) => Failing(sn, row) && Past(loaded, row, workerGone)
    case Answering(_, sn) => Failing(sn, row)
    case Answered(asker, at, answer) =>
      && (answer.Expired? <==> at > row.expires)
      && (answer.NotYours? <==> at <= row.expires && row.agent.Some? && asker.Some? && asker != row.agent)
      && (answer.Served? ==>
        var sn := answer.snapshot;
        && SameSession(sn, row) && LooseShape(sn) && at <= sn.expires
        && (sn.agent.Some? && asker.Some? ==> sn.agent == asker)
        && (sn.status == Pending ==> at - sn.created <= (settings.deadline + GRACE) * SECOND))
  }

  predicate WorkerGood(w: Worker, row: Row) {
    match w
    case Searching(base) => Good(base, row)
    case WorkerReading(base, _) => Good(base, row)
    case WorkerStoring(sn) => Good(sn, row) && sn.status != Pending
    case WorkerLoading(sn) => Good(sn, row) && sn.status != Pending
    case WorkerFlushing(sn, loaded) => Good(sn, row) && sn.status != Pending && Past(loaded, row, false)
    case WorkerGone => true
  }

  predicate SessionInv(settings: Settings, s: State) {
    && Loose(s.row)
    && (!s.worker.WorkerGone? ==> Initial(s.row) || FailedByPoll(s.row))
    && (s.cache.Some? ==> Good(s.cache.value.snapshot, s.row))
    && WorkerGood(s.worker, s.row)
    && (forall id :: id in s.pollers ==> PollerGood(settings, s.pollers[id], s.row, s.worker.WorkerGone?))
  }

  /** Which row fields can change at all. */
  predicate RowEvolves(row: Row, row': Row) {
    row'.agent == row.agent && row'.params == row.params && row'.expires == row.expires && row'.created == row.created
  }

  /** A poll that commits a failure leaves the row loose, and only moves it on. */
  lemma PollFlush(loaded: Row, row: Row, sn: Snapshot, workerGone: bool)
    requires Past(loaded, row, workerGone) && Failing(sn, row) && Loose(row)
    requires !workerGone ==> Initial(row) || FailedByPoll(row)
    ensures var row' := Flushed(loaded, row, sn);
            && Loose(row') && RowEvolves(row, row')
            && (!workerGone ==> Initial(row') || FailedByPoll(row'))
            && forall past :: Past(past, row, workerGone) ==> Past(past, row', workerGone)
  {
  }

  /** The worker that commits leaves the row loose. */
  lemma WorkerFlush(loaded: Row, row: Row, sn: Snapshot)
    requires Past(loaded, row, false) && Shape(sn) && sn.status != Pending
    requires Initial(row) || FailedByPoll(row)
    ensures var row' := Flushed(loaded, row, sn);
            && Loose(row') && RowEvolves(row, row') && row'.status == sn.status
            && forall past :: Past(past, row, false) ==> Past(past, row', true)
  {
  }

  lemma WorkerLeaves(row: Row)
    ensures forall past :: Past(past, row, false) ==> Past(past, row, true)
  {
  }

  lemma PollerStays(settings: Settings, p: Poller, row: Row, row': Row, gone: bool, gone': bool)
    requires PollerGood(settings, p, row, gone) && RowEvolves(row, row')
    requires forall past :: Past(past, row, gone) ==> Past(past, row', gone')
    ensures PollerGood(settings, p, row', gone')
  {
  }

  lemma PollStepGood(settings: Settings, s: State, id: nat, ok: bool)
    requires SessionInv(settings, s) && Enabled(s, PollStep(id, ok))
    ensures SessionInv(settings, Take(settings, s, PollStep(id, ok)))
    ensures RowEvolves(s.row, Take(settings, s, PollStep(id, ok)).row)
  {
    var p, t, gone := s.pollers[id], Take(settings, s, PollStep(id, ok)), s.worker.WorkerGone?;
    if p.FailFlushing? {
      PollFlush(p.loaded, s.row, p.snapshot, gone);
    }
    assert forall past :: Past(past, s.row, gone) ==> Past(past, t.row, gone);
    forall other | other in s.pollers && other != id ensures PollerGood(settings, s.pollers[other], t.row, gone) {
      PollerStays(settings, s.pollers[other], s.row, t.row, gone, gone);
    }
    OwnPollStep(settings, s, id, ok);
  }

  lemma OwnPollStep(settings: Settings, s: State, id: nat, ok: bool)
    requires SessionInv(settings, s) && Enabled(s, PollStep(id, ok))
    ensures var (cache, row, p) := StepPoller(settings, s, s.pollers[id], ok);
            && PollerGood(settings, p, row, s.worker.WorkerGone?)
            && (cache.Some? ==> Good(cache.value.snapshot, row))
  {
    var p := s.pollers[id];
    if p.Deciding? || p.Answering? {
      AnsweringStep(settings, s, p, ok);
    } else {
      FailingStep(settings, s, p, ok);
    }
  }

  lemma AnsweringStep(settings: Settings, s: State, p: Poller, ok: bool)
    requires SessionInv(settings, s) && (p.Deciding? || p.Answering?)
    requires PollerGood(settings, p, s.row, s.worker.WorkerGone?)
    ensures var (cache, row, p') := StepPoller(settings, s, p, ok);
            cache == s.cache && row == s.row && PollerGood(settings, p', row, s.worker.WorkerGone?)
  {
  }

  lemma FailingStep(settings: Settings, s: State, p: Poller, ok: bool)
    requires SessionInv(settings, s) && !p.Deciding? && !p.Answering? && !p.Answered?
    requires PollerGood(settings, p, s.row, s.worker.WorkerGone?)
    ensures var (cache, row, p') := StepPoller(settings, s, p, ok);
            && PollerGood(settings, p', row, s.worker.WorkerGone?)
            && (cache.Some? ==> Good(cache.value.snapshot, row))
  {
  }

  lemma WorkerStepGood(settings: Settings, s: State, ok: bool)
    requires SessionInv(settings, s) && Enabled(s, WorkerStep(ok))
    ensures SessionInv(settings, Take(settings, s, WorkerStep(ok)))
    ensures RowEvolves(s.row, Take(settings, s, WorkerStep(ok)).row)
  {
    var t := Take(settings, s, WorkerStep(ok));
    WorkerLeaves(s.row);
    if s.worker.WorkerFlushing? {
      WorkerFlush(s.worker.loaded, s.row, s.worker.snapshot);
    }
    forall id | id in s.pollers ensures PollerGood(settings, s.pollers[id], t.row, t.worker.WorkerGone?) {
      PollerStays(settings, s.pollers[id], s.row, t.row, false, t.worker.WorkerGone?);
    }
  }

  lemma StepInv(settings: Settings, s: State, event: Event)
    requires SessionInv(settings, s) && Enabled(s, event)
    ensures SessionInv(settings, Take(settings, s, event)) && RowEvolves(s.row, Take(settings, s, event).row)
  {
    match event
    case PollStep(id, ok) => PollStepGood(settings, s, id, ok);
    case WorkerStep(ok) => WorkerStepGood(settings, s, ok);
    case WorkerCrash =>
      WorkerLeaves(s.row);
      forall id | id in s.pollers ensures PollerGood(settings, s.pollers[id], s.row, true) {
        PollerStays(settings, s.pollers[id], s.row, s.row, s.worker.WorkerGone?, true);
      }
    case _ =>
  }

  /** What a poll that is answered with a session can rely on. */
  predicate ServedWell(settings: Settings, row: Row, sn: Snapshot, asker: Option<nat>, at: int) {
    && SameSession(sn, row) && LooseShape(sn) && at <= row.expires
    && (sn.agent.Some? && asker.Some? ==> sn.agent == asker)
    && (at - row.created > (settings.deadline + GRACE) * SECOND ==> sn.status != Pending)
  }

  /** Over every run, every snapshot that is cached or in flight keeps its shape, and every one
      that is cached, stored or served its identity; no poll serves a session past its expiry, to
      another agent, or still pending once its row is older than deadline and grace, whatever was
      lost or swallowed. A served session is well shaped, unless it was restored from a row with
      the columns of two writers. */
  lemma {:induction false} EverySessionIsGood(settings: Settings, s: State, events: seq<Event>)
    requires SessionInv(settings, s) && Feasible(settings, s, events)
    ensures var t := Exec(settings, s, events);
            && SessionInv(settings, t) && RowEvolves(s.row, t.row)
            && (t.cache.Some? ==> Good(t.cache.value.snapshot, s.row))
            && forall id :: id in t.pollers && t.pollers[id].Answered? && t.pollers[id].answer.Served? ==>
                 ServedWell(settings, s.row, t.pollers[id].answer.snapshot, t.pollers[id].asker, t.pollers[id].at)
    decreases |events|
  {
    if events == [] {
    } else {
      StepInv(settings, s, events[0]);
      EverySessionIsGood(settings, Take(settings, s, events[0]), events[1..]);
    }
  }

  lemma StartedIsGood(settings: Settings, agent: Option<nat>, params: string, created: int, rowCreated: int,
                      cached: bool)
    requires created <= rowCreated
    ensures SessionInv(settings, Started(settings, agent, params, created, rowCreated, cached))
  {
  }

  // ---------------------------------------------------------------- reachable states

  ghost predicate Reaches(settings: Settings, s: State, t: State) {
    exists events :: Feasible(settings, s, events) && Exec(settings, s, events) == t
  }

  lemma {:induction false} ExecConcat(settings: Settings, s: State, first: seq<Event>, second: seq<Event>)
    requires Feasible(settings, s, first) && Feasible(settings, Exec(settings, s, first), second)
    ensures Feasible(settings, s, first + second)
    ensures Exec(settings, s, first + second) == Exec(settings, Exec(settings, s, first), second)
    decreases |first|
  {
    if first == [] {
      assert first + second == second;
    } else {
      assert (first + second)[1..] == first[1..] + second;
      ExecConcat(settings, Take(settings, s, first[0]), first[1..], second);
    }
  }

  lemma ReachesSelf(settings: Settings, s: State)
    ensures Reaches(settings, s, s)
  {
    assert Feasible(settings, s, []) && Exec(settings, s, []) == s;
  }

  lemma ReachesStep(settings: Settings, s: State, t: State, event: Event)
    requires Reaches(settings, s, t) && Enabled(t, event)
    ensures Reaches(settings, s, Take(settings, t, event))
  {
    var events :| Feasible(settings, s, events) && Exec(settings, s, events) == t;
    var last := [event];
    var u := Take(settings, t, event);
    assert last[0] == event && last[1..] == [];
    assert Feasible(settings, u, []) && Exec(settings, u, []) == u;
    assert Feasible(settings, t, last) && Exec(settings, t, last) == Exec(settings, u, last[1..]);
    ExecConcat(settings, s, events, last);
  }

  lemma TakeStep(settings: Settings, s: State, t: State, event: Event) returns (u: State)
    requires Reaches(settings, s, t) && Enabled(t, event)
    ensures u == Take(settings, t, event) && Reaches(settings, s, u)
  {
    u := Take(settings, t, event);
    ReachesStep(settings, s, t, event);
  }
}
