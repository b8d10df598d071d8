/** get_search and the background worker as they run: fields updated in place, with everything
    else free to happen at every await. Each call is shown to be a run of SearchSessions. */
module SearchService {
  import opened SearchSessions
  import opened Wrappers

  /** Which calls out of the process work: the read and the write of the cache, and the load and
      the COMMIT of _persist_result. */
  datatype Calls = Calls(reachable: bool, stored: bool, loaded: bool, flushed: bool)
  {
    predicate Persists() {
      loaded && flushed
    }
  }

  class Backend {
    const settings: Settings
    var now: int
    var cache: Option<Entry>
    var row: Row
    var worker: Worker
    var pollers: map<nat, Poller>

    /** The state that the fields represent. */
    ghost var state: State

    /** Somebody else has moved, or time has passed, at an await. */
    ghost var disturbed: bool

    function View(): State
      reads this
    {
      State(now, cache, row, worker, pollers)
    }

    ghost predicate Valid()
      reads this
    {
      state == View() && SessionInv(settings, state)
    }

    /** What happened since the old state is a run of the step system. */
    twostate predicate Ran()
      reads this
    {
      Valid() && Reaches(settings, old(state), state)
    }

    /** Nothing happened while waiting, unless that was recorded. */
    twostate predicate Quiet()
      reads this
    {
      !disturbed ==> !old(disturbed) && View() == old(View())
    }

    /** Unless disturbed, the fields are these. */
    ghost predicate Undisturbed(now: int, cache: Option<Entry>, row: Row, worker: Worker)
      reads this
    {
      !disturbed ==> this.now == now && this.cache == cache && this.row == row && this.worker == worker
    }

    constructor (settings: Settings, agent: Option<nat>, params: string, created: int, rowCreated: int, cached: bool)
      requires created <= rowCreated
      ensures Valid() && state == Started(settings, agent, params, created, rowCreated, cached)
      ensures this.settings == settings && !disturbed
    {
      var expires := created + settings.ttl * SECOND;
      var snapshot := Snapshot(agent, params, Pending, [], 0, None, created, expires);
      this.settings := settings;
      now, pollers := rowCreated, map[];
      row := Row(agent, params, Pending, 0, None, rowCreated, expires);
      cache := if cached then Some(Entry(snapshot, rowCreated + settings.ttl * SECOND)) else None;
      worker := Searching(snapshot);
      state, disturbed := Started(settings, agent, params, created, rowCreated, cached), false;
      new;
      StartedIsGood(settings, agent, params, created, rowCreated, cached);
    }

    /** An await: time passes, and everybody but the two given tasks may move. */
    method Await(me: Option<nat>, amWorker: bool)
      requires Valid()
      modifies this
      ensures Ran()
      ensures me.Some? && me.value in old(pollers) ==>
          me.value in pollers && pollers[me.value] == old(pollers[me.value])
      ensures amWorker && old(worker) != WorkerGone ==> worker == old(worker) || worker.WorkerGone?
      ensures forall id :: id in old(pollers) ==> id in pollers
      ensures Quiet()
    {
      var moves: nat := *;
      ghost var start := state;
      ReachesSelf(settings, start);
      if moves == 0 { return; }
      disturbed := true;
      while moves > 0
        invariant disturbed && Valid() && Reaches(settings, start, state)
        invariant me.Some? && me.value in old(pollers) ==>
            me.value in pollers && pollers[me.value] == old(pollers[me.value])
        invariant amWorker && old(worker) != WorkerGone ==> worker == old(worker) || worker.WorkerGone?
        invariant forall id :: id in old(pollers) ==> id in pollers
      {
        var event: Event := *;
        if Enabled(View(), event) && !(event.PollStep? && Some(event.id) == me)
           && !(amWorker && (event.WorkerStep? || event.ProviderAnswers?))
        {
          StepInv(settings, state, event);
          ReachesStep(settings, start, state, event);
          var s := Take(settings, View(), event);
          now, cache, row, worker, pollers, state := s.now, s.cache, s.row, s.worker, s.pollers, s;
        }
        moves := moves - 1;
      }
    }

    /** The fields have made the step of poller `id`. */
    ghost method Record(start: State, before: State, event: Event)
      requires SessionInv(settings, before) && Reaches(settings, start, before) && Enabled(before, event)
      requires View() == Take(settings, before, event)
      modifies this`state
      ensures Valid() && Reaches(settings, start, state) && state == View()
    {
      StepInv(settings, before, event);
      ReachesStep(settings, start, before, event);
      state := View();
    }

    /** What a stretch of get_search has done: the step of the poller, if nobody disturbed it. */
    twostate predicate PollStepped(id: nat, ok: bool)
      reads this
    {
      !disturbed ==>
        && !old(disturbed) && id in old(pollers) && !old(pollers[id]).Answered?
        && now == old(now) && worker == old(worker) && id in pollers
        && (cache, row, pollers[id]) == StepPoller(settings, old(View()), old(pollers[id]), ok)
    }

    /** The cache read at the start of get_search. */
    method ReadCache(id: nat, reachable: bool)
      requires Valid() && id in pollers && pollers[id].Asking?
      modifies this
      ensures Ran() && id in pollers && (pollers[id].Deciding? || pollers[id].Loading?)
      ensures PollStepped(id, reachable)
    {
      Await(Some(id), false);
      ghost var before := state;
      var asker := pollers[id].asker;
      if reachable && cache.Some? && now < cache.value.gone {
        pollers := pollers[id := Deciding(asker, cache.value.snapshot)];
      } else {
        pollers := pollers[id := Loading(asker)];
      }
      Record(old(state), before, PollStep(id, reachable));
    }

    /** _load_snapshot_from_db */
    method LoadFromDb(id: nat)
      requires Valid() && id in pollers && pollers[id].Loading?
      modifies this
      ensures Ran() && id in pollers && pollers[id].Deciding?
      ensures PollStepped(id, true)
    {
      Await(Some(id), false);
      ghost var before := state;
      var restored := Snapshot(row.agent, row.params, row.status, [], row.itemsFound, row.error, row.created,
          row.expires);
      pollers := pollers[id := Deciding(pollers[id].asker, restored)];
      Record(old(state), before, PollStep(id, true));
    }

    /** The staleness check: fail the session lazily, or answer at once. */
    method Decide(id: nat)
      requires Valid() && id in pollers && pollers[id].Deciding?
      modifies this
      ensures Ran() && id in pollers && (pollers[id].FailStoring? || pollers[id].Answered?)
      ensures PollStepped(id, true)
    {
      Await(Some(id), false);
      ghost var before := state;
      var Deciding(asker, snapshot) := pollers[id];
      if snapshot.status == Pending && Stale(settings, snapshot, now) {
        snapshot := snapshot.(status := SearchFailed, error := Some(DEADLINE_EXCEEDED));
        pollers := pollers[id := FailStoring(asker, snapshot)];
      } else {
        pollers := pollers[id := Answered(asker, now, AnswerOf(snapshot, asker, now))];
      }
      Record(old(state), before, PollStep(id, true));
    }

    /** _store_snapshot of a lazily failed session; the write may be swallowed. */
    method StoreFailure(id: nat, stored: bool)
      requires Valid() && id in pollers && pollers[id].FailStoring?
      modifies this
      ensures Ran() && id in pollers && pollers[id].FailLoading?
      ensures PollStepped(id, stored)
    {
      Await(Some(id), false);
      ghost var before := state;
      if stored {
        cache := Some(StoredEntry(pollers[id].snapshot, now));
      }
      pollers := pollers[id := FailLoading(pollers[id].asker, pollers[id].snapshot)];
      Record(old(state), before, PollStep(id, stored));
    }

    /** _persist_result of a lazily failed session, first await: load the row; an exception is
        swallowed. */
    method LoadForFailure(id: nat, loaded: bool)
      requires Valid() && id in pollers && pollers[id].FailLoading?
      modifies this
      ensures Ran() && id in pollers &&
          (if pollers[id].FailFlushing? then loaded else !loaded && pollers[id].Answering?)
      ensures PollStepped(id, loaded)
    {
      Await(Some(id), false);
      ghost var before := state;
      var asker, snapshot := pollers[id].asker, pollers[id].snapshot;
      pollers := pollers[id := if loaded then FailFlushing(asker, snapshot, row) else Answering(asker, snapshot)];
      Record(old(state), before, PollStep(id, loaded));
    }

    /** The UPDATE of the columns that were changed on the loaded row. */
    method UpdateColumns(loaded: Row, snapshot: Snapshot)
      modifies this`row
      ensures row == Flushed(loaded, old(row), snapshot)
    {
      if snapshot.status != loaded.status {
        row := row.(status := snapshot.status);
      }
      if snapshot.itemsFound != loaded.itemsFound {
        row := row.(itemsFound := snapshot.itemsFound);
      }
      if snapshot.error != loaded.error {
        row := row.(error := snapshot.error);
      }
    }

    /** _persist_result, second await: the COMMIT, whatever the row holds by now. */
    method FlushFailure(id: nat, flushed: bool)
      requires Valid() && id in pollers && pollers[id].FailFlushing?
      modifies this
      ensures Ran() && id in pollers && pollers[id].Answering?
      ensures PollStepped(id, flushed)
    {
      Await(Some(id), false);
      ghost var before := state;
      var FailFlushing(asker, snapshot, loaded) := pollers[id];
      if flushed {
        UpdateColumns(loaded, snapshot);
      }
      pollers := pollers[id := Answering(asker, snapshot)];
      Record(old(state), before, PollStep(id, flushed));
    }

    /** _persist_result of a lazily failed session. */
    method PersistFailure(id: nat, calls: Calls)
      requires Valid() && id in pollers && pollers[id].FailLoading?
      modifies this
      ensures Ran() && id in pollers && pollers[id].Answering?
      ensures var sn := old(pollers[id]).snapshot;
              &&
                  Undisturbed(old(now), old(cache), if calls.Persists() then Overwritten(old(row), sn)
                      else old(row), old(worker))
              && (!disturbed ==> !old(disturbed) && pollers[id] == Answering(old(pollers[id]).asker, sn))
    {
      LoadForFailure(id, calls.loaded);
      if pollers[id].FailFlushing? {
        ghost var s := state;
        FlushFailure(id, calls.flushed);
        ReachesTrans(settings, old(state), s, state);
      }
    }

    /** The checks at the end of get_search, after a lazy failure. */
    method AnswerFailure(id: nat)
      requires Valid() && id in pollers && pollers[id].Answering?
      modifies this
      ensures Ran() && id in pollers && pollers[id].Answered?
      ensures PollStepped(id, true)
    {
      Await(Some(id), false);
      ghost var before := state;
      var Answering(asker, snapshot) := pollers[id];
      pollers := pollers[id := Answered(asker, now, AnswerOf(snapshot, asker, now))];
      Record(old(state), before, PollStep(id, true));
    }

    method FailLazily(id: nat, calls: Calls)
      requires Valid() && id in pollers && pollers[id].FailStoring?
      modifies this
      ensures Ran() && id in pollers && pollers[id].Answered?
      ensures !disturbed ==> !old(disturbed)
      ensures var sn, asker := old(pollers[id]).snapshot, old(pollers[id]).asker;
              && Undisturbed(old(now), if calls.stored then Some(StoredEntry(sn, old(now))) else old(cache),
                             if calls.Persists() then Overwritten(old(row), sn) else old(row), old(worker))
              && (!disturbed ==> pollers[id] == Answered(asker, now, AnswerOf(sn, asker, now)))
    {
      StoreFailure(id, calls.stored);
      ghost var s := state;
      PersistFailure(id, calls);
      ReachesTrans(settings, old(state), s, state);
      s := state;
      AnswerFailure(id);
      ReachesTrans(settings, old(state), s, state);
    }

    /** The snapshot that a poll works on: the cached one, or else the one restored from the row. */
    method LoadSnapshot(id: nat, reachable: bool)
      requires Valid() && id in pollers && pollers[id].Asking?
      modifies this
      ensures Ran() && id in pollers && pollers[id].Deciding?
      ensures !disturbed ==>
          !old(disturbed) && pollers[id] == Deciding(old(pollers[id]).asker, Loaded(old(View()), reachable))
      ensures Undisturbed(old(now), old(cache), old(row), old(worker))
    {
      ReadCache(id, reachable);
      if pollers[id].Loading? {
        ghost var s := state;
        LoadFromDb(id);
        ReachesTrans(settings, old(state), s, state);
      }
    }

    /** The rest of a poll: fail a stale pending session, and answer. */
    method Conclude(id: nat, calls: Calls)
      requires Valid() && id in pollers && pollers[id].Deciding?
      modifies this
      ensures Ran() && id in pollers && pollers[id].Answered?
      ensures !disturbed ==>
                && !old(disturbed)
                && (pollers[id].answer, cache, row)
                   == Concluded(settings, old(View()), old(pollers[id]).snapshot, old(pollers[id]).asker, calls)
                && now == old(now) && worker == old(worker)
    {
      Decide(id);
      if pollers[id].FailStoring? {
        ghost var s := state;
        FailLazily(id, calls);
        ReachesTrans(settings, old(state), s, state);
      }
    }

    /** get_search: cache first, then the row; a stale pending session is failed on the way.
        Whatever happens at the awaits, a served snapshot is of this session, not expired, not
        another agent's, not pending past its deadline, and well shaped unless it was restored
        from a row with the columns of two writers; and if nothing happens at them, the answer
        and what is left behind are determined. */
    method GetSearch(id: nat, asker: Option<nat>, calls: Calls) returns (answer: Answer)
      requires Valid() && id !in pollers
      modifies this
      ensures Ran() && id in pollers && pollers[id].Answered? && pollers[id].answer == answer
      ensures answer.Served? ==> ServedWell(settings, row, answer.snapshot, pollers[id].asker, pollers[id].at)
      ensures !disturbed ==>
                && (answer, cache, row)
                   == Concluded(settings, old(View()), Loaded(old(View()), calls.reachable), asker, calls)
                && now == old(now) && worker == old(worker)
    {
      ReachesSelf(settings, state);
      ghost var before := state;
      pollers := pollers[id := Asking(asker)];
      Record(old(state), before, Poll(id, asker));
      ghost var s := state;
      LoadSnapshot(id, calls.reachable);
      ReachesTrans(settings, old(state), s, state);
      s := state;
      Conclude(id, calls);
      ReachesTrans(settings, old(state), s, state);
      answer := pollers[id].answer;
      assert PollerGood(settings, pollers[id], row, worker.WorkerGone?);
    }

    /** What a stretch of _run_search has done: the step of the worker, if nobody disturbed it. */
    twostate predicate WorkerStepped(ok: bool)
      reads this
    {
      !disturbed ==>
        && !old(disturbed) && !old(worker).Searching? && !old(worker).WorkerGone?
        && now == old(now) && (cache, row, worker) == StepWorker(old(View()), ok)
    }

    /** _run_search reads the cached snapshot, or falls back to the one it started with, and
        overwrites its result. */
    method TakeResult(reachable: bool)
      requires Valid() && worker.WorkerReading?
      modifies this
      ensures Ran() && WorkerStepped(reachable) && (worker.WorkerStoring? || worker.WorkerGone?)
    {
      Await(None, true);
      if worker.WorkerGone? { return; }
      ghost var before := state;
      var base, result := worker.base, worker.result;
      var snapshot := if reachable && cache.Some? && now < cache.value.gone then cache.value.snapshot else base;
      worker := WorkerStoring(Finished(snapshot, result));
      Record(old(state), before, WorkerStep(reachable));
    }

    /** _store_snapshot of the result. */
    method StoreResult(stored: bool)
      requires Valid() && worker.WorkerStoring?
      modifies this
      ensures Ran() && WorkerStepped(stored) && (worker.WorkerLoading? || worker.WorkerGone?)
    {
      Await(None, true);
      if worker.WorkerGone? { return; }
      ghost var before := state;
      var snapshot := worker.snapshot;
      if stored {
        cache := Some(StoredEntry(snapshot, now));
      }
      worker := WorkerLoading(snapshot);
      Record(old(state), before, WorkerStep(stored));
    }

    /** _persist_result of the result, first await. */
    method LoadForResult(loaded: bool)
      requires Valid() && worker.WorkerLoading?
      modifies this
      ensures Ran() && WorkerStepped(loaded) && (worker.WorkerFlushing? || worker.WorkerGone?)
    {
      Await(None, true);
      if worker.WorkerGone? { return; }
      ghost var before := state;
      worker := if loaded then WorkerFlushing(worker.snapshot, row) else WorkerGone;
      Record(old(state), before, WorkerStep(loaded));
    }

    /** _persist_result of the result, second await. */
    method FlushResult(flushed: bool)
      requires Valid() && worker.WorkerFlushing?
      modifies this
      ensures Ran() && WorkerStepped(flushed) && worker.WorkerGone?
    {
      Await(None, true);
      if worker.WorkerGone? { return; }
      ghost var before := state;
      if flushed {
        UpdateColumns(worker.loaded, worker.snapshot);
      }
      worker := WorkerGone;
      Record(old(state), before, WorkerStep(flushed));
    }

    /** _persist_result of the result. */
    method PersistResult(calls: Calls)
      requires Valid() && worker.WorkerLoading?
      modifies this
      ensures Ran() && worker.WorkerGone?
      ensures Undisturbed(old(now), old(cache),
                          if calls.Persists() then Overwritten(old(row), old(worker).snapshot)
                              else old(row), WorkerGone)
      ensures !disturbed ==> !old(disturbed)
    {
      LoadForResult(calls.loaded);
      if worker.WorkerFlushing? {
        ghost var s := state;
        FlushResult(calls.flushed);
        ReachesTrans(settings, old(state), s, state);
      }
    }

    /** The end of _run_search, once the provider has answered; the process may die at any await. */
    method FinishSearch(calls: Calls)
      requires Valid() && worker.WorkerReading?
      modifies this
      ensures Ran() && worker.WorkerGone?
      ensures !disturbed ==> now == old(now) && (cache, row) == Completed(old(View()), old(worker), calls)
    {
      TakeResult(calls.reachable);
      if worker.WorkerStoring? {
        ghost var s := state;
        StoreResult(calls.stored);
        ReachesTrans(settings, old(state), s, state);
      }
      if worker.WorkerLoading? {
        ghost var s := state;
        PersistResult(calls);
        ReachesTrans(settings, old(state), s, state);
      }
    }
  }

  /** Status, count and error of the row are those of the snapshot. */
  function Overwritten(row: Row, sn: Snapshot): Row {
    row.(status := sn.status, itemsFound := sn.itemsFound, error := sn.error)
  }

  /** The cached snapshot if there is one that can be read, else what the row restores. */
  function Loaded(s: State, reachable: bool): Snapshot {
    var hit := if reachable then Live(s.cache, s.now) else None;
    if hit.Some? then hit.value else FromRow(s.row)
  }

  /** What a poll makes of its snapshot, undisturbed: its answer, the cache and the row. */
  function Concluded(settings: Settings, s: State, sn: Snapshot, asker: Option<nat>, calls: Calls)
    : (Answer, Option<Entry>, Row)
  {
    if sn.status == Pending && Stale(settings, sn, s.now) then
      var failed := LazilyFailed(sn);
      (AnswerOf(failed, asker, s.now),
       if calls.stored then Some(StoredEntry(failed, s.now)) else s.cache,
       if calls.Persists() then Overwritten(s.row, failed) else s.row)
    else (AnswerOf(sn, asker, s.now), s.cache, s.row)
  }

  /** What an undisturbed worker leaves behind. */
  function Completed(s: State, worker: Worker, calls: Calls): (Option<Entry>, Row)
    requires worker.WorkerReading?
  {
    var hit := if calls.reachable then Live(s.cache, s.now) else None;
    var sn := Finished(if hit.Some? then hit.value else worker.base, worker.result);
    (if calls.stored then Some(StoredEntry(sn, s.now)) else s.cache,
     if calls.Persists() then Overwritten(s.row, sn) else s.row)
  }

  lemma ReachesTrans(settings: Settings, a: State, b: State, c: State)
    requires Reaches(settings, a, b) && Reaches(settings, b, c)
    ensures Reaches(settings, a, c)
  {
    var first :| Feasible(settings, a, first) && Exec(settings, a, first) == b;
    var second :| Feasible(settings, b, second) && Exec(settings, b, second) == c;
    ExecConcat(settings, a, first, second);
  }
}
