/** Rows with the columns of two writers. The worker and a failing poll can load the row at the same
    time and commit one after the other; each updates the columns in which it differs from what it
    loaded, so that the row ends as FAILED with a count, or as DONE with an error. The exact
    conditions under which that cannot happen, and cannot be seen, can be read off a state. */
module SearchShapes {
  import opened SearchFinality
  import opened SearchSessions
  import opened Wrappers

  predicate RowShaped(s: State) {
    Shape(FromRow(s.row))
  }

  /** The worker may still store a result. */
  predicate MayFind(w: Worker) {
    !WorkerOnly(w, SearchFailed)
  }

  /** The worker may still store a result that is not empty. */
  predicate MayFindSome(w: Worker) {
    match w
    case Searching(_) => true
    case WorkerReading(_, result) => result.Found? && result.offers != []
    case WorkerStoring(sn) => sn.status == Done && sn.itemsFound > 0
    case WorkerLoading(sn) => sn.status == Done && sn.itemsFound > 0
    case WorkerFlushing(sn, _) => sn.status == Done && sn.itemsFound > 0
    case WorkerGone => false
  }

  /** The worker has loaded the pending row, and has not committed. */
  predicate WorkerHoldsPending(w: Worker) {
    w.WorkerFlushing? && w.loaded.status == Pending
  }

  /** A poll has loaded the pending row, and has not committed its failure. */
  predicate HoldsPending(p: Poller) {
    p.FailFlushing? && p.loaded.status == Pending
  }

  predicate NobodyHoldsPending(s: State) {
    forall id :: id in s.pollers ==> !HoldsPending(s.pollers[id])
  }

  /** The row is well shaped, and no two writers are ahead that mix their columns: a worker that
      may store a result finds the row failed already, does not hold the pending row, and no poll
      does if the result is not empty; without such a worker, no poll does if the row has a count. */
  predicate NoClashAhead(s: State) {
    && RowShaped(s)
    && if MayFind(s.worker) then
         && s.row.status == SearchFailed && !WorkerHoldsPending(s.worker)
         && (MayFindSome(s.worker) ==> NobodyHoldsPending(s))
       else s.row.itemsFound > 0 ==> NobodyHoldsPending(s)
  }

  lemma NoClashStep(settings: Settings, s: State, event: Event)
    requires SessionInv(settings, s) && NoClashAhead(s) && Enabled(s, event)
    ensures NoClashAhead(Take(settings, s, event))
  {
  }

  lemma {:induction false} NoClashRun(settings: Settings, s: State, events: seq<Event>)
    requires SessionInv(settings, s) && NoClashAhead(s) && Feasible(settings, s, events)
    ensures RowShaped(Exec(settings, s, events))
    decreases |events|
  {
    if events == [] {
    } else {
      StepInv(settings, s, events[0]);
      NoClashStep(settings, s, events[0]);
      NoClashRun(settings, Take(settings, s, events[0]), events[1..]);
    }
  }

  // ---------------------------------------------------------------- clashes

  /** The worker comes to the point where it has loaded the pending row. */
  lemma WorkerLoadsPending(settings: Settings, s: State, t: State) returns (u: State)
    requires Reaches(settings, s, t) && SessionInv(settings, t) && MayFind(t.worker) && t.row.status == Pending
    ensures Reaches(settings, s, u) && u == t.(worker := u.worker)
    ensures WorkerHoldsPending(u.worker) && u.worker.snapshot.status == Done
  {
    u := t;
    if u.worker.Searching? {
      u := TakeStep(settings, s, u, ProviderAnswers(Found([])));
    }
    if u.worker.WorkerReading? {
      u := TakeStep(settings, s, u, WorkerStep(false));
    }
    if u.worker.WorkerStoring? {
      u := TakeStep(settings, s, u, WorkerStep(false));
    }
    if u.worker.WorkerLoading? {
      u := TakeStep(settings, s, u, WorkerStep(true));
    }
  }

  /** A poll fails the row first, and the worker, which loaded it before, leaves the error there. */
  lemma PollThenWorker(settings: Settings, s: State, t: State) returns (u: State)
    requires Reaches(settings, s, t) && SessionInv(settings, t) && t.row.status == SearchFailed
    requires WorkerHoldsPending(t.worker) && t.worker.snapshot.status == Done
    ensures Reaches(settings, s, u) && !RowShaped(u) && u.now == t.now && u.row.expires == t.row.expires
    ensures u.row.status == Done && u.row.error == Some(DEADLINE_EXCEEDED)
  {
    u := TakeStep(settings, s, t, WorkerStep(true));
  }

  /** The worker stores its result first, and the poll, which loaded the row before, leaves the
      count there. */
  lemma WorkerThenPoll(settings: Settings, s: State, t: State, id: nat) returns (u: State)
    requires Reaches(settings, s, t) && SessionInv(settings, t) && t.row.itemsFound > 0
    requires id in t.pollers && HoldsPending(t.pollers[id])
    ensures Reaches(settings, s, u) && !RowShaped(u) && u.now == t.now && u.row.expires == t.row.expires
    ensures u.row.status == SearchFailed && u.row.itemsFound == t.row.itemsFound
  {
    u := TakeStep(settings, s, t, PollStep(id, true));
  }

  /** The worker stores a result that is not empty over a row that a poll has failed. */
  lemma WorkerStoresSome(settings: Settings, s: State, t: State) returns (u: State)
    requires Reaches(settings, s, t) && SessionInv(settings, t) && MayFindSome(t.worker)
    requires t.row.status == SearchFailed && !WorkerHoldsPending(t.worker)
    ensures Reaches(settings, s, u) && u.row.itemsFound > 0
    ensures u == t.(worker := u.worker, row := u.row) && u.row.expires == t.row.expires
  {
    u := t;
    if u.worker.Searching? {
      u := TakeStep(settings, s, u, ProviderAnswers(Found([0])));
    }
    if u.worker.WorkerReading? {
      u := TakeStep(settings, s, u, WorkerStep(false));
    }
    if u.worker.WorkerStoring? {
      u := TakeStep(settings, s, u, WorkerStep(false));
    }
    if u.worker.WorkerLoading? {
      u := TakeStep(settings, s, u, WorkerStep(true));
    }
    u := TakeStep(settings, s, u, WorkerStep(true));
  }

  /** A worker that may find something clashes with any poll that may fail the pending row. */
  lemma ClashOverPending(settings: Settings, s: State, t: State, id: nat) returns (u: State)
    requires SessionInv(settings, s) && Reaches(settings, s, t)
    requires t.row.status == Pending && MayFind(t.worker) && id in t.pollers && MayFail(t.pollers[id])
    ensures Reaches(settings, s, u) && !RowShaped(u) && u.row.status != Pending && u.row.expires == t.row.expires
    ensures u.now == if t.pollers[id].Deciding? && t.now < StaleFrom(settings, t.pollers[id].snapshot)
                     then StaleFrom(settings, t.pollers[id].snapshot) else t.now
  {
    StaysGood(settings, s, t);
    var v := WorkerLoadsPending(settings, s, t);
    StaysGood(settings, s, v);
    var w := PendingPollFails(settings, s, v, id);
    StaysGood(settings, s, w);
    u := PollThenWorker(settings, s, w);
  }

  /** A clash that needs no further poll. */
  predicate ClashAtHand(s: State) {
    if MayFind(s.worker) && s.row.status == Pending then false
    else if MayFind(s.worker) then WorkerHoldsPending(s.worker) || (MayFindSome(s.worker) && !NobodyHoldsPending(s))
    else s.row.itemsFound > 0 && !NobodyHoldsPending(s)
  }

  lemma ClashNow(settings: Settings, s: State) returns (u: State)
    requires SessionInv(settings, s) && ClashAtHand(s)
    ensures Reaches(settings, s, u) && !RowShaped(u) && u.now == s.now && u.row.expires == s.row.expires
  {
    ReachesSelf(settings, s);
    if WorkerHoldsPending(s.worker) && MayFind(s.worker) {
      u := PollThenWorker(settings, s, s);
    } else {
      var id :| id in s.pollers && HoldsPending(s.pollers[id]);
      u := s;
      if MayFind(s.worker) {
        u := WorkerStoresSome(settings, s, s);
        StaysGood(settings, s, u);
      }
      u := WorkerThenPoll(settings, s, u, id);
    }
  }

  /** The row stays well shaped in every run if and only if no clash is ahead. */
  lemma RowStaysShapedIff(settings: Settings, s: State)
    requires SessionInv(settings, s)
    ensures (forall t :: Reaches(settings, s, t) ==> RowShaped(t)) <==> NoClashAhead(s)
  {
    ReachesSelf(settings, s);
    if NoClashAhead(s) {
      forall t | Reaches(settings, s, t) ensures RowShaped(t) {
        var events :| Feasible(settings, s, events) && Exec(settings, s, events) == t;
        NoClashRun(settings, s, events);
      }
    } else if RowShaped(s) {
      if MayFind(s.worker) && s.row.status == Pending {
        var u, id := NewPoll(settings, s, s, false);
        var v := ClashOverPending(settings, s, u, id);
      } else {
        var u := ClashNow(settings, s);
      }
    }
  }

  // ---------------------------------------------------------------- what polls are served

  predicate ServedBad(p: Poller) {
    p.Answered? && p.answer.Served? && !Shape(p.answer.snapshot)
  }

  /** No poll that is still to be answered is ever served a session that is not well shaped. */
  ghost predicate NeverServedBad(settings: Settings, s: State) {
    forall t, id :: Reaches(settings, s, t) && id in t.pollers && ServedBad(t.pollers[id]) ==>
      id in s.pollers && s.pollers[id] == t.pollers[id]
  }

  /** The poll has restored a row with the columns of two writers, and may see it. */
  predicate AboutToServeBad(p: Poller) {
    p.Deciding? && !Shape(p.snapshot) && MaySee(p.asker, p.snapshot)
  }

  /** Some poll fails the session before it expires, or can come to. */
  predicate FailsInTime(settings: Settings, s: State) {
    || GoesStale(settings, FromRow(s.row))
    || (Cached(s, Pending) && GoesStale(settings, s.cache.value.snapshot))
    || exists id :: id in s.pollers && WillFail(settings, s.pollers[id])
  }

  /** The session has expired; or neither row nor poll has the columns of two writers, and no
      clash is ahead in time. */
  predicate NoBadToServe(settings: Settings, s: State) {
    || s.now > s.row.expires
    || (&& RowShaped(s) && !ClashAtHand(s)
        && (forall id :: id in s.pollers ==> !AboutToServeBad(s.pollers[id]))
        && !(MayFind(s.worker) && s.row.status == Pending && FailsInTime(settings, s)))
  }

  /** The polls of t that were served badly were so in s. */
  predicate NoneServedBad(s: State, t: State) {
    forall id :: id in t.pollers && ServedBad(t.pollers[id]) ==> id in s.pollers && s.pollers[id] == t.pollers[id]
  }

  lemma NoBadByPoll(settings: Settings, s: State, id: nat, ok: bool)
    requires SessionInv(settings, s) && NoBadToServe(settings, s) && Enabled(s, PollStep(id, ok))
    ensures NoBadToServe(settings, Take(settings, s, PollStep(id, ok)))
    ensures NoneServedBad(s, Take(settings, s, PollStep(id, ok)))
  {
  }

  lemma NoBadByOthers(settings: Settings, s: State, event: Event)
    requires SessionInv(settings, s) && NoBadToServe(settings, s) && Enabled(s, event) && !event.PollStep?
    ensures NoBadToServe(settings, Take(settings, s, event)) && NoneServedBad(s, Take(settings, s, event))
  {
  }

  lemma NoBadToServeStep(settings: Settings, s: State, event: Event)
    requires SessionInv(settings, s) && NoBadToServe(settings, s) && Enabled(s, event)
    ensures NoBadToServe(settings, Take(settings, s, event)) && NoneServedBad(s, Take(settings, s, event))
  {
    if event.PollStep? {
      NoBadByPoll(settings, s, event.id, event.ok);
    } else {
      NoBadByOthers(settings, s, event);
    }
  }

  lemma {:induction false} NoBadToServeRun(settings: Settings, s: State, events: seq<Event>)
    requires SessionInv(settings, s) && NoBadToServe(settings, s) && Feasible(settings, s, events)
    ensures NoneServedBad(s, Exec(settings, s, events))
    decreases |events|
  {
    if events == [] {
    } else {
      StepInv(settings, s, events[0]);
      NoBadToServeStep(settings, s, events[0]);
      NoBadToServeRun(settings, Take(settings, s, events[0]), events[1..]);
    }
  }

  /** A poll that misses the cache is served the row as it is. */
  lemma ServeBadRow(settings: Settings, s: State, t: State)
    requires SessionInv(settings, s) && Reaches(settings, s, t) && !RowShaped(t) && t.now <= t.row.expires
    ensures !NeverServedBad(settings, s)
  {
    StaysGood(settings, s, t);
    var u, id := NewPoll(settings, s, t, false);
    var v := TakeStep(settings, s, u, PollStep(id, true));
    assert ServedBad(v.pollers[id]);
  }

  lemma ServeClash(settings: Settings, s: State, t: State, id: nat)
    requires SessionInv(settings, s) && Reaches(settings, s, t) && t.now <= t.row.expires
    requires t.row.status == Pending && MayFind(t.worker) && id in t.pollers && WillFail(settings, t.pollers[id])
    ensures !NeverServedBad(settings, s)
  {
    StaysGood(settings, s, t);
    var u := ClashOverPending(settings, s, t, id);
    ServeBadRow(settings, s, u);
  }

  lemma BadServed(settings: Settings, s: State)
    requires SessionInv(settings, s) && !NoBadToServe(settings, s)
    ensures !NeverServedBad(settings, s)
  {
    ReachesSelf(settings, s);
    if !RowShaped(s) {
      ServeBadRow(settings, s, s);
    } else if ClashAtHand(s) {
      var u := ClashNow(settings, s);
      ServeBadRow(settings, s, u);
    } else if id :| id in s.pollers && AboutToServeBad(s.pollers[id]) {
      var u := TakeStep(settings, s, s, PollStep(id, true));
      assert ServedBad(u.pollers[id]);
    } else if id :| id in s.pollers && WillFail(settings, s.pollers[id]) {
      ServeClash(settings, s, s, id);
    } else {
      var u, id := NewPoll(settings, s, s, !GoesStale(settings, FromRow(s.row)));
      ServeClash(settings, s, u, id);
    }
  }

  /** No poll that is still to be answered is ever served a session that is not well shaped, in
      any run, if and only if the session has expired, or neither row nor poll has the columns of
      two writers and no clash is ahead in time. */
  lemma ServedStaysShapedIff(settings: Settings, s: State)
    requires SessionInv(settings, s)
    ensures NeverServedBad(settings, s) <==> NoBadToServe(settings, s)
  {
    if NoBadToServe(settings, s) {
      forall t | Reaches(settings, s, t) ensures NoneServedBad(s, t) {
        var events :| Feasible(settings, s, events) && Exec(settings, s, events) == t;
        NoBadToServeRun(settings, s, events);
      }
    } else {
      BadServed(settings, s);
    }
  }

  // ---------------------------------------------------------------- it happens both ways

  /** The worker gets as far as having loaded the pending row. */
  lemma WorkerHoldsResult(settings: Settings, s: State, t: State, offers: seq<nat>) returns (u: State)
    requires Reaches(settings, s, t) && SessionInv(settings, t) && t.worker.Searching? && Initial(t.row)
    ensures Reaches(settings, s, u) && u == t.(worker := u.worker)
    ensures WorkerHoldsPending(u.worker) && u.worker.snapshot.status == Done && u.worker.snapshot.itemsFound == |offers|
  {
    u := TakeStep(settings, s, t, ProviderAnswers(Found(offers)));
    u := TakeStep(settings, s, u, WorkerStep(false));
    u := TakeStep(settings, s, u, WorkerStep(false));
    u := TakeStep(settings, s, u, WorkerStep(true));
  }

  /** A poll gets as far as having loaded the pending row of any search. */
  lemma PollHoldsPending(settings: Settings, start: State) returns (t: State)
    requires start.pollers == map[] && Initial(start.row) && SessionInv(settings, start)
    requires start.now < StaleFrom(settings, FromRow(start.row))
    ensures Reaches(settings, start, t) && t.pollers.Keys == {0} && HoldsPending(t.pollers[0])
    ensures t.now == StaleFrom(settings, FromRow(start.row)) && t.row == start.row && t.worker == start.worker
  {
    t := SlowPoll(settings, start);
    t := TakeStep(settings, start, t, PollStep(0, true));
    t := TakeStep(settings, start, t, PollStep(0, false));
    t := TakeStep(settings, start, t, PollStep(0, true));
  }

  /** The worker and a poll have both loaded the pending row of any search. */
  lemma BothHoldPending(settings: Settings, agent: Option<nat>, params: string, created: int, rowCreated: int,
                        cached: bool, offers: seq<nat>)
    returns (t: State)
    requires CanFail(settings, created, rowCreated)
    ensures Reaches(settings, Started(settings, agent, params, created, rowCreated, cached), t)
    ensures SessionInv(settings, t) && t.pollers.Keys == {0} && HoldsPending(t.pollers[0])
    ensures WorkerHoldsPending(t.worker) && t.worker.snapshot.status == Done && t.worker.snapshot.itemsFound == |offers|
    ensures Initial(t.row) && t.now <= t.row.expires
  {
    var start := Started(settings, agent, params, created, rowCreated, cached);
    StartedIsGood(settings, agent, params, created, rowCreated, cached);
    t := PollHoldsPending(settings, start);
    StaysGood(settings, start, t);
    t := WorkerHoldsResult(settings, start, t, offers);
    StaysGood(settings, start, t);
  }

  /** A poll that misses the cache and is anonymous is served what the row holds. */
  lemma ServedRow(settings: Settings, s: State, t: State) returns (u: State)
    requires Reaches(settings, s, t) && 1 !in t.pollers && t.row.status != Pending && t.now <= t.row.expires
    ensures Reaches(settings, s, u) && u.row == t.row
    ensures 1 in u.pollers && u.pollers[1] == Answered(None, t.now, Served(FromRow(t.row)))
  {
    u := TakeStep(settings, s, t, Poll(1, None));
    u := TakeStep(settings, s, u, PollStep(1, false));
    u := TakeStep(settings, s, u, PollStep(1, true));
    u := TakeStep(settings, s, u, PollStep(1, true));
  }

  /** Worker first: any search that finds something can end as FAILED with its count, in the row
      and in what is served. */
  lemma FailedWithCount(settings: Settings, agent: Option<nat>, params: string, created: int, rowCreated: int,
                        cached: bool, offers: seq<nat>)
    returns (t: State)
    requires CanFail(settings, created, rowCreated) && offers != []
    ensures Reaches(settings, Started(settings, agent, params, created, rowCreated, cached), t) && !RowShaped(t)
    ensures t.row.status == SearchFailed && t.row.itemsFound == |offers|
    ensures 1 in t.pollers && ServedBad(t.pollers[1]) && t.pollers[1].answer.snapshot == FromRow(t.row)
  {
    var start := Started(settings, agent, params, created, rowCreated, cached);
    t := BothHoldPending(settings, agent, params, created, rowCreated, cached, offers);
    t := TakeStep(settings, start, t, WorkerStep(true));
    t := TakeStep(settings, start, t, PollStep(0, true));
    t := ServedRow(settings, start, t);
  }

  /** Poll first: any search can end as DONE with an error, in the row and in what is served. */
  lemma DoneWithError(settings: Settings, agent: Option<nat>, params: string, created: int, rowCreated: int,
                      cached: bool, offers: seq<nat>)
    returns (t: State)
    requires CanFail(settings, created, rowCreated)
    ensures Reaches(settings, Started(settings, agent, params, created, rowCreated, cached), t) && !RowShaped(t)
    ensures t.row.status == Done && t.row.itemsFound == |offers| && t.row.error == Some(DEADLINE_EXCEEDED)
    ensures 1 in t.pollers && ServedBad(t.pollers[1]) && t.pollers[1].answer.snapshot == FromRow(t.row)
  {
    var start := Started(settings, agent, params, created, rowCreated, cached);
    t := BothHoldPending(settings, agent, params, created, rowCreated, cached, offers);
    t := TakeStep(settings, start, t, PollStep(0, true));
    t := TakeStep(settings, start, t, WorkerStep(true));
    t := ServedRow(settings, start, t);
  }
}
