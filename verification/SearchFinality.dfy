/** When the outcome of a search is final. Neither DONE nor FAILED is: a late worker overwrites a
    session that a poll has failed, and a slow poll overwrites a session that is done. The exact
    conditions, on what is stored and on what later polls are served, can be read off a state. */
module SearchFinality {
  import opened FreshIds
  import opened SearchSessions
  import opened Wrappers

  /** The cache or the row has this status. */
  predicate Stored(s: State, status: Status) {
    s.row.status == status || (s.cache.Some? && s.cache.value.snapshot.status == status)
  }

  /** The worker can no longer store any other status than this one. */
  predicate WorkerOnly(w: Worker, status: Status) {
    match w
    case Searching(_) => false
    case WorkerReading(_, result) => (if result.Found? then Done else SearchFailed) == status
    case WorkerStoring(sn) => sn.status == status
    case WorkerLoading(sn) => sn.status == status
    case WorkerFlushing(sn, _) => sn.status == status
    case WorkerGone => true
  }

  /** Nothing is done, and the worker will not store a result. */
  predicate NoDoneAhead(s: State) {
    !Stored(s, Done) && WorkerOnly(s.worker, SearchFailed)
  }

  /** Everything stored is done. */
  predicate Settled(s: State) {
    s.row.status == Done && (s.cache.Some? ==> s.cache.value.snapshot.status == Done)
  }

  /** The poll will fail the session in cache or row: it has not come to the row yet, or has
      loaded one that was not failed. One that has loaded a failed row leaves the status alone. */
  predicate WillFailRow(p: Poller) {
    p.FailStoring? || p.FailLoading? || (p.FailFlushing? && p.loaded.status != SearchFailed)
  }

  /** The poll is failing the session, or can still come to. */
  predicate MayFail(p: Poller) {
    WillFailRow(p) || (p.Deciding? && p.snapshot.status == Pending)
  }

  /** Everything is done, so that the worker is gone, and no poll will store a failure. */
  predicate NoFailAhead(s: State) {
    Settled(s) && forall id :: id in s.pollers ==> !MayFail(s.pollers[id])
  }

  // ---------------------------------------------------------------- what is stored

  lemma NoDoneAheadStep(settings: Settings, s: State, event: Event)
    requires SessionInv(settings, s) && NoDoneAhead(s) && Enabled(s, event)
    ensures NoDoneAhead(Take(settings, s, event))
  {
  }

  lemma {:induction false} NoDoneAheadRun(settings: Settings, s: State, events: seq<Event>)
    requires SessionInv(settings, s) && NoDoneAhead(s) && Feasible(settings, s, events)
    ensures NoDoneAhead(Exec(settings, s, events))
    decreases |events|
  {
    if events == [] {
    } else {
      StepInv(settings, s, events[0]);
      NoDoneAheadStep(settings, s, events[0]);
      NoDoneAheadRun(settings, Take(settings, s, events[0]), events[1..]);
    }
  }

  lemma NoFailAheadStep(settings: Settings, s: State, event: Event)
    requires SessionInv(settings, s) && NoFailAhead(s) && Enabled(s, event)
    ensures NoFailAhead(Take(settings, s, event))
  {
  }

  lemma {:induction false} NoFailAheadRun(settings: Settings, s: State, events: seq<Event>)
    requires SessionInv(settings, s) && NoFailAhead(s) && Feasible(settings, s, events)
    ensures NoFailAhead(Exec(settings, s, events))
    decreases |events|
  {
    if events == [] {
    } else {
      StepInv(settings, s, events[0]);
      NoFailAheadStep(settings, s, events[0]);
      NoFailAheadRun(settings, Take(settings, s, events[0]), events[1..]);
    }
  }

  /** A worker that can store this status does so in the row at once, whatever becomes of the cache. */
  lemma WorkerStores(settings: Settings, s: State, t: State, status: Status) returns (u: State)
    requires Reaches(settings, s, t) && SessionInv(settings, t)
    requires status != Pending && !WorkerOnly(t.worker, if status == Done then SearchFailed else Done)
    ensures Reaches(settings, s, u)
    ensures u.row == t.row.(status := status, itemsFound := u.row.itemsFound, error := u.row.error)
    ensures u.now == t.now && u.pollers == t.pollers && u.cache == t.cache
  {
    u := t;
    if u.worker.Searching? {
      u := TakeStep(settings, s, u, ProviderAnswers(if status == Done then Found([]) else TimedOut));
    }
    if u.worker.WorkerReading? {
      u := TakeStep(settings, s, u, WorkerStep(false));
    }
    if u.worker.WorkerStoring? {
      u := TakeStep(settings, s, u, WorkerStep(false));
    }
    if u.worker.WorkerLoading? {
      u := TakeStep(settings, s, u, WorkerStep(true));
    }
    u := TakeStep(settings, s, u, WorkerStep(true));
  }

  /** FAILED is final, in cache and table: in no run from here does DONE get stored, if and
      only if nothing is done and the worker is gone or is storing a failure. */
  lemma FailedIsFinalIff(settings: Settings, s: State)
    requires SessionInv(settings, s)
    ensures (forall t :: Reaches(settings, s, t) ==> !Stored(t, Done)) <==> NoDoneAhead(s)
  {
    ReachesSelf(settings, s);
    if NoDoneAhead(s) {
      forall t | Reaches(settings, s, t) ensures !Stored(t, Done) {
        var events :| Feasible(settings, s, events) && Exec(settings, s, events) == t;
        NoDoneAheadRun(settings, s, events);
      }
    } else if !Stored(s, Done) {
      var t := WorkerStores(settings, s, s, Done);
      assert Stored(t, Done);
    }
  }

  /** Time passes until the given moment. */
  lemma Wait(settings: Settings, s: State, t: State, moment: int) returns (u: State)
    requires Reaches(settings, s, t)
    ensures Reaches(settings, s, u) && u == t.(now := if t.now < moment then moment else t.now)
  {
    u := TakeStep(settings, s, t, Tick(if t.now < moment then moment - t.now else 0));
  }

  /** The first moment at which a pending snapshot is stale. */
  function StaleFrom(settings: Settings, sn: Snapshot): int {
    sn.created + (settings.deadline + GRACE) * SECOND + 1
  }

  /** A poll that decides on a pending snapshot fails the row, once it is stale. */
  lemma PendingPollFails(settings: Settings, s: State, t: State, id: nat) returns (u: State)
    requires Reaches(settings, s, t) && id in t.pollers && MayFail(t.pollers[id])
    requires SessionInv(settings, t)
    ensures Reaches(settings, s, u) && u.row.status == SearchFailed && u.row.expires == t.row.expires
    ensures u.pollers.Keys == t.pollers.Keys && u.worker == t.worker
    ensures u.now == if t.pollers[id].Deciding? && t.now < StaleFrom(settings, t.pollers[id].snapshot)
                     then StaleFrom(settings, t.pollers[id].snapshot) else t.now
  {
    u := t;
    if u.pollers[id].Deciding? {
      u := Wait(settings, s, u, StaleFrom(settings, t.pollers[id].snapshot));
      u := TakeStep(settings, s, u, PollStep(id, true));
    }
    if u.pollers[id].FailStoring? {
      u := TakeStep(settings, s, u, PollStep(id, false));
    }
    if u.pollers[id].FailLoading? {
      u := TakeStep(settings, s, u, PollStep(id, true));
    }
    u := TakeStep(settings, s, u, PollStep(id, true));
  }

  /** DONE is final, in cache and table: everything stored stays done in every run from here, if
      and only if it is now, and no poll holds a pending snapshot of it, or is failing it without
      having loaded a row that was failed already. */
  lemma DoneIsFinalIff(settings: Settings, s: State)
    requires SessionInv(settings, s)
    ensures (forall t :: Reaches(settings, s, t) ==> Settled(t)) <==> NoFailAhead(s)
  {
    ReachesSelf(settings, s);
    if NoFailAhead(s) {
      forall t | Reaches(settings, s, t) ensures Settled(t) {
        var events :| Feasible(settings, s, events) && Exec(settings, s, events) == t;
        NoFailAheadRun(settings, s, events);
      }
    } else if Settled(s) {
      var id :| id in s.pollers && MayFail(s.pollers[id]);
      var t := PendingPollFails(settings, s, s, id);
      assert !Settled(t);
    }
  }

  // ---------------------------------------------------------------- what polls are served

  predicate ServedAs(p: Poller, status: Status) {
    p.Answered? && p.answer.Served? && p.answer.snapshot.status == status
  }

  /** No poll that is not answered yet, or not even made, is ever served this status. */
  ghost predicate NeverServed(settings: Settings, s: State, status: Status) {
    forall t, id :: Reaches(settings, s, t) && id in t.pollers && ServedAs(t.pollers[id], status) ==>
      id in s.pollers && s.pollers[id] == t.pollers[id]
  }

  /** The poll may see the session: one of them is anonymous, or they belong to one agent. */
  predicate MaySee(asker: Option<nat>, sn: Snapshot) {
    sn.agent.Some? && asker.Some? ==> sn.agent == asker
  }

  /** A poll finds this snapshot in the cache. */
  predicate Cached(s: State, status: Status) {
    Live(s.cache, s.now).Some? && Live(s.cache, s.now).value.status == status
  }

  /** The poll is about to be answered with this status. */
  predicate AboutToServe(p: Poller, status: Status) {
    (p.Deciding? || p.FailFlushing? || p.Answering?) && p.snapshot.status == status && MaySee(p.asker, p.snapshot)
  }

  /** The session has expired, or neither cache, row, worker nor poll holds a result to serve. */
  predicate NoDoneToServe(s: State) {
    || s.now > s.row.expires
    || (&& s.row.status != Done && !Cached(s, Done) && WorkerOnly(s.worker, SearchFailed)
        && forall id :: id in s.pollers ==> !AboutToServe(s.pollers[id], Done))
  }

  /** Pending snapshots of the session go stale before it expires. */
  predicate GoesStale(settings: Settings, sn: Snapshot) {
    sn.status == Pending && StaleFrom(settings, sn) <= sn.expires
  }

  /** The poll will store a failure before the session expires, if nothing else happens to it. */
  predicate WillFail(settings: Settings, p: Poller) {
    WillFailRow(p) || (p.Deciding? && GoesStale(settings, p.snapshot))
  }

  /** The session has expired, or neither cache, row, worker nor poll holds a failure to serve,
      or a pending snapshot that is stale before the session expires. */
  predicate NoFailToServe(settings: Settings, s: State) {
    || s.now > s.row.expires
    || (&& s.row.status != SearchFailed && !GoesStale(settings, FromRow(s.row))
        && !Cached(s, SearchFailed)
        && (Cached(s, Pending) ==> !GoesStale(settings, s.cache.value.snapshot))
        && WorkerOnly(s.worker, Done)
        && forall id :: id in s.pollers ==>
             !AboutToServe(s.pollers[id], SearchFailed) && !WillFail(settings, s.pollers[id]))
  }

  predicate NoneToServe(settings: Settings, s: State, status: Status) {
    match status
    case Pending => false
    case Done => NoDoneToServe(s)
    case SearchFailed => NoFailToServe(settings, s)
  }

  /** The polls of t with this answer had it in s. */
  predicate NoneServed(s: State, t: State, status: Status) {
    forall id :: id in t.pollers && ServedAs(t.pollers[id], status) ==>
        id in s.pollers && s.pollers[id] == t.pollers[id]
  }

  lemma NoDoneToServeStep(settings: Settings, s: State, event: Event)
    requires SessionInv(settings, s) && NoDoneToServe(s) && Enabled(s, event)
    ensures NoDoneToServe(Take(settings, s, event)) && NoneServed(s, Take(settings, s, event), Done)
  {
  }

  lemma NoFailToServeStep(settings: Settings, s: State, event: Event)
    requires SessionInv(settings, s) && NoFailToServe(settings, s) && Enabled(s, event)
    ensures NoFailToServe(settings, Take(settings, s, event)) && NoneServed(s, Take(settings, s, event), SearchFailed)
  {
  }

  lemma NoneToServeStep(settings: Settings, s: State, event: Event, status: Status)
    requires SessionInv(settings, s) && NoneToServe(settings, s, status) && Enabled(s, event)
    ensures NoneToServe(settings, Take(settings, s, event), status) && NoneServed(s, Take(settings, s, event), status)
  {
    if status == Done {
      NoDoneToServeStep(settings, s, event);
    } else {
      NoFailToServeStep(settings, s, event);
    }
  }

  lemma {:induction false} NoneToServeRun(settings: Settings, s: State, events: seq<Event>, status: Status)
    requires SessionInv(settings, s) && NoneToServe(settings, s, status) && Feasible(settings, s, events)
    ensures NoneServed(s, Exec(settings, s, events), status)
    decreases |events|
  {
    if events == [] {
    } else {
      StepInv(settings, s, events[0]);
      NoneToServeStep(settings, s, events[0], status);
      NoneToServeRun(settings, Take(settings, s, events[0]), events[1..], status);
    }
  }

  lemma {:induction false} InvReached(settings: Settings, s: State, events: seq<Event>)
    requires SessionInv(settings, s) && Feasible(settings, s, events)
    ensures SessionInv(settings, Exec(settings, s, events))
    decreases |events|
  {
    if events == [] {
    } else {
      StepInv(settings, s, events[0]);
      InvReached(settings, Take(settings, s, events[0]), events[1..]);
    }
  }

  /** A new poll, which s does not know, reads the snapshot in the cache or that of the row. */
  lemma NewPoll(settings: Settings, s: State, t: State, fromCache: bool) returns (u: State, id: nat)
    requires Reaches(settings, s, t) && (fromCache ==> Live(t.cache, t.now).Some?)
    ensures Reaches(settings, s, u) && id !in s.pollers && id !in t.pollers
    ensures u == t.(pollers := t.pollers[id := Deciding(None, if fromCache then t.cache.value.snapshot
        else FromRow(t.row))])
  {
    id := UnusedId(s.pollers.Keys + t.pollers.Keys);
    u := TakeStep(settings, s, t, Poll(id, None));
    u := TakeStep(settings, s, u, PollStep(id, fromCache));
    if !fromCache {
      u := TakeStep(settings, s, u, PollStep(id, true));
    }
  }

  /** A poll that is about to be answered is answered. */
  lemma AnswerNow(settings: Settings, s: State, t: State, id: nat, status: Status)
    requires Reaches(settings, s, t) && SessionInv(settings, t)
    requires id in t.pollers && AboutToServe(t.pollers[id], status) && status != Pending
    requires t.now <= t.row.expires && (id in s.pollers ==> !s.pollers[id].Answered?)
    ensures !NeverServed(settings, s, status)
  {
    var u := t;
    if u.pollers[id].FailFlushing? {
      u := TakeStep(settings, s, u, PollStep(id, false));
    }
    u := TakeStep(settings, s, u, PollStep(id, true));
    assert ServedAs(u.pollers[id], status);
  }

  lemma ServeRow(settings: Settings, s: State, t: State, status: Status)
    requires Reaches(settings, s, t) && SessionInv(settings, t)
    requires t.row.status == status && t.now <= t.row.expires && status != Pending
    ensures !NeverServed(settings, s, status)
  {
    var u, id := NewPoll(settings, s, t, false);
    var v := TakeStep(settings, s, u, PollStep(id, true));
    assert ServedAs(v.pollers[id], status);
  }

  lemma ServeCached(settings: Settings, s: State, status: Status)
    requires SessionInv(settings, s) && Cached(s, status) && s.now <= s.row.expires && status != Pending
    ensures !NeverServed(settings, s, status)
  {
    ReachesSelf(settings, s);
    var u, id := NewPoll(settings, s, s, true);
    var v := TakeStep(settings, s, u, PollStep(id, true));
    assert ServedAs(v.pollers[id], status);
  }

  lemma ServeWorker(settings: Settings, s: State, status: Status)
    requires SessionInv(settings, s) && s.now <= s.row.expires && status != Pending
    requires !WorkerOnly(s.worker, if status == Done then SearchFailed else Done)
    ensures !NeverServed(settings, s, status)
  {
    ReachesSelf(settings, s);
    var u := WorkerStores(settings, s, s, status);
    StaysGood(settings, s, u);
    ServeRow(settings, s, u, status);
  }

  lemma StaysGood(settings: Settings, s: State, t: State)
    requires SessionInv(settings, s) && Reaches(settings, s, t)
    ensures SessionInv(settings, t)
  {
    var events :| Feasible(settings, s, events) && Exec(settings, s, events) == t;
    InvReached(settings, s, events);
  }

  /** A poll that will fail the session in time makes a later poll see that. */
  lemma ServeFailing(settings: Settings, s: State, t: State, id: nat)
    requires SessionInv(settings, s) && Reaches(settings, s, t) && t.now <= t.row.expires
    requires id in t.pollers && WillFail(settings, t.pollers[id])
    ensures !NeverServed(settings, s, SearchFailed)
  {
    StaysGood(settings, s, t);
    var u := PendingPollFails(settings, s, t, id);
    StaysGood(settings, s, u);
    ServeRow(settings, s, u, SearchFailed);
  }

  lemma DoneServed(settings: Settings, s: State)
    requires SessionInv(settings, s) && !NoDoneToServe(s)
    ensures !NeverServed(settings, s, Done)
  {
    ReachesSelf(settings, s);
    if s.row.status == Done {
      ServeRow(settings, s, s, Done);
    } else if Cached(s, Done) {
      ServeCached(settings, s, Done);
    } else if !WorkerOnly(s.worker, SearchFailed) {
      ServeWorker(settings, s, Done);
    } else {
      var id :| id in s.pollers && AboutToServe(s.pollers[id], Done);
      AnswerNow(settings, s, s, id, Done);
    }
  }

  lemma PendingFound(settings: Settings, s: State, fromCache: bool)
    requires SessionInv(settings, s) && s.now <= s.row.expires
    requires if fromCache then Cached(s, Pending) && GoesStale(settings, s.cache.value.snapshot)
             else GoesStale(settings, FromRow(s.row))
    ensures !NeverServed(settings, s, SearchFailed)
  {
    ReachesSelf(settings, s);
    var u, id := NewPoll(settings, s, s, fromCache);
    ServeFailing(settings, s, u, id);
  }

  lemma FailureServed(settings: Settings, s: State)
    requires SessionInv(settings, s) && !NoFailToServe(settings, s)
    ensures !NeverServed(settings, s, SearchFailed)
  {
    ReachesSelf(settings, s);
    if s.row.status == SearchFailed {
      ServeRow(settings, s, s, SearchFailed);
    } else if Cached(s, SearchFailed) {
      ServeCached(settings, s, SearchFailed);
    } else if !WorkerOnly(s.worker, Done) {
      ServeWorker(settings, s, SearchFailed);
    } else if GoesStale(settings, FromRow(s.row)) {
      PendingFound(settings, s, false);
    } else if Cached(s, Pending) && GoesStale(settings, s.cache.value.snapshot) {
      PendingFound(settings, s, true);
    } else {
      var id :| id in s.pollers
                && (AboutToServe(s.pollers[id], SearchFailed) || WillFail(settings, s.pollers[id]));
      if WillFail(settings, s.pollers[id]) {
        ServeFailing(settings, s, s, id);
      } else {
        AnswerNow(settings, s, s, id, SearchFailed);
      }
    }
  }

  /** When answers are final. No poll that is still to be answered is ever served a done session,
      in any run, if and only if the session has expired, or nothing holds a result to serve. It
      is never served a failed one if and only if the session has expired, or nothing holds a
      failure, or a pending snapshot that goes stale before the session expires. */
  lemma AnswersAreFinalIff(settings: Settings, s: State)
    requires SessionInv(settings, s)
    ensures NeverServed(settings, s, Done) <==> NoDoneToServe(s)
    ensures NeverServed(settings, s, SearchFailed) <==> NoFailToServe(settings, s)
  {
    forall status, t | NoneToServe(settings, s, status) && Reaches(settings, s, t) ensures NoneServed(s, t, status) {
      var events :| Feasible(settings, s, events) && Exec(settings, s, events) == t;
      NoneToServeRun(settings, s, events, status);
    }
    assert NoDoneToServe(s) ==> NeverServed(settings, s, Done) by {
      assert NoneToServe(settings, s, Done) <==> NoDoneToServe(s);
    }
    assert NoFailToServe(settings, s) ==> NeverServed(settings, s, SearchFailed) by {
      assert NoneToServe(settings, s, SearchFailed) <==> NoFailToServe(settings, s);
    }
    if !NoDoneToServe(s) { DoneServed(settings, s); }
    if !NoFailToServe(settings, s) { FailureServed(settings, s); }
  }

  // ---------------------------------------------------------------- it happens both ways

  /** Any search that can go stale before it expires. */
  predicate CanFail(settings: Settings, created: int, rowCreated: int) {
    created <= rowCreated && rowCreated + (settings.deadline + GRACE) * SECOND < created + settings.ttl * SECOND
  }

  /** Some poll got this answer about a session in this status. */
  predicate Got(s: State, id: nat, status: Status, offers: seq<nat>) {
    id in s.pollers && ServedAs(s.pollers[id], status) && s.pollers[id].answer.snapshot.offers == offers
  }

  /** A poll that missed the cache decides on the pending row, and the row goes stale. */
  lemma SlowPoll(settings: Settings, start: State) returns (t: State)
    requires start.pollers == map[] && start.row.status == Pending && SessionInv(settings, start)
    requires start.now < StaleFrom(settings, FromRow(start.row))
    ensures Reaches(settings, start, t)
    ensures t == start.(now := StaleFrom(settings, FromRow(start.row)),
        pollers := map[0 := Deciding(None, FromRow(start.row))])
  {
    ReachesSelf(settings, start);
    t := TakeStep(settings, start, start, Poll(0, None));
    t := TakeStep(settings, start, t, PollStep(0, false));
    t := TakeStep(settings, start, t, PollStep(0, true));
    t := Wait(settings, start, t, StaleFrom(settings, FromRow(start.row)));
  }

  /** The worker finds offers, and stores and persists them. */
  lemma WorkerFinishes(settings: Settings, s: State, t: State, offers: seq<nat>) returns (u: State)
    requires Reaches(settings, s, t) && SessionInv(settings, t) && t.worker.Searching?
    ensures Reaches(settings, s, u) && u.now == t.now && u.pollers == t.pollers && u.row.status == Done
    ensures u.row.expires == t.row.expires && Cached(u, Done) && u.cache.value.snapshot.offers == offers
    ensures u.cache.value.snapshot.agent == u.row.agent && u.cache.value.snapshot.expires == u.row.expires
  {
    u := TakeStep(settings, s, t, ProviderAnswers(Found(offers)));
    u := TakeStep(settings, s, u, WorkerStep(false));
    u := TakeStep(settings, s, u, WorkerStep(true));
    u := TakeStep(settings, s, u, WorkerStep(true));
    u := TakeStep(settings, s, u, WorkerStep(true));
  }

  /** The slow poll fails the session in cache and row. */
  lemma SlowPollFails(settings: Settings, s: State, t: State) returns (u: State)
    requires Reaches(settings, s, t) && SessionInv(settings, t) && 0 in t.pollers && t.pollers[0].Deciding?
    requires t.pollers[0].asker == None && t.pollers[0].snapshot.status == Pending
    requires StaleFrom(settings, t.pollers[0].snapshot) <= t.now <= t.row.expires
    ensures Reaches(settings, s, u) && u == t.(cache := u.cache, row := u.row, pollers := u.pollers)
    ensures u.row.status == SearchFailed && Cached(u, SearchFailed) && u.row.expires == t.row.expires
    ensures Got(u, 0, SearchFailed, []) && u.pollers.Keys == t.pollers.Keys
    ensures u.pollers[0].answer.snapshot.error == Some("deadline_exceeded")
  {
    u := TakeStep(settings, s, t, PollStep(0, true));
    u := TakeStep(settings, s, u, PollStep(0, true));
    u := TakeStep(settings, s, u, PollStep(0, true));
    u := TakeStep(settings, s, u, PollStep(0, true));
    u := TakeStep(settings, s, u, PollStep(0, true));
  }

  /** Another poll is served what is in the cache. */
  lemma CachedPoll(settings: Settings, s: State, t: State, id: nat, status: Status) returns (u: State)
    requires Reaches(settings, s, t) && SessionInv(settings, t) && id !in t.pollers && status != Pending
    requires Cached(t, status) && t.now <= t.row.expires
    ensures Reaches(settings, s, u) && u == t.(pollers := u.pollers) && u.pollers.Keys == t.pollers.Keys + {id}
    ensures Got(u, id, status, t.cache.value.snapshot.offers)
    ensures forall other :: other in t.pollers ==> other in u.pollers && u.pollers[other] == t.pollers[other]
  {
    u := TakeStep(settings, s, t, Poll(id, None));
    u := TakeStep(settings, s, u, PollStep(id, true));
    u := TakeStep(settings, s, u, PollStep(id, true));
  }

  /** FAILED can become DONE: whatever the search, a poll can be told that it failed, and a
      later one be served what it found. */
  lemma FailedCanBecomeDone(settings: Settings, agent: Option<nat>, params: string, created: int, rowCreated: int,
                            cached: bool, offers: seq<nat>)
    returns (failed: State, done: State)
    requires CanFail(settings, created, rowCreated)
    ensures Reaches(settings, Started(settings, agent, params, created, rowCreated, cached), failed)
    ensures Reaches(settings, failed, done)
    ensures Got(failed, 0, SearchFailed, []) && 1 !in failed.pollers && Got(done, 1, Done, offers)
    ensures failed.pollers[0].answer.snapshot.error == Some("deadline_exceeded")
    ensures done.row.status == Done && Cached(done, Done)
  {
    var start := Started(settings, agent, params, created, rowCreated, cached);
    StartedIsGood(settings, agent, params, created, rowCreated, cached);
    failed := SlowPoll(settings, start);
    StaysGood(settings, start, failed);
    failed := SlowPollFails(settings, start, failed);
    StaysGood(settings, start, failed);
    ReachesSelf(settings, failed);
    done := WorkerFinishes(settings, failed, failed, offers);
    StaysGood(settings, failed, done);
    done := CachedPoll(settings, failed, done, 1, Done);
  }

  /** The worker finishes, and a poll is served its offers, while another holds the stale row. */
  lemma DoneWithSlowPoll(settings: Settings, start: State, offers: seq<nat>) returns (done: State)
    requires start.pollers == map[] && start.row.status == Pending && SessionInv(settings, start)
    requires start.worker.Searching? && start.now < StaleFrom(settings, FromRow(start.row)) <= start.row.expires
    ensures Reaches(settings, start, done) && SessionInv(settings, done) && Got(done, 1, Done, offers)
    ensures done.pollers.Keys == {0, 1} && done.pollers[0] == Deciding(None, FromRow(start.row))
    ensures done.now == StaleFrom(settings, FromRow(start.row)) && done.row.expires == start.row.expires
  {
    done := SlowPoll(settings, start);
    StaysGood(settings, start, done);
    done := WorkerFinishes(settings, start, done, offers);
    StaysGood(settings, start, done);
    done := CachedPoll(settings, start, done, 1, Done);
    StaysGood(settings, start, done);
  }

  /** DONE can become FAILED: whatever the search, a poll can be served its offers, and a slow
      one that decided on the pending row before then overwrites cache and row, so that the
      offers are gone and a later poll is told that the search failed. */
  lemma DoneCanBecomeFailed(settings: Settings, agent: Option<nat>, params: string, created: int, rowCreated: int,
                            cached: bool, offers: seq<nat>)
    returns (done: State, failed: State)
    requires CanFail(settings, created, rowCreated)
    ensures Reaches(settings, Started(settings, agent, params, created, rowCreated, cached), done)
    ensures Reaches(settings, done, failed)
    ensures Got(done, 1, Done, offers) && 2 !in done.pollers && Got(failed, 2, SearchFailed, [])
    ensures failed.row.status == SearchFailed && Cached(failed, SearchFailed)
  {
    var start := Started(settings, agent, params, created, rowCreated, cached);
    StartedIsGood(settings, agent, params, created, rowCreated, cached);
    done := DoneWithSlowPoll(settings, start, offers);
    ReachesSelf(settings, done);
    failed := SlowPollFails(settings, done, done);
    StaysGood(settings, done, failed);
    failed := CachedPoll(settings, done, failed, 2, SearchFailed);
  }
}
