/** What polls are served of a search that start_search has started: stated on what was sent to
    start_search and on what the provider has answered. */
module SearchStart {
  import opened SearchFinality
  import opened SearchSessions
  import opened Wrappers

  /** The provider has answered with these offers. */
  predicate WasFound(events: seq<Event>, offers: seq<nat>) {
    exists i :: 0 <= i < |events| && events[i] == ProviderAnswers(Found(offers))
  }

  /** No offers, or the ones that the provider has answered with. */
  predicate FromProvider(events: seq<Event>, sn: Snapshot) {
    sn.offers == [] || WasFound(events, sn.offers)
  }

  predicate WorkerTrue(events: seq<Event>, w: Worker) {
    match w
    case Searching(base) => base.offers == []
    case WorkerReading(base, result) => base.offers == [] && (result.Found? ==> WasFound(events, result.offers))
    case WorkerStoring(sn) => FromProvider(events, sn)
    case WorkerLoading(sn) => FromProvider(events, sn)
    case WorkerFlushing(sn, _) => FromProvider(events, sn)
    case WorkerGone => true
  }

  predicate PollerTrue(events: seq<Event>, p: Poller) {
    match p
    case Asking(_) => true
    case Loading(_) => true
    case Answered(_, _, answer) => answer.Served? ==> FromProvider(events, answer.snapshot)
    case _ => FromProvider(events, p.snapshot)
  }

  /** All offers in the state are the provider's. */
  ghost predicate OffersTrue(events: seq<Event>, s: State) {
    && WorkerTrue(events, s.worker)
    && (s.cache.Some? ==> FromProvider(events, s.cache.value.snapshot))
    && forall id :: id in s.pollers ==> PollerTrue(events, s.pollers[id])
  }

  lemma OffersTrueStep(settings: Settings, all: seq<Event>, s: State, event: Event)
    requires OffersTrue(all, s) && Enabled(s, event)
    requires event.ProviderAnswers? && event.result.Found? ==> WasFound(all, event.result.offers)
    ensures OffersTrue(all, Take(settings, s, event))
  {
  }

  lemma {:induction false} OffersTrueRun(settings: Settings, all: seq<Event>, s: State, done: nat)
    requires done <= |all| && OffersTrue(all, s) && Feasible(settings, s, all[done..])
    ensures OffersTrue(all, Exec(settings, s, all[done..]))
    decreases |all| - done
  {
    var events := all[done..];
    if events == [] {
    } else {
      assert events[0] == all[done] && events[1..] == all[done + 1..];
      OffersTrueStep(settings, all, s, events[0]);
      OffersTrueRun(settings, all, Take(settings, s, events[0]), done + 1);
    }
  }

  /** Over every run from start_search: a poll is served the session of that agent and those
      parameters, to nobody else, no later than it expires, pending no longer than deadline and
      grace, and with no offers but those that the provider has answered with. */
  lemma StartedServes(settings: Settings, agent: Option<nat>, params: string, created: int, rowCreated: int,
                      cached: bool, events: seq<Event>, id: nat)
    requires created <= rowCreated
    requires Feasible(settings, Started(settings, agent, params, created, rowCreated, cached), events)
    requires var t := Exec(settings, Started(settings, agent, params, created, rowCreated, cached), events);
             id in t.pollers && t.pollers[id].Answered? && t.pollers[id].answer.Served?
    ensures var t := Exec(settings, Started(settings, agent, params, created, rowCreated, cached), events);
            var Answered(asker, at, Served(sn)) := t.pollers[id];
            && sn.agent == agent && sn.params == params && sn.expires == created + settings.ttl * 1_000_000
            && at <= created + settings.ttl * 1_000_000
            && (agent.Some? && asker.Some? ==> asker == agent)
            && (at - rowCreated > (settings.deadline + 5) * 1_000_000 ==> sn.status != Pending)
            && (sn.offers == [] || exists i :: 0 <= i < |events| && events[i] == ProviderAnswers(Found(sn.offers)))
  {
    var start := Started(settings, agent, params, created, rowCreated, cached);
    StartedIsGood(settings, agent, params, created, rowCreated, cached);
    EverySessionIsGood(settings, start, events);
    assert events[0..] == events;
    OffersTrueRun(settings, events, start, 0);
    assert PollerTrue(events, Exec(settings, start, events).pollers[id]);
  }

  /** Over every run from start_search: an answer is that the session has expired iff it comes
      later than created plus ttl, that it is another agent's iff it comes in time and both are
      agents and differ, and otherwise the session. */
  lemma StartedAnswers(settings: Settings, agent: Option<nat>, params: string, created: int, rowCreated: int,
                       cached: bool, events: seq<Event>, id: nat)
    requires created <= rowCreated
    requires Feasible(settings, Started(settings, agent, params, created, rowCreated, cached), events)
    requires var t := Exec(settings, Started(settings, agent, params, created, rowCreated, cached), events);
             id in t.pollers && t.pollers[id].Answered?
    ensures var t := Exec(settings, Started(settings, agent, params, created, rowCreated, cached), events);
            var Answered(asker, at, answer) := t.pollers[id];
            if at > created + settings.ttl * 1_000_000 then answer == Expired
            else if agent.Some? && asker.Some? && agent != asker then answer == NotYours
            else answer.Served?
  {
    var start := Started(settings, agent, params, created, rowCreated, cached);
    StartedIsGood(settings, agent, params, created, rowCreated, cached);
    EverySessionIsGood(settings, start, events);
    var t := Exec(settings, start, events);
    assert PollerGood(settings, t.pollers[id], t.row, t.worker.WorkerGone?);
  }

  /** A started session is found in the cache for its whole time, if the cache took it. */
  lemma StartedIsCached(settings: Settings, agent: Option<nat>, params: string, created: int, rowCreated: int, now: int)
    requires created <= rowCreated
    ensures var cache := Started(settings, agent, params, created, rowCreated, true).cache;
            if now < rowCreated + settings.ttl * 1_000_000
            then Live(cache, now)
                 == Some(Snapshot(agent, params, Pending, [], 0, None, created, created + settings.ttl * 1_000_000))
            else Live(cache, now) == None
  {
  }

  /** A stored snapshot is found until the last whole second of its session, and for one second
      at least. */
  lemma StoredUntilExpiry(sn: Snapshot, now: int, later: int)
    ensures now <= later < now + 1_000_000 ==> Live(Some(StoredEntry(sn, now)), later) == Some(sn)
    ensures later <= sn.expires - 1_000_000 ==> Live(Some(StoredEntry(sn, now)), later) == Some(sn)
    ensures later >= sn.expires && later >= now + 1_000_000 ==> Live(Some(StoredEntry(sn, now)), later) == None
  {
  }

  /** What a search comes to, by what the provider answers. */
  function Outcome(result: Result): (Status, seq<nat>, Option<string>) {
    match result
    case Found(offers) => (Done, offers, None)
    case TimedOut => (SearchFailed, [], Some("provider_timeout"))
    case Broken(message) => (SearchFailed, [], Some("provider_error: " + message))
  }

  /** A search whose worker finishes in time is answered with its outcome, from the cache with
      the offers and from the row without them. */
  lemma FinishedIsServed(settings: Settings, agent: Option<nat>, params: string, created: int, rowCreated: int,
                         cached: bool, result: Result, hit: bool)
    returns (t: State)
    requires created <= rowCreated <= created + settings.ttl * 1_000_000
    ensures Reaches(settings, Started(settings, agent, params, created, rowCreated, cached), t)
    ensures 0 in t.pollers && t.pollers[0].Answered? && t.pollers[0].answer.Served?
    ensures var sn := t.pollers[0].answer.snapshot; var (status, offers, error) := Outcome(result);
            && sn.agent == agent && sn.params == params && sn.status == status && sn.error == error
            && sn.itemsFound == |offers| && sn.offers == if hit then offers else []
  {
    var start := Started(settings, agent, params, created, rowCreated, cached);
    ReachesSelf(settings, start);
    t := TakeStep(settings, start, start, ProviderAnswers(result));
    t := TakeStep(settings, start, t, WorkerStep(false));
    t := TakeStep(settings, start, t, WorkerStep(true));
    t := TakeStep(settings, start, t, WorkerStep(true));
    t := TakeStep(settings, start, t, WorkerStep(true));
    t := PollOnce(settings, start, t, agent, hit);
  }

  /** A poll of the agent itself, answered from the cache or from the row. */
  lemma PollOnce(settings: Settings, s: State, t: State, agent: Option<nat>, hit: bool) returns (u: State)
    requires Reaches(settings, s, t) && 0 !in t.pollers && t.now <= t.row.expires
    requires t.row.agent == agent && t.row.status != Pending
    requires hit ==> Live(t.cache, t.now).Some? && t.cache.value.snapshot.expires == t.row.expires
                     && t.cache.value.snapshot.agent == agent && t.cache.value.snapshot.status != Pending
    ensures Reaches(settings, s, u) && 0 in u.pollers
    ensures u.pollers[0] == Answered(agent, t.now, Served(if hit then t.cache.value.snapshot else FromRow(t.row)))
  {
    u := TakeStep(settings, s, t, Poll(0, agent));
    u := TakeStep(settings, s, u, PollStep(0, hit));
    if !hit {
      u := TakeStep(settings, s, u, PollStep(0, true));
    }
    u := TakeStep(settings, s, u, PollStep(0, true));
  }
}
