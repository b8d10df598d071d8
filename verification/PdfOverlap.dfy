/** When written tickets are safe: a condition on which jobs there are and where they can run,
    that is, on the messages, the consumers, and the calls of generate_sync. */
module PdfOverlap {
  import opened PdfWorker

  /** The job is for this order. */
  predicate Asks(k: Setting, j: Job, o: OrderId) {
    match j
    case Message(m) => m in k.messages && k.messages[m] == For(o)
    case Call(c) => c in k.calls && k.calls[c].order == o
    case Stray(_) => false
  }

  /** The job can run in this process: a message wherever there is a consumer. */
  predicate RunsIn(k: Setting, j: Job, p: ProcessId) {
    match j
    case Message(_) => p in k.workers
    case Call(c) => c in k.calls && k.calls[c].process == p
    case Stray(_) => false
  }

  /** Two jobs for one existing order that can run in different processes; or one message twice,
      when its first handler can have lost its connection. */
  predicate Clash(k: Setting, steady: bool, o: OrderId, i: Job, p: ProcessId, j: Job, q: ProcessId) {
    && o in k.orders && Asks(k, i, o) && Asks(k, j, o)
    && RunsIn(k, i, p) && RunsIn(k, j, q) && p != q
    && (i != j || (!steady && i.Message?))
  }

  ghost predicate NoClash(k: Setting, steady: bool) {
    forall o, i, p, j, q :: !Clash(k, steady, o, i, p, j, q)
  }

  // ---------------------------------------------------------------- without clashes

  /** The job that a flight goes back to. */
  predicate ComesFrom(k: Setting, i: Job, j: Job, f: Flight) {
    && f.payload.For? && Asks(k, i, f.payload.order) && RunsIn(k, i, f.process)
    && if j.Stray? then i.Message? else i == j
  }

  /** Handlers that have lost their connection go back to messages, and there are none in a
      steady run. */
  ghost predicate StraysExplained(k: Setting, steady: bool, s: State) {
    forall n :: Stray(n) in s.flights ==>
      !steady && (s.flights[Stray(n)].payload.For? ==> exists i :: ComesFrom(k, i, Stray(n), s.flights[Stray(n)]))
  }

  lemma FlightComesFrom(k: Setting, steady: bool, s: State, j: Job) returns (i: Job)
    requires Conserved(k, s) && StraysExplained(k, steady, s) && j in s.flights && s.flights[j].payload.For?
    ensures ComesFrom(k, i, j, s.flights[j])
  {
    if j.Stray? {
      i :| ComesFrom(k, i, j, s.flights[j]);
    } else {
      i := j;
    }
  }

  lemma StraysStep(k: Setting, steady: bool, s: State, event: Event)
    requires Conserved(k, s) && StraysExplained(k, steady, s) && Enabled(k, s, event)
    requires event.Disconnect? ==> !steady
    ensures StraysExplained(k, steady, Take(k, s, event))
  {
    var t := Take(k, s, event);
    if event.Proceed? || event.Fault? {
      WorkKeepsPayload(k, s.files, s.flights[event.job]);
    }
    forall n | Stray(n) in t.flights && t.flights[Stray(n)].payload.For?
      ensures !steady && exists i :: ComesFrom(k, i, Stray(n), t.flights[Stray(n)])
    {
      if event.Disconnect? && event.stray == n {
        assert ComesFrom(k, Message(event.message), Stray(n), t.flights[Stray(n)]);
      } else {
        var i :| ComesFrom(k, i, Stray(n), s.flights[Stray(n)]);
        assert ComesFrom(k, i, Stray(n), t.flights[Stray(n)]);
      }
    }
  }

  lemma NoClashKeepsApart(k: Setting, steady: bool, s: State, event: Event)
    requires NoClash(k, steady) && TicketInv(k, s) && StraysExplained(k, steady, s) && Enabled(k, s, event)
    ensures KeepsApart(s, event)
  {
    if event.Proceed? && s.flights[event.job].stage.Opening? {
      var f := s.flights[event.job];
      assert AttemptsCounted(event.job, f) && FlightFiles(k, s.files, f);
      var a := FlightComesFrom(k, steady, s, event.job);
      forall i | i in s.flights && i != event.job && WritesFile(s.flights[i])
        ensures s.flights[i].payload != f.payload
      {
        if s.flights[i].payload == f.payload {
          var b := FlightComesFrom(k, steady, s, i);
          assert s.flights[i].process != f.process;
          assert Clash(k, steady, f.payload.order, a, f.process, b, s.flights[i].process);
        }
      }
    }
  }

  lemma {:induction false} NoClashRun(k: Setting, steady: bool, s: State, events: seq<Event>)
    requires NoClash(k, steady) && TicketInv(k, s) && StraysExplained(k, steady, s) && Feasible(k, s, events)
    requires steady ==> Steady(events)
    ensures TicketInv(k, Exec(k, s, events))
    decreases |events|
  {
    if events == [] {
    } else {
      NoClashKeepsApart(k, steady, s, events[0]);
      TicketStep(k, s, events[0]);
      StraysStep(k, steady, s, events[0]);
      NoClashRun(k, steady, Take(k, s, events[0]), events[1..]);
    }
  }

  lemma NoClashIsSafe(k: Setting, steady: bool, t: State)
    requires NoClash(k, steady) && Reaches(k, steady, IDLE, t)
    ensures Safe(k, t)
  {
    var events :| Feasible(k, IDLE, events) && Exec(k, IDLE, events) == t && (steady ==> Steady(events));
    IdleInv(k);
    NoClashRun(k, steady, IDLE, events);
  }

  // ---------------------------------------------------------------- clashes happen

  lemma TakeStep(k: Setting, steady: bool, s: State, event: Event) returns (t: State)
    requires Reaches(k, steady, IDLE, s) && Enabled(k, s, event) && (steady ==> !event.Disconnect?)
    ensures t == Take(k, s, event) && Reaches(k, steady, IDLE, t)
  {
    t := Take(k, s, event);
    ReachesStep(k, steady, IDLE, s, event);
  }

  /** A job in its first attempt at the order. */
  function InStage(p: ProcessId, o: OrderId, stage: Stage): Flight {
    Flight(p, For(o), stage, 1, 0)
  }

  /** At most two jobs are at work, in different processes, so that neither is in the other's way. */
  predicate OnlyTwo(s: State, i: Job, j: Job) {
    && i in s.flights && s.flights.Keys == {i, j}
    && (i != j ==> j in s.flights && s.flights[i].process != s.flights[j].process)
  }

  /** The statement of a job that goes on. */
  lemma GoOn(k: Setting, steady: bool, s: State, i: Job, j: Job) returns (t: State)
    requires Reaches(k, steady, IDLE, s) && OnlyTwo(s, i, j) && Work(k, s.files, s.flights[i]).1.Continue?
    ensures Reaches(k, steady, IDLE, t) && OnlyTwo(t, i, j)
    ensures t == s.(files := Work(k, s.files, s.flights[i]).0,
                    flights := s.flights[i := Work(k, s.files, s.flights[i]).1.flight])
  {
    WorkKeepsPayload(k, s.files, s.flights[i]);
    t := TakeStep(k, steady, s, Proceed(i));
  }

  /** A message that is queued or not yet published is delivered and comes to its first attempt. */
  lemma DeliverTo(k: Setting, steady: bool, s: State, m: MessageId, p: ProcessId, o: OrderId) returns (t: State)
    requires Reaches(k, steady, IDLE, s) && Asks(k, Message(m), o) && p in k.workers && Free(s, p)
    requires Message(m) !in s.flights && (m in s.queue || m !in s.published)
    requires forall i :: i in s.flights ==> s.flights[i].process != p
    ensures Reaches(k, steady, IDLE, t) && t.flights == s.flights[Message(m) := InStage(p, o, Loading)]
    ensures t.called == s.called && (forall n :: n in t.published ==> n == m || n in s.published)
  {
    t := s;
    if m !in s.queue {
      t := TakeStep(k, steady, t, Publish(m));
    } else {
      QueuedIsPublished(k, steady, s, m);
    }
    t := TakeStep(k, steady, t, Deliver(m, p));
    assert t.flights[Message(m)] == Flight(p, For(o), Checking, 0, 0);
    t := TakeStep(k, steady, t, Proceed(Message(m)));
    assert t.flights == s.flights[Message(m) := InStage(p, o, Loading)];
  }

  lemma QueuedIsPublished(k: Setting, steady: bool, s: State, m: MessageId)
    requires Reaches(k, steady, IDLE, s) && m in s.queue
    ensures m in s.published
  {
    var events :| Feasible(k, IDLE, events) && Exec(k, IDLE, events) == s && (steady ==> Steady(events));
    IdleInv(k);
    MessagesConserved(k, IDLE, events);
  }

  /** Any job that has not been started is brought to its first attempt, in a process where no
      other job runs. */
  lemma Launch(k: Setting, steady: bool, s: State, i: Job, p: ProcessId, o: OrderId) returns (t: State)
    requires Reaches(k, steady, IDLE, s) && Asks(k, i, o) && RunsIn(k, i, p) && i !in s.flights
    requires if i.Message? then i.message !in s.published else i.call !in s.called
    requires forall j :: j in s.flights ==> s.flights[j].process != p
    ensures Reaches(k, steady, IDLE, t) && t.flights == s.flights[i := InStage(p, o, Loading)]
    ensures forall m :: m in t.published ==> i == Message(m) || m in s.published
    ensures forall c :: c in t.called ==> i == Call(c) || c in s.called
  {
    if i.Message? {
      t := DeliverTo(k, steady, s, i.message, p, o);
    } else {
      t := TakeStep(k, steady, s, Invoke(i.call));
    }
  }

  /** Two jobs of different processes are in their first attempt at the order. */
  predicate SideBySide(s: State, i: Job, j: Job, o: OrderId) {
    && i != j && OnlyTwo(s, i, j) && OnlyTwo(s, j, i)
    && s.flights[i] == InStage(s.flights[i].process, o, Loading)
    && s.flights[j] == InStage(s.flights[j].process, o, Loading)
  }

  /** The second job truncates the .tmp file that the first has just written and is about to publish. */
  lemma SecondTruncates(k: Setting, steady: bool, s: State, i: Job, j: Job, o: OrderId) returns (t: State)
    requires Reaches(k, steady, IDLE, s) && o in k.orders && SideBySide(s, i, j, o)
    ensures Reaches(k, steady, IDLE, t) && OnlyTwo(t, i, j)
    ensures t.flights[i] == InStage(s.flights[i].process, o, Replacing)
    ensures o in t.files.tmp && t.files.tmp[o] == Partial
  {
    t := GoOn(k, steady, s, i, j);
    t := GoOn(k, steady, t, i, j);
    t := GoOn(k, steady, t, i, j);
    assert t.flights[i] == InStage(s.flights[i].process, o, Replacing);
    t := JobOpens(k, steady, t, j, i, o);
  }

  lemma JobOpens(k: Setting, steady: bool, s: State, j: Job, i: Job, o: OrderId) returns (t: State)
    requires Reaches(k, steady, IDLE, s) && o in k.orders && i != j && OnlyTwo(s, j, i)
    requires s.flights[j] == InStage(s.flights[j].process, o, Loading)
    ensures Reaches(k, steady, IDLE, t) && OnlyTwo(t, i, j) && t.flights[i] == s.flights[i]
    ensures o in t.files.tmp && t.files.tmp[o] == Partial
  {
    t := GoOn(k, steady, s, j, i);
    var p := s.flights[j].process;
    assert t.flights[j] == InStage(p, o, Opening);
    t := OpensNow(k, steady, t, j, i, o);
  }

  /** It waits for nobody, since the writer is in another process. */
  lemma OpensNow(k: Setting, steady: bool, s: State, j: Job, i: Job, o: OrderId) returns (t: State)
    requires Reaches(k, steady, IDLE, s) && o in k.orders && i != j && OnlyTwo(s, j, i)
    requires s.flights[j] == InStage(s.flights[j].process, o, Opening)
    ensures Reaches(k, steady, IDLE, t) && OnlyTwo(t, i, j) && t.flights[i] == s.flights[i]
    ensures o in t.files.tmp && t.files.tmp[o] == Partial
  {
    t := GoOn(k, steady, s, j, i);
  }

  /** The first job then publishes and records a half-written ticket. */
  lemma OverlapIsUnsafe(k: Setting, steady: bool, s: State, i: Job, j: Job, o: OrderId) returns (t: State)
    requires Reaches(k, steady, IDLE, s) && o in k.orders && SideBySide(s, i, j, o)
    ensures Reaches(k, steady, IDLE, t) && Serves(t, o) && t.files.final[o] == Partial && !Safe(k, t)
  {
    t := SecondTruncates(k, steady, s, i, j, o);
    t := GoOn(k, steady, t, i, j);
    t := GoOn(k, steady, t, i, j);
    assert Serves(t, o);
  }

  /** Two jobs for one existing order, in different processes, have a run that serves a
      half-written ticket. */
  lemma TwoJobsAreUnsafe(k: Setting, steady: bool, o: OrderId, i: Job, p: ProcessId, j: Job, q: ProcessId)
    returns (t: State)
    requires Clash(k, steady, o, i, p, j, q) && i != j
    ensures Reaches(k, steady, IDLE, t) && Serves(t, o) && t.files.final[o] == Partial && !Safe(k, t)
  {
    ReachesSelf(k, steady, IDLE);
    t := Launch(k, steady, IDLE, i, p, o);
    t := Launch(k, steady, t, j, q, o);
    t := OverlapIsUnsafe(k, steady, t, i, j, o);
  }

  /** One message for an existing order has such a run, if there are two consumers and its
      connection can be lost: the handler goes on, and the other consumer is given the message. */
  lemma LostConnectionIsUnsafe(k: Setting, m: MessageId, o: OrderId, p: ProcessId, q: ProcessId) returns (t: State)
    requires o in k.orders && Asks(k, Message(m), o) && p in k.workers && q in k.workers && p != q
    ensures Reaches(k, false, IDLE, t) && Serves(t, o) && t.files.final[o] == Partial && !Safe(k, t)
  {
    ReachesSelf(k, false, IDLE);
    t := DeliverTo(k, false, IDLE, m, p, o);
    t := TakeStep(k, false, t, Disconnect(m, 0));
    assert t.flights == map[Stray(0) := InStage(p, o, Loading)];
    t := DeliverTo(k, false, t, m, q, o);
    t := OverlapIsUnsafe(k, false, t, Stray(0), Message(m), o);
  }

  /** An ack means a served ticket, and a served ticket is complete, in every run, if and only if
      no two jobs for one existing order can run in different processes; when connections can be
      lost, a message counts as two jobs, its handler and its redelivery. */
  lemma SafeIffNoClash(k: Setting, steady: bool)
    ensures (forall t :: Reaches(k, steady, IDLE, t) ==> Safe(k, t)) <==> NoClash(k, steady)
  {
    if NoClash(k, steady) {
      forall t | Reaches(k, steady, IDLE, t) ensures Safe(k, t) {
        NoClashIsSafe(k, steady, t);
      }
    } else {
      var o, i, p, j, q :| Clash(k, steady, o, i, p, j, q);
      if i != j {
        var t := TwoJobsAreUnsafe(k, steady, o, i, p, j, q);
      } else {
        var t := LostConnectionIsUnsafe(k, i.message, o, p, q);
      }
    }
  }

  /** One consumer, and no ticket written by generate_sync: every run is safe, whatever is
      published and however often, and whatever connections are lost. */
  lemma OneConsumerIsSafe(k: Setting, p: ProcessId, t: State)
    requires k.workers <= {p} && k.calls == map[] && Reaches(k, false, IDLE, t)
    ensures Safe(k, t)
  {
    SafeIffNoClash(k, false);
  }
}
