/** Writing ticket files (app/workers/pdf_worker.py, app/services/ticket.py): at-least-once
    delivery, three attempts per delivery, a dead-letter queue, lost connections, crashes at any
    point, the synchronous fallback, and the files that all of them leave behind.

    Jobs run in processes that share the storage directory. Jobs of different processes interleave
    between any two statements. Those of one process take turns only where a statement awaits,
    and write_pdf_atomic does not: from opening the .tmp file to replacing the final one, nothing
    else of its process moves. */
module PdfWorker {

  type OrderId = nat
  type MessageId = nat
  type CallId = nat
  type ProcessId = nat

  const MAX_ATTEMPTS := 3

  /** What a message body turns out to be. */
  datatype Payload = Malformed | BadOrderId | For(order: OrderId)

  datatype File = Partial | Complete

  /** Who writes: the handler of a delivery, a call of generate_sync, or a handler that has lost
      its connection, so that the broker gives its message to somebody else. */
  datatype Job = Message(message: MessageId) | Call(call: CallId) | Stray(stray: nat)

  /** Where a job stands. */
  datatype Stage =
    | Checking
    | Dropping     // the ack of a message that can never be processed
    | Loading
    | Opening      // render, then open the .tmp file, which truncates it
    | Writing      // write and fsync it
    | Replacing    // os.replace it over the final name
    | Marking      // commit ticket_file
    | Acking       // the ack, or the return of generate_sync
    | DeadLettering

  /** A job at work. `attempt` is the loop variable, `faults` counts the exceptions so far. */
  datatype Flight = Flight(process: ProcessId, payload: Payload, stage: Stage, attempt: nat, faults: nat)

  /** The storage directory and the ticket_file column. */
  datatype Files = Files(
    tmp: map<OrderId, File>,     // <order>.pdf.tmp
    final: map<OrderId, File>,   // <order>.pdf
    recorded: set<OrderId>)      // orders with ticket_file set

  datatype State = State(
    published: set<MessageId>,
    queue: set<MessageId>,
    flights: map<Job, Flight>,
    called: set<CallId>,
    acked: set<MessageId>,
    dead: set<MessageId>,
    files: Files)

  /** How a statement leaves its job. */
  datatype Verdict = Continue(flight: Flight) | Ack | DeadLetter | Raise

  /** A call of generate_sync: for which order, and in which process. */
  datatype Invocation = Invocation(order: OrderId, process: ProcessId)

  /** The orders that exist, the messages that may be published, the processes that consume them,
      and the calls of generate_sync that may be made. */
  datatype Setting = Setting(
    orders: set<OrderId>,
    messages: map<MessageId, Payload>,
    workers: set<ProcessId>,
    calls: map<CallId, Invocation>)

  datatype Event =
    | Publish(message: MessageId)
    | Deliver(message: MessageId, process: ProcessId)
    | Invoke(call: CallId)
    | Proceed(job: Job)
    | Fault(job: Job)
    | Crash(process: ProcessId)
    | Disconnect(message: MessageId, stray: nat)

  predicate WritesFile(f: Flight) {
    f.stage.Writing? || f.stage.Replacing?
  }

  predicate InLoop(stage: Stage) {
    !stage.Checking? && !stage.Dropping? && !stage.DeadLettering?
  }

  /** Another job of the same process is between opening and replacing its file. */
  predicate Busy(s: State, j: Job)
    requires j in s.flights
  {
    exists i :: i in s.flights && i != j && s.flights[i].process == s.flights[j].process && WritesFile(s.flights[i])
  }

  /** A consumer takes one delivery at a time. */
  predicate Free(s: State, p: ProcessId) {
    forall j :: j in s.flights && j.Message? ==> s.flights[j].process != p
  }

  predicate Enabled(k: Setting, s: State, event: Event) {
    match event
    case Publish(m) => m in k.messages && m !in s.published
    case Deliver(m, p) => m in s.queue && m in k.messages && Message(m) !in s.flights && p in k.workers && Free(s, p)
    case Invoke(c) => c in k.calls && c !in s.called
    case Proceed(j) => j in s.flights && !Busy(s, j)
    case Fault(j) => j in s.flights && !Busy(s, j) && InLoop(s.flights[j].stage)
    case Crash(_) => true
    case Disconnect(m, n) => Message(m) in s.flights && Stray(n) !in s.flights
  }

  /** An exception inside the attempt, a failing ack included: the next attempt, or the end. */
  function Failed(f: Flight): Flight {
    if f.attempt < MAX_ATTEMPTS then f.(stage := Loading, attempt := f.attempt + 1, faults := f.faults + 1)
    else f.(stage := DeadLettering, faults := f.faults + 1)
  }

  /** The next statement of a job. By itself it raises only where the .tmp file is gone. */
  function Work(k: Setting, files: Files, f: Flight): (Files, Verdict) {
    if f.stage.Checking? then
      (files, Continue(if f.payload.For? then f.(stage := Loading, attempt := 1) else f.(stage := Dropping)))
    else if f.stage.DeadLettering? then (files, DeadLetter)
    else if f.stage.Dropping? || f.stage.Acking? || !f.payload.For? then (files, Ack)
    else
      var o := f.payload.order;
      match f.stage
      case Loading => (files, Continue(f.(stage := if o in k.orders then Opening else Acking)))
      case Opening => (files.(tmp := files.tmp[o := Partial]), Continue(f.(stage := Writing)))
      case Writing => (files.(tmp := files.tmp[o := Complete]), Continue(f.(stage := Replacing)))
      case Replacing =>
        if o in files.tmp
        then (files.(final := files.final[o := files.tmp[o]], tmp := files.tmp - {o}), Continue(f.(stage := Marking)))
        else (files, Raise)
      case Marking => (files.(recorded := files.recorded + {o}), Continue(f.(stage := Acking)))
      case _ => (files, Ack)
  }

  /** A job raises: a handler goes on to its next attempt, generate_sync gives up. */
  function Raised(s: State, j: Job): State
    requires j in s.flights
  {
    s.(flights := if j.Call? then s.flights - {j} else s.flights[j := Failed(s.flights[j])])
  }

  /** A job ends. A handler without a connection cannot ack: that raises, inside its attempt. */
  function Ended(s: State, j: Job, files: Files, verdict: Verdict): State
    requires j in s.flights && !verdict.Continue?
  {
    if verdict.Raise? || (j.Stray? && s.flights[j].stage.Acking?) then Raised(s, j).(files := files)
    else
      s.(files := files, flights := s.flights - {j},
         acked := if j.Message? && verdict.Ack? then s.acked + {j.message} else s.acked,
         dead := if j.Message? && verdict.DeadLetter? then s.dead + {j.message} else s.dead)
  }

  /** The messages whose handlers die with the process. */
  function Killed(s: State, p: ProcessId): set<MessageId> {
    set j | j in s.flights && j.Message? && s.flights[j].process == p :: j.message
  }

  function Take(k: Setting, s: State, event: Event): State
    requires Enabled(k, s, event)
  {
    match event
    case Publish(m) => s.(published := s.published + {m}, queue := s.queue + {m})
    case Deliver(m, p) =>
      s.(queue := s.queue - {m}, flights := s.flights[Message(m) := Flight(p, k.messages[m], Checking, 0, 0)])
    case Invoke(c) =>
      var call := k.calls[c];
      s.(called := s.called + {c},
         flights := s.flights[Call(c) := Flight(call.process, For(call.order), Loading, 1, 0)])
    case Proceed(j) =>
      var (files, verdict) := Work(k, s.files, s.flights[j]);
      if verdict.Continue? then s.(files := files, flights := s.flights[j := verdict.flight])
      else Ended(s, j, files, verdict)
    case Fault(j) => Raised(s, j)
    case Crash(p) =>
      s.(flights := map j | j in s.flights && s.flights[j].process != p :: s.flights[j],
         queue := s.queue + Killed(s, p))
    case Disconnect(m, n) =>
      s.(flights := (s.flights - {Message(m)})[Stray(n) := s.flights[Message(m)]], queue := s.queue + {m})
  }

  const IDLE := State({}, {}, map[], {}, {}, {}, Files(map[], map[], {}))

  predicate Feasible(k: Setting, s: State, events: seq<Event>)
    decreases |events|
  {
    events == [] || (Enabled(k, s, events[0]) && Feasible(k, Take(k, s, events[0]), events[1..]))
  }

  function Exec(k: Setting, s: State, events: seq<Event>): State
    requires Feasible(k, s, events)
    decreases |events|
  {
    if events == [] then s else Exec(k, Take(k, s, events[0]), events[1..])
  }

  lemma {:induction false} ExecConcat(k: Setting, s: State, first: seq<Event>, second: seq<Event>)
    requires Feasible(k, s, first) && Feasible(k, Exec(k, s, first), second)
    ensures Feasible(k, s, first + second) && Exec(k, s, first + second) == Exec(k, Exec(k, s, first), second)
    decreases |first|
  {
    if first == [] {
      assert first + second == second;
    } else {
      assert (first + second)[1..] == first[1..] + second;
      ExecConcat(k, Take(k, s, first[0]), first[1..], second);
    }
  }

  predicate Steady(events: seq<Event>) {
    forall i :: 0 <= i < |events| ==> !events[i].Disconnect?
  }

  /** Some run leads from s to t, one without a lost connection if `steady`. */
  ghost predicate Reaches(k: Setting, steady: bool, s: State, t: State) {
    exists events :: Feasible(k, s, events) && Exec(k, s, events) == t && (steady ==> Steady(events))
  }

  lemma ReachesSelf(k: Setting, steady: bool, s: State)
    ensures Reaches(k, steady, s, s)
  {
    assert Feasible(k, s, []) && Exec(k, s, []) == s && Steady([]);
  }

  lemma ReachesTrans(k: Setting, steady: bool, a: State, b: State, c: State)
    requires Reaches(k, steady, a, b) && Reaches(k, steady, b, c)
    ensures Reaches(k, steady, a, c)
  {
    var first :| Feasible(k, a, first) && Exec(k, a, first) == b && (steady ==> Steady(first));
    var second :| Feasible(k, b, second) && Exec(k, b, second) == c && (steady ==> Steady(second));
    ExecConcat(k, a, first, second);
    assert steady ==> Steady(first + second);
  }

  lemma ReachesStep(k: Setting, steady: bool, a: State, s: State, event: Event)
    requires Reaches(k, steady, a, s) && Enabled(k, s, event) && (steady ==> !event.Disconnect?)
    ensures Reaches(k, steady, a, Take(k, s, event))
  {
    var last, t := [event], Take(k, s, event);
    assert last[0] == event && last[1..] == [];
    assert Feasible(k, t, []) && Exec(k, t, []) == t;
    assert Feasible(k, s, last) && Exec(k, s, last) == Exec(k, t, last[1..]);
    assert steady ==> Steady(last);
    ReachesTrans(k, steady, a, s, t);
  }

  // ---------------------------------------------------------------- conservation of messages

  function InFlight(s: State): set<MessageId> {
    set j | j in s.flights && j.Message? :: j.message
  }

  /** Every published message is in exactly one place, and jobs are what they were sent for. */
  ghost predicate Conserved(k: Setting, s: State) {
    && s.published == s.queue + InFlight(s) + s.acked + s.dead
    && s.queue !! InFlight(s) && s.queue !! s.acked && s.queue !! s.dead
    && InFlight(s) !! s.acked && InFlight(s) !! s.dead && s.acked !! s.dead
    && s.published <= k.messages.Keys
    && (forall m :: Message(m) in s.flights ==>
          && m in k.messages && s.flights[Message(m)].payload == k.messages[m]
          && s.flights[Message(m)].process in k.workers)
    && (forall c :: Call(c) in s.flights ==>
          && c in k.calls && c in s.called && s.flights[Call(c)].payload == For(k.calls[c].order)
          && s.flights[Call(c)].process == k.calls[c].process)
  }

  /** A delivery has failed once for every attempt but the current one, and three times when it
      is dead-lettered. A call has one attempt. */
  predicate AttemptsCounted(j: Job, f: Flight) {
    && (f.stage.Checking? ==> f.faults == 0)
    && (InLoop(f.stage) ==> f.attempt == f.faults + 1 && f.attempt <= MAX_ATTEMPTS && f.payload.For?)
    && (f.stage.DeadLettering? ==> f.faults == MAX_ATTEMPTS && f.payload.For?)
    && (f.stage.Dropping? ==> !f.payload.For?)
    && (j.Call? ==> f.attempt == 1 && InLoop(f.stage))
  }

  ghost predicate AllCounted(s: State) {
    forall j :: j in s.flights ==> AttemptsCounted(j, s.flights[j])
  }

  lemma InFlightIff(s: State, m: MessageId)
    ensures m in InFlight(s) <==> Message(m) in s.flights
  {
    if Message(m) in s.flights {
      assert Message(m).message == m;
    }
  }

  /** Which messages are in flight, when the jobs change in this way. */
  lemma InFlightAfter(s: State, s': State, gone: set<MessageId>, come: set<MessageId>)
    requires forall m :: Message(m) in s'.flights <==> (Message(m) in s.flights && m !in gone) || m in come
    ensures InFlight(s') == InFlight(s) - gone + come
  {
    forall m ensures m in InFlight(s') <==> m in InFlight(s) - gone + come {
      InFlightIff(s, m);
      InFlightIff(s', m);
    }
  }

  lemma WorkKeepsPayload(k: Setting, files: Files, f: Flight)
    ensures var verdict := Work(k, files, f).1;
            verdict.Continue? ==> verdict.flight.payload == f.payload && verdict.flight.process == f.process
    ensures Failed(f).payload == f.payload && Failed(f).process == f.process
  {
  }

  lemma ConservedWork(k: Setting, s: State, event: Event)
    requires Conserved(k, s) && Enabled(k, s, event) && (event.Proceed? || event.Fault?)
    ensures Conserved(k, Take(k, s, event))
  {
    var j, s' := event.job, Take(k, s, event);
    WorkKeepsPayload(k, s.files, s.flights[j]);
    var gone := if j.Message? && j !in s'.flights then {j.message} else {};
    InFlightAfter(s, s', gone, {});
    if j.Message? { InFlightIff(s, j.message); }
  }

  lemma ConservedCrash(k: Setting, s: State, p: ProcessId)
    requires Conserved(k, s)
    ensures Conserved(k, Take(k, s, Crash(p)))
  {
    var s' := Take(k, s, Crash(p));
    forall m ensures Message(m) in s'.flights <==> Message(m) in s.flights && m !in Killed(s, p) {
      if m in Killed(s, p) {
        var j :| j in s.flights && j.Message? && s.flights[j].process == p && j.message == m;
        assert j == Message(m);
      }
    }
    InFlightAfter(s, s', Killed(s, p), {});
    forall m | m in Killed(s, p) ensures m in InFlight(s) {
    }
  }

  lemma ConservedMove(k: Setting, s: State, event: Event)
    requires Conserved(k, s) && Enabled(k, s, event) && !event.Proceed? && !event.Fault?
    ensures Conserved(k, Take(k, s, event))
  {
    var s' := Take(k, s, event);
    match event
    case Publish(m) => InFlightAfter(s, s', {}, {});
    case Deliver(m, _) => InFlightAfter(s, s', {}, {m});
    case Invoke(c) => InFlightAfter(s, s', {}, {});
    case Crash(p) => ConservedCrash(k, s, p);
    case Disconnect(m, n) =>
      InFlightAfter(s, s', {m}, {});
      InFlightIff(s, m);
  }

  lemma ConservedStep(k: Setting, s: State, event: Event)
    requires Conserved(k, s) && Enabled(k, s, event)
    ensures Conserved(k, Take(k, s, event))
  {
    if event.Proceed? || event.Fault? {
      ConservedWork(k, s, event);
    } else {
      ConservedMove(k, s, event);
    }
  }

  lemma WorkCounts(k: Setting, files: Files, j: Job, f: Flight)
    requires AttemptsCounted(j, f)
    ensures var verdict := Work(k, files, f).1;
            && (verdict.Continue? ==> AttemptsCounted(j, verdict.flight))
            && (verdict.DeadLetter? ==> f.faults == MAX_ATTEMPTS && f.payload.For?)
            && (verdict.Raise? ==> InLoop(f.stage))
    ensures InLoop(f.stage) && !j.Call? ==> AttemptsCounted(j, Failed(f))
  {
  }

  lemma AttemptsStep(k: Setting, s: State, event: Event)
    requires AllCounted(s) && Enabled(k, s, event)
    ensures AllCounted(Take(k, s, event))
  {
    if event.Proceed? || event.Fault? {
      WorkCounts(k, s.files, event.job, s.flights[event.job]);
    }
  }

  /** A message goes to the dead letters only after three exceptions in one delivery. */
  lemma DeadAfterThreeFaults(k: Setting, s: State, event: Event, m: MessageId)
    requires AllCounted(s) && Enabled(k, s, event) && m !in s.dead && m in Take(k, s, event).dead
    ensures event == Proceed(Message(m)) && s.flights[Message(m)].faults == 3
  {
  }

  /** Under crashes, faults, lost connections and redelivery, published = queued + in flight +
      acked + dead-lettered, and every exception of a delivery is counted. */
  lemma {:induction false} MessagesConserved(k: Setting, s: State, events: seq<Event>)
    requires Conserved(k, s) && AllCounted(s) && Feasible(k, s, events)
    ensures Conserved(k, Exec(k, s, events)) && AllCounted(Exec(k, s, events))
    decreases |events|
  {
    if events == [] {
    } else {
      ConservedStep(k, s, events[0]);
      AttemptsStep(k, s, events[0]);
      MessagesConserved(k, Take(k, s, events[0]), events[1..]);
    }
  }

  // ---------------------------------------------------------------- what an ack means

  /** What a job relies on at each stage. */
  predicate FlightFiles(k: Setting, files: Files, f: Flight) {
    f.payload.For? ==>
      var o := f.payload.order;
      && (f.stage.Opening? || WritesFile(f) || f.stage.Marking? ==> o in k.orders)
      && (f.stage.Replacing? ==> o in files.tmp && files.tmp[o] == Complete)
      && (f.stage.Marking? ==> o in files.final)
      && (f.stage.Acking? && o in k.orders ==> o in files.recorded)
  }

  /** A final file is complete, and a recorded ticket has its file. */
  predicate FilesGood(files: Files) {
    && (forall o :: o in files.final ==> files.final[o] == Complete)
    && (forall o :: o in files.recorded ==> o in files.final)
  }

  /** Two jobs do not write the file of one order at the same time. */
  predicate Apart(f: Flight, g: Flight) {
    WritesFile(f) && WritesFile(g) ==> f.payload != g.payload
  }

  /** A message that was acked for an existing order has its ticket recorded. */
  predicate AckedRecorded(k: Setting, s: State) {
    forall m :: m in s.acked && m in k.messages && k.messages[m].For? && k.messages[m].order in k.orders ==>
      k.messages[m].order in s.files.recorded
  }

  ghost predicate TicketInv(k: Setting, s: State) {
    && Conserved(k, s) && AllCounted(s)
    && FilesGood(s.files) && AckedRecorded(k, s)
    && (forall j :: j in s.flights ==> FlightFiles(k, s.files, s.flights[j]))
    && (forall i, j :: i in s.flights && j in s.flights && i != j ==> Apart(s.flights[i], s.flights[j]))
  }

  /** The step opens no .tmp file that another job is writing. */
  predicate KeepsApart(s: State, event: Event) {
    event.Proceed? && event.job in s.flights && s.flights[event.job].stage.Opening? ==>
      forall i :: i in s.flights && i != event.job && WritesFile(s.flights[i]) ==>
        s.flights[i].payload != s.flights[event.job].payload
  }

  /** No two jobs of one process write at the same time. */
  predicate OneWriter(s: State) {
    forall i, j :: i in s.flights && j in s.flights && i != j && s.flights[i].process == s.flights[j].process ==>
      !(WritesFile(s.flights[i]) && WritesFile(s.flights[j]))
  }

  lemma OneWriterStep(k: Setting, s: State, event: Event)
    requires OneWriter(s) && Enabled(k, s, event)
    ensures OneWriter(Take(k, s, event))
  {
    if event.Proceed? || event.Fault? {
      WorkKeepsPayload(k, s.files, s.flights[event.job]);
    }
  }

  /** In every run, a process writes one file at a time. */
  lemma {:induction false} OneWriterRun(k: Setting, s: State, events: seq<Event>)
    requires OneWriter(s) && Feasible(k, s, events)
    ensures OneWriter(Exec(k, s, events))
    decreases |events|
  {
    if events == [] {
    } else {
      OneWriterStep(k, s, events[0]);
      OneWriterRun(k, Take(k, s, events[0]), events[1..]);
    }
  }

  /** A consumer has one delivery at a time. */
  predicate OneDelivery(s: State) {
    forall i, j :: i in s.flights && j in s.flights && i != j && i.Message? && j.Message? ==>
      s.flights[i].process != s.flights[j].process
  }

  lemma OneDeliveryStep(k: Setting, s: State, event: Event)
    requires OneDelivery(s) && Enabled(k, s, event)
    ensures OneDelivery(Take(k, s, event))
  {
    if event.Proceed? || event.Fault? {
      WorkKeepsPayload(k, s.files, s.flights[event.job]);
    }
  }

  lemma {:induction false} OneDeliveryRun(k: Setting, s: State, events: seq<Event>)
    requires OneDelivery(s) && Feasible(k, s, events)
    ensures OneDelivery(Exec(k, s, events))
    decreases |events|
  {
    if events == [] {
    } else {
      OneDeliveryStep(k, s, events[0]);
      OneDeliveryRun(k, Take(k, s, events[0]), events[1..]);
    }
  }

  /** A crash ends every job of its process, and no other; a message that was being handled there
      is queued again, and a call is gone. */
  lemma CrashEndsProcess(k: Setting, s: State, p: ProcessId, j: Job)
    requires j in s.flights
    ensures var t := Take(k, s, Crash(p));
            if s.flights[j].process == p then j !in t.flights && (j.Message? ==> j.message in t.queue)
            else j in t.flights && t.flights[j] == s.flights[j]
  {
    if j.Message? && s.flights[j].process == p {
      assert j.message in Killed(s, p);
    }
  }

  /** No two writers of one order overlap in the run. */
  predicate Orderly(k: Setting, s: State, events: seq<Event>)
    requires Feasible(k, s, events)
    decreases |events|
  {
    events == [] || (KeepsApart(s, events[0]) && Orderly(k, Take(k, s, events[0]), events[1..]))
  }

  /** A job keeps its own promises, and records before it acks. */
  lemma WorkGood(k: Setting, files: Files, j: Job, f: Flight)
    requires FilesGood(files) && FlightFiles(k, files, f) && AttemptsCounted(j, f)
    ensures var (files', verdict) := Work(k, files, f);
            && FilesGood(files') && files.recorded <= files'.recorded
            && (verdict.Continue? ==> FlightFiles(k, files', verdict.flight))
            && (verdict.Ack? && f.payload.For? && f.payload.order in k.orders ==> f.payload.order in files'.recorded)
            && (!verdict.Continue? ==> files' == files)
  {
  }

  /** It does not break what another job relies on, as long as the two keep apart. */
  lemma WorkKeepsOthers(k: Setting, files: Files, f: Flight, g: Flight)
    requires FlightFiles(k, files, g) && Apart(f, g)
    requires f.stage.Opening? && WritesFile(g) ==> g.payload != f.payload
    ensures FlightFiles(k, Work(k, files, f).0, g)
    ensures Work(k, files, f).1.Continue? ==> Apart(Work(k, files, f).1.flight, g)
  {
  }

  lemma FailedGood(k: Setting, files: Files, f: Flight)
    ensures FlightFiles(k, files, Failed(f)) && !WritesFile(Failed(f))
  {
  }

  lemma ProceedKeepsTickets(k: Setting, s: State, j: Job)
    requires TicketInv(k, s) && Enabled(k, s, Proceed(j)) && KeepsApart(s, Proceed(j))
    ensures TicketInv(k, Take(k, s, Proceed(j)))
  {
    ConservedStep(k, s, Proceed(j));
    AttemptsStep(k, s, Proceed(j));
    WorkGood(k, s.files, j, s.flights[j]);
    FailedGood(k, s.files, s.flights[j]);
    forall i | i in s.flights && i != j
      ensures FlightFiles(k, Work(k, s.files, s.flights[j]).0, s.flights[i])
      ensures var r := Work(k, s.files, s.flights[j]).1;
              r.Continue? ==> Apart(r.flight, s.flights[i]) && Apart(s.flights[i], r.flight)
    {
      WorkKeepsOthers(k, s.files, s.flights[j], s.flights[i]);
    }
  }

  lemma FaultKeepsTickets(k: Setting, s: State, j: Job)
    requires TicketInv(k, s) && Enabled(k, s, Fault(j))
    ensures TicketInv(k, Take(k, s, Fault(j)))
  {
    ConservedStep(k, s, Fault(j));
    AttemptsStep(k, s, Fault(j));
    FailedGood(k, s.files, s.flights[j]);
  }

  lemma MoveKeepsTickets(k: Setting, s: State, event: Event)
    requires TicketInv(k, s) && Enabled(k, s, event) && !event.Proceed? && !event.Fault?
    ensures TicketInv(k, Take(k, s, event))
  {
    ConservedStep(k, s, event);
    AttemptsStep(k, s, event);
  }

  lemma TicketStep(k: Setting, s: State, event: Event)
    requires TicketInv(k, s) && Enabled(k, s, event) && KeepsApart(s, event)
    ensures TicketInv(k, Take(k, s, event))
  {
    match event
    case Proceed(j) => ProceedKeepsTickets(k, s, j);
    case Fault(j) => FaultKeepsTickets(k, s, j);
    case _ => MoveKeepsTickets(k, s, event);
  }

  /** As long as no two writers of one order overlap, every run keeps the files and the acks good. */
  lemma {:induction false} TicketRun(k: Setting, s: State, events: seq<Event>)
    requires TicketInv(k, s) && Feasible(k, s, events) && Orderly(k, s, events)
    ensures TicketInv(k, Exec(k, s, events))
    decreases |events|
  {
    if events == [] {
    } else {
      TicketStep(k, s, events[0]);
      TicketRun(k, Take(k, s, events[0]), events[1..]);
    }
  }

  lemma IdleInv(k: Setting)
    ensures TicketInv(k, IDLE)
  {
    assert InFlight(IDLE) == {};
  }

  /** get_ticket_path serves a file when the ticket is recorded and the file is there. */
  predicate Serves(s: State, o: OrderId) {
    o in s.files.recorded && o in s.files.final
  }

  /** An ack for an existing order means a served ticket, and a served ticket is complete. */
  ghost predicate Safe(k: Setting, s: State) {
    && (forall m :: m in s.acked && m in k.messages && k.messages[m].For? && k.messages[m].order in k.orders ==>
          Serves(s, k.messages[m].order))
    && (forall o :: Serves(s, o) ==> s.files.final[o] == Complete)
  }
}
