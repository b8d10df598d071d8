/** handle_message (app/workers/pdf_worker.py) as it runs: one delivery in one process, with
    everybody else free to move before each of its statements, as far as the processes allow.
    Every execution is shown to be a run of PdfWorker, so that its theorems apply to this code;
    undisturbed, its outcome is exact. */
module PdfConsumer {
  import opened PdfWorker
  import opened Wrappers

  /** What a delivery sees and changes: its own progress, the files, and where its message goes. */
  datatype Delivery = Delivery(flight: Option<Flight>, files: Files, acked: set<MessageId>, dead: set<MessageId>)

  /** One statement of the delivery; `fault` makes it raise. */
  function Step(k: Setting, j: Job, d: Delivery, fault: bool): Delivery
    requires d.flight.Some?
  {
    var f := d.flight.value;
    var (files, verdict) := Work(k, d.files, f);
    if fault then d.(flight := Some(Failed(f)))
    else if verdict.Continue? then d.(flight := Some(verdict.flight), files := files)
    else if verdict.Raise? || (j.Stray? && f.stage.Acking?) then d.(flight := Some(Failed(f)), files := files)
    else d.(flight := None, files := files,
            acked := if j.Message? && verdict.Ack? then d.acked + {j.message} else d.acked,
            dead := if j.Message? && verdict.DeadLetter? then d.dead + {j.message} else d.dead)
  }

  /** The exception, if any, of each attempt is at this stage of it. */
  type Faults = seq<Option<Stage>>

  predicate RaisesNow(f: Flight, faults: Faults) {
    InLoop(f.stage) && 1 <= f.attempt <= |faults| && faults[f.attempt - 1] == Some(f.stage)
  }

  /** An upper bound on the statements a delivery still sends. */
  function Remaining(f: Flight): nat {
    var later := if f.attempt <= MAX_ATTEMPTS then (MAX_ATTEMPTS - f.attempt) * 7 else 0;
    match f.stage
    case Checking => 30
    case Dropping => 1
    case DeadLettering => 1
    case Loading => later + 7
    case Opening => later + 6
    case Writing => later + 5
    case Replacing => later + 4
    case Marking => later + 3
    case Acking => later + 2
  }

  /** The stage after a statement of an attempt at this order, other than the ack. */
  function NextStage(k: Setting, stage: Stage, o: OrderId): Stage {
    if stage.Loading? then (if o in k.orders then Opening else Acking)
    else if stage.Opening? then Writing
    else if stage.Writing? then Replacing
    else if stage.Replacing? then Marking
    else Acking
  }

  /** Where one statement can leave a delivery. */
  predicate Follows(k: Setting, f: Flight, next: Option<Flight>) {
    if f.stage.Checking? then
      next == Some(if f.payload.For? then f.(stage := Loading, attempt := 1) else f.(stage := Dropping))
    else if !InLoop(f.stage) then next.None?
    else if f.stage.Acking? || !f.payload.For? then next.None? || next == Some(Failed(f))
    else next == Some(Failed(f)) || next == Some(f.(stage := NextStage(k, f.stage, f.payload.order)))
  }

  lemma StepFollows(k: Setting, j: Job, d: Delivery, fault: bool)
    requires d.flight.Some? && (fault ==> InLoop(d.flight.value.stage))
    ensures Follows(k, d.flight.value, Step(k, j, d, fault).flight)
    ensures var next := Step(k, j, d, fault).flight; next.Some? ==> Remaining(next.value) < Remaining(d.flight.value)
  {
  }

  /** The rest of the delivery, one statement after the other. */
  function Handled(k: Setting, j: Job, d: Delivery, faults: Faults): Delivery
    decreases if d.flight.Some? then Remaining(d.flight.value) + 1 else 0
  {
    if d.flight.None? then d
    else
      var fault := RaisesNow(d.flight.value, faults);
      StepFollows(k, j, d, fault);
      Handled(k, j, Step(k, j, d, fault), faults)
  }

  // ---------------------------------------------------------------- the exact outcome

  /** The attempt does not get to its ack: an order that does not exist is loaded and acked only. */
  predicate Breaks(k: Setting, o: OrderId, fault: Option<Stage>) {
    && fault.Some?
    && (fault.value.Loading? || fault.value.Acking?
        || (o in k.orders && fault.value in {Opening, Writing, Replacing, Marking}))
  }

  /** The attempt replaces the final file. */
  predicate Writes(k: Setting, o: OrderId, fault: Option<Stage>) {
    o in k.orders && !(fault.Some? && fault.value in {Loading, Opening, Writing, Replacing})
  }

  /** The attempt records the ticket. */
  predicate Records(k: Setting, o: OrderId, fault: Option<Stage>) {
    Writes(k, o, fault) && fault != Some(Marking)
  }

  function WithFinal(files: Files, o: OrderId, written: bool): map<OrderId, File> {
    if written then files.final[o := Complete] else files.final
  }

  function WithRecord(files: Files, o: OrderId, recorded: bool): set<OrderId> {
    if recorded then files.recorded + {o} else files.recorded
  }

  /** Attempt number `a` is about to load its order. */
  predicate AtAttempt(d: Delivery, o: OrderId, a: nat)
    requires a >= 1
  {
    d.flight.Some? && d.flight.value == Flight(d.flight.value.process, For(o), Loading, a, a - 1)
  }

  /** One attempt: its file, its record, and then its ack, or the next attempt. */
  lemma OneAttempt(k: Setting, m: MessageId, d: Delivery, faults: Faults, o: OrderId, a: nat) returns (e: Delivery)
    requires |faults| == MAX_ATTEMPTS && 1 <= a <= MAX_ATTEMPTS && AtAttempt(d, o, a)
    ensures Handled(k, Message(m), d, faults) == Handled(k, Message(m), e, faults)
    ensures e.files.final == WithFinal(d.files, o, Writes(k, o, faults[a - 1]))
    ensures e.files.recorded == WithRecord(d.files, o, Records(k, o, faults[a - 1]))
    ensures e.dead == d.dead
    ensures if Breaks(k, o, faults[a - 1]) then e.acked == d.acked && e.flight == Some(Failed(d.flight.value))
            else e.acked == d.acked + {m} && e.flight == None
  {
    e := Step(k, Message(m), d, faults[a - 1] == Some(Loading));
    if o in k.orders && faults[a - 1] != Some(Loading) {
      e := FileSteps(k, m, e, faults, o, a);
    }
    if e.flight.Some? && e.flight.value.stage.Acking? {
      e := Step(k, Message(m), e, faults[a - 1] == Some(Acking));
    }
  }

  /** The middle of an attempt at an order that exists. */
  lemma FileSteps(k: Setting, m: MessageId, d: Delivery, faults: Faults, o: OrderId, a: nat) returns (e: Delivery)
    requires |faults| == MAX_ATTEMPTS && 1 <= a <= MAX_ATTEMPTS && o in k.orders
    requires d.flight.Some? && d.flight.value == Flight(d.flight.value.process, For(o), Opening, a, a - 1)
    requires faults[a - 1] != Some(Loading)
    ensures Handled(k, Message(m), d, faults) == Handled(k, Message(m), e, faults)
    ensures e.files.final == WithFinal(d.files, o, Writes(k, o, faults[a - 1]))
    ensures e.files.recorded == WithRecord(d.files, o, Records(k, o, faults[a - 1]))
    ensures e.dead == d.dead && e.acked == d.acked
    ensures e.flight == Some(if faults[a - 1].Some? && faults[a - 1].value in {Opening, Writing, Replacing, Marking}
                             then Failed(d.flight.value) else d.flight.value.(stage := Acking))
  {
    var fault, j := faults[a - 1], Message(m);
    e := Step(k, j, d, fault == Some(Opening));
    assert Handled(k, j, d, faults) == Handled(k, j, e, faults);
    if fault != Some(Opening) {
      var writing := e;
      e := Step(k, j, e, fault == Some(Writing));
      assert Handled(k, j, writing, faults) == Handled(k, j, e, faults);
      if fault != Some(Writing) {
        var replacing := e;
        e := Step(k, j, e, fault == Some(Replacing));
        assert Handled(k, j, replacing, faults) == Handled(k, j, e, faults);
        if fault != Some(Replacing) {
          var marking := e;
          e := Step(k, j, e, fault == Some(Marking));
          assert Handled(k, j, marking, faults) == Handled(k, j, e, faults);
        }
      }
    }
  }

  /** All attempts from number `a` on. */
  lemma {:induction false} AllAttempts(k: Setting, m: MessageId, d: Delivery, faults: Faults, o: OrderId, a: nat)
    requires |faults| == MAX_ATTEMPTS && 1 <= a <= MAX_ATTEMPTS && AtAttempt(d, o, a)
    ensures Outcome(k, m, d, faults, o, a, Handled(k, Message(m), d, faults))
    decreases MAX_ATTEMPTS - a
  {
    var e := OneAttempt(k, m, d, faults, o, a);
    var end := Handled(k, Message(m), d, faults);
    if !Breaks(k, o, faults[a - 1]) {
      ThroughNow(k, m, d, faults, o, a, e);
    } else if a == MAX_ATTEMPTS {
      assert end == Step(k, Message(m), e, false);
      NeverThrough(k, m, d, faults, o, e, end);
    } else {
      AllAttempts(k, m, e, faults, o, a + 1);
      LaterThrough(k, m, d, faults, o, a, e, end);
    }
  }

  /** What one attempt leaves of the files. */
  predicate AttemptLeft(k: Setting, d: Delivery, o: OrderId, fault: Option<Stage>, e: Delivery) {
    e.files.final == WithFinal(d.files, o, Writes(k, o, fault))
    && e.files.recorded == WithRecord(d.files, o, Records(k, o, fault))
  }

  lemma ThroughNow(k: Setting, m: MessageId, d: Delivery, faults: Faults, o: OrderId, a: nat, e: Delivery)
    requires |faults| == MAX_ATTEMPTS && 1 <= a <= MAX_ATTEMPTS && !Breaks(k, o, faults[a - 1])
    requires AttemptLeft(k, d, o, faults[a - 1], e) && e.flight == None && e.acked == d.acked + {m} && e.dead == d.dead
    ensures Outcome(k, m, d, faults, o, a, e)
  {
    assert Writes(k, o, faults[a - 1]) <==> o in k.orders;
    assert Records(k, o, faults[a - 1]) <==> o in k.orders;
  }

  lemma NeverThrough(k: Setting, m: MessageId, d: Delivery, faults: Faults, o: OrderId, e: Delivery, end: Delivery)
    requires |faults| == MAX_ATTEMPTS && Breaks(k, o, faults[MAX_ATTEMPTS - 1])
    requires AttemptLeft(k, d, o, faults[MAX_ATTEMPTS - 1], e) && e.acked == d.acked && e.dead == d.dead
    requires end == e.(flight := None, dead := e.dead + {m})
    ensures Outcome(k, m, d, faults, o, MAX_ATTEMPTS, end)
  {
  }

  lemma LaterThrough(k: Setting, m: MessageId, d: Delivery, faults: Faults, o: OrderId, a: nat, e: Delivery,
                     end: Delivery)
    requires |faults| == MAX_ATTEMPTS && 1 <= a < MAX_ATTEMPTS && Breaks(k, o, faults[a - 1])
    requires AttemptLeft(k, d, o, faults[a - 1], e) && e.acked == d.acked && e.dead == d.dead
    requires Outcome(k, m, e, faults, o, a + 1, end)
    ensures Outcome(k, m, d, faults, o, a, end)
  {
  }

  /** The message is acked if some attempt gets through, and dead-lettered otherwise; the file
      is replaced, and the ticket recorded, if some attempt gets that far; nothing else changes. */
  predicate Outcome(k: Setting, m: MessageId, d: Delivery, faults: Faults, o: OrderId, a: nat, end: Delivery)
    requires |faults| == MAX_ATTEMPTS && a >= 1
  {
    var through := exists i :: a - 1 <= i < MAX_ATTEMPTS && !Breaks(k, o, faults[i]);
    && end.flight == None
    && end.acked == (if through then d.acked + {m} else d.acked)
    && end.dead == (if through then d.dead else d.dead + {m})
    && end.files.final == WithFinal(d.files, o, exists i :: a - 1 <= i < MAX_ATTEMPTS && Writes(k, o, faults[i]))
    && end.files.recorded == WithRecord(d.files, o, exists i :: a - 1 <= i < MAX_ATTEMPTS && Records(k, o, faults[i]))
  }

  /** What an undisturbed delivery comes to: hopeless messages are acked and leave no trace. */
  predicate Delivered(k: Setting, m: MessageId, payload: Payload, d: Delivery, faults: Faults, end: Delivery)
    requires |faults| == MAX_ATTEMPTS
  {
    if payload.For? then Outcome(k, m, d, faults, payload.order, 1, end)
    else end == Delivery(None, d.files, d.acked + {m}, d.dead)
  }

  /** The exact outcome of a delivery that nobody disturbs, for every placement of exceptions. */
  lemma UndisturbedDelivery(k: Setting, m: MessageId, d: Delivery, faults: Faults, payload: Payload)
    requires |faults| == MAX_ATTEMPTS
    requires d.flight.Some? && d.flight.value == Flight(d.flight.value.process, payload, Checking, 0, 0)
    ensures Delivered(k, m, payload, d, faults, Handled(k, Message(m), d, faults))
  {
    var e := Step(k, Message(m), d, false);
    assert Handled(k, Message(m), d, faults) == Handled(k, Message(m), e, faults);
    if payload.For? {
      AllAttempts(k, m, e, faults, payload.order, 1);
    } else {
      assert Handled(k, Message(m), e, faults) == Step(k, Message(m), e, false);
    }
  }

  // ---------------------------------------------------------------- among other jobs

  /** The name of a job after somebody else's step: it changes when its connection is lost. */
  function Renamed(j: Job, event: Event): Job {
    if event.Disconnect? && Message(event.message) == j then Stray(event.stray) else j
  }

  /** The event is a step of this very job. */
  predicate Own(j: Job, p: ProcessId, event: Event) {
    ((event.Proceed? || event.Fault?) && event.job == j) || (event.Crash? && event.process == p)
  }

  /** The state with this delivery in it. */
  function Whole(rest: State, j: Job, d: Delivery): State {
    rest.(flights := if d.flight.Some? then rest.flights[j := d.flight.value] else rest.flights,
          files := d.files, acked := d.acked, dead := d.dead)
  }

  /** After a step of somebody else the delivery is as it was, under its new name. */
  lemma OthersKeep(k: Setting, rest: State, j: Job, d: Delivery, event: Event)
    requires j !in rest.flights && !j.Call? && d.flight.Some?
    requires Enabled(k, Whole(rest, j, d), event) && !Own(j, d.flight.value.process, event)
    ensures var t, i := Take(k, Whole(rest, j, d), event), Renamed(j, event);
            Whole(t.(flights := t.flights - {i}), i, Delivery(d.flight, t.files, t.acked, t.dead)) == t
  {
    var t, i := Take(k, Whole(rest, j, d), event), Renamed(j, event);
    assert i in t.flights && t.flights[i] == d.flight.value;
    assert t.flights == (t.flights - {i})[i := d.flight.value];
  }

  /** The state without a job. */
  function Without(s: State, j: Job): State {
    s.(flights := s.flights - {j})
  }

  lemma ForeignStep(k: Setting, start: State, rest: State, j: Job, d: Delivery, event: Event)
    requires j !in rest.flights && !j.Call? && d.flight.Some?
    requires Enabled(k, Whole(rest, j, d), event) && !Own(j, d.flight.value.process, event)
    requires Reaches(k, false, start, Whole(rest, j, d)) && Reaches(k, false, IDLE, Whole(rest, j, d))
    ensures var t := Take(k, Whole(rest, j, d), event);
            && Reaches(k, false, start, t) && Reaches(k, false, IDLE, t)
            &&
                Whole(Without(t, Renamed(j, event)), Renamed(j, event),
                    Delivery(d.flight, t.files, t.acked, t.dead)) == t
  {
    OthersKeep(k, rest, j, d, event);
    ReachesStep(k, false, start, Whole(rest, j, d), event);
    ReachesStep(k, false, IDLE, Whole(rest, j, d), event);
  }

  /** The job is one of this process, and is writing a file. */
  predicate WritesIn(s: State, p: ProcessId, i: Job) {
    i in s.flights && s.flights[i].process == p && WritesFile(s.flights[i])
  }

  /** No job of the process is writing a file. */
  predicate Quiescent(s: State, p: ProcessId) {
    forall i :: i in s.flights ==> !WritesIn(s, p, i)
  }

  /** A statement of the delivery is a step of the system. */
  lemma OwnStep(k: Setting, rest: State, j: Job, d: Delivery, fault: bool)
    requires j !in rest.flights && !j.Call? && d.flight.Some? && (fault ==> InLoop(d.flight.value.stage))
    requires Quiescent(rest, d.flight.value.process)
    ensures var event := if fault then Fault(j) else Proceed(j);
            Enabled(k, Whole(rest, j, d), event)
            && Take(k, Whole(rest, j, d), event) == Whole(rest, j, Step(k, j, d, fault))
  {
    var s, f := Whole(rest, j, d), d.flight.value;
    assert s.flights[j] == f && s.flights - {j} == rest.flights;
    assert s.flights[j := Failed(f)] == rest.flights[j := Failed(f)];
    assert forall i :: i in s.flights && i != j ==> !WritesIn(rest, f.process, i);
    var verdict := Work(k, d.files, f).1;
    assert verdict.Continue? ==> s.flights[j := verdict.flight] == rest.flights[j := verdict.flight];
  }

  /** The other jobs of the process, one of which may be writing, let it finish: this takes two
      statements of it at most. */
  lemma OthersFinish(k: Setting, rest: State, j: Job, d: Delivery, i: Job)
    requires j !in rest.flights && !j.Call? && d.flight.Some? && !WritesFile(d.flight.value)
    requires WritesIn(rest, d.flight.value.process, i) && OneWriter(Whole(rest, j, d))
    ensures Enabled(k, Whole(rest, j, d), Proceed(i)) && !Own(j, d.flight.value.process, Proceed(i))
    ensures var t := Take(k, Whole(rest, j, d), Proceed(i));
            (forall other :: WritesIn(t, d.flight.value.process, other) ==> other == i)
            && (rest.flights[i].stage.Replacing? ==> !WritesIn(t, d.flight.value.process, i))
            && (WritesIn(t, d.flight.value.process, i) ==> t.flights[i].stage.Replacing?)
  {
    var s, p := Whole(rest, j, d), d.flight.value.process;
    assert s.flights[i] == rest.flights[i] && s.flights[j] == d.flight.value;
    assert forall other :: other in s.flights && other != i ==> !WritesIn(s, p, other);
    WorkKeepsPayload(k, s.files, s.flights[i]);
  }

  lemma WritesOneFile(k: Setting, t: State)
    requires Reaches(k, false, IDLE, t)
    ensures OneWriter(t)
  {
    var events :| Feasible(k, IDLE, events) && Exec(k, IDLE, events) == t;
    OneWriterRun(k, IDLE, events);
  }

  class Handler {
    const k: Setting
    const process: ProcessId
    const message: MessageId
    const payload: Payload

    // this delivery
    var job: Job
    var handling: bool
    var stage: Stage
    var attempt: nat
    var failures: nat

    // the files, and where messages go
    var tmp: map<OrderId, File>
    var final: map<OrderId, File>
    var recorded: set<OrderId>
    var acked: set<MessageId>
    var dead: set<MessageId>

    /** The rest of the world: the queue and the other jobs. */
    var rest: State

    /** The state that the fields represent. */
    ghost var state: State

    /** Somebody else has moved. */
    ghost var disturbed: bool

    function Mine(): Flight
      reads this
    {
      Flight(process, payload, stage, attempt, failures)
    }

    function Here(): Delivery
      reads this
    {
      Delivery(if handling then Some(Mine()) else None, Files(tmp, final, recorded), acked, dead)
    }

    ghost predicate Valid()
      reads this
    {
      && state == Whole(rest, job, Here()) && Reaches(k, false, IDLE, state)
      && job !in rest.flights && (job == Message(message) || job.Stray?)
    }

    /** What happened since the old state is a run of the step system. */
    twostate predicate Ran()
      reads this
    {
      Valid() && Reaches(k, false, old(state), state)
    }

    /** Unless disturbed, the delivery is on its way to this end. */
    ghost predicate HeadsFor(end: Delivery, faults: Faults)
      reads this
    {
      !disturbed ==> job == Message(message) && Handled(k, job, Here(), faults) == end
    }

    constructor (k: Setting, s: State, m: MessageId, p: ProcessId)
      requires Reaches(k, false, IDLE, s) && Enabled(k, s, Deliver(m, p))
      ensures Valid() && state == Take(k, s, Deliver(m, p)) && !disturbed
      ensures this.k == k && message == m && process == p && payload == k.messages[m] && job == Message(m)
      ensures Here() == Delivery(Some(Flight(p, payload, Checking, 0, 0)), s.files, s.acked, s.dead)
    {
      this.k, process, message, payload := k, p, m, k.messages[m];
      job, handling, stage, attempt, failures := Message(m), true, Checking, 0, 0;
      tmp, final, recorded := s.files.tmp, s.files.final, s.files.recorded;
      acked, dead, rest := s.acked, s.dead, s.(queue := s.queue - {m});
      disturbed := false;
      new;
      ReachesStep(k, false, IDLE, s, Deliver(m, p));
      state := Take(k, s, Deliver(m, p));
    }

    /** Everybody else moves; among other things this delivery may lose its connection. */
    method Await()
      requires Valid() && handling
      modifies this`job, this`tmp, this`final, this`recorded, this`acked, this`dead, this`rest, this`state
      modifies this`disturbed
      ensures Ran()
      ensures !disturbed ==> !old(disturbed) && job == old(job) && Here() == old(Here())
    {
      var moves: nat := *;
      ReachesSelf(k, false, state);
      if moves == 0 { return; }
      disturbed := true;
      while moves > 0
        invariant disturbed && Valid() && Reaches(k, false, old(state), state)
      {
        var event: Event := *;
        if Enabled(k, Whole(rest, job, Here()), event) && !Own(job, process, event) {
          Interfere(event, old(state));
        }
        moves := moves - 1;
      }
    }

    /** A statement that is not in the middle of writing starts when no other job of the process
        is writing. */
    method GetTurn()
      requires Valid() && handling
      modifies this`job, this`tmp, this`final, this`recorded, this`acked, this`dead, this`rest, this`state
      modifies this`disturbed
      ensures Ran() && Quiescent(rest, process)
      ensures !disturbed ==> !old(disturbed) && job == old(job) && Here() == old(Here())
    {
      Await();
      WritesOneFile(k, state);
      ghost var before := state;
      if WritesFile(Mine()) {
        AloneInProcess();
      } else if i :| i in rest.flights && WritesIn(rest, process, i) {
        disturbed := true;
        LetFinish(i, old(state));
      }
    }

    /** While this delivery writes, no other job of its process does. */
    lemma AloneInProcess()
      requires Valid() && handling && OneWriter(state) && WritesFile(Mine())
      ensures Quiescent(rest, process)
    {
      forall i | i in rest.flights ensures !WritesIn(rest, process, i) {
        assert state.flights[i] == rest.flights[i] && state.flights[job] == Mine();
      }
    }

    /** The other job finishes its file, or fails to. */
    method LetFinish(i: Job, ghost start: State)
      requires Valid() && handling && !WritesFile(Mine()) && OneWriter(state) && WritesIn(rest, process, i)
      requires Reaches(k, false, start, state)
      modifies this`job, this`tmp, this`final, this`recorded, this`acked, this`dead, this`rest, this`state
      ensures Valid() && Reaches(k, false, start, state) && Quiescent(rest, process)
    {
      FinishOne(i, start);
      if WritesIn(rest, process, i) {
        FinishOne(i, start);
      }
    }

    /** One statement of it. */
    method FinishOne(i: Job, ghost start: State)
      requires Valid() && handling && !WritesFile(Mine()) && OneWriter(state) && WritesIn(rest, process, i)
      requires Reaches(k, false, start, state)
      modifies this`job, this`tmp, this`final, this`recorded, this`acked, this`dead, this`rest, this`state
      ensures Valid() && Reaches(k, false, start, state) && OneWriter(state)
      ensures WritesIn(rest, process, i) ==> old(rest.flights[i]).stage.Writing? && rest.flights[i].stage.Replacing?
      ensures !WritesIn(rest, process, i) ==> Quiescent(rest, process)
    {
      OthersFinish(k, rest, job, Here(), i);
      Interfere(Proceed(i), start);
      WritesOneFile(k, state);
    }

    /** One such move. */
    method Interfere(event: Event, ghost start: State)
      requires Valid() && handling && Reaches(k, false, start, state)
      requires Enabled(k, Whole(rest, job, Here()), event) && !Own(job, process, event)
      modifies this`job, this`tmp, this`final, this`recorded, this`acked, this`dead, this`rest, this`state
      ensures Valid() && Reaches(k, false, start, state)
      ensures job == Renamed(old(job), event) && rest == Without(Take(k, old(state), event), job)
    {
      var t := Take(k, Whole(rest, job, Here()), event);
      ForeignStep(k, start, rest, job, Here(), event);
      Adopt(t, Renamed(job, event));
      state := t;
    }

    /** The fields follow a state in which this delivery is as it was. */
    method Adopt(t: State, name: Job)
      modifies this`job, this`tmp, this`final, this`recorded, this`acked, this`dead, this`rest
      ensures job == name && rest == Without(t, name)
      ensures Here() == Delivery(old(Here()).flight, t.files, t.acked, t.dead)
    {
      job, rest := name, Without(t, name);
      tmp, final, recorded := t.files.tmp, t.files.final, t.files.recorded;
      acked, dead := t.acked, t.dead;
    }

    /** What a statement must have done: exactly the step of a delivery. */
    twostate predicate Stepped(fault: bool)
      reads this
    {
      old(handling) && Here() == Step(k, job, old(Here()), fault)
    }

    /** An exception in the attempt, which the handler catches. */
    method Raise()
      requires handling
      modifies this`stage, this`attempt, this`failures
      ensures Stepped(true)
    {
      if attempt < MAX_ATTEMPTS {
        stage, attempt := Loading, attempt + 1;
      } else {
        stage := DeadLettering;
      }
      failures := failures + 1;
    }

    /** Parsing the body. */
    method ParseMessage()
      requires handling && stage.Checking?
      modifies this`stage, this`attempt
      ensures Stepped(false)
    {
      if payload.For? {
        stage, attempt := Loading, 1;
      } else {
        stage := Dropping;
      }
    }

    /** load_ticket_context */
    method LoadContext()
      requires handling && stage.Loading? && payload.For?
      modifies this`stage
      ensures Stepped(false)
    {
      stage := if payload.order in k.orders then Opening else Acking;
    }

    /** write_pdf_atomic: opening the .tmp file truncates it. */
    method OpenTmp()
      requires handling && stage.Opening? && payload.For?
      modifies this`stage, this`tmp
      ensures Stepped(false)
    {
      tmp, stage := tmp[payload.order := Partial], Writing;
    }

    /** write_pdf_atomic: write, flush and fsync. */
    method WriteTmp()
      requires handling && stage.Writing? && payload.For?
      modifies this`stage, this`tmp
      ensures Stepped(false)
    {
      tmp, stage := tmp[payload.order := Complete], Replacing;
    }

    /** write_pdf_atomic: os.replace, which raises when the .tmp file is gone. */
    method ReplaceFinal()
      requires handling && stage.Replacing? && payload.For?
      modifies this`stage, this`attempt, this`failures, this`tmp, this`final
      ensures Stepped(false)
    {
      var o := payload.order;
      if o in tmp {
        final, tmp, stage := final[o := tmp[o]], tmp - {o}, Marking;
      } else {
        Raise();
      }
    }

    /** mark_ticket_generated */
    method MarkGenerated()
      requires handling && stage.Marking? && payload.For?
      modifies this`stage, this`recorded
      ensures Stepped(false)
    {
      recorded, stage := recorded + {payload.order}, Acking;
    }

    /** The ack inside the attempt, which raises without a connection. */
    method Ack()
      requires handling && stage.Acking? && !job.Call?
      modifies this`handling, this`stage, this`attempt, this`failures, this`acked
      ensures Stepped(false)
    {
      if job.Message? {
        handling, acked := false, acked + {job.message};
      } else {
        Raise();
      }
    }

    /** The ack of a hopeless message, or the nack after the last attempt; without a connection
        it only ends the delivery. */
    method Settle()
      requires handling && (stage.Dropping? || stage.DeadLettering?) && !job.Call?
      modifies this`handling, this`acked, this`dead
      ensures Stepped(false)
    {
      handling := false;
      if job.Message? {
        if stage.Dropping? { acked := acked + {job.message}; } else { dead := dead + {job.message}; }
      }
    }

    /** The statement that comes next, or its exception. */
    method Dispatch(fault: bool)
      requires handling && !job.Call? && (fault ==> InLoop(stage)) && (InLoop(stage) ==> payload.For?)
      modifies this`handling, this`stage, this`attempt, this`failures, this`tmp, this`final, this`recorded
      modifies this`acked, this`dead
      ensures Stepped(fault)
    {
      if fault { Raise(); return; }
      match stage
      case Checking => ParseMessage();
      case Loading => LoadContext();
      case Opening => OpenTmp();
      case Writing => WriteTmp();
      case Replacing => ReplaceFinal();
      case Marking => MarkGenerated();
      case Acking => Ack();
      case Dropping => Settle();
      case DeadLettering => Settle();
    }

    /** One statement: everybody else moves, and then it is executed, or raises. */
    method Statement(faults: Faults, ghost end: Delivery)
      requires Valid() && handling && (InLoop(stage) ==> payload.For?) && HeadsFor(end, faults)
      modifies this
      ensures Ran() && HeadsFor(end, faults)
      ensures Follows(k, old(Mine()), Here().flight) && (handling ==> Remaining(Mine()) < old(Remaining(Mine())))
      ensures !handling && !job.Stray? ==> message in acked || message in dead
    {
      GetTurn();
      var fault := RaisesNow(Mine(), faults);
      ghost var d := Here();
      StepFollows(k, job, d, fault);
      Dispatch(fault);
      Record(old(state), d, fault);
    }

    /** The fields have made a step of the system. */
    ghost method Record(start: State, d: Delivery, fault: bool)
      requires Quiescent(rest, process) && d.flight.Some? && d.flight.value.process == process
      requires state == Whole(rest, job, d) && Reaches(k, false, IDLE, state) && Reaches(k, false, start, state)
      requires job !in rest.flights && (job == Message(message) || job.Stray?)
      requires d.flight.Some? && (fault ==> InLoop(d.flight.value.stage)) && Here() == Step(k, job, d, fault)
      modifies this`state
      ensures Valid() && Reaches(k, false, start, state)
    {
      var event := if fault then Fault(job) else Proceed(job);
      OwnStep(k, rest, job, d, fault);
      ReachesStep(k, false, IDLE, state, event);
      ReachesStep(k, false, start, state, event);
      state := Whole(rest, job, Here());
    }

    /** write_pdf_atomic */
    method WritePdfAtomic(faults: Faults, ghost end: Delivery)
      requires Valid() && handling && stage.Opening? && payload.For? && payload.order in k.orders
      requires HeadsFor(end, faults)
      modifies this
      ensures Ran() && HeadsFor(end, faults) && handling
      ensures Mine() == old(Mine()).(stage := Marking) || Mine() == Failed(old(Mine()))
    {
      Statement(faults, end);
      ghost var s := state;
      if stage.Writing? {
        WriteAndReplace(faults, end);
        ReachesTrans(k, false, old(state), s, state);
      }
    }

    /** write_pdf_atomic, once the .tmp file is open. */
    method WriteAndReplace(faults: Faults, ghost end: Delivery)
      requires Valid() && handling && stage.Writing? && payload.For? && payload.order in k.orders
      requires HeadsFor(end, faults)
      modifies this
      ensures Ran() && HeadsFor(end, faults) && handling
      ensures Mine() == old(Mine()).(stage := Marking) || Mine() == Failed(old(Mine()))
    {
      Statement(faults, end);
      ghost var s := state;
      if stage.Replacing? {
        Statement(faults, end);
        ReachesTrans(k, false, old(state), s, state);
      }
    }

    /** The file and the record of an attempt. */
    method WriteAndMark(faults: Faults, ghost end: Delivery)
      requires Valid() && handling && stage.Opening? && payload.For? && payload.order in k.orders
      requires HeadsFor(end, faults)
      modifies this
      ensures Ran() && HeadsFor(end, faults) && handling
      ensures Mine() == old(Mine()).(stage := Acking) || Mine() == Failed(old(Mine()))
    {
      WritePdfAtomic(faults, end);
      ghost var s := state;
      if stage.Marking? {
        Statement(faults, end);
        ReachesTrans(k, false, old(state), s, state);
      }
    }

    /** One attempt: load the order, write and record its ticket, ack. */
    method Attempt(faults: Faults, ghost end: Delivery)
      requires Valid() && handling && stage.Loading? && payload.For? && HeadsFor(end, faults)
      modifies this
      ensures Ran() && HeadsFor(end, faults)
      ensures handling ==> Mine() == Failed(old(Mine()))
      ensures !handling && !job.Stray? ==> message in acked || message in dead
    {
      Statement(faults, end);
      ghost var s := state;
      if stage.Opening? {
        WriteAndMark(faults, end);
        ReachesTrans(k, false, old(state), s, state);
        s := state;
      }
      if stage.Acking? {
        Statement(faults, end);
        ReachesTrans(k, false, old(state), s, state);
      }
    }

    /** The attempts, up to three, until one gets to its ack. */
    method Attempts(faults: Faults, ghost end: Delivery)
      requires Valid() && handling && stage.Loading? && payload.For? && HeadsFor(end, faults)
      modifies this
      ensures Ran() && HeadsFor(end, faults)
      ensures if handling then stage.DeadLettering? else job.Stray? || message in acked || message in dead
    {
      ghost var s := state;
      ReachesSelf(k, false, s);
      while handling && stage.Loading?
        invariant Ran() && HeadsFor(end, faults)
        invariant if handling then stage.Loading? || stage.DeadLettering?
            else job.Stray? || message in acked || message in dead
        decreases if handling then Remaining(Mine()) else 0
      {
        s := state;
        Attempt(faults, end);
        ReachesTrans(k, false, old(state), s, state);
      }
    }

    /** handle_message: ack what can never be processed, otherwise up to three attempts, and the
        nack after the third. Whatever the others do, it is a run of the system, and it settles
        its message if it keeps its connection; undisturbed, its outcome is exact. */
    method HandleMessage(faults: Faults)
      requires Valid() && handling && Mine() == Flight(process, payload, Checking, 0, 0) && |faults| == MAX_ATTEMPTS
      requires job == Message(message)
      modifies this
      ensures Ran() && !handling && (job.Stray? || message in acked || message in dead)
      ensures !disturbed ==> Delivered(k, message, payload, old(Here()), faults, Here())
    {
      ghost var end := Handled(k, job, Here(), faults);
      UndisturbedDelivery(k, message, Here(), faults, payload);
      Statement(faults, end);
      ghost var s := state;
      if stage.Loading? {
        Attempts(faults, end);
        ReachesTrans(k, false, old(state), s, state);
        s := state;
      }
      if handling {
        Statement(faults, end);
        ReachesTrans(k, false, old(state), s, state);
      }
    }
  }
}
