/** How often one request takes effect, and what its answer says about it: over every run, a
    session commits one atomic operation at most, its own, and none when it is refused. */
module Effects {
  import opened AtomicBooks
  import opened Locking
  import opened Protocol
  import opened Refinement
  import opened Store
  import opened Wrappers

  /** The atomic operations that one session commits in a run. */
  function OpsOf(s: State, trace: Trace, sid: SessionId): seq<AtomicOp>
    requires Feasible(s, trace)
    decreases |trace|
  {
    if trace == [] then []
    else if trace[0].sid == sid
    then StepOps(s, sid, trace[0].event) + OpsOf(Take(s, sid, trace[0].event), trace[1..], sid)
    else OpsOf(Take(s, trace[0].sid, trace[0].event), trace[1..], sid)
  }

  /** The operation is the one asked for. */
  predicate AskedFor(req: Request, op: AtomicOp) {
    match req.op
    case Issue(o) => op.AtomicIssue? && op.agent == req.agent && op.order == o
    case Create(_) =>
      op.AtomicBook? && op.agent == req.agent && op.under == if Keyed(req) then Some(SlotOf(req)) else None
  }

  /** Exactly one operation, the one asked for. */
  predicate Once(req: Request, ops: seq<AtomicOp>) {
    |ops| == 1 && AskedFor(req, ops[0])
  }

  /** The body reports the committed operation. */
  predicate Reports(body: Body, op: AtomicOp) {
    match op
    case AtomicIssue(_, o, now) => body.IssueBody? && body.id == o && body.issuedAt == now
    case AtomicBook(_, o, total, currency, _) =>
      body.OrderBody? && body.id == o && body.total == total && body.currency == currency
  }

  /** Answered from the stored response of another request. */
  predicate Replayed(me: Session) {
    Keyed(me.req) && me.claim.None?
  }

  /** What a session at this point has committed. */
  predicate HasCommitted(me: Session, ops: seq<AtomicOp>) {
    match me.pc
    case Completing(body) => Once(me.req, ops) && Reports(body, ops[0])
    case Unwinding(error, markFailed) => ops == [] || (Once(me.req, ops) && error == DatabaseError && !markFailed)
    case Finished(Failure(error)) => ops == [] || (Once(me.req, ops) && error == DatabaseError)
    case Finished(Lost) => ops == [] || Once(me.req, ops)
    case Finished(Success(body)) =>
      if Replayed(me) then ops == []
      else (ops == [] && me.req.op.Issue?) || (Once(me.req, ops) && Reports(body, ops[0]))
    case _ => ops == []
  }

  lemma CommitEffect(s: State, sid: SessionId, env: Env)
    requires LockInv(s) && Enabled(s, sid, Run(env)) && s.sessions[sid].pc.Committing?
    ensures HasCommitted(Take(s, sid, Run(env)).sessions[sid], StepOps(s, sid, Run(env)))
  {
    assert Sound(s.db, s.sessions[sid]);
  }

  lemma QuietAdvance(db: Db, freshRow: RowId, me: Session, env: Env, done: seq<AtomicOp>)
    requires Runnable(me) && Sound(db, me) && !me.pc.Committing? && HasCommitted(me, done)
    ensures HasCommitted(Advance(db, freshRow, me, env).1, done)
  {
    if me.pc.LockingOrder? {
      LockOrderFollows(db, me, env.now);
    }
  }

  lemma QuietEffect(s: State, sid: SessionId, env: Env, done: seq<AtomicOp>)
    requires LockInv(s) && Enabled(s, sid, Run(env)) && !s.sessions[sid].pc.Committing?
    requires HasCommitted(s.sessions[sid], done)
    ensures HasCommitted(Take(s, sid, Run(env)).sessions[sid], done)
  {
    QuietAdvance(s.db, s.nextRow, s.sessions[sid], env, done);
  }

  lemma OwnStepEffect(s: State, sid: SessionId, event: Event, done: seq<AtomicOp>)
    requires LockInv(s) && Enabled(s, sid, event)
    requires if sid in s.sessions then HasCommitted(s.sessions[sid], done) else done == []
    ensures HasCommitted(Take(s, sid, event).sessions[sid], done + StepOps(s, sid, event))
  {
    assert done + [] == done;
    if event.Run? {
      if s.sessions[sid].pc.Committing? {
        CommitEffect(s, sid, event.env);
        assert done == [] && [] + StepOps(s, sid, event) == StepOps(s, sid, event);
      } else {
        QuietEffect(s, sid, event.env, done);
      }
    }
  }

  lemma {:induction false} RunEffects(s: State, trace: Trace, sid: SessionId, done: seq<AtomicOp>)
    requires LockInv(s) && Feasible(s, trace)
    requires if sid in s.sessions then HasCommitted(s.sessions[sid], done) else done == []
    ensures var t := Exec(s, trace);
            if sid in t.sessions then HasCommitted(t.sessions[sid], done + OpsOf(s, trace, sid))
            else OpsOf(s, trace, sid) == []
    decreases |trace|
  {
    if trace == [] {
      assert done + [] == done;
    } else {
      var next := Take(s, trace[0].sid, trace[0].event);
      LockInvStep(s, trace[0].sid, trace[0].event);
      if trace[0].sid == sid {
        var step := StepOps(s, sid, trace[0].event);
        OwnStepEffect(s, sid, trace[0].event, done);
        RunEffects(next, trace[1..], sid, done + step);
        assert done + (step + OpsOf(next, trace[1..], sid)) == (done + step) + OpsOf(next, trace[1..], sid);
        SessionsStay(next, trace[1..], sid);
      } else {
        RunEffects(next, trace[1..], sid, done);
      }
    }
  }

  lemma {:induction false} SessionsStay(s: State, trace: Trace, sid: SessionId)
    requires Feasible(s, trace) && sid in s.sessions
    ensures sid in Exec(s, trace).sessions
    decreases |trace|
  {
    if trace == [] {
    } else {
      SessionsStay(Take(s, trace[0].sid, trace[0].event), trace[1..], sid);
    }
  }

  /** Over its whole life, in any run, a request takes effect at most once; refused with any
      error but a failure of the database, or answered by a replay, it has had no effect; a
      fresh success reports the effect it had, and only an issue may have found it done. */
  lemma EffectOfARequest(s: State, trace: Trace, sid: SessionId)
    requires LockInv(s) && Feasible(s, trace) && sid !in s.sessions && sid in Exec(s, trace).sessions
    ensures var me, ops := Exec(s, trace).sessions[sid], OpsOf(s, trace, sid);
            && (ops == [] || Once(me.req, ops))
            && (me.pc.Finished? && me.pc.outcome.Failure? && me.pc.outcome.error != DatabaseError ==> ops == [])
            && (me.pc.Finished? && me.pc.outcome.Success? ==>
                  if Replayed(me) then ops == []
                  else if ops == [] then me.req.op.Issue? else Reports(me.pc.outcome.body, ops[0]))
  {
    RunEffects(s, trace, sid, []);
    assert [] + OpsOf(s, trace, sid) == OpsOf(s, trace, sid);
  }
}
