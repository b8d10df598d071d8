/** Every interleaving of sessions, with its lock waits, stale copies, aborts and crashes,
    behaves like atomic operations applied in the order of the commits. */
module Refinement {
  import opened AtomicBooks
  import opened Locking
  import opened Protocol
  import opened Store
  import opened Wrappers

  function BooksOf(db: Db): Books {
    Books(db.agents, db.orders, db.ledger, db.history)
  }

  /** The effect that the COMMIT of `me` makes durable. */
  function EffectOf(me: Session, freshOrder: OrderId): AtomicOp
    requires Runnable(me) && me.pc.Committing?
  {
    if me.req.op.Issue? then AtomicIssue(me.req.agent, me.req.op.order, me.pending.issuedAt)
    else AtomicBook(me.req.agent, freshOrder, me.pending.total, me.pending.currency,
                    if Keyed(me.req) then Some(SlotOf(me.req)) else None)
  }

  /** The atomic operations of one step: none, or the one whose COMMIT just passed. */
  function StepOps(s: State, sid: SessionId, event: Event): seq<AtomicOp>
    requires Enabled(s, sid, event)
  {
    if event.Run? && s.sessions[sid].pc.Committing? && !Take(s, sid, event).sessions[sid].pc.Unwinding?
    then [EffectOf(s.sessions[sid], event.env.freshOrder)]
    else []
  }

  /** The atomic operations of a run, in commit order. */
  function RunOps(s: State, trace: Trace): seq<AtomicOp>
    requires Feasible(s, trace)
    decreases |trace|
  {
    if trace == [] then []
    else StepOps(s, trace[0].sid, trace[0].event) + RunOps(Take(s, trace[0].sid, trace[0].event), trace[1..])
  }

  lemma IssueCommitRefines(db: Db, me: Session)
    requires Sound(db, me) && me.pc.Committing? && me.req.op.Issue?
    ensures var (db', me') := CommitIssue(db, me); var op := EffectOf(me, 0);
            if me'.pc.Unwinding? then db' == db
            else CanApply(BooksOf(db), op) && BooksOf(db') == Apply(BooksOf(db), op)
  {
    assert db.agents[me.req.agent].(balance := me.pending.newBalance)
        == db.agents[me.req.agent].(balance := db.agents[me.req.agent].balance - db.orders[me.req.op.order].total);
  }

  lemma CreateCommitRefines(db: Db, me: Session, id: OrderId)
    requires Sound(db, me) && me.pc.Committing? && me.req.op.Create?
    ensures var (db', me') := CommitCreate(db, me, id); var op := EffectOf(me, id);
            if me'.pc.Unwinding? then db' == db
            else CanApply(BooksOf(db), op) && BooksOf(db') == Apply(BooksOf(db), op)
  {
  }

  /** Each step is a stutter or exactly one atomic operation. */
  lemma StepRefines(s: State, sid: SessionId, event: Event)
    requires LockInv(s) && Enabled(s, sid, event)
    ensures |StepOps(s, sid, event)| <= 1
    ensures CanApplyAll(BooksOf(s.db), StepOps(s, sid, event))
    ensures ApplyAll(BooksOf(s.db), StepOps(s, sid, event)) == BooksOf(Take(s, sid, event).db)
  {
    if event.Run? && s.sessions[sid].pc.Committing? {
      var me := s.sessions[sid];
      assert Sound(s.db, me);
      if me.req.op.Issue? {
        IssueCommitRefines(s.db, me);
      } else {
        CreateCommitRefines(s.db, me, event.env.freshOrder);
      }
    }
  }

  lemma {:induction false} ApplyAllConcat(b: Books, first: seq<AtomicOp>, second: seq<AtomicOp>)
    requires CanApplyAll(b, first) && CanApplyAll(ApplyAll(b, first), second)
    ensures CanApplyAll(b, first + second)
    ensures ApplyAll(b, first + second) == ApplyAll(ApplyAll(b, first), second)
    decreases |first|
  {
    if first == [] {
      assert first + second == second;
    } else {
      assert (first + second)[1..] == first[1..] + second;
      ApplyAllConcat(Apply(b, first[0]), first[1..], second);
    }
  }

  /** Every run of the protocol is a run of the atomic specification. */
  lemma {:induction false} RunRefines(s: State, trace: Trace)
    requires LockInv(s) && Feasible(s, trace)
    ensures LockInv(Exec(s, trace))
    ensures CanApplyAll(BooksOf(s.db), RunOps(s, trace))
    ensures ApplyAll(BooksOf(s.db), RunOps(s, trace)) == BooksOf(Exec(s, trace).db)
    decreases |trace|
  {
    if trace == [] {
    } else {
      var next := Take(s, trace[0].sid, trace[0].event);
      StepRefines(s, trace[0].sid, trace[0].event);
      LockInvStep(s, trace[0].sid, trace[0].event);
      RunRefines(next, trace[1..]);
      ApplyAllConcat(BooksOf(s.db), StepOps(s, trace[0].sid, trace[0].event), RunOps(next, trace[1..]));
    }
  }
}
