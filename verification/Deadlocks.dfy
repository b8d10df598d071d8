/** Which requests can deadlock: a condition on the requests and on the rows before they are sent. */
module Deadlocks {
  import opened Locking
  import opened Progress
  import opened Protocol
  import opened Store

  predicate ActiveIn(db: Db, a: AgentId) {
    a in db.agents && db.agents[a].active
  }

  /** Two keyed issues of one active agent, under different keys that are both unused. */
  predicate CanClash(db: Db, p: Request, q: Request) {
    && p.op.Issue? && q.op.Issue? && p.agent == q.agent && ActiveIn(db, p.agent)
    && Keyed(p) && Keyed(q) && p.key != q.key
    && SlotOf(p) !in db.keys && SlotOf(q) !in db.keys
  }

  /** Some run of these requests leads to the state. Sessions stay in the state when they are
      finished, so that its sessions are all that were ever started. */
  ghost predicate RunOf(s: State, requests: set<Request>, t: State) {
    Reaches(s, t) && forall sid :: sid in t.sessions ==> t.sessions[sid].req in requests
  }

  /** What a session has learnt of the rows from which the service started: its agent is active,
      and the key that it inserted was not there. */
  predicate Learnt(start: Db, me: Session) {
    && (me.agentCopy.Some? ==> ActiveIn(start, me.req.agent))
    && (me.sharesAgent ==> SlotOf(me.req) !in start.keys)
  }

  /** Agents keep their activity, and keys stay. */
  ghost predicate Grown(start: Db, db: Db) {
    && (forall a :: ActiveIn(db, a) ==> ActiveIn(start, a))
    && (forall slot :: slot in start.keys ==> slot in db.keys)
  }

  ghost predicate AllLearnt(start: Db, s: State) {
    Grown(start, s.db) && forall sid :: sid in s.sessions ==> Learnt(start, s.sessions[sid])
  }

  lemma AdvanceLearns(start: Db, db: Db, freshRow: RowId, me: Session, env: Env)
    requires Runnable(me) && Sound(db, me) && Grown(start, db) && Learnt(start, me)
    ensures Learnt(start, Advance(db, freshRow, me, env).1)
  {
  }

  lemma AdvanceGrows(start: Db, db: Db, freshRow: RowId, me: Session, env: Env)
    requires Runnable(me) && Sound(db, me) && Grown(start, db)
    ensures Grown(start, Advance(db, freshRow, me, env).0)
  {
    AdvanceChangesOwnRows(db, freshRow, me, env);
  }

  lemma LearntStep(start: Db, s: State, sid: SessionId, event: Event)
    requires LockInv(s) && AllLearnt(start, s) && Enabled(s, sid, event)
    ensures AllLearnt(start, Take(s, sid, event))
  {
    if event.Run? {
      AdvanceLearns(start, s.db, s.nextRow, s.sessions[sid], event.env);
      AdvanceGrows(start, s.db, s.nextRow, s.sessions[sid], event.env);
    }
  }

  lemma {:induction false} LearntRun(start: Db, s: State, trace: Trace)
    requires LockInv(s) && AllLearnt(start, s) && Feasible(s, trace)
    ensures LockInv(Exec(s, trace)) && AllLearnt(start, Exec(s, trace))
    decreases |trace|
  {
    if trace == [] {
    } else {
      LockInvStep(s, trace[0].sid, trace[0].event);
      LearntStep(start, s, trace[0].sid, trace[0].event);
      LearntRun(start, Take(s, trace[0].sid, trace[0].event), trace[1..]);
    }
  }

  /** A deadlock, wherever a run has come to it, is between requests that could clash from the start. */
  lemma CycleMeansClash(s: State, requests: set<Request>, t: State, cycle: seq<SessionId>)
    requires s.sessions == map[] && RunOf(s, requests, t) && WaitCycle(t, cycle)
    ensures exists p, q :: p in requests && q in requests && CanClash(s.db, p, q)
  {
    var trace :| Feasible(s, trace) && Exec(s, trace) == t;
    LearntRun(s.db, s, trace);
    DeadlockIffMutualUpgrade(t);
    var a, b :| MutualUpgrade(t, a, b);
    var p, q := t.sessions[a].req, t.sessions[b].req;
    assert Sound(t.db, t.sessions[a]) && Sound(t.db, t.sessions[b]);
    assert Compatible(t.sessions[a], t.sessions[b]);
    assert p in requests && q in requests && CanClash(s.db, p, q);
  }

  /** From a service at rest, some run of requests out of a set deadlocks if and only if two of
      them are keyed issues of one active agent, under different keys that are both unused. */
  lemma RequestsDeadlockIff(s: State, requests: set<Request>)
    requires s.sessions == map[]
    ensures (exists t, cycle :: RunOf(s, requests, t) && WaitCycle(t, cycle))
            <==> (exists p, q :: p in requests && q in requests && CanClash(s.db, p, q))
  {
    if t, cycle :| RunOf(s, requests, t) && WaitCycle(t, cycle) {
      CycleMeansClash(s, requests, t, cycle);
    }
    if p, q :| p in requests && q in requests && CanClash(s.db, p, q) {
      var t := KeyedIssuesCanDeadlock(s, p, q);
      assert RunOf(s, requests, t);
      assert WaitCycle(t, [0, 1, 0]);
    }
  }
}
