/** Every success that a request computes itself, as opposed to replaying it, is true of the
    committed rows from then on, whatever table the service started from. */
module Answers {
  import opened Enums
  import opened Idempotency
  import opened Locking
  import opened Protocol
  import opened Store
  import opened Wrappers

  /** The response describes a committed effect of this request. */
  predicate Truthful(db: Db, req: Request, body: Body) {
    match body
    case EmptyBody => false
    case OrderBody(id, payload, total, currency) =>
      && req.op == Create(payload) && id in db.orders
      && db.orders[id].agent == req.agent && db.orders[id].total == total && db.orders[id].currency == currency
    case IssueBody(id, ticket, debited, _, currency, issuedAt) =>
      && req.op == Issue(id) && id in db.orders
      && db.orders[id].agent == req.agent && db.orders[id].status == Issued
      && db.orders[id].total == debited && db.orders[id].currency == currency
      && (db.orders[id].ticket.Some? ==> db.orders[id].ticket == Some(ticket))
      && (db.orders[id].issuedAt.Some? ==> db.orders[id].issuedAt == Some(issuedAt))
  }

  /** What the session has computed as its answer, if it is past computing it. */
  function Answer(me: Session): Option<Body> {
    match me.pc
    case Repeating(body) => Some(body)
    case Completing(body) => Some(body)
    case Finished(Success(body)) => if Keyed(me.req) && me.claim.None? then None else Some(body)
    case _ => None
  }

  predicate AnswerTrue(db: Db, me: Session) {
    Answer(me).Some? ==> Truthful(db, me.req, Answer(me).value)
  }

  ghost predicate AnswersTrue(s: State) {
    forall sid :: sid in s.sessions ==> AnswerTrue(s.db, s.sessions[sid])
  }

  lemma AdvanceAnswers(db: Db, freshRow: RowId, me: Session, env: Env)
    requires Runnable(me) && Sound(db, me) && AnswerTrue(db, me)
    ensures AnswerTrue(Advance(db, freshRow, me, env).0, Advance(db, freshRow, me, env).1)
  {
  }

  lemma TruthLasts(db: Db, db': Db, me: Session)
    requires OrdersEvolve(db, db') && AnswerTrue(db, me)
    ensures AnswerTrue(db', me)
  {
  }

  lemma AnswersTrueStep(s: State, sid: SessionId, event: Event)
    requires LockInv(s) && AnswersTrue(s) && Enabled(s, sid, event)
    ensures AnswersTrue(Take(s, sid, event))
  {
    if event.Run? {
      var me := s.sessions[sid];
      var (db', me') := Advance(s.db, s.nextRow, me, event.env);
      AdvanceAnswers(s.db, s.nextRow, me, event.env);
      AdvanceEvolvesOrders(s.db, s.nextRow, me, event.env);
      forall other | other in s.sessions ensures AnswerTrue(db', s.sessions[other]) {
        TruthLasts(s.db, db', s.sessions[other]);
      }
    }
  }

  lemma {:induction false} AnswersTrueRun(s: State, trace: Trace)
    requires LockInv(s) && AnswersTrue(s) && Feasible(s, trace)
    ensures AnswersTrue(Exec(s, trace))
    decreases |trace|
  {
    if trace == [] {
    } else {
      LockInvStep(s, trace[0].sid, trace[0].event);
      AnswersTrueStep(s, trace[0].sid, trace[0].event);
      AnswersTrueRun(Take(s, trace[0].sid, trace[0].event), trace[1..]);
    }
  }

  /** A success without a key, or under a key this request claimed, tells of a committed order,
      issued if the request was to issue it. */
  lemma SuccessIsTrue(s: State, sid: SessionId)
    requires Reachable(s) && sid in s.sessions
    requires s.sessions[sid].pc.Finished? && s.sessions[sid].pc.outcome.Success?
    requires !Keyed(s.sessions[sid].req) || s.sessions[sid].claim.Some?
    ensures Truthful(s.db, s.sessions[sid].req, s.sessions[sid].pc.outcome.body)
  {
    var idle: State :| idle.sessions == map[] && Reaches(idle, s);
    var trace :| Feasible(idle, trace) && Exec(idle, trace) == s;
    AnswersTrueRun(idle, trace);
    assert AnswerTrue(s.db, s.sessions[sid]);
  }
}
