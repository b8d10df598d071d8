/** What one request does from start to end when nobody interferes: its exact answer and its
    exact effect, read off the rows that were committed before. */
module Sequential {
  import opened AtomicBooks
  import opened Digits
  import opened Enums
  import opened Ledger
  import opened Locking
  import opened Pricing
  import opened Progress
  import opened Protocol
  import opened Refinement
  import opened Store
  import opened Wrappers

  /** The rest of a session's statements, one after the other. */
  function Completion(db: Db, freshRow: RowId, me: Session, env: Env): (Db, Session)
    decreases Remaining(me.pc)
  {
    if !Runnable(me) then (db, me)
    else
      var (db', me') := Advance(db, freshRow, me, env);
      AdvanceFollows(db, freshRow, me, env);
      FollowsCounts(me.req, me.pc, me'.pc);
      Completion(db', freshRow + 1, me', env)
  }

  lemma CompletionStep(s: State, sid: SessionId, env: Env) returns (next: State)
    requires LockInv(s) && Live(s, sid)
    requires forall other :: other in s.sessions && other != sid ==> NoLocks(s.sessions[other])
    ensures Enabled(s, sid, Run(env)) && next == Take(s, sid, Run(env)) && LockInv(next)
    ensures sid in next.sessions && next.sessions == s.sessions[sid := next.sessions[sid]]
    ensures Remaining(next.sessions[sid].pc) < Remaining(s.sessions[sid].pc)
    ensures Completion(s.db, s.nextRow, s.sessions[sid], env)
         == Completion(next.db, next.nextRow, next.sessions[sid], env)
  {
    LiveIsRunnable(s, sid);
    next := Take(s, sid, Run(env));
    LockInvStep(s, sid, Run(env));
    AdvanceFollows(s.db, s.nextRow, s.sessions[sid], env);
    FollowsCounts(s.sessions[sid].req, s.sessions[sid].pc, next.sessions[sid].pc);
  }

  /** When no other session holds a lock, the session can run to its end alone. */
  lemma {:induction false} CompletionIsRun(s: State, t: State, sid: SessionId, env: Env) returns (u: State)
    requires LockInv(t) && Reaches(s, t) && sid in t.sessions
    requires forall other :: other in t.sessions && other != sid ==> NoLocks(t.sessions[other])
    ensures Reaches(s, u) && sid in u.sessions && u.sessions[sid].pc.Finished?
    ensures u.db == Completion(t.db, t.nextRow, t.sessions[sid], env).0
    ensures u.sessions == t.sessions[sid := Completion(t.db, t.nextRow, t.sessions[sid], env).1]
    decreases Remaining(t.sessions[sid].pc)
  {
    if t.sessions[sid].pc.Finished? {
      u := t;
    } else {
      var next := CompletionStep(t, sid, env);
      ReachesStep(s, t, sid, Run(env));
      u := CompletionIsRun(s, next, sid, env);
    }
  }

  // ---------------------------------------------------------------- the answers

  predicate ActiveAgent(db: Db, a: AgentId) {
    a in db.agents && db.agents[a].active
  }

  /** The key, if there is one, is free to be claimed. */
  predicate KeyFree(db: Db, req: Request) {
    Keyed(req) && SlotOf(req) in db.keys ==> db.keys[SlotOf(req)].status == KeyFailed
  }

  predicate IssuedBefore(db: Db, a: AgentId, o: OrderId) {
    o in db.orders && db.orders[o].agent == a && db.orders[o].status == Issued
  }

  /** Why an order cannot be issued: the first thing that is wrong. */
  function Refusal(db: Db, a: AgentId, o: OrderId): Error
    requires a in db.agents
  {
    if o !in db.orders then NotFound
    else if db.orders[o].agent != a then Forbidden
    else if db.orders[o].status != Booked then InvalidStatus
    else if db.orders[o].currency != db.agents[a].currency then CurrencyMismatch
    else if db.agents[a].balance < db.orders[o].total then InsufficientFunds
    else DatabaseError
  }

  /** The answer of a request that may not use its key. */
  function KeyAnswer(row: KeyRow, op: Op): Outcome {
    if row.status == Completed && row.hash == op
    then Success(if row.body.Some? then row.body.value else EmptyBody)
    else Failure(if row.status == Completed then KeyReused else InProgress)
  }

  /** The key tells of the completed request; no other key changes. */
  predicate KeyCompleted(before: Db, after: Db, req: Request, body: Body) {
    if Keyed(req) then
      var slot := SlotOf(req);
      && slot in after.keys && after.keys == before.keys[slot := after.keys[slot]]
      && after.keys[slot].hash == req.op && after.keys[slot].status == Completed && after.keys[slot].body == Some(body)
    else after.keys == before.keys
  }

  /** The request ended in this body and this change of the books, and completed its key. */
  predicate Succeeded(before: Db, end: (Db, Session), books: Books, body: Body) {
    && end.1.pc == Finished(Success(body)) && BooksOf(end.0) == books
    && KeyCompleted(before, end.0, end.1.req, body)
  }

  predicate Refused(before: Db, end: (Db, Session), error: Error) {
    end.1.pc == Finished(Failure(error)) && end.0 == before
  }

  // ---------------------------------------------------------------- from the claim on

  /** The session has claimed its key, if it has one, and has not committed anything. */
  predicate HasClaim(db: Db, me: Session) {
    if Keyed(me.req) then
      && me.claim.Some?
      && (SlotOf(me.req) in db.keys ==>
            && db.keys[SlotOf(me.req)].status == KeyFailed && db.keys[SlotOf(me.req)].id == me.claim.value.row
            && (me.claim.value.sameHash ==> db.keys[SlotOf(me.req)].hash == me.req.op))
    else me.claim.None?
  }

  lemma EndOfCompleting(db: Db, freshRow: RowId, me: Session, env: Env)
    requires me.pc.Completing? && ClaimedRowExists(db, me)
    ensures var slot := SlotOf(me.req); var (db', me') := Completion(db, freshRow, me, env);
            && db' == db.(keys := db.keys[slot := db.keys[slot].(status := Completed, body := Some(me.pc.body))])
            && me'.pc == Finished(Success(me.pc.body)) && me'.req == me.req
  {
  }

  lemma EndOfUnwinding(db: Db, freshRow: RowId, me: Session, env: Env)
    requires me.pc.Unwinding? && HasClaim(db, me)
    ensures Refused(db, Completion(db, freshRow, me, env), me.pc.error)
  {
    var next := Unwind(me);
    assert Completion(db, freshRow, me, env) == Completion(db, freshRow + 1, next, env);
    if next.pc.MarkingFailed? {
      assert MarkFailed(db, next).0 == db;
      assert Completion(db, freshRow + 1, next, env) == Completion(db, freshRow + 2, MarkFailed(db, next).1, env);
    }
  }

  lemma EndOfCommitted(before: Db, db: Db, freshRow: RowId, me: Session, env: Env, body: Body)
    requires HasClaim(before, me) && db.keys == CommitClaim(before, me, Locked, KeptBody(before, me))
    ensures Completion(db, freshRow, AfterCommit(me, body), env).1.req == me.req
    ensures Succeeded(before, Completion(db, freshRow, AfterCommit(me, body), env), BooksOf(db), body)
  {
    if me.claim.Some? {
      EndOfCompleting(db, freshRow, AfterCommit(me, body), env);
    }
  }

  /** An issue that has passed its checks: it commits unless another order has the ticket. */
  lemma IssueFromCommitting(db: Db, freshRow: RowId, me: Session, env: Env)
    requires Sound(db, me) && me.pc.Committing? && me.req.op.Issue? && HasClaim(db, me)
    requires OrdersConsistent(BooksOf(db)) && me.pending.issuedAt == env.now
    ensures var op, end := AtomicIssue(me.req.agent, me.req.op.order, env.now), Completion(db, freshRow, me, env);
            if CanApply(BooksOf(db), op)
            then Succeeded(db, end, Apply(BooksOf(db), op), FirstAnswer(db, me.req.agent, me.req.op.order, env.now))
            else Refused(db, end, DatabaseError)
    ensures !CanApply(BooksOf(db), AtomicIssue(me.req.agent, me.req.op.order, env.now)) <==>
              TicketTaken(db.orders, me.req.op.order, TicketNumber(me.req.op.order))
  {
    NoDebitYet(db, me.req.op.order);
    IssueCommitRefines(db, me);
    var (db', me') := CommitIssue(db, me);
    assert Completion(db, freshRow, me, env) == Completion(db', freshRow + 1, me', env);
    if me'.pc.Unwinding? {
      EndOfUnwinding(db, freshRow + 1, me', env);
    } else {
      EndOfCommitted(db, db', freshRow + 1, me, env, FirstAnswer(db, me.req.agent, me.req.op.order, env.now));
    }
  }

  /** The answer of a fresh issue. */
  function FirstAnswer(db: Db, a: AgentId, o: OrderId, now: int): Body
    requires a in db.agents && o in db.orders
  {
    var order := db.orders[o];
    IssueBody(o, TicketNumber(o), order.total, db.agents[a].balance - order.total, order.currency, now)
  }

  lemma NoDebitYet(db: Db, o: OrderId)
    requires OrdersConsistent(BooksOf(db)) && o in db.orders && db.orders[o].status == Booked
    ensures !HasTxn(db.ledger, o, Debit) && db.orders[o].total > 0
  {
    assert OrderConsistent(BooksOf(db), o);
    if HasTxn(db.ledger, o, Debit) {
      var i :| 0 <= i < |db.ledger| && db.ledger[i].order == o && db.ledger[i].kind == Debit;
      DebitRowIsSelected(db.ledger, o, i);
    }
  }

  /** An order found ISSUED: the key is completed, nothing else happens. */
  lemma RepeatToEnd(db: Db, freshRow: RowId, me: Session, env: Env)
    requires me.pc.Repeating? && HasClaim(db, me)
    ensures Succeeded(db, Completion(db, freshRow, me, env), BooksOf(db), me.pc.body)
  {
    var (db', me') := Repeat(db, me);
    assert Completion(db, freshRow, me, env) == Completion(db', freshRow + 1, me', env);
  }

  /** What an issue comes to once the key is claimed. */
  predicate IssueRuling(db: Db, req: Request, now: int, end: (Db, Session))
    requires req.op.Issue? && req.agent in db.agents
  {
    var a, o := req.agent, req.op.order;
    var op := AtomicIssue(a, o, now);
    if IssuedBefore(db, a, o)
    then Succeeded(db, end, BooksOf(db), IssueResponse(o, db.orders[o], db.agents[a], now))
    else if CanApply(BooksOf(db), op)
    then Succeeded(db, end, Apply(BooksOf(db), op), FirstAnswer(db, a, o, now))
    else Refused(db, end, Refusal(db, a, o))
  }

  lemma IssueFromOrder(db: Db, freshRow: RowId, me: Session, env: Env)
    requires Sound(db, me) && me.pc.LockingOrder? && HasClaim(db, me) && OrdersConsistent(BooksOf(db))
    ensures IssueRuling(db, me.req, env.now, Completion(db, freshRow, me, env))
  {
    var next := LockOrder(db, me, env.now);
    LockOrderSound(db, me, env.now);
    assert Completion(db, freshRow, me, env) == Completion(db, freshRow + 1, next, env);
    if next.pc.Committing? {
      IssueFromCommitting(db, freshRow + 1, next, env);
    } else if next.pc.Repeating? {
      RepeatToEnd(db, freshRow + 1, next, env);
    } else {
      EndOfUnwinding(db, freshRow + 1, next, env);
    }
  }

  /** Why there is no offer to book: the provider failed, does not know it, or it has expired. */
  function QuoteError(quote: Quote, now: int): Option<Error> {
    match quote
    case TimedOut => Some(ProviderTimeout)
    case Missing => Some(NotFound)
    case Broken => Some(ProviderError)
    case Offer(_, _, None) => None
    case Offer(_, _, Some(expires)) => if now < expires then None else Some(OfferNotAvailable)
  }

  /** What a booking comes to once the key is claimed. */
  predicate BookingRuling(db: Db, req: Request, env: Env, end: (Db, Session))
    requires req.op.Create?
  {
    var error := QuoteError(env.quote, env.now);
    if error.Some? then Refused(db, end, error.value)
    else
      var total, currency := OrderTotal(env.quote.price, req.op.payload.pax), env.quote.currency;
      var op := AtomicBook(req.agent, env.freshOrder, total, currency, if Keyed(req) then Some(SlotOf(req)) else None);
      if req.agent in db.agents && env.freshOrder !in db.orders && 1 <= total <= 99_999_999_999_999
      then
        CanApply(BooksOf(db), op)
        && Succeeded(db, end, Apply(BooksOf(db), op), OrderBody(env.freshOrder, req.op.payload, total, currency))
      else Refused(db, end, DatabaseError)
  }

  lemma BookingFromCommitting(db: Db, freshRow: RowId, me: Session, env: Env)
    requires Sound(db, me) && me.pc.Committing? && me.req.op.Create? && HasClaim(db, me)
    requires QuoteError(env.quote, env.now).None?
    requires me.pending == OrderInsert(OrderTotal(env.quote.price, me.req.op.payload.pax), env.quote.currency)
    ensures BookingRuling(db, me.req, env, Completion(db, freshRow, me, env))
  {
    CreateCommitRefines(db, me, env.freshOrder);
    var (db', me') := CommitCreate(db, me, env.freshOrder);
    assert Completion(db, freshRow, me, env) == Completion(db', freshRow + 1, me', env);
    if me'.pc.Unwinding? {
      EndOfUnwinding(db, freshRow + 1, me', env);
    } else {
      EndOfCommitted(db, db', freshRow + 1, me, env,
                     OrderBody(env.freshOrder, me.req.op.payload, me.pending.total, me.pending.currency));
    }
  }

  lemma BookingFromOffer(db: Db, freshRow: RowId, me: Session, env: Env)
    requires Sound(db, me) && me.pc.LoadingOffer? && HasClaim(db, me)
    ensures BookingRuling(db, me.req, env, Completion(db, freshRow, me, env))
  {
    var next := LoadOffer(me, env.quote, env.now);
    BeforeLocksSound(db, freshRow, me, env);
    assert Completion(db, freshRow, me, env) == Completion(db, freshRow + 1, next, env);
    if next.pc.Committing? {
      BookingFromCommitting(db, freshRow + 1, next, env);
    } else {
      EndOfUnwinding(db, freshRow + 1, next, env);
    }
  }

  // ---------------------------------------------------------------- the whole request

  /** The request was accepted at the door: its agent is active and its key free. */
  predicate Admitted(db: Db, req: Request) {
    ActiveAgent(db, req.agent) && KeyFree(db, req)
  }

  /** What a request comes to that is turned away, or answered from its key. */
  predicate TurnedAway(db: Db, req: Request, end: (Db, Session)) {
    && end.0 == db
    && end.1.pc == Finished(
         if req.agent !in db.agents then Failure(Unauthorized)
         else if !db.agents[req.agent].active then Failure(Forbidden)
         else if SlotOf(req) in db.keys then KeyAnswer(db.keys[SlotOf(req)], req.op)
         else Lost)
  }

  /** The end of an undisturbed issue. */
  predicate IssueEnds(db: Db, req: Request, env: Env, end: (Db, Session))
    requires req.op.Issue?
  {
    if Admitted(db, req) then IssueRuling(db, req, env.now, end) else TurnedAway(db, req, end)
  }

  /** The end of an undisturbed booking. */
  predicate BookingEnds(db: Db, req: Request, env: Env, end: (Db, Session))
    requires req.op.Create?
  {
    if Admitted(db, req) then BookingRuling(db, req, env, end) else TurnedAway(db, req, end)
  }

  lemma ClaimToEnd(db: Db, freshRow: RowId, me: Session, env: Env) returns (row: RowId, next: Session)
    requires Sound(db, me) && me.pc.Claiming? && KeyFree(db, me.req)
    ensures Sound(db, next) && next.pc == AfterClaim(me.req) && next.req == me.req && HasClaim(db, next)
    ensures Completion(db, freshRow, me, env) == Completion(db, row, next, env)
  {
    next, row := ClaimKey(db, freshRow, me), freshRow + 1;
    BeforeLocksSound(db, freshRow, me, env);
    assert Completion(db, freshRow, me, env) == Completion(db, row, next, env);
    if next.pc.ReadingKey? {
      var read := ReadKey(db, next);
      BeforeLocksSound(db, row, next, env);
      assert Completion(db, row, next, env) == Completion(db, row + 1, read, env);
      BeforeLocksSound(db, row + 1, read, env);
      assert Completion(db, row + 1, read, env) == Completion(db, row + 2, Reclaim(read), env);
      next, row := Reclaim(read), row + 2;
    }
  }

  lemma AdmittedReaches(db: Db, freshRow: RowId, req: Request, env: Env) returns (row: RowId, next: Session)
    requires Admitted(db, req)
    ensures Sound(db, next) && next.pc == AfterClaim(req) && next.req == req && HasClaim(db, next)
    ensures Completion(db, freshRow, NewSession(req), env) == Completion(db, row, next, env)
  {
    var me := NewSession(req);
    BeforeLocksSound(db, freshRow, me, env);
    next, row := Authenticate(db, me), freshRow + 1;
    if Keyed(req) {
      row, next := ClaimToEnd(db, row, next, env);
    }
  }

  lemma NotAdmitted(db: Db, freshRow: RowId, req: Request, env: Env)
    requires !Admitted(db, req)
    ensures TurnedAway(db, req, Completion(db, freshRow, NewSession(req), env))
  {
    var me := Authenticate(db, NewSession(req));
    assert Completion(db, freshRow, NewSession(req), env) == Completion(db, freshRow + 1, me, env);
    if me.pc.Unwinding? {
      assert Completion(db, freshRow + 1, me, env) == Completion(db, freshRow + 2, Unwind(me), env);
    } else {
      var reading := ClaimKey(db, freshRow + 1, me);
      var read := ReadKey(db, reading);
      assert Completion(db, freshRow + 1, me, env) == Completion(db, freshRow + 2, reading, env);
      assert Completion(db, freshRow + 2, reading, env) == Completion(db, freshRow + 3, read, env);
      if read.pc.Unwinding? {
        assert Completion(db, freshRow + 3, read, env) == Completion(db, freshRow + 4, Unwind(read), env);
      }
    }
  }

  /** An undisturbed issue: exactly when the atomic issue is possible, it happens; an order of
      the agent that is ISSUED is answered as a success; everything else is refused with the
      first reason that applies, and then not one row is different, the key's included. */
  lemma UndisturbedIssue(db: Db, freshRow: RowId, req: Request, env: Env)
    requires req.op.Issue? && OrdersConsistent(BooksOf(db))
    ensures IssueEnds(db, req, env, Completion(db, freshRow, NewSession(req), env))
  {
    if Admitted(db, req) {
      var row, me := AdmittedReaches(db, freshRow, req, env);
      BeforeLocksSound(db, row, me, env);
      var next := LockAgent(db, me);
      IssueFromOrder(db, row + 1, next, env);
    } else {
      NotAdmitted(db, freshRow, req, env);
    }
  }

  /** An undisturbed booking, likewise. */
  lemma UndisturbedBooking(db: Db, freshRow: RowId, req: Request, env: Env)
    requires req.op.Create?
    ensures BookingEnds(db, req, env, Completion(db, freshRow, NewSession(req), env))
  {
    if Admitted(db, req) {
      var row, me := AdmittedReaches(db, freshRow, req, env);
      BookingFromOffer(db, row, me, env);
    } else {
      NotAdmitted(db, freshRow, req, env);
    }
  }

  /** The key of a request, in figures: an absent and an empty one leave the table of keys as it
      is; any other one is completed by a success, under the agent, the scope and the key sent. */
  predicate KeyOutcome(db: Db, req: Request, end: (Db, Session)) {
    match req.key
    case None => end.0.keys == db.keys
    case Some(key) =>
      if key == "" then end.0.keys == db.keys
      else
        var slot := Slot(req.agent, if req.op.Issue? then IssueOrder else CreateOrder, key);
        end.1.pc.Finished? && end.1.pc.outcome.Success? ==>
          && slot in end.0.keys && end.0.keys == db.keys[slot := end.0.keys[slot]]
          && end.0.keys[slot].status == Completed && end.0.keys[slot].hash == req.op
          && (slot !in db.keys || db.keys[slot].status != Completed ==>
                end.0.keys[slot].body == Some(end.1.pc.outcome.body))
  }

  lemma KeyAfterIssue(db: Db, freshRow: RowId, req: Request, env: Env)
    requires req.op.Issue? && OrdersConsistent(BooksOf(db))
    ensures KeyOutcome(db, req, Completion(db, freshRow, NewSession(req), env))
  {
    UndisturbedIssue(db, freshRow, req, env);
    CompletionKeepsRequest(db, freshRow, NewSession(req), env);
  }

  lemma KeyAfterBooking(db: Db, freshRow: RowId, req: Request, env: Env)
    requires req.op.Create?
    ensures KeyOutcome(db, req, Completion(db, freshRow, NewSession(req), env))
  {
    UndisturbedBooking(db, freshRow, req, env);
    CompletionKeepsRequest(db, freshRow, NewSession(req), env);
  }

  // ---------------------------------------------------------------- retries

  lemma FreshIssueLeaves(db: Db, op: AtomicOp, db': Db)
    requires op.AtomicIssue? && CanApply(BooksOf(db), op) && BooksOf(db') == Apply(BooksOf(db), op)
    ensures IssuedBefore(db', op.agent, op.order) && op.agent in db'.agents
    ensures db'.agents[op.agent].active == db.agents[op.agent].active
    ensures forall later ::
              FirstAnswer(db, op.agent, op.order, op.now)
              == IssueResponse(op.order, db'.orders[op.order], db'.agents[op.agent], later)
  {
    var b' := Apply(BooksOf(db), op);
    assert db'.orders == b'.orders && db'.agents == b'.agents;
  }

  /** The order is issued, under a body that later requests for it are answered with. */
  lemma SuccessLeavesIssued(db: Db, req: Request, now: int, end: (Db, Session))
    requires req.op.Issue? && Admitted(db, req) && IssueRuling(db, req, now, end) && end.1.req == req
    requires OrdersConsistent(BooksOf(db)) && RowsConsistent(BooksOf(db))
    requires end.1.pc.Finished? && end.1.pc.outcome.Success?
    ensures OrdersConsistent(BooksOf(end.0)) && IssuedBefore(end.0, req.agent, req.op.order)
    ensures ActiveAgent(end.0, req.agent) && KeyCompleted(db, end.0, req, end.1.pc.outcome.body)
    ensures forall later :: end.1.pc.outcome.body ==
              IssueResponse(req.op.order, end.0.orders[req.op.order], end.0.agents[req.agent], later)
  {
    if IssuedBefore(db, req.agent, req.op.order) {
      assert OrderConsistent(BooksOf(db), req.op.order);
      assert end.0.orders == db.orders && end.0.agents == db.agents;
    } else {
      var op := AtomicIssue(req.agent, req.op.order, now);
      ApplyKeepsOrders(BooksOf(db), op);
      FreshIssueLeaves(db, op, end.0);
    }
  }

  lemma {:induction false} CompletionKeepsRequest(db: Db, freshRow: RowId, me: Session, env: Env)
    requires Sound(db, me)
    ensures Completion(db, freshRow, me, env).1.req == me.req
    decreases Remaining(me.pc)
  {
    if Runnable(me) {
      var (db', me') := Advance(db, freshRow, me, env);
      AdvanceSound(db, freshRow, me, env);
      AdvanceFollows(db, freshRow, me, env);
      FollowsCounts(me.req, me.pc, me'.pc);
      CompletionKeepsRequest(db', freshRow + 1, me', env);
    }
  }

  predicate KeyStores(db: Db, req: Request, body: Body) {
    Keyed(req) ==>
      var slot := SlotOf(req);
      slot in db.keys && db.keys[slot].status == Completed && db.keys[slot].hash == req.op
      && db.keys[slot].body == Some(body)
  }

  /** An issued order is answered with one and the same body, from the key or from the rows. */
  lemma IssuedIsAnswered(db: Db, freshRow: RowId, req: Request, env: Env, body: Body)
    requires req.op.Issue? && ActiveAgent(db, req.agent) && OrdersConsistent(BooksOf(db))
    requires IssuedBefore(db, req.agent, req.op.order) && KeyStores(db, req, body)
    requires body == IssueResponse(req.op.order, db.orders[req.op.order], db.agents[req.agent], env.now)
    ensures Completion(db, freshRow, NewSession(req), env).0 == db
    ensures Completion(db, freshRow, NewSession(req), env).1.pc == Finished(Success(body))
  {
    UndisturbedIssue(db, freshRow, req, env);
    CompletionKeepsRequest(db, freshRow, NewSession(req), env);
  }

  /** The same issue sent again at once, with a key or without: after a success it gets the
      same body and changes nothing, whatever the clock says by then. */
  lemma RetryOfIssue(db: Db, freshRow: RowId, req: Request, env: Env, laterRow: RowId, later: Env)
    requires req.op.Issue? && OrdersConsistent(BooksOf(db)) && RowsConsistent(BooksOf(db)) && Admitted(db, req)
    ensures var (once, me) := Completion(db, freshRow, NewSession(req), env);
            me.pc.Finished? && (me.pc.outcome.Success? ==>
              var (twice, again) := Completion(once, laterRow, NewSession(req), later);
              again.pc == me.pc && twice == once)
  {
    var end := Completion(db, freshRow, NewSession(req), env);
    UndisturbedIssue(db, freshRow, req, env);
    CompletionKeepsRequest(db, freshRow, NewSession(req), env);
    if end.1.pc.Finished? && end.1.pc.outcome.Success? {
      SuccessLeavesIssued(db, req, env.now, end);
      IssuedIsAnswered(end.0, laterRow, req, later, end.1.pc.outcome.body);
    }
  }

  /** The same booking sent again under its key: the same body, and no second order. */
  lemma RetryOfBooking(db: Db, freshRow: RowId, req: Request, env: Env, laterRow: RowId, later: Env)
    requires req.op.Create? && Keyed(req) && Admitted(db, req)
    ensures var (once, me) := Completion(db, freshRow, NewSession(req), env);
            me.pc.Finished? && (me.pc.outcome.Success? ==>
              var (twice, again) := Completion(once, laterRow, NewSession(req), later);
              again.pc == me.pc && twice == once)
  {
    UndisturbedBooking(db, freshRow, req, env);
    CompletionKeepsRequest(db, freshRow, NewSession(req), env);
    var end := Completion(db, freshRow, NewSession(req), env);
    if end.1.pc.Finished? && end.1.pc.outcome.Success? {
      assert end.0.agents == BooksOf(end.0).agents == db.agents;
      UndisturbedBooking(end.0, laterRow, req, later);
    }
  }
}
