/** issue and create_order as the services run them: a database connection whose ORM session is
    updated in place, statement by statement, while any number of other sessions move between
    the statements. Every execution is shown to be a run of Protocol, so that all its theorems
    apply to this code. */
module Service {
  import opened Answers
  import opened Digits
  import opened Enums
  import opened Ledger
  import opened Locking
  import opened Pricing
  import opened Protocol
  import opened Refinement
  import opened Sequential
  import opened Store
  import opened Wrappers

  /** What the code can send. */
  datatype Stmt =
    | LoadAgent
    | TryInsertKey
    | ReadExistingKey
    | TakeOverKey
    | LockAgentRow
    | LockOrderRow
    | QuoteOffer
    | CommitIssued
    | CommitBooked
    | CommitRepeat
    | CommitKey
    | Rollback
    | CommitFailed

  /** The booking asked for, at the price quoted. */
  ghost predicate IsBookingOf(payload: Payload, quote: Quote, body: Body) {
    body.OrderBody? && quote.Offer? && PricedAt(quote.price, payload.pax, body.total)
  }

  /** What comes back: an exception, which some handlers answer by marking the key, nothing in
      particular, or the answer to the request. */
  datatype Reply = Raised(error: Error, marks: bool) | Ok | Answered(body: Body)

  /** The statement is the one that the protocol has next. */
  predicate IsNext(me: Session, stmt: Stmt) {
    match stmt
    case LoadAgent => me.pc.Authenticating?
    case TryInsertKey => me.pc.Claiming?
    case ReadExistingKey => me.pc.ReadingKey?
    case TakeOverKey => me.pc.Reclaiming?
    case LockAgentRow => me.pc.LockingAgent?
    case LockOrderRow => me.pc.LockingOrder?
    case QuoteOffer => me.pc.LoadingOffer?
    case CommitIssued => me.pc.Committing? && me.req.op.Issue?
    case CommitBooked => me.pc.Committing? && me.req.op.Create?
    case CommitRepeat => me.pc.Repeating?
    case CommitKey => me.pc.Completing?
    case Rollback => me.pc.Unwinding?
    case CommitFailed => me.pc.MarkingFailed?
  }

  /** What the rows in the session say about where the protocol is, after a statement. */
  predicate Tells(from: Pc, me: Session) {
    !me.pc.Unwinding? ==>
      && (from.Claiming? ==> (me.pc.ReadingKey? <==> me.claim.None?))
      && (from.LockingOrder? ==> me.orderCopy.Some? && (me.pc.Repeating? <==> me.orderCopy.value.status == Issued))
      && (from.Committing? ==> (me.pc.Completing? <==> me.claim.Some?))
      && (from.ReadingKey? && me.pc.Finished? ==> me.pc.outcome.Success? && me.claim.None?)
      && ((from.Unwinding? || from.MarkingFailed?) && me.pc.Finished? ==> me.pc.outcome.Failure?)
      && (from.Unwinding? ==> (me.pc.MarkingFailed? <==> from.markFailed && me.claim.Some?))
  }

  /** How the total of a booking, and then the answer, come from statement to statement. */
  predicate Carried(before: Session, me: Session, env: Env) {
    !me.pc.Unwinding? ==>
      && (before.pc.LoadingOffer? && before.req.op.Create? ==>
            env.quote.Offer?
            && me.pending == OrderInsert(OrderTotal(env.quote.price, before.req.op.payload.pax), env.quote.currency))
      && (before.pc.Committing? && before.req.op.Create? && before.pending.OrderInsert? ==>
            ReplyBody(me.pc).Some? && ReplyBody(me.pc).value.OrderBody?
            && ReplyBody(me.pc).value.total == before.pending.total)
      && (before.pc.Completing? ==> ReplyBody(me.pc) == ReplyBody(before.pc))
  }

  /** The answer that is about to be given, or is given. */
  function ReplyBody(pc: Pc): Option<Body> {
    match pc
    case Completing(body) => Some(body)
    case Finished(Success(body)) => Some(body)
    case _ => None
  }

  lemma AdvanceTells(db: Db, freshRow: RowId, me: Session, env: Env)
    requires Runnable(me) && Sound(db, me)
    ensures Tells(me.pc, Advance(db, freshRow, me, env).1)
  {
    AdvanceFollows(db, freshRow, me, env);
  }

  lemma AdvanceCarries(db: Db, freshRow: RowId, me: Session, env: Env)
    requires Runnable(me) && Sound(db, me)
    ensures Carried(me, Advance(db, freshRow, me, env).1, env)
  {
  }

  function ReplyOf(pc: Pc): Reply {
    match pc
    case Unwinding(error, markFailed) => Raised(error, markFailed)
    case Finished(Success(body)) => Answered(body)
    case _ => Ok
  }

  class Connection {
    const sid: SessionId
    const req: Request

    // the shared database, and the sessions of everybody else
    var db: Db
    var others: map<SessionId, Session>
    var nextRow: RowId

    // this session: the statement it is at, its identity map, its uncommitted writes, its locks
    var pc: Pc
    var agent: Option<Agent>
    var order: Option<Order>
    var idem: Option<Claim>
    var pending: Pending
    var holdsSlot: bool
    var sharesAgent: bool
    var locksAgent: bool
    var locksOrder: bool

    function Me(): Session
      reads this
    {
      Session(req, pc, agent, order, idem, pending, holdsSlot, sharesAgent, locksAgent, locksOrder)
    }

    function View(): State
      reads this
    {
      State(db, others[sid := Me()], nextRow)
    }

    /** The protocol state that the fields represent. */
    ghost var state: State

    /** Another session has moved between two statements of this one. */
    ghost var disturbed: bool

    ghost predicate Valid()
      reads this
    {
      sid !in others && state == View() && Reachable(state)
    }

    /** What happened since the old state is a run of the protocol. */
    twostate predicate Ran()
      reads this
    {
      Valid() && Reaches(old(state), state)
    }

    /** No other session holds a lock, so that this one has nothing to wait for. */
    predicate Clear()
      reads this
    {
      forall other :: other in others ==> NoLocks(others[other])
    }

    lemma ClearMeansFree()
      requires sid !in others && Clear()
      ensures !Blocked(View(), sid)
    {
    }

    /** Unless disturbed or in the way of others, the session is on its way to this end. */
    ghost predicate HeadsFor(end: (Db, Session), env: Env)
      reads this
    {
      !disturbed && Clear() ==> Completion(db, nextRow, Me(), env) == end
    }

    /** The other sessions are as they were, unless that was recorded. */
    twostate predicate Alone()
      reads this
    {
      !disturbed ==> !old(disturbed) && others == old(others)
    }

    /** Nothing happened while waiting, unless that was recorded. */
    twostate predicate Quiet()
      reads this
    {
      !disturbed ==> !old(disturbed) && db == old(db) && nextRow == old(nextRow) && others == old(others)
    }

    constructor (s: State, sid: SessionId, req: Request)
      requires Reachable(s) && sid !in s.sessions
      ensures Valid() && state == Take(s, sid, Start(req))
      ensures this.sid == sid && this.req == req && Me() == NewSession(req) && !disturbed
    {
      this.sid, this.req := sid, req;
      db, others, nextRow := s.db, s.sessions, s.nextRow;
      pc, agent, order, idem, pending := Authenticating, None, None, None, NoWrites;
      holdsSlot, sharesAgent, locksAgent, locksOrder := false, false, false, false;
      disturbed := false;
      new;
      ReachableStep(s, sid, Start(req));
      state := Take(s, sid, Start(req));
    }

    /** Waiting for the database: other sessions make any moves, in any number and order. */
    method Others()
      requires Valid()
      modifies this`db, this`others, this`nextRow, this`state, this`disturbed
      ensures Ran() && Me() == old(Me())
      ensures Quiet()
    {
      var moves: nat := *;
      ReachesSelf(state);
      if moves == 0 { return; }
      disturbed := true;
      while moves > 0
        invariant disturbed && Valid() && Reaches(old(state), state) && Me() == old(Me())
      {
        var other: SessionId := *;
        var event: Event := *;
        var next := OtherMoves(old(state), View(), sid, other, event);
        db, others, nextRow := next.db, next.sessions - {sid}, next.nextRow;
        state := next;
        assert others[sid := Me()] == next.sessions;
        moves := moves - 1;
      }
    }

    /** The database aborts a statement whose locks stay taken: a deadlock, a timeout. */
    method AbortStatement()
      requires Valid() && !pc.Finished? && !pc.Unwinding? && Blocked(View(), sid)
      modifies this`pc, this`pending, this`state
      ensures Ran() && pc.Unwinding? && Follows(req, old(pc), pc) && !Clear()
    {
      pc, pending := Unwinding(DatabaseError, req.op.Create? && (pc.LoadingOffer? || pc.Committing?)), NoWrites;
      RecordAbort(old(state));
    }

    /** The fields have made the abort step of the protocol. */
    ghost method RecordAbort(before: State)
      requires Reachable(before) && Live(before, sid) && !before.sessions[sid].pc.Unwinding?
      requires sid !in others && before.sessions == others[sid := before.sessions[sid]]
      requires db == before.db && nextRow == before.nextRow && Me() == Aborted(before.sessions[sid])
      modifies this`state
      ensures Valid() && Reaches(before, state)
    {
      ReachesSelf(before);
      AbortIsStep(before, before, sid);
      state := View();
      assert state.sessions == before.sessions[sid := Me()];
    }

    /** Send the next statement: wait for its locks, and have it aborted if they stay taken. */
    method Send() returns (granted: bool)
      requires Valid() && !pc.Finished? && !pc.Unwinding?
      modifies this`db, this`others, this`nextRow, this`pc, this`pending, this`state, this`disturbed
      ensures Ran()
      ensures granted ==> Me() == old(Me()) && !Blocked(state, sid)
      ensures !granted ==> pc.Unwinding? && Follows(req, old(pc), pc) && (disturbed || !Clear())
      ensures Quiet()
    {
      Others();
      granted := !Blocked(View(), sid);
      if !granted {
        ghost var waiting := state;
        AbortStatement();
        ReachesTrans(old(state), waiting, state);
      }
    }

    /** Raise an exception: the pending writes are lost, the locks stay until the rollback. */
    method Throw(error: Error, markFailed: bool)
      modifies this`pc, this`pending
      ensures pc == Unwinding(error, markFailed) && pending == NoWrites
    {
      pc, pending := Unwinding(error, markFailed), NoWrites;
    }

    /** The end of a transaction: its locks are released. */
    method Release()
      modifies this`holdsSlot, this`sharesAgent, this`locksAgent, this`locksOrder, this`pending
      ensures !holdsSlot && !sharesAgent && !locksAgent && !locksOrder && pending == NoWrites
    {
      holdsSlot, sharesAgent, locksAgent, locksOrder, pending := false, false, false, false, NoWrites;
    }

    /** What a statement must have done to the fields: exactly the protocol's step. */
    twostate predicate Stepped(env: Env)
      reads this
    {
      && Runnable(old(Me()))
      && sid !in others && others == old(others) && nextRow == old(nextRow) + 1 && disturbed == old(disturbed)
      && (db, Me()) == Advance(old(db), old(nextRow), old(Me()), env)
    }

    /** get_current_agent: load the agent without a lock. */
    method Authenticate(env: Env)
      requires sid !in others && pc.Authenticating?
      modifies this
      ensures Stepped(env)
    {
      if req.agent !in db.agents {
        Throw(Unauthorized, false);
      } else if !db.agents[req.agent].active {
        Throw(Forbidden, false);
      } else {
        agent := Some(db.agents[req.agent]);
        pc := if Keyed(req) then Claiming else AfterClaim(req);
      }
      nextRow := nextRow + 1;
    }

    /** claim(), first statement: INSERT ... ON CONFLICT DO NOTHING. */
    method InsertKey(env: Env)
      requires sid !in others && pc.Claiming?
      modifies this
      ensures Stepped(env)
    {
      if SlotOf(req) in db.keys {
        pc := ReadingKey;
      } else {
        idem, holdsSlot, sharesAgent := Some(Claim(nextRow, true, false)), true, true;
        pc := AfterClaim(req);
      }
      nextRow := nextRow + 1;
    }

    /** claim(), second statement: read the row that was there. */
    method SelectKey(env: Env)
      requires sid !in others && pc.ReadingKey?
      modifies this
      ensures Stepped(env)
    {
      if SlotOf(req) !in db.keys {
        Throw(DatabaseError, false);
      } else {
        var existing := db.keys[SlotOf(req)];
        if existing.status == Completed {
          if existing.hash != req.op {
            Throw(KeyReused, false);
          } else {
            pc := Finished(Success(if existing.body.Some? then existing.body.value else EmptyBody));
          }
        } else if existing.status == Locked {
          Throw(InProgress, false);
        } else {
          pc := Reclaiming(existing.id, existing.hash);
        }
      }
      nextRow := nextRow + 1;
    }

    /** claim(), third statement: a FAILED row is taken over. */
    method UpdateKey(env: Env)
      requires sid !in others && pc.Reclaiming?
      modifies this
      ensures Stepped(env)
    {
      idem, holdsSlot := Some(Claim(pc.row, false, pc.hash == req.op)), true;
      pc := AfterClaim(req);
      nextRow := nextRow + 1;
    }

    /** AgentRepository.get_for_update: the copy from authentication is overwritten. */
    method GetAgentForUpdate(env: Env)
      requires sid !in others && pc.LockingAgent? && req.op.Issue?
      modifies this
      ensures Stepped(env)
    {
      if req.agent !in db.agents {
        Throw(Unauthorized, false);
      } else {
        agent, locksAgent := Some(db.agents[req.agent]), true;
        pc := LockingOrder;
      }
      nextRow := nextRow + 1;
    }

    /** OrderRepository.get_for_update, the checks of the issue, and its uncommitted writes. */
    method GetOrderAndDebit(env: Env)
      requires sid !in others && pc.LockingOrder? && req.op.Issue? && agent.Some?
      modifies this
      ensures Stepped(env)
    {
      var id := req.op.order;
      nextRow := nextRow + 1;
      if id !in db.orders {
        Throw(NotFound, false);
        return;
      }
      var found, account := db.orders[id], agent.value;
      order, locksOrder := Some(found), true;
      if found.agent != req.agent {
        Throw(Forbidden, false);
      } else if found.status == Issued {
        pc := Repeating(IssueResponse(id, found, account, env.now));
      } else if found.status != Booked {
        Throw(InvalidStatus, false);
      } else if found.currency != account.currency {
        Throw(CurrencyMismatch, false);
      } else if account.balance < found.total {
        Throw(InsufficientFunds, true);
      } else {
        var debited := found.total;
        pending := IssueWrites(account.balance - debited, debited, env.now, TicketNumber(id));
        pc := Committing;
      }
    }

    /** _load_offer and the pricing. */
    method LoadOfferAndPrice(env: Env)
      requires sid !in others && pc.LoadingOffer? && req.op.Create?
      modifies this
      ensures Stepped(env)
    {
      nextRow := nextRow + 1;
      match env.quote
      case TimedOut => Throw(ProviderTimeout, true);
      case Missing => Throw(NotFound, true);
      case Broken => Throw(ProviderError, true);
      case Offer(price, currency, expires) =>
        if expires.Some? && expires.value <= env.now {
          Throw(OfferNotAvailable, true);
        } else {
          pending := OrderInsert(OrderTotal(price, req.op.payload.pax), currency);
          pc := Committing;
        }
    }

    /** COMMIT writes the claimed key row along with the effect. */
    method WriteClaim(status: KeyStatus, body: Option<Body>)
      modifies this`db
      ensures db == old(db).(keys := CommitClaim(old(db), old(Me()), status, body))
    {
      if idem.Some? {
        db := db.(keys := db.keys[SlotOf(req) := KeyRow(idem.value.row, ClaimedHash(db, Me()), status, body)]);
      }
    }

    /** What follows a successful COMMIT of the effect. */
    method Committed(body: Body)
      modifies this`pc, this`holdsSlot, this`sharesAgent, this`locksAgent, this`locksOrder, this`pending
      ensures Me() == AfterCommit(old(Me()), body)
    {
      Release();
      pc := if idem.Some? then Completing(body) else Finished(Success(body));
    }

    /** The flush and COMMIT of an issue: constraints first, then debit, status, ledger, history, key. */
    method FlushIssue(env: Env)
      requires sid !in others && pc.Committing? && req.op.Issue? && pending.IssueWrites? && order.Some?
      modifies this
      ensures Stepped(env)
    {
      var id, w := req.op.order, pending;
      nextRow := nextRow + 1;
      if || req.agent !in db.agents || id !in db.orders || w.amount <= 0
         || HasTxn(db.ledger, id, Debit) || TicketTaken(db.orders, id, w.ticket)
      {
        Throw(DatabaseError, false);
        return;
      }
      WriteClaim(Locked, KeptBody(db, Me()));
      db := db.(
        agents := db.agents[req.agent := db.agents[req.agent].(balance := w.newBalance)],
        orders := db.orders[id := db.orders[id].(status := Issued, issuedAt := Some(w.issuedAt),
            ticket := Some(w.ticket))],
        ledger := db.ledger + [Txn(req.agent, id, Debit, w.amount, w.newBalance)],
        history := db.history + [Hist(id, Some(Booked), Issued, db.agents[req.agent].username)]);
      Committed(IssueBody(id, w.ticket, w.amount, w.newBalance, order.value.currency, w.issuedAt));
    }

    /** The flush and COMMIT of a booking. */
    method FlushBooking(env: Env)
      requires sid !in others && pc.Committing? && req.op.Create? && pending.OrderInsert? && agent.Some?
      modifies this
      ensures Stepped(env)
    {
      var id, w := env.freshOrder, pending;
      nextRow := nextRow + 1;
      if id in db.orders || !StorableTotal(w.total) {
        Throw(DatabaseError, true);
        return;
      }
      WriteClaim(Locked, KeptBody(db, Me()));
      var under := if Keyed(req) then Some(SlotOf(req)) else None;
      db := db.(
        orders := db.orders[id := Order(req.agent, Booked, w.total, w.currency, None, None, under)],
        history := db.history + [Hist(id, None, Booked, agent.value.username)]);
      Committed(OrderBody(id, req.op.payload, w.total, w.currency));
    }

    /** The order was issued before: complete the key, if any, and COMMIT. */
    method CompleteRepeat(env: Env)
      requires sid !in others && pc.Repeating?
      modifies this
      ensures Stepped(env)
    {
      WriteClaim(Completed, Some(pc.body));
      Release();
      pc := Finished(Success(pc.body));
      nextRow := nextRow + 1;
    }

    /** complete(): a transaction of its own. */
    method CompleteKey(env: Env)
      requires sid !in others && pc.Completing?
      modifies this
      ensures Stepped(env)
    {
      nextRow := nextRow + 1;
      var slot := SlotOf(req);
      if !ClaimedRowExists(db, Me()) {
        Throw(DatabaseError, false);
      } else {
        db := db.(keys := db.keys[slot := db.keys[slot].(status := Completed, body := Some(pc.body))]);
        pc := Finished(Success(pc.body));
      }
    }

    /** session.rollback(), then what the handler does next. */
    method RollBack(env: Env)
      requires sid !in others && pc.Unwinding?
      modifies this
      ensures Stepped(env)
    {
      Release();
      pc := if pc.markFailed && idem.Some? then MarkingFailed(pc.error) else Finished(Failure(pc.error));
      nextRow := nextRow + 1;
    }

    /** fail(): the rollback has usually removed the row already. */
    method FailKey(env: Env)
      requires sid !in others && pc.MarkingFailed?
      modifies this
      ensures Stepped(env)
    {
      var slot := SlotOf(req);
      if ClaimedRowExists(db, Me()) {
        db := db.(keys := db.keys[slot := db.keys[slot].(status := KeyFailed)]);
      }
      pc := Finished(Failure(pc.error));
      nextRow := nextRow + 1;
    }

    /** The fields have made a step of the protocol from the state `before`. */
    ghost method Record(start: State, before: State, env: Env)
      requires Reachable(before) && Reaches(start, before)
      requires Live(before, sid) && !Blocked(before, sid) && Runnable(before.sessions[sid])
      requires sid !in others && before.sessions == others[sid := before.sessions[sid]]
      requires nextRow == before.nextRow + 1
      requires (db, Me()) == Advance(before.db, before.nextRow, before.sessions[sid], env)
      modifies this`state
      ensures Valid() && Reaches(start, state)
    {
      RunIsStep(start, before, sid, env);
      state := View();
      assert state.sessions == before.sessions[sid := Me()];
    }

    /** The statement itself. */
    method Execute(stmt: Stmt, env: Env)
      requires sid !in others && IsNext(Me(), stmt) && Runnable(Me())
      modifies this
      ensures Stepped(env)
    {
      match stmt
      case LoadAgent => Authenticate(env);
      case TryInsertKey => InsertKey(env);
      case ReadExistingKey => SelectKey(env);
      case TakeOverKey => UpdateKey(env);
      case LockAgentRow => GetAgentForUpdate(env);
      case LockOrderRow => GetOrderAndDebit(env);
      case QuoteOffer => LoadOfferAndPrice(env);
      case CommitIssued => FlushIssue(env);
      case CommitBooked => FlushBooking(env);
      case CommitRepeat => CompleteRepeat(env);
      case CommitKey => CompleteKey(env);
      case Rollback => RollBack(env);
      case CommitFailed => FailKey(env);
    }

    /** One statement: everybody else moves, the statement waits for its locks, and runs. */
    method Statement(stmt: Stmt, env: Env, ghost end: (Db, Session)) returns (reply: Reply)
      requires Valid() && IsNext(Me(), stmt) && HeadsFor(end, env)
      modifies this
      ensures Ran() && Alone() && Follows(req, old(pc), pc) && Tells(old(pc), Me()) && HeadsFor(end, env)
      ensures reply == ReplyOf(pc) && Carried(old(Me()), Me(), env)
    {
      var granted := true;
      if stmt.Rollback? { Others(); } else { granted := Send(); }
      if granted { Run(stmt, env, old(state), end); }
      reply := ReplyOf(pc);
    }

    /** The statement has the locks it waited for, and runs. */
    method Run(stmt: Stmt, env: Env, ghost start: State, ghost end: (Db, Session))
      requires Valid() && IsNext(Me(), stmt) && HeadsFor(end, env) && Reaches(start, state) && !Blocked(state, sid)
      modifies this
      ensures Valid() && Alone() && Reaches(start, state) && HeadsFor(end, env)
      ensures Follows(req, old(pc), pc) && Tells(old(pc), Me()) && Carried(old(Me()), Me(), env)
    {
      ghost var before := state;
      RunIsStep(start, before, sid, env);
      ReachableIsLocked(before);
      AdvanceTells(db, nextRow, Me(), env);
      AdvanceCarries(db, nextRow, Me(), env);
      AdvanceFollows(db, nextRow, Me(), env);
      Execute(stmt, env);
      Record(start, before, env);
    }

    /** IdempotencyRepository.claim: insert; on a conflict read the row that is there, and replay
        it, refuse, or take it over. */
    method ClaimKey(env: Env, ghost end: (Db, Session)) returns (reply: Reply)
      requires Valid() && pc.Claiming? && HeadsFor(end, env)
      modifies this
      ensures Ran() && Alone() && HeadsFor(end, env) && reply == ReplyOf(pc)
      ensures pc.Unwinding? || pc == (if reply.Answered? then Finished(Success(reply.body)) else AfterClaim(req))
      ensures reply.Answered? ==> idem.None?
    {
      reply := Statement(TryInsertKey, env, end);
      if reply.Raised? || idem.Some? { return; }
      ghost var s := state;
      reply := Statement(ReadExistingKey, env, end);
      ReachesTrans(old(state), s, state);
      if !reply.Ok? { return; }
      s := state;
      reply := Statement(TakeOverKey, env, end);
      ReachesTrans(old(state), s, state);
    }

    /** Authentication, and the claim of the key, if there is one. */
    method Enter(env: Env, ghost end: (Db, Session)) returns (reply: Reply)
      requires Valid() && pc.Authenticating? && HeadsFor(end, env)
      modifies this
      ensures Ran() && Alone() && HeadsFor(end, env) && reply == ReplyOf(pc)
      ensures pc.Unwinding? || pc == (if reply.Answered? then Finished(Success(reply.body)) else AfterClaim(req))
      ensures reply.Answered? ==> Keyed(req) && idem.None?
    {
      reply := Statement(LoadAgent, env, end);
      if reply.Raised? || !Keyed(req) { return; }
      ghost var s := state;
      reply := ClaimKey(env, end);
      ReachesTrans(old(state), s, state);
    }

    /** The agent row first, then the order row, and what is decided on them. */
    method LockRows(env: Env, ghost end: (Db, Session)) returns (reply: Reply)
      requires Valid() && pc.LockingAgent? && HeadsFor(end, env)
      modifies this
      ensures Ran() && Alone() && HeadsFor(end, env) && reply == ReplyOf(pc)
      ensures pc.Unwinding? || (order.Some? && if order.value.status == Issued then pc.Repeating? else pc.Committing?)
    {
      reply := Statement(LockAgentRow, env, end);
      if reply.Raised? { return; }
      ghost var s := state;
      reply := Statement(LockOrderRow, env, end);
      ReachesTrans(old(state), s, state);
    }

    /** The COMMIT of the effect, and then, if there is a key, the one that completes it. */
    method CommitAndComplete(stmt: Stmt, env: Env, ghost end: (Db, Session)) returns (reply: Reply)
      requires Valid() && pc.Committing? && IsNext(Me(), stmt) && HeadsFor(end, env)
      modifies this
      ensures Ran() && Alone() && HeadsFor(end, env) && reply == ReplyOf(pc)
      ensures pc.Unwinding? || pc.Finished?
      ensures !pc.Unwinding? && req.op.Create? && old(pending).OrderInsert? ==>
                reply.Answered? && reply.body.OrderBody? && reply.body.total == old(pending).total
    {
      reply := Statement(stmt, env, end);
      if reply.Raised? || idem.None? { return; }
      ghost var s := state;
      reply := Statement(CommitKey, env, end);
      ReachesTrans(old(state), s, state);
    }

    /** _persist, and then the COMMIT that completes the key. */
    method Persist(env: Env, ghost end: (Db, Session)) returns (reply: Reply)
      requires Valid() && pc.LoadingOffer? && req.op.Create? && HeadsFor(end, env)
      modifies this
      ensures Ran() && Alone() && HeadsFor(end, env) && reply == ReplyOf(pc)
      ensures pc.Unwinding? || (pc.Finished? && reply.Answered? && IsBookingOf(req.op.payload, env.quote, reply.body))
    {
      reply := Statement(QuoteOffer, env, end);
      if reply.Raised? { return; }
      ghost var s := state;
      TotalIsPriced(env.quote.price, req.op.payload.pax);
      reply := CommitAndComplete(CommitBooked, env, end);
      ReachesTrans(old(state), s, state);
    }

    /** Everything an issue does once its key is claimed. */
    method DebitOrder(env: Env, ghost end: (Db, Session)) returns (reply: Reply)
      requires Valid() && pc.LockingAgent? && req.op.Issue? && HeadsFor(end, env)
      modifies this
      ensures Ran() && Alone() && HeadsFor(end, env) && reply == ReplyOf(pc)
      ensures pc.Unwinding? || pc.Finished?
    {
      reply := LockRows(env, end);
      if reply.Raised? { return; }
      ghost var s := state;
      if order.value.status == Issued {
        reply := Statement(CommitRepeat, env, end);
      } else {
        reply := CommitAndComplete(CommitIssued, env, end);
      }
      ReachesTrans(old(state), s, state);
    }

    /** The exception handlers: roll back, mark the key if the code says so, and roll back again
        if that fails. */
    method HandleError(marks: bool, env: Env, ghost end: (Db, Session))
      requires Valid() && pc.Unwinding? && pc.markFailed == marks && HeadsFor(end, env)
      modifies this
      ensures Ran() && Alone() && HeadsFor(end, env) && pc.Finished? && pc.outcome.Failure?
    {
      var reply := Statement(Rollback, env, end);
      if !(marks && idem.Some?) { return; }
      ghost var s := state;
      reply := Statement(CommitFailed, env, end);
      ReachesTrans(old(state), s, state);
      if reply.Raised? {
        s := state;
        reply := Statement(Rollback, env, end);
        ReachesTrans(old(state), s, state);
      }
    }

    /** get_session: an exception that escaped the service ends in a rollback. */
    method Finish(reply: Reply, env: Env, ghost end: (Db, Session)) returns (outcome: Outcome)
      requires Valid() && (pc.Unwinding? || pc.Finished?) && HeadsFor(end, env) && reply == ReplyOf(pc)
      modifies this
      ensures Ran() && Alone() && HeadsFor(end, env) && pc == Finished(outcome)
      ensures if reply.Raised? then outcome.Failure? else Me() == old(Me())
    {
      ReachesSelf(state);
      if reply.Raised? {
        HandleError(reply.marks, env, end);
      }
      outcome := pc.outcome;
    }

    /** A success that was not replayed is true of the committed rows. */
    lemma AnswerIsTrue()
      requires Valid() && pc.Finished? && pc.outcome.Success? && (!Keyed(req) || idem.Some?)
      ensures Truthful(db, req, pc.outcome.body)
    {
      SuccessIsTrue(state, sid);
    }

    /** The ticket of a fresh answer, or of one for an order issued before, carries the id. */
    lemma TicketAnswered(start: State)
      requires Valid() && Reachable(start) && Reaches(start, state) && OrderBooks(BooksOf(start.db))
      requires pc.Finished? && pc.outcome.Success? && (!Keyed(req) || idem.Some?) && req.op.Issue?
      ensures var body := pc.outcome.body;
              body.IssueBody? && body.id == req.op.order && Carries(body.ticket, req.op.order)
    {
      AnswerIsTrue();
      ReachableIsLocked(start);
      OrderBooksReached(start, state);
      assert OrderConsistent(BooksOf(db), req.op.order);
      TicketCarriesId(req.op.order);
    }

    /** IssuingService.issue: claim the key, lock the agent and then the order, check, debit,
        commit, complete the key. Whatever the others do, the call is a run of the protocol;
        undisturbed, it does exactly what the atomic issue does, or refuses and changes nothing. */
    method Issue(env: Env) returns (outcome: Outcome)
      requires Valid() && Me() == NewSession(req) && req.op.Issue?
      modifies this
      ensures Ran() && pc == Finished(outcome)
      ensures !disturbed && old(Clear()) && OrdersConsistent(BooksOf(old(db))) ==>
                IssueEnds(old(db), req, env, (db, Me()))
      ensures !disturbed ==> others == old(others)
      ensures outcome.Success? && (!Keyed(req) || idem.Some?) && OrderBooks(BooksOf(old(db))) ==>
                outcome.body.IssueBody? && outcome.body.id == req.op.order && Carries(outcome.body.ticket, req.op.order)
      ensures outcome.Success? && (!Keyed(req) || idem.Some?) ==> Truthful(db, req, outcome.body)
    {
      ghost var end := Completion(db, nextRow, Me(), env);
      if OrdersConsistent(BooksOf(db)) { UndisturbedIssue(db, nextRow, req, env); }
      outcome := IssueToEnd(env, end);
      if outcome.Success? && (!Keyed(req) || idem.Some?) {
        AnswerIsTrue();
        if OrderBooks(BooksOf(old(db))) { TicketAnswered(old(state)); }
      }
    }

    /** The statements of an issue. */
    method IssueToEnd(env: Env, ghost end: (Db, Session)) returns (outcome: Outcome)
      requires Valid() && pc.Authenticating? && req.op.Issue? && HeadsFor(end, env)
      modifies this
      ensures Ran() && Alone() && HeadsFor(end, env) && pc == Finished(outcome)
    {
      var reply := Enter(env, end);
      ghost var s := state;
      if reply.Ok? {
        reply := DebitOrder(env, end);
        ReachesTrans(old(state), s, state);
        s := state;
      }
      outcome := Finish(reply, env, end);
      ReachesTrans(old(state), s, state);
    }

    /** BookingService.create_order: claim the key, load and price the offer, commit, complete. */
    method CreateOrder(env: Env) returns (outcome: Outcome)
      requires Valid() && Me() == NewSession(req) && req.op.Create?
      modifies this
      ensures Ran() && pc == Finished(outcome)
      ensures !disturbed && old(Clear()) ==> BookingEnds(old(db), req, env, (db, Me()))
      ensures !disturbed ==> others == old(others)
      ensures outcome.Success? && (!Keyed(req) || idem.Some?) ==> IsBookingOf(req.op.payload, env.quote, outcome.body)
      ensures outcome.Success? && (!Keyed(req) || idem.Some?) ==> Truthful(db, req, outcome.body)
    {
      ghost var end := Completion(db, nextRow, Me(), env);
      UndisturbedBooking(db, nextRow, req, env);
      var reply := Enter(env, end);
      ghost var s := state;
      if reply.Ok? {
        reply := Persist(env, end);
        ReachesTrans(old(state), s, state);
        s := state;
      }
      outcome := Finish(reply, env, end);
      ReachesTrans(old(state), s, state);
      if outcome.Success? && (!Keyed(req) || idem.Some?) { AnswerIsTrue(); }
    }
  }

  /** One move of another session, if it can make it. */
  method OtherMoves(ghost start: State, s: State, sid: SessionId, other: SessionId, event: Event) returns (next: State)
    requires Reachable(s) && Reaches(start, s) && sid in s.sessions
    ensures Reachable(next) && Reaches(start, next) && sid in next.sessions && next.sessions[sid] == s.sessions[sid]
  {
    next := s;
    if other != sid && Enabled(s, other, event) {
      ReachableStep(s, other, event);
      ReachesStep(start, s, other, event);
      next := Take(s, other, event);
    }
  }

  /** The aborted statement of a session is a step of the protocol. */
  lemma AbortIsStep(start: State, s: State, sid: SessionId)
    requires Reachable(s) && Reaches(start, s) && Live(s, sid) && !s.sessions[sid].pc.Unwinding?
    ensures var next := s.(sessions := s.sessions[sid := Aborted(s.sessions[sid])]);
            Reachable(next) && Reaches(start, next)
  {
    ReachableStep(s, sid, Abort);
    ReachesStep(start, s, sid, Abort);
  }

  /** A statement that waits for nobody is a step of the protocol. */
  lemma RunIsStep(start: State, s: State, sid: SessionId, env: Env)
    requires Reachable(s) && Reaches(start, s) && Live(s, sid) && !Blocked(s, sid)
    ensures Runnable(s.sessions[sid])
    ensures var (db, me) := Advance(s.db, s.nextRow, s.sessions[sid], env);
            var next := State(db, s.sessions[sid := me], s.nextRow + 1);
            Reachable(next) && Reaches(start, next)
  {
    ReachableIsLocked(s);
    LiveIsRunnable(s, sid);
    ReachableStep(s, sid, Run(env));
    ReachesStep(start, s, sid, Run(env));
  }
}
