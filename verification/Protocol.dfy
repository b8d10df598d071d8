/** Concurrent bookings and issues as a step system: the committed store, and one session for
    every request. One step is one statement sent to the database, so a session can be
    interrupted between any two of them by any other (app/services/issuing.py,
    app/services/booking.py, app/repositories/idempotency.py).

    The isolation level is READ COMMITTED: a statement that waits for a row lock reads the row
    after the wait. A flush and the COMMIT behind it are one step, whose outcome is known. */
module Protocol {
  import opened Digits
  import opened Enums
  import opened Pricing
  import opened Store
  import opened Wrappers

  type SessionId = nat

  datatype Request = Request(agent: AgentId, op: Op, key: Option<string>)

  datatype Error =
    | Unauthorized
    | Forbidden
    | NotFound
    | OfferNotAvailable
    | ProviderTimeout
    | ProviderError
    | KeyReused
    | InProgress
    | InvalidStatus
    | CurrencyMismatch
    | InsufficientFunds
    | DatabaseError

  datatype Outcome = Success(body: Body) | Failure(error: Error) | Lost

  /** Where a session stands: the statement it sends next. */
  datatype Pc =
    | Authenticating
    | Claiming
    | ReadingKey
    | Reclaiming(row: RowId, hash: Op)
    | LockingAgent
    | LockingOrder
    | LoadingOffer
    | Committing
    | Repeating(body: Body)
    | Completing(body: Body)
    | Unwinding(error: Error, markFailed: bool)
    | MarkingFailed(error: Error)
    | Finished(outcome: Outcome)

  /** The key row this session claimed: inserted, or a FAILED one taken over. If that one had
      the hash of this request when it was read, its hash column is not written again. */
  datatype Claim = Claim(row: RowId, inserted: bool, sameHash: bool)

  /** The uncommitted effect, computed from the session's own copies of the rows. */
  datatype Pending =
    | NoWrites
    | IssueWrites(newBalance: int, amount: int, issuedAt: int, ticket: string)
    | OrderInsert(total: int, currency: string)

  datatype Session = Session(
    req: Request,
    pc: Pc,
    agentCopy: Option<Agent>,
    orderCopy: Option<Order>,
    claim: Option<Claim>,
    pending: Pending,
    holdsSlot: bool,    // wrote the key row, uncommitted
    sharesAgent: bool,  // FOR KEY SHARE on the agent row, taken by the foreign key of an inserted key row
    locksAgent: bool,   // FOR UPDATE on the agent row
    locksOrder: bool)   // FOR UPDATE on the order row

  datatype State = State(db: Db, sessions: map<SessionId, Session>, nextRow: RowId)

  /** What the provider answers for an offer. */
  datatype Quote = Offer(price: real, currency: string, expires: Option<int>) | Missing | TimedOut | Broken

  /** The inputs of a step from outside: the clock, a fresh order id, the provider. */
  datatype Env = Env(now: int, freshOrder: OrderId, quote: Quote)

  datatype Event = Start(req: Request) | Run(env: Env) | Abort | Crash

  /** A missing and an empty Idempotency-Key header both mean no key. */
  predicate Keyed(req: Request) {
    req.key.Some? && req.key.value != ""
  }

  function SlotOf(req: Request): Slot {
    Slot(req.agent, if req.op.Issue? then IssueOrder else CreateOrder, if req.key.Some? then req.key.value else "")
  }

  function NewSession(req: Request): Session {
    Session(req, Authenticating, None, None, None, NoWrites, false, false, false, false)
  }

  function Released(me: Session): Session {
    me.(holdsSlot := false, sharesAgent := false, locksAgent := false, locksOrder := false, pending := NoWrites)
  }

  function Raise(me: Session, error: Error, markFailed: bool): Session {
    me.(pc := Unwinding(error, markFailed), pending := NoWrites)
  }

  function AfterClaim(req: Request): Pc {
    if req.op.Issue? then LockingAgent else LoadingOffer
  }

  /** The auth dependency loads the agent, without a lock. */
  function Authenticate(db: Db, me: Session): Session {
    if me.req.agent !in db.agents then Raise(me, Unauthorized, false)
    else if !db.agents[me.req.agent].active then Raise(me, Forbidden, false)
    else me.(agentCopy := Some(db.agents[me.req.agent]),
             pc := if Keyed(me.req) then Claiming else AfterClaim(me.req))
  }

  /** INSERT ... ON CONFLICT DO NOTHING RETURNING id. */
  function ClaimKey(db: Db, freshRow: RowId, me: Session): Session {
    if SlotOf(me.req) in db.keys then me.(pc := ReadingKey)
    else me.(claim := Some(Claim(freshRow, true, false)), holdsSlot := true, sharesAgent := true,
             pc := AfterClaim(me.req))
  }

  /** The SELECT after a conflict takes no lock. */
  function ReadKey(db: Db, me: Session): Session {
    var slot := SlotOf(me.req);
    if slot !in db.keys then Raise(me, DatabaseError, false)
    else
      var row := db.keys[slot];
      match row.status
      case Completed =>
        if row.hash != me.req.op then Raise(me, KeyReused, false)
        else me.(pc := Finished(Success(if row.body.Some? then row.body.value else EmptyBody)))
      case Locked => Raise(me, InProgress, false)
      case KeyFailed => me.(pc := Reclaiming(row.id, row.hash))
  }

  /** A FAILED row goes back to LOCKED, by an UPDATE that does not look at the status again. */
  function Reclaim(me: Session): Session
    requires me.pc.Reclaiming?
  {
    me.(claim := Some(Claim(me.pc.row, false, me.pc.hash == me.req.op)), holdsSlot := true, pc := AfterClaim(me.req))
  }

  /** SELECT ... FOR UPDATE on the agent, overwriting the copy the auth dependency loaded. */
  function LockAgent(db: Db, me: Session): Session {
    if me.req.agent !in db.agents then Raise(me, Unauthorized, false)
    else me.(agentCopy := Some(db.agents[me.req.agent]), locksAgent := true, pc := LockingOrder)
  }

  function IssueResponse(id: OrderId, order: Order, agent: Agent, now: int): Body {
    IssueBody(
      id,
      if order.ticket.Some? then order.ticket.value else "",
      order.total,
      agent.balance,
      order.currency,
      if order.issuedAt.Some? then order.issuedAt.value else now)
  }

  /** SELECT ... FOR UPDATE on the order, then every check of the issue, and its writes. */
  function LockOrder(db: Db, me: Session, now: int): Session
    requires me.req.op.Issue? && me.agentCopy.Some?
  {
    var id := me.req.op.order;
    if id !in db.orders then Raise(me, NotFound, false)
    else
      var order, agent := db.orders[id], me.agentCopy.value;
      var locked := me.(orderCopy := Some(order), locksOrder := true);
      if order.agent != me.req.agent then Raise(locked, Forbidden, false)
      else if order.status == Issued then locked.(pc := Repeating(IssueResponse(id, order, agent, now)))
      else if order.status != Booked then Raise(locked, InvalidStatus, false)
      else if order.currency != agent.currency then Raise(locked, CurrencyMismatch, false)
      else if agent.balance < order.total then Raise(locked, InsufficientFunds, true)
      else locked.(pc := Committing,
                   pending := IssueWrites(agent.balance - order.total, order.total, now, TicketNumber(id)))
  }

  /** The provider call and the pricing of a booking. */
  function LoadOffer(me: Session, quote: Quote, now: int): Session
    requires me.req.op.Create?
  {
    match quote
    case TimedOut => Raise(me, ProviderTimeout, true)
    case Missing => Raise(me, NotFound, true)
    case Broken => Raise(me, ProviderError, true)
    case Offer(price, currency, expires) =>
      if expires.Some? && expires.value <= now then Raise(me, OfferNotAvailable, true)
      else me.(pc := Committing, pending := OrderInsert(OrderTotal(price, me.req.op.payload.pax), currency))
  }

  /** The key table after this session commits its claim with the given status and body. */
  function CommitClaim(db: Db, me: Session, status: KeyStatus, body: Option<Body>): map<Slot, KeyRow> {
    if me.claim.None? then db.keys
    else db.keys[SlotOf(me.req) := KeyRow(me.claim.value.row, ClaimedHash(db, me), status, body)]
  }

  /** The hash of the claimed row: this request's, unless the column is left as it is. */
  function ClaimedHash(db: Db, me: Session): Op
    requires me.claim.Some?
  {
    if me.claim.value.sameHash && SlotOf(me.req) in db.keys then db.keys[SlotOf(me.req)].hash else me.req.op
  }

  /** The body a claimed row keeps while it is LOCKED: that of the row it took over, if any. */
  function KeptBody(db: Db, me: Session): Option<Body> {
    if SlotOf(me.req) in db.keys then db.keys[SlotOf(me.req)].body else None
  }

  /** After the effect commits, the key is completed by a second transaction. */
  function AfterCommit(me: Session, body: Body): Session {
    Released(me).(pc := if me.claim.Some? then Completing(body) else Finished(Success(body)))
  }

  function CommitIssue(db: Db, me: Session): (Db, Session)
    requires me.req.op.Issue? && me.pending.IssueWrites? && me.orderCopy.Some?
  {
    var id, a, w := me.req.op.order, me.req.agent, me.pending;
    if || a !in db.agents || id !in db.orders || w.amount <= 0
       || HasTxn(db.ledger, id, Debit) || TicketTaken(db.orders, id, w.ticket)
    then (db, Raise(me, DatabaseError, false))
    else
      var agent := db.agents[a].(balance := w.newBalance);
      var order := db.orders[id].(status := Issued, issuedAt := Some(w.issuedAt), ticket := Some(w.ticket));
      (Db(
         db.agents[a := agent],
         db.orders[id := order],
         db.ledger + [Txn(a, id, Debit, w.amount, w.newBalance)],
         db.history + [Hist(id, Some(Booked), Issued, agent.username)],
         CommitClaim(db, me, Locked, KeptBody(db, me))),
       AfterCommit(me, IssueBody(id, w.ticket, w.amount, w.newBalance, me.orderCopy.value.currency, w.issuedAt)))
  }

  function CommitCreate(db: Db, me: Session, id: OrderId): (Db, Session)
    requires me.req.op.Create? && me.pending.OrderInsert? && me.agentCopy.Some?
  {
    var w := me.pending;
    if id in db.orders || !StorableTotal(w.total) then (db, Raise(me, DatabaseError, true))
    else
      var under := if Keyed(me.req) then Some(SlotOf(me.req)) else None;
      (db.(
         orders := db.orders[id := Order(me.req.agent, Booked, w.total, w.currency, None, None, under)],
         history := db.history + [Hist(id, None, Booked, me.agentCopy.value.username)],
         keys := CommitClaim(db, me, Locked, KeptBody(db, me))),
       AfterCommit(me, OrderBody(id, me.req.op.payload, w.total, w.currency)))
  }

  /** An order that is ISSUED already: complete the key, if any, in the claiming transaction. */
  function Repeat(db: Db, me: Session): (Db, Session)
    requires me.pc.Repeating?
  {
    (db.(keys := CommitClaim(db, me, Completed, Some(me.pc.body))),
     Released(me).(pc := Finished(Success(me.pc.body))))
  }

  /** The row carrying the claimed id is still there. */
  predicate ClaimedRowExists(db: Db, me: Session) {
    me.claim.Some? && SlotOf(me.req) in db.keys && db.keys[SlotOf(me.req)].id == me.claim.value.row
  }

  /** complete(): store the response and commit, whatever the row's status is. */
  function Complete(db: Db, me: Session): (Db, Session)
    requires me.pc.Completing?
  {
    if !ClaimedRowExists(db, me) then (db, Raise(me, DatabaseError, false))
    else
      var slot := SlotOf(me.req);
      (db.(keys := db.keys[slot := db.keys[slot].(status := Completed, body := Some(me.pc.body))]),
       me.(pc := Finished(Success(me.pc.body))))
  }

  /** ROLLBACK drops the writes and the locks; some handlers then mark the key failed. */
  function Unwind(me: Session): Session
    requires me.pc.Unwinding?
  {
    Released(me).(pc := if me.pc.markFailed && me.claim.Some? then MarkingFailed(me.pc.error)
                        else Finished(Failure(me.pc.error)))
  }

  /** fail(): mark the row FAILED and commit, if the rollback left it there. */
  function MarkFailed(db: Db, me: Session): (Db, Session)
    requires me.pc.MarkingFailed?
  {
    var slot := SlotOf(me.req);
    (if ClaimedRowExists(db, me) then db.(keys := db.keys[slot := db.keys[slot].(status := KeyFailed)]) else db,
     me.(pc := Finished(Failure(me.pc.error))))
  }

  /** The session's program counter fits its request, and what its next statement uses is at
      hand. The invariant of Locking shows that every live session is runnable. */
  predicate Runnable(me: Session) {
    match me.pc
    case LockingAgent => me.req.op.Issue?
    case LockingOrder => me.req.op.Issue? && me.agentCopy.Some?
    case LoadingOffer => me.req.op.Create?
    case Committing =>
      if me.req.op.Issue? then me.pending.IssueWrites? && me.orderCopy.Some?
      else me.pending.OrderInsert? && me.agentCopy.Some?
    case Finished(_) => false
    case _ => true
  }

  /** One statement of one session, run to its end. */
  function Advance(db: Db, freshRow: RowId, me: Session, env: Env): (Db, Session)
    requires Runnable(me)
  {
    match me.pc
    case Authenticating => (db, Authenticate(db, me))
    case Claiming => (db, ClaimKey(db, freshRow, me))
    case ReadingKey => (db, ReadKey(db, me))
    case Reclaiming(_, _) => (db, Reclaim(me))
    case LockingAgent => (db, LockAgent(db, me))
    case LockingOrder => (db, LockOrder(db, me, env.now))
    case LoadingOffer => (db, LoadOffer(me, env.quote, env.now))
    case Committing => if me.req.op.Issue? then CommitIssue(db, me) else CommitCreate(db, me, env.freshOrder)
    case Repeating(_) => Repeat(db, me)
    case Completing(_) => Complete(db, me)
    case Unwinding(_, _) => (db, Unwind(me))
    case MarkingFailed(_) => MarkFailed(db, me)
  }

  /** Where one statement can leave the program counter. */
  predicate Follows(req: Request, from: Pc, to: Pc) {
    match from
    case Authenticating => to.Unwinding? || to == if Keyed(req) then Claiming else AfterClaim(req)
    case Claiming => to.Unwinding? || to == ReadingKey || to == AfterClaim(req)
    case ReadingKey => to.Unwinding? || to.Reclaiming? || to.Finished?
    case Reclaiming(_, _) => to.Unwinding? || to == AfterClaim(req)
    case LockingAgent => to.Unwinding? || to.LockingOrder?
    case LockingOrder => to.Unwinding? || to.Repeating? || to.Committing?
    case LoadingOffer => to.Unwinding? || to.Committing?
    case Committing => to.Unwinding? || to.Completing? || to.Finished?
    case Repeating(_) => to.Unwinding? || to.Finished?
    case Completing(_) => to.Finished? || (to.Unwinding? && !to.markFailed)
    case Unwinding(_, markFailed) => to.Finished? || (to.MarkingFailed? && markFailed)
    case MarkingFailed(_) => to.Finished? || (to.Unwinding? && !to.markFailed)
    case Finished(_) => false
  }

  lemma LockOrderFollows(db: Db, me: Session, now: int)
    requires Runnable(me) && me.pc.LockingOrder?
    ensures Follows(me.req, me.pc, LockOrder(db, me, now).pc)
  {
  }

  lemma CommitFollows(db: Db, freshRow: RowId, me: Session, env: Env)
    requires Runnable(me) && me.pc.Committing?
    ensures Follows(me.req, me.pc, Advance(db, freshRow, me, env).1.pc)
  {
  }

  lemma AdvanceFollows(db: Db, freshRow: RowId, me: Session, env: Env)
    requires Runnable(me)
    ensures Follows(me.req, me.pc, Advance(db, freshRow, me, env).1.pc)
  {
    if me.pc.LockingOrder? {
      LockOrderFollows(db, me, env.now);
    } else if me.pc.Committing? {
      CommitFollows(db, freshRow, me, env);
    }
  }

  /** An exception inside a statement: a database abort, a lost connection, a failed flush.
      create_order marks its key failed for what _persist raises. */
  function Aborted(me: Session): Session {
    Raise(me, DatabaseError, me.req.op.Create? && (me.pc.LoadingOffer? || me.pc.Committing?))
  }

  /** The process dies: PostgreSQL rolls the open transaction back. */
  function Crashed(me: Session): Session {
    Released(me).(pc := Finished(Lost))
  }

  // ---------------------------------------------------------------- lock waits

  /** `other` holds what the next statement of `me` must wait for. */
  predicate WaitsFor(db: Db, me: Session, other: Session) {
    var sameSlot := Keyed(other.req) && other.holdsSlot && SlotOf(other.req) == SlotOf(me.req);
    var sameAgent := other.req.agent == me.req.agent;
    match me.pc
    case Claiming => sameSlot || (SlotOf(me.req) !in db.keys && sameAgent && other.locksAgent)
    case Reclaiming(_, _) => sameSlot
    case LockingAgent => sameAgent && (other.locksAgent || other.sharesAgent)
    case LockingOrder => other.locksOrder && other.req.op == me.req.op
    case Committing => me.req.op.Create? && sameAgent && other.locksAgent
    case Completing(_) => sameSlot
    case MarkingFailed(_) => sameSlot && ClaimedRowExists(db, me)
    case _ => false
  }

  predicate Blocked(s: State, sid: SessionId)
    requires sid in s.sessions
  {
    exists other :: other in s.sessions && other != sid && WaitsFor(s.db, s.sessions[sid], s.sessions[other])
  }

  predicate Live(s: State, sid: SessionId) {
    sid in s.sessions && !s.sessions[sid].pc.Finished?
  }

  // ---------------------------------------------------------------- steps and runs

  predicate Enabled(s: State, sid: SessionId, event: Event) {
    match event
    case Start(_) => sid !in s.sessions
    case Run(_) => sid in s.sessions && Runnable(s.sessions[sid]) && !Blocked(s, sid)
    case Abort => Live(s, sid) && !s.sessions[sid].pc.Unwinding?
    case Crash => Live(s, sid)
  }

  function Take(s: State, sid: SessionId, event: Event): State
    requires Enabled(s, sid, event)
  {
    match event
    case Start(req) => s.(sessions := s.sessions[sid := NewSession(req)])
    case Run(env) =>
      var (db, me) := Advance(s.db, s.nextRow, s.sessions[sid], env);
      State(db, s.sessions[sid := me], s.nextRow + 1)
    case Abort => s.(sessions := s.sessions[sid := Aborted(s.sessions[sid])])
    case Crash => s.(sessions := s.sessions[sid := Crashed(s.sessions[sid])])
  }

  datatype Move = Move(sid: SessionId, event: Event)

  type Trace = seq<Move>

  /** The trace can be followed from s: every one of its moves is enabled in its turn. */
  predicate Feasible(s: State, trace: Trace)
    decreases |trace|
  {
    trace == [] ||
    (Enabled(s, trace[0].sid, trace[0].event) && Feasible(Take(s, trace[0].sid, trace[0].event), trace[1..]))
  }

  /** Where the trace leads. */
  function Exec(s: State, trace: Trace): State
    requires Feasible(s, trace)
    decreases |trace|
  {
    if trace == [] then s else Exec(Take(s, trace[0].sid, trace[0].event), trace[1..])
  }

  lemma {:induction false} ExecConcat(s: State, first: Trace, second: Trace)
    requires Feasible(s, first) && Feasible(Exec(s, first), second)
    ensures Feasible(s, first + second) && Exec(s, first + second) == Exec(Exec(s, first), second)
    decreases |first|
  {
    if first == [] {
      assert first + second == second;
    } else {
      assert (first + second)[1..] == first[1..] + second;
      ExecConcat(Take(s, first[0].sid, first[0].event), first[1..], second);
    }
  }

  /** Some run leads from s to t. */
  ghost predicate Reaches(s: State, t: State) {
    exists trace :: Feasible(s, trace) && Exec(s, trace) == t
  }

  lemma ReachesSelf(s: State)
    ensures Reaches(s, s)
  {
    assert Feasible(s, []) && Exec(s, []) == s;
  }

  lemma ReachesTrans(a: State, b: State, c: State)
    requires Reaches(a, b) && Reaches(b, c)
    ensures Reaches(a, c)
  {
    var first :| Feasible(a, first) && Exec(a, first) == b;
    var second :| Feasible(b, second) && Exec(b, second) == c;
    ExecConcat(a, first, second);
  }

  lemma ReachesInOne(s: State, sid: SessionId, event: Event)
    requires Enabled(s, sid, event)
    ensures Reaches(s, Take(s, sid, event))
  {
    var trace, next := [Move(sid, event)], Take(s, sid, event);
    assert trace[0] == Move(sid, event) && trace[1..] == [];
    assert Feasible(next, []) && Exec(next, []) == next;
    assert Feasible(s, trace) && Exec(s, trace) == Exec(next, trace[1..]);
  }

  lemma ReachesStep(s: State, t: State, sid: SessionId, event: Event)
    requires Reaches(s, t) && Enabled(t, sid, event)
    ensures Reaches(s, Take(t, sid, event))
  {
    ReachesInOne(t, sid, event);
    ReachesTrans(s, t, Take(t, sid, event));
  }
}
