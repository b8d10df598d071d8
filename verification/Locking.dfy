/** What the row locks guarantee in every reachable state: they exclude each other, and a
    session that holds one has an up-to-date copy of the row, however stale the copy it
    started from. */
module Locking {
  import opened Digits
  import opened Enums
  import opened Protocol
  import opened Store
  import opened Wrappers

  predicate NoLocks(me: Session) {
    !me.holdsSlot && !me.sharesAgent && !me.locksAgent && !me.locksOrder
  }

  /** The claim and the locks that come with it, between claiming and the end of the transaction. */
  predicate ClaimHeld(me: Session) {
    && (Keyed(me.req) <==> me.claim.Some?)
    && me.holdsSlot == Keyed(me.req)
    && me.sharesAgent == (me.claim.Some? && me.claim.value.inserted)
  }

  predicate NothingPending(me: Session) {
    me.agentCopy.Some? && me.pending.NoWrites?
  }

  /** Between authentication and the claim. */
  predicate ClaimSought(me: Session) {
    NoLocks(me) && Keyed(me.req) && me.claim.None? && NothingPending(me)
  }

  /** Which locks and copies a session has at each statement of its program. */
  predicate Shape(me: Session) {
    && (me.claim.Some? ==> Keyed(me.req))
    && match me.pc
       case Authenticating => NoLocks(me) && me.claim.None? && me.pending.NoWrites?
       case Claiming => ClaimSought(me)
       case ReadingKey => ClaimSought(me)
       case Reclaiming(_, _) => ClaimSought(me)
       case LockingAgent => ClaimHeld(me) && NothingPending(me) && me.req.op.Issue? && !me.locksAgent && !me.locksOrder
       case LockingOrder => ClaimHeld(me) && NothingPending(me) && me.req.op.Issue? && me.locksAgent && !me.locksOrder
       case LoadingOffer => ClaimHeld(me) && NothingPending(me) && me.req.op.Create? && !me.locksAgent && !me.locksOrder
       case Committing =>
         && ClaimHeld(me) && me.agentCopy.Some?
         && if me.req.op.Issue? then me.pending.IssueWrites? && me.locksAgent && me.locksOrder && me.orderCopy.Some?
            else me.pending.OrderInsert? && !me.locksAgent && !me.locksOrder
       case Repeating(_) =>
         ClaimHeld(me) && me.req.op.Issue? && me.locksAgent && me.locksOrder && me.agentCopy.Some? && me.orderCopy.Some?
       case Completing(_) => NoLocks(me) && me.claim.Some?
       case Unwinding(_, markFailed) =>
         && (me.sharesAgent ==> me.holdsSlot)
         && (me.holdsSlot ==> me.claim.Some?)
         && (markFailed && me.claim.Some? ==> me.holdsSlot)
         && (me.locksAgent || me.locksOrder ==> me.req.op.Issue?)
       case MarkingFailed(_) => NoLocks(me) && me.claim.Some?
       case Finished(_) => NoLocks(me)
  }

  /** A lock on a row keeps the session's copy of it equal to the committed row. A copy loaded
      without a lock can be out of date, but only in its balance. */
  predicate Fresh(db: Db, me: Session) {
    && (me.agentCopy.Some? ==>
          && me.req.agent in db.agents
          && me.agentCopy.value.(balance := db.agents[me.req.agent].balance) == db.agents[me.req.agent])
    && (me.locksAgent ==> me.req.agent in db.agents && me.agentCopy == Some(db.agents[me.req.agent]))
    && (me.locksOrder ==> me.req.op.Issue? && me.req.op.order in db.orders
                          && me.orderCopy == Some(db.orders[me.req.op.order]))
  }

  /** The checks that led here still hold of the committed rows. */
  predicate Checked(me: Session) {
    && (me.pc.Committing? && me.req.op.Issue? && me.agentCopy.Some? && me.orderCopy.Some? ==>
          var agent, order := me.agentCopy.value, me.orderCopy.value;
          && order.agent == me.req.agent && order.status == Booked
          && order.currency == agent.currency && order.total <= agent.balance
          && me.pending.IssueWrites?
          && me.pending.newBalance == agent.balance - order.total
          && me.pending.amount == order.total
          && me.pending.ticket == TicketNumber(me.req.op.order))
    && (me.pc.Repeating? && me.orderCopy.Some? ==>
          me.orderCopy.value.status == Issued && me.orderCopy.value.agent == me.req.agent)
  }

  predicate Sound(db: Db, me: Session) {
    Shape(me) && Fresh(db, me) && Checked(me)
  }

  /** Two sessions never hold conflicting locks. */
  predicate Compatible(a: Session, b: Session) {
    && !(a.req.agent == b.req.agent && a.locksAgent && (b.locksAgent || b.sharesAgent))
    && !(a.req.op == b.req.op && a.locksOrder && b.locksOrder)
    && !(SlotOf(a.req) == SlotOf(b.req) && a.holdsSlot && b.holdsSlot)
  }

  ghost predicate LockInv(s: State) {
    && (forall sid :: sid in s.sessions ==> Sound(s.db, s.sessions[sid]))
    && (forall a, b :: a in s.sessions && b in s.sessions && a != b ==> Compatible(s.sessions[a], s.sessions[b]))
  }

  /** How one statement of `me` may change the store: only rows it has locked, and new rows. */
  predicate ChangesOwnRows(db: Db, db': Db, me: Session) {
    && db'.agents.Keys == db.agents.Keys
    && (forall a :: a in db.agents && !(me.locksAgent && a == me.req.agent) ==> db'.agents[a] == db.agents[a])
    && (forall a :: a in db.agents ==> db'.agents[a] == db.agents[a].(balance := db'.agents[a].balance))
    && (forall o :: o in db.orders && !(me.locksOrder && me.req.op == Issue(o)) ==>
                      o in db'.orders && db'.orders[o] == db.orders[o])
    && db.orders.Keys <= db'.orders.Keys
  }

  lemma AdvanceChangesOwnRows(db: Db, freshRow: RowId, me: Session, env: Env)
    requires Runnable(me) && Sound(db, me)
    ensures ChangesOwnRows(db, Advance(db, freshRow, me, env).0, me)
  {
  }

  lemma LockOrderSound(db: Db, me: Session, now: int)
    requires me.pc.LockingOrder? && Sound(db, me)
    ensures Sound(db, LockOrder(db, me, now)) && LockOrder(db, me, now).req == me.req
  {
  }

  lemma CommitIssueSound(db: Db, me: Session)
    requires me.pc.Committing? && me.req.op.Issue? && Sound(db, me)
    ensures Sound(CommitIssue(db, me).0, CommitIssue(db, me).1) && CommitIssue(db, me).1.req == me.req
  {
  }

  lemma CommitCreateSound(db: Db, me: Session, id: OrderId)
    requires me.pc.Committing? && me.req.op.Create? && Sound(db, me)
    ensures Sound(CommitCreate(db, me, id).0, CommitCreate(db, me, id).1) && CommitCreate(db, me, id).1.req == me.req
  {
  }

  lemma BeforeLocksSound(db: Db, freshRow: RowId, me: Session, env: Env)
    requires Runnable(me) && Sound(db, me)
    requires me.pc.Authenticating? || me.pc.Claiming? || me.pc.ReadingKey? || me.pc.Reclaiming?
             || me.pc.LockingAgent? || me.pc.LoadingOffer?
    ensures Sound(Advance(db, freshRow, me, env).0, Advance(db, freshRow, me, env).1)
    ensures Advance(db, freshRow, me, env).1.req == me.req
  {
  }

  /** The session that moves stays sound. */
  lemma AdvanceSound(db: Db, freshRow: RowId, me: Session, env: Env)
    requires Runnable(me) && Sound(db, me)
    ensures Sound(Advance(db, freshRow, me, env).0, Advance(db, freshRow, me, env).1)
    ensures Advance(db, freshRow, me, env).1.req == me.req
  {
    match me.pc
    case LockingOrder => LockOrderSound(db, me, env.now);
    case Committing =>
      if me.req.op.Issue? { CommitIssueSound(db, me); } else { CommitCreateSound(db, me, env.freshOrder); }
    case Repeating(_) =>
    case Completing(_) =>
    case Unwinding(_, _) =>
    case MarkingFailed(_) =>
    case _ => BeforeLocksSound(db, freshRow, me, env);
  }

  /** The sessions that do not move stay sound. */
  lemma OthersStaySound(db: Db, db': Db, me: Session, other: Session)
    requires Sound(db, other) && ChangesOwnRows(db, db', me)
    requires Compatible(me, other) && Compatible(other, me)
    ensures Sound(db', other)
  {
  }

  /** No lock of `me'` was not a lock of `me`. */
  predicate OnlyReleases(me: Session, me': Session) {
    && me'.req == me.req
    && (me'.holdsSlot ==> me.holdsSlot) && (me'.sharesAgent ==> me.sharesAgent)
    && (me'.locksAgent ==> me.locksAgent) && (me'.locksOrder ==> me.locksOrder)
  }

  lemma CommitReleases(db: Db, freshRow: RowId, me: Session, env: Env)
    requires Runnable(me) && me.pc.Committing?
    ensures OnlyReleases(me, Advance(db, freshRow, me, env).1)
  {
  }

  lemma OtherStatementsRelease(db: Db, freshRow: RowId, me: Session, env: Env)
    requires Runnable(me) && Sound(db, me)
    requires !me.pc.Claiming? && !me.pc.Reclaiming? && !me.pc.LockingAgent? && !me.pc.LockingOrder?
    ensures OnlyReleases(me, Advance(db, freshRow, me, env).1)
  {
    if me.pc.Committing? {
      CommitReleases(db, freshRow, me, env);
    }
  }

  lemma AcquireCompatible(db: Db, freshRow: RowId, me: Session, env: Env, other: Session)
    requires Runnable(me) && Sound(db, me) && Sound(db, other)
    requires Compatible(me, other) && Compatible(other, me) && !WaitsFor(db, me, other)
    requires me.pc.Claiming? || me.pc.Reclaiming? || me.pc.LockingAgent? || me.pc.LockingOrder?
    ensures Compatible(Advance(db, freshRow, me, env).1, other)
    ensures Compatible(other, Advance(db, freshRow, me, env).1)
  {
  }

  /** A statement acquires no lock that conflicts with another session's: it would have waited. */
  lemma AdvanceCompatible(db: Db, freshRow: RowId, me: Session, env: Env, other: Session)
    requires Runnable(me) && Sound(db, me) && Sound(db, other)
    requires Compatible(me, other) && Compatible(other, me) && !WaitsFor(db, me, other)
    ensures Compatible(Advance(db, freshRow, me, env).1, other)
    ensures Compatible(other, Advance(db, freshRow, me, env).1)
  {
    if me.pc.Claiming? || me.pc.Reclaiming? || me.pc.LockingAgent? || me.pc.LockingOrder? {
      AcquireCompatible(db, freshRow, me, env, other);
    } else {
      OtherStatementsRelease(db, freshRow, me, env);
    }
  }

  /** Replacing one session keeps the invariant when the new one is sound and clashes with none. */
  lemma LockInvReplace(s: State, s': State, sid: SessionId, me': Session)
    requires LockInv(s) && s'.sessions == s.sessions[sid := me'] && Sound(s'.db, me')
    requires forall other :: other in s.sessions && other != sid ==>
               && Sound(s'.db, s.sessions[other])
               && Compatible(me', s.sessions[other]) && Compatible(s.sessions[other], me')
    ensures LockInv(s')
  {
  }

  lemma LockInvRunStep(s: State, sid: SessionId, env: Env)
    requires LockInv(s) && Enabled(s, sid, Run(env))
    ensures LockInv(Take(s, sid, Run(env)))
  {
    var me := s.sessions[sid];
    var (db', me') := Advance(s.db, s.nextRow, me, env);
    AdvanceChangesOwnRows(s.db, s.nextRow, me, env);
    AdvanceSound(s.db, s.nextRow, me, env);
    forall other | other in s.sessions && other != sid
      ensures Sound(db', s.sessions[other])
      ensures Compatible(me', s.sessions[other]) && Compatible(s.sessions[other], me')
    {
      assert !WaitsFor(s.db, me, s.sessions[other]);
      OthersStaySound(s.db, db', me, s.sessions[other]);
      AdvanceCompatible(s.db, s.nextRow, me, env, s.sessions[other]);
    }
    LockInvReplace(s, Take(s, sid, Run(env)), sid, me');
  }

  /** A new session, an exception and a crash take no lock and change no row. */
  lemma LocalStepSound(db: Db, me: Session, req: Request)
    requires Sound(db, me)
    ensures Sound(db, NewSession(req)) && Sound(db, Crashed(me))
    ensures !me.pc.Finished? && !me.pc.Unwinding? ==> Sound(db, Aborted(me))
  {
  }

  lemma LockInvStep(s: State, sid: SessionId, event: Event)
    requires LockInv(s) && Enabled(s, sid, event)
    ensures LockInv(Take(s, sid, event))
  {
    var s' := Take(s, sid, event);
    match event
    case Run(env) => LockInvRunStep(s, sid, env);
    case Start(req) => LockInvReplace(s, s', sid, NewSession(req));
    case Abort =>
      LocalStepSound(s.db, s.sessions[sid], s.sessions[sid].req);
      LockInvReplace(s, s', sid, Aborted(s.sessions[sid]));
    case Crash =>
      LocalStepSound(s.db, s.sessions[sid], s.sessions[sid].req);
      LockInvReplace(s, s', sid, Crashed(s.sessions[sid]));
  }

  /** Every live session can send its next statement, unless it must wait for a lock. */
  lemma LiveIsRunnable(s: State, sid: SessionId)
    requires LockInv(s) && Live(s, sid)
    ensures Runnable(s.sessions[sid])
  {
    assert Sound(s.db, s.sessions[sid]);
  }

  lemma {:induction false} LockInvRun(s: State, trace: Trace)
    requires LockInv(s) && Feasible(s, trace)
    ensures LockInv(Exec(s, trace))
    decreases |trace|
  {
    if trace == [] {
    } else {
      LockInvStep(s, trace[0].sid, trace[0].event);
      LockInvRun(Take(s, trace[0].sid, trace[0].event), trace[1..]);
    }
  }

  /** Foreign keys: while a session has locked an agent for update, nobody inserts a row that
      refers to the agent, neither a key nor an order. */
  lemma NobodyRefersToALockedAgent(s: State, sid: SessionId, env: Env, holder: SessionId)
    requires LockInv(s) && Enabled(s, sid, Run(env)) && holder in s.sessions && holder != sid
    requires s.sessions[holder].locksAgent && s.sessions[holder].req.agent == s.sessions[sid].req.agent
    ensures var t := Take(s, sid, Run(env));
            && (s.sessions[sid].pc.Claiming? ==> t.sessions[sid].claim.None?)
            && t.db.orders.Keys == s.db.orders.Keys
  {
    assert !WaitsFor(s.db, s.sessions[sid], s.sessions[holder]);
    assert Sound(s.db, s.sessions[sid]);
    OnlyBookingsInsert(s.db, s.nextRow, s.sessions[sid], env);
  }

  lemma OnlyBookingsInsert(db: Db, freshRow: RowId, me: Session, env: Env)
    requires Runnable(me) && Sound(db, me) && !(me.pc.Committing? && me.req.op.Create?)
    ensures Advance(db, freshRow, me, env).0.orders.Keys == db.orders.Keys
  {
  }

  // ---------------------------------------------------------------- reachable states

  /** Some run leads here from a service without sessions. */
  ghost predicate Reachable(s: State) {
    exists idle: State :: idle.sessions == map[] && Reaches(idle, s)
  }

  lemma ReachableStep(s: State, sid: SessionId, event: Event)
    requires Reachable(s) && Enabled(s, sid, event)
    ensures Reachable(Take(s, sid, event))
  {
    var idle: State :| idle.sessions == map[] && Reaches(idle, s);
    ReachesStep(idle, s, sid, event);
  }

  /** In every reachable state the locks exclude each other and the locked copies are fresh. */
  lemma ReachableIsLocked(s: State)
    requires Reachable(s)
    ensures LockInv(s)
  {
    var idle: State :| idle.sessions == map[] && Reaches(idle, s);
    var trace :| Feasible(idle, trace) && Exec(idle, trace) == s;
    LockInvRun(idle, trace);
  }
}
