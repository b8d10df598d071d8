/** What an Idempotency-Key guarantees over every interleaving, for a slot (agent, scope, key)
    whose row is not FAILED at the start: the services never commit FAILED themselves. */
module Idempotency {
  import opened Enums
  import opened Locking
  import opened Protocol
  import opened Store
  import opened Wrappers

  /** The order was booked by a request that carried this key. */
  predicate BookedUnder(db: Db, o: OrderId, slot: Slot) {
    o in db.orders && db.orders[o].bookedUnder == Some(slot)
  }

  /** The effect of the request behind a key is committed. */
  ghost predicate EffectDone(db: Db, slot: Slot, hash: Op) {
    match hash
    case Issue(o) =>
      slot.scope == IssueOrder && o in db.orders && db.orders[o].status == Issued && db.orders[o].agent == slot.agent
    case Create(_) =>
      slot.scope == CreateOrder && exists o :: BookedUnder(db, o, slot)
  }

  /** The body tells of the effect of that very request. */
  predicate BodyMatches(db: Db, slot: Slot, hash: Op, body: Body) {
    match body
    case EmptyBody => false
    case OrderBody(id, payload, total, currency) =>
      && hash == Create(payload) && BookedUnder(db, id, slot)
      && db.orders[id].total == total && db.orders[id].currency == currency
    case IssueBody(id, ticket, debited, _, currency, issuedAt) =>
      && hash == Issue(id) && id in db.orders && db.orders[id].status == Issued
      && db.orders[id].total == debited && db.orders[id].currency == currency
      && (db.orders[id].ticket.Some? ==> db.orders[id].ticket == Some(ticket))
      && (db.orders[id].issuedAt.Some? ==> db.orders[id].issuedAt == Some(issuedAt))
  }

  predicate Uses(me: Session, slot: Slot) {
    Keyed(me.req) && SlotOf(me.req) == slot
  }

  ghost predicate RowOk(db: Db, nextRow: RowId, slot: Slot) {
    slot in db.keys ==>
      var row := db.keys[slot];
      && row.id < nextRow
      && row.status != KeyFailed
      && EffectDone(db, slot, row.hash)
      && (row.status == Completed ==> row.body.Some? && BodyMatches(db, slot, row.hash, row.body.value))
  }

  ghost predicate SessionOk(db: Db, nextRow: RowId, slot: Slot, me: Session)
    requires Uses(me, slot)
  {
    && (me.claim.Some? ==> me.claim.value == Claim(me.claim.value.row, true, false) && me.claim.value.row < nextRow)
    && (me.holdsSlot ==> slot !in db.keys)
    && match me.pc
       case Reclaiming(_, _) => false
       case Completing(body) =>
         && ClaimedRowExists(db, me)
         && db.keys[slot].status == Locked && db.keys[slot].hash == me.req.op
         && BodyMatches(db, slot, me.req.op, body)
       case MarkingFailed(_) => !ClaimedRowExists(db, me)
       case Repeating(body) => BodyMatches(db, slot, me.req.op, body)
       case Finished(Success(body)) =>
         && slot in db.keys && db.keys[slot].status == Completed
         && db.keys[slot].hash == me.req.op && db.keys[slot].body == Some(body)
       case _ => true
  }

  ghost predicate BookingsOk(db: Db, slot: Slot) {
    && (forall o :: BookedUnder(db, o, slot) ==> slot in db.keys && slot.scope == CreateOrder)
    && (forall o, p :: BookedUnder(db, o, slot) && BookedUnder(db, p, slot) ==> o == p)
  }

  ghost predicate SlotInv(s: State, slot: Slot) {
    && RowOk(s.db, s.nextRow, slot)
    && BookingsOk(s.db, slot)
    && (forall sid :: sid in s.sessions && Uses(s.sessions[sid], slot) ==>
          SessionOk(s.db, s.nextRow, slot, s.sessions[sid]))
    && (forall a, b :: a in s.sessions && b in s.sessions && a != b ==>
          ClaimsApart(s.sessions[a], s.sessions[b], slot))
  }

  /** No two sessions on the slot claim the same row. */
  predicate ClaimsApart(a: Session, b: Session, slot: Slot) {
    Uses(a, slot) && Uses(b, slot) && a.claim.Some? ==> a.claim != b.claim
  }

  // ---------------------------------------------------------------- one step

  /** Orders never lose their terms, and an ISSUED order never changes at all. */
  predicate OrdersEvolve(db: Db, db': Db) {
    forall o :: o in db.orders ==>
      && o in db'.orders
      && db'.orders[o].agent == db.orders[o].agent && db'.orders[o].bookedUnder == db.orders[o].bookedUnder
      && (db.orders[o].status == Issued ==> db'.orders[o] == db.orders[o])
      && db'.orders[o].total == db.orders[o].total && db'.orders[o].currency == db.orders[o].currency
  }

  /** The row of a slot changes only by an insert of a session that holds the slot, or by the
      completion of a claim that carries the row's id. */
  predicate KeyEvolves(db: Db, db': Db, slot: Slot, me: Session) {
    || (slot in db.keys && slot in db'.keys && db'.keys[slot] == db.keys[slot])
    || (slot !in db.keys && slot !in db'.keys)
    || (Uses(me, slot) && me.claim.Some? && slot in db'.keys && db'.keys[slot].id == me.claim.value.row
        && (if slot in db.keys then me.pc.Completing? && ClaimedRowExists(db, me) else me.holdsSlot))
  }

  lemma AdvanceEvolvesOrders(db: Db, freshRow: RowId, me: Session, env: Env)
    requires Runnable(me) && Sound(db, me)
    ensures OrdersEvolve(db, Advance(db, freshRow, me, env).0)
  {
  }

  lemma AdvanceEvolves(db: Db, freshRow: RowId, me: Session, env: Env, slot: Slot)
    requires Runnable(me) && Sound(db, me)
    requires Uses(me, slot) ==> SessionOk(db, freshRow, slot, me)
    ensures OrdersEvolve(db, Advance(db, freshRow, me, env).0)
    ensures KeyEvolves(db, Advance(db, freshRow, me, env).0, slot, me)
  {
    AdvanceEvolvesOrders(db, freshRow, me, env);
  }

  lemma EvolvedEffect(db: Db, db': Db, slot: Slot, hash: Op)
    requires OrdersEvolve(db, db')
    ensures EffectDone(db, slot, hash) ==> EffectDone(db', slot, hash)
    ensures forall body :: BodyMatches(db, slot, hash, body) ==> BodyMatches(db', slot, hash, body)
  {
    if hash.Create? && EffectDone(db, slot, hash) {
      var o :| BookedUnder(db, o, slot);
      assert BookedUnder(db', o, slot);
    }
  }

  /** A statement of `me` leaves what is known about another session on the slot intact. */
  lemma OtherSessionOk(db: Db, db': Db, nextRow: RowId, slot: Slot, me: Session, other: Session)
    requires Sound(db, me) && Sound(db, other) && Compatible(me, other)
    requires Uses(other, slot) && SessionOk(db, nextRow, slot, other)
    requires Uses(me, slot) ==> me.claim.None? || me.claim != other.claim
    requires Uses(me, slot) ==> SessionOk(db, nextRow, slot, me)
    requires OrdersEvolve(db, db') && KeyEvolves(db, db', slot, me)
    ensures SessionOk(db', nextRow + 1, slot, other)
  {
    EvolvedEffect(db, db', slot, other.req.op);
  }

  /** What one statement of `me` must keep about the slot. */
  ghost predicate SlotKept(db': Db, nextRow: RowId, slot: Slot, me': Session) {
    RowOk(db', nextRow, slot) && BookingsOk(db', slot) && (Uses(me', slot) ==> SessionOk(db', nextRow, slot, me'))
  }

  lemma CommitIssueSlot(db: Db, freshRow: RowId, me: Session, env: Env, slot: Slot)
    requires Sound(db, me) && me.pc.Committing? && me.req.op.Issue? && SlotKept(db, freshRow, slot, me)
    ensures SlotKept(CommitIssue(db, me).0, freshRow + 1, slot, CommitIssue(db, me).1)
  {
    var (db', me') := CommitIssue(db, me);
    AdvanceEvolvesOrders(db, freshRow, me, env);
    if slot in db.keys { EvolvedEffect(db, db', slot, db.keys[slot].hash); }
    assert forall o :: BookedUnder(db', o, slot) <==> BookedUnder(db, o, slot);
  }

  lemma CommitCreateSlot(db: Db, freshRow: RowId, me: Session, env: Env, slot: Slot)
    requires Sound(db, me) && me.pc.Committing? && me.req.op.Create? && SlotKept(db, freshRow, slot, me)
    ensures SlotKept(CommitCreate(db, me, env.freshOrder).0, freshRow + 1, slot, CommitCreate(db, me, env.freshOrder).1)
  {
    var (db', me') := CommitCreate(db, me, env.freshOrder);
    AdvanceEvolvesOrders(db, freshRow, me, env);
    if slot in db.keys { EvolvedEffect(db, db', slot, db.keys[slot].hash); }
    if Uses(me, slot) && !me'.pc.Unwinding? {
      assert BookedUnder(db', env.freshOrder, slot);
    }
    forall o | BookedUnder(db', o, slot) && o in db.orders ensures BookedUnder(db, o, slot) {
    }
  }

  lemma KeyWriteSlot(db: Db, freshRow: RowId, me: Session, env: Env, slot: Slot)
    requires Runnable(me) && Sound(db, me) && SlotKept(db, freshRow, slot, me)
    requires me.pc.Repeating? || me.pc.Completing? || me.pc.MarkingFailed?
    ensures SlotKept(Advance(db, freshRow, me, env).0, freshRow + 1, slot, Advance(db, freshRow, me, env).1)
  {
    var db' := Advance(db, freshRow, me, env).0;
    assert db'.orders == db.orders;
    assert forall o :: BookedUnder(db', o, slot) <==> BookedUnder(db, o, slot);
    forall hash ensures EffectDone(db, slot, hash) ==> EffectDone(db', slot, hash) {
      EvolvedEffect(db, db', slot, hash);
    }
  }

  lemma QuietSlot(db: Db, freshRow: RowId, me: Session, env: Env, slot: Slot)
    requires Runnable(me) && Sound(db, me) && SlotKept(db, freshRow, slot, me)
    requires !me.pc.Committing? && !me.pc.Repeating? && !me.pc.Completing? && !me.pc.MarkingFailed?
    ensures SlotKept(Advance(db, freshRow, me, env).0, freshRow + 1, slot, Advance(db, freshRow, me, env).1)
  {
  }

  lemma AdvanceSlot(db: Db, freshRow: RowId, me: Session, env: Env, slot: Slot)
    requires Runnable(me) && Sound(db, me) && SlotKept(db, freshRow, slot, me)
    ensures SlotKept(Advance(db, freshRow, me, env).0, freshRow + 1, slot, Advance(db, freshRow, me, env).1)
  {
    if me.pc.Committing? {
      if me.req.op.Issue? { CommitIssueSlot(db, freshRow, me, env, slot); }
      else { CommitCreateSlot(db, freshRow, me, env, slot); }
    } else if me.pc.Repeating? || me.pc.Completing? || me.pc.MarkingFailed? {
      KeyWriteSlot(db, freshRow, me, env, slot);
    } else {
      QuietSlot(db, freshRow, me, env, slot);
    }
  }

  lemma SlotInvReplace(s: State, s': State, sid: SessionId, me': Session, slot: Slot)
    requires SlotInv(s, slot) && s'.sessions == s.sessions[sid := me']
    requires RowOk(s'.db, s'.nextRow, slot) && BookingsOk(s'.db, slot)
    requires Uses(me', slot) ==> SessionOk(s'.db, s'.nextRow, slot, me')
    requires forall b :: b in s.sessions && b != sid ==>
               && ClaimsApart(me', s.sessions[b], slot) && ClaimsApart(s.sessions[b], me', slot)
               && (Uses(s.sessions[b], slot) ==> SessionOk(s'.db, s'.nextRow, slot, s.sessions[b]))
    ensures SlotInv(s', slot)
  {
  }

  lemma AdvanceClaim(db: Db, freshRow: RowId, me: Session, env: Env)
    requires Runnable(me) && Sound(db, me)
    ensures var me' := Advance(db, freshRow, me, env).1;
            && me'.req == me.req
            && (me'.claim == me.claim || me'.claim == Some(Claim(freshRow, true, false)) || me.pc.Reclaiming?)
  {
    AdvanceSound(db, freshRow, me, env);
  }

  /** Whatever a statement does within these bounds, the other sessions stay as they must be. */
  lemma OthersAfter(s: State, sid: SessionId, db': Db, me': Session, slot: Slot)
    requires LockInv(s) && SlotInv(s, slot) && sid in s.sessions
    requires OrdersEvolve(s.db, db') && KeyEvolves(s.db, db', slot, s.sessions[sid])
    requires me'.req == s.sessions[sid].req
    requires me'.claim == s.sessions[sid].claim || me'.claim == Some(Claim(s.nextRow, true, false))
             || (s.sessions[sid].pc.Reclaiming? && !Uses(me', slot))
    ensures forall b :: b in s.sessions && b != sid ==>
              && ClaimsApart(me', s.sessions[b], slot) && ClaimsApart(s.sessions[b], me', slot)
              && (Uses(s.sessions[b], slot) ==> SessionOk(db', s.nextRow + 1, slot, s.sessions[b]))
  {
    forall b | b in s.sessions && b != sid && Uses(s.sessions[b], slot)
      ensures SessionOk(db', s.nextRow + 1, slot, s.sessions[b])
    {
      assert ClaimsApart(s.sessions[sid], s.sessions[b], slot);
      OtherSessionOk(s.db, db', s.nextRow, slot, s.sessions[sid], s.sessions[b]);
    }
  }

  lemma SlotInvRunStep(s: State, sid: SessionId, env: Env, slot: Slot)
    requires LockInv(s) && SlotInv(s, slot) && Enabled(s, sid, Run(env))
    ensures SlotInv(Take(s, sid, Run(env)), slot)
  {
    var me := s.sessions[sid];
    var (db', me') := Advance(s.db, s.nextRow, me, env);
    AdvanceEvolves(s.db, s.nextRow, me, env, slot);
    AdvanceClaim(s.db, s.nextRow, me, env);
    AdvanceSlot(s.db, s.nextRow, me, env, slot);
    OthersAfter(s, sid, db', me', slot);
    SlotInvReplace(s, Take(s, sid, Run(env)), sid, me', slot);
  }

  lemma LocalStepSlot(db: Db, nextRow: RowId, slot: Slot, me: Session)
    requires Uses(me, slot) ==> SessionOk(db, nextRow, slot, me)
    ensures Uses(me, slot) ==> SessionOk(db, nextRow, slot, Crashed(me)) && SessionOk(db, nextRow, slot, Aborted(me))
  {
  }

  lemma SlotInvStep(s: State, sid: SessionId, event: Event, slot: Slot)
    requires LockInv(s) && SlotInv(s, slot) && Enabled(s, sid, event)
    ensures SlotInv(Take(s, sid, event), slot)
  {
    var s' := Take(s, sid, event);
    match event
    case Run(env) => SlotInvRunStep(s, sid, env, slot);
    case Start(req) => SlotInvReplace(s, s', sid, NewSession(req), slot);
    case Abort =>
      LocalStepSlot(s.db, s.nextRow, slot, s.sessions[sid]);
      SlotInvReplace(s, s', sid, Aborted(s.sessions[sid]), slot);
    case Crash =>
      LocalStepSlot(s.db, s.nextRow, slot, s.sessions[sid]);
      SlotInvReplace(s, s', sid, Crashed(s.sessions[sid]), slot);
  }

  lemma {:induction false} SlotInvRun(s: State, trace: Trace, slot: Slot)
    requires LockInv(s) && SlotInv(s, slot) && Feasible(s, trace)
    ensures LockInv(Exec(s, trace)) && SlotInv(Exec(s, trace), slot)
    decreases |trace|
  {
    if trace == [] {
    } else {
      LockInvStep(s, trace[0].sid, trace[0].event);
      SlotInvStep(s, trace[0].sid, trace[0].event, slot);
      SlotInvRun(Take(s, trace[0].sid, trace[0].event), trace[1..], slot);
    }
  }
}
