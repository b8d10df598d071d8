/** The promises of the Idempotency-Key header, over whole runs. */
module Guarantees {
  import opened Enums
  import opened Idempotency
  import opened Locking
  import opened Protocol
  import opened Store
  import opened Wrappers

  /** A service that starts without sessions, over a table where the key is unused and unbooked. */
  predicate UnusedKey(s: State, slot: Slot) {
    s.sessions == map[] && slot !in s.db.keys && forall o :: o in s.db.orders ==>
        s.db.orders[o].bookedUnder != Some(slot)
  }

  lemma UnusedSlotInv(s: State, slot: Slot)
    requires UnusedKey(s, slot)
    ensures LockInv(s) && SlotInv(s, slot)
  {
  }

  /** In every run, at most one order is booked under a key, one is exactly when the key has a
      committed row, and that row is LOCKED or COMPLETED, never FAILED. */
  lemma AtMostOneOrder(s: State, trace: Trace, slot: Slot)
    requires LockInv(s) && SlotInv(s, slot) && Feasible(s, trace) && slot.scope == CreateOrder
    ensures var db := Exec(s, trace).db;
            && (forall o, p :: BookedUnder(db, o, slot) && BookedUnder(db, p, slot) ==> o == p)
            && ((exists o :: BookedUnder(db, o, slot)) <==> slot in db.keys)
            && (slot in db.keys ==> db.keys[slot].status in {Locked, Completed})
  {
    SlotInvRun(s, trace, slot);
    var db := Exec(s, trace).db;
    if slot in db.keys {
      assert EffectDone(db, slot, db.keys[slot].hash);
    }
  }

  /** However a service has come to it from an unused key, IDEMPOTENCY_IN_PROGRESS is answered
      only when the key is LOCKED and its effect is committed already. */
  lemma InProgressMeansDone(s: State, trace: Trace, sid: SessionId, env: Env, slot: Slot)
    requires UnusedKey(s, slot) && Feasible(s, trace) && Enabled(Exec(s, trace), sid, Run(env))
    requires Uses(Exec(s, trace).sessions[sid], slot) && Exec(s, trace).sessions[sid].pc.ReadingKey?
    requires Take(Exec(s, trace), sid, Run(env)).sessions[sid].pc == Unwinding(InProgress, false)
    ensures var db := Exec(s, trace).db;
            slot in db.keys && db.keys[slot].status == Locked && EffectDone(db, slot, db.keys[slot].hash)
  {
    UnusedSlotInv(s, slot);
    SlotInvRun(s, trace, slot);
  }

  /** What ends a transaction without a COMMIT: the rollback after an error, or a crash. */
  predicate EndsUncommitted(s: State, sid: SessionId, event: Event) {
    Enabled(s, sid, event) && (event.Crash? || (event.Run? && s.sessions[sid].pc.Unwinding?))
  }

  /** A request that fails after claiming and before its COMMIT leaves the key as if it had
      never been sent: any later request, with any payload, inserts its own claim. */
  lemma FailureLeavesKeyClaimable(s: State, sid: SessionId, event: Event, slot: Slot, later: SessionId, env: Env)
    requires LockInv(s) && SlotInv(s, slot) && EndsUncommitted(s, sid, event)
    requires Uses(s.sessions[sid], slot) && s.sessions[sid].holdsSlot
    ensures var s' := Take(s, sid, event);
            && slot !in s'.db.keys
            && (forall t :: t in s'.sessions && Uses(s'.sessions[t], slot) ==> !s'.sessions[t].holdsSlot)
            && (later in s'.sessions && Uses(s'.sessions[later], slot) && s'.sessions[later].pc.Claiming?
                && Enabled(s', later, Run(env)) ==>
                  Take(s', later, Run(env)).sessions[later].claim == Some(Claim(s'.nextRow, true, false)))
  {
    var s' := Take(s, sid, event);
    forall t | t in s'.sessions && Uses(s'.sessions[t], slot) && t != sid ensures !s'.sessions[t].holdsSlot {
      assert Compatible(s.sessions[sid], s.sessions[t]);
    }
  }

  lemma CompletedStep(s: State, sid: SessionId, event: Event, slot: Slot)
    requires LockInv(s) && SlotInv(s, slot) && Enabled(s, sid, event)
    requires slot in s.db.keys && s.db.keys[slot].status == Completed
    ensures var db := Take(s, sid, event).db; slot in db.keys && db.keys[slot] == s.db.keys[slot]
  {
    if event.Run? {
      AdvanceEvolves(s.db, s.nextRow, s.sessions[sid], event.env, slot);
    }
  }

  /** COMPLETED is absorbing: neither status nor hash nor body ever changes again. */
  lemma {:induction false} CompletedForever(s: State, trace: Trace, slot: Slot)
    requires LockInv(s) && SlotInv(s, slot) && Feasible(s, trace)
    requires slot in s.db.keys && s.db.keys[slot].status == Completed
    ensures var db := Exec(s, trace).db; slot in db.keys && db.keys[slot] == s.db.keys[slot]
    decreases |trace|
  {
    if trace == [] {
    } else {
      LockInvStep(s, trace[0].sid, trace[0].event);
      SlotInvStep(s, trace[0].sid, trace[0].event, slot);
      CompletedStep(s, trace[0].sid, trace[0].event, slot);
      CompletedForever(Take(s, trace[0].sid, trace[0].event), trace[1..], slot);
    }
  }

  /** All successful responses ever given for a key, fresh or replayed, are the same body for
      the same request. Finished sessions stay in the state, so this covers the whole run. */
  lemma SuccessesAgree(s: State, trace: Trace, slot: Slot, a: SessionId, b: SessionId)
    requires LockInv(s) && SlotInv(s, slot) && Feasible(s, trace)
    requires var t := Exec(s, trace);
             && a in t.sessions && b in t.sessions
             && Uses(t.sessions[a], slot) && Uses(t.sessions[b], slot)
             && t.sessions[a].pc.Finished? && t.sessions[a].pc.outcome.Success?
             && t.sessions[b].pc.Finished? && t.sessions[b].pc.outcome.Success?
    ensures var t := Exec(s, trace);
            && t.sessions[a].req.op == t.sessions[b].req.op
            && t.sessions[a].pc.outcome == t.sessions[b].pc.outcome
            && BodyMatches(t.db, slot, t.sessions[a].req.op, t.sessions[a].pc.outcome.body)
  {
    SlotInvRun(s, trace, slot);
  }
}
