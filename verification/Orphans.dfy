/** Keys that nobody will complete any more: how they come about, that they stay, and what still
    works. */
module Orphans {
  import opened Enums
  import opened Idempotency
  import opened Ledger
  import opened Locking
  import opened Protocol
  import opened Refinement
  import opened Sequential
  import opened Store

  /** A LOCKED row whose claimant is gone: it crashed between its two commits. */
  ghost predicate Orphaned(s: State, slot: Slot) {
    && slot in s.db.keys && s.db.keys[slot].status == Locked
    && forall sid :: sid in s.sessions && Uses(s.sessions[sid], slot) ==> !s.sessions[sid].pc.Completing?
  }

  /** The claimant is about to complete the key, and dies or is refused by the database. */
  predicate LosesClaimant(s: State, sid: SessionId, event: Event, slot: Slot) {
    sid in s.sessions && Uses(s.sessions[sid], slot) && s.sessions[sid].pc.Completing? && (event.Crash? || event.Abort?)
  }

  /** The one way in which a key is orphaned: the effect is committed, and the second COMMIT,
      the one that would complete the key, does not happen. */
  lemma OrphanedExactlyBy(s: State, sid: SessionId, event: Event, slot: Slot)
    requires LockInv(s) && SlotInv(s, slot) && Enabled(s, sid, event) && !Orphaned(s, slot)
    ensures Orphaned(Take(s, sid, event), slot) <==> LosesClaimant(s, sid, event, slot)
  {
    if LosesClaimant(s, sid, event, slot) {
      OrphanedByLoss(s, sid, event, slot);
    } else if event.Run? {
      NotOrphanedByRun(s, sid, event.env, slot);
    } else if slot in s.db.keys && s.db.keys[slot].status == Locked {
      var holder :| holder in s.sessions && Uses(s.sessions[holder], slot) && s.sessions[holder].pc.Completing?;
      assert Take(s, sid, event).sessions[holder] == s.sessions[holder];
    }
  }

  lemma OrphanedByLoss(s: State, sid: SessionId, event: Event, slot: Slot)
    requires SlotInv(s, slot) && Enabled(s, sid, event) && LosesClaimant(s, sid, event, slot)
    ensures Orphaned(Take(s, sid, event), slot)
  {
    var t := Take(s, sid, event);
    assert SessionOk(s.db, s.nextRow, slot, s.sessions[sid]);
    forall other | other in t.sessions && Uses(t.sessions[other], slot) && other != sid
      ensures !t.sessions[other].pc.Completing?
    {
      assert ClaimsApart(s.sessions[sid], s.sessions[other], slot);
      assert SessionOk(s.db, s.nextRow, slot, s.sessions[other]);
    }
  }

  lemma NotOrphanedByRun(s: State, sid: SessionId, env: Env, slot: Slot)
    requires LockInv(s) && SlotInv(s, slot) && Enabled(s, sid, Run(env)) && !Orphaned(s, slot)
    ensures !Orphaned(Take(s, sid, Run(env)), slot)
  {
    var t, me := Take(s, sid, Run(env)), s.sessions[sid];
    assert Sound(s.db, me);
    AdvanceEvolves(s.db, s.nextRow, me, env, slot);
    if slot in s.db.keys && s.db.keys[slot].status == Locked {
      var holder :| holder in s.sessions && Uses(s.sessions[holder], slot) && s.sessions[holder].pc.Completing?;
      if holder != sid {
        assert t.sessions[holder] == s.sessions[holder];
      }
    } else if Uses(me, slot) && me.pc.Committing? && slot in t.db.keys && slot !in s.db.keys {
      assert t.sessions[sid].pc.Completing?;
    }
  }

  /** An order whose issue lost its claimant still answers a request without the key: with a
      success, its ticket and its amount, and without a change to any row. */
  lemma OrphanAnswersWithoutKey(s: State, slot: Slot, o: OrderId, req: Request, freshRow: RowId, env: Env)
    requires SlotInv(s, slot) && Orphaned(s, slot) && s.db.keys[slot].hash == Issue(o)
    requires OrdersConsistent(BooksOf(s.db)) && ActiveAgent(s.db, slot.agent)
    requires req.agent == slot.agent && req.op == Issue(o) && !Keyed(req)
    ensures o in s.db.orders && s.db.orders[o].ticket.Some? && s.db.orders[o].issuedAt.Some?
    ensures var (db, me) := Completion(s.db, freshRow, NewSession(req), env); var order := s.db.orders[o];
            && db == s.db
            && me.pc == Finished(Success(IssueBody(o, order.ticket.value, order.total, s.db.agents[slot.agent].balance,
                                                   order.currency, order.issuedAt.value)))
  {
    assert EffectDone(s.db, slot, Issue(o));
    assert OrderConsistent(BooksOf(s.db), o);
    UndisturbedIssue(s.db, freshRow, req, env);
    CompletionKeepsRequest(s.db, freshRow, NewSession(req), env);
  }

  lemma OrphanStep(s: State, sid: SessionId, event: Event, slot: Slot)
    requires LockInv(s) && SlotInv(s, slot) && Orphaned(s, slot) && Enabled(s, sid, event)
    ensures var s' := Take(s, sid, event); Orphaned(s', slot) && s'.db.keys[slot] == s.db.keys[slot]
  {
    if event.Run? {
      assert Sound(s.db, s.sessions[sid]);
      AdvanceEvolves(s.db, s.nextRow, s.sessions[sid], event.env, slot);
      AdvanceClaim(s.db, s.nextRow, s.sessions[sid], event.env);
    }
  }

  /** An orphaned key stays LOCKED for ever, and no request that uses it ever succeeds again. */
  lemma {:induction false} OrphanedForever(s: State, trace: Trace, slot: Slot, sid: SessionId)
    requires LockInv(s) && SlotInv(s, slot) && Orphaned(s, slot) && Feasible(s, trace)
    ensures var t := Exec(s, trace);
            && Orphaned(t, slot) && t.db.keys[slot] == s.db.keys[slot]
            && (sid in t.sessions && Uses(t.sessions[sid], slot) && t.sessions[sid].pc.Finished? ==>
                  !t.sessions[sid].pc.outcome.Success?)
    decreases |trace|
  {
    if trace == [] {
    } else {
      LockInvStep(s, trace[0].sid, trace[0].event);
      SlotInvStep(s, trace[0].sid, trace[0].event, slot);
      OrphanStep(s, trace[0].sid, trace[0].event, slot);
      OrphanedForever(Take(s, trace[0].sid, trace[0].event), trace[1..], slot, sid);
    }
  }
}
