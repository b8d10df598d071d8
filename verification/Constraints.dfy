/** The constraints of the tables, over every run, whatever consistent or inconsistent rows the
    service starts from. */
module Constraints {
  import opened Enums
  import opened Locking
  import opened Protocol
  import opened Store
  import opened Wrappers

  /** UNIQUE (order_id, txn_type) and amount > 0. */
  predicate LedgerConstrained(ledger: seq<Txn>) {
    && (forall i, j :: 0 <= i < j < |ledger| ==> ledger[i].order != ledger[j].order || ledger[i].kind != ledger[j].kind)
    && (forall i :: 0 <= i < |ledger| ==> ledger[i].amount > 0)
  }

  /** UNIQUE (ticket_number), total_amount > 0, and the range of NUMERIC(14, 2) in cents. */
  predicate OrdersConstrained(orders: map<OrderId, Order>) {
    && (forall o, p :: o in orders && p in orders && o != p && orders[o].ticket.Some? ==>
          orders[o].ticket != orders[p].ticket)
    && (forall o :: o in orders ==> 1 <= orders[o].total <= 99_999_999_999_999)
  }

  predicate Constrained(db: Db) {
    LedgerConstrained(db.ledger) && OrdersConstrained(db.orders)
  }

  lemma IssueConstrained(db: Db, me: Session)
    requires Sound(db, me) && me.pc.Committing? && me.req.op.Issue? && Constrained(db)
    ensures Constrained(CommitIssue(db, me).0)
  {
  }

  lemma AdvanceConstrained(db: Db, freshRow: RowId, me: Session, env: Env)
    requires Runnable(me) && Sound(db, me) && Constrained(db)
    ensures Constrained(Advance(db, freshRow, me, env).0)
  {
    if me.pc.Committing? && me.req.op.Issue? {
      IssueConstrained(db, me);
    }
  }

  /** Rows that meet the constraints of their tables do so in every run. */
  lemma {:induction false} ConstraintsHold(s: State, trace: Trace)
    requires LockInv(s) && Constrained(s.db) && Feasible(s, trace)
    ensures Constrained(Exec(s, trace).db)
    decreases |trace|
  {
    if trace == [] {
    } else {
      var sid, event := trace[0].sid, trace[0].event;
      if event.Run? {
        AdvanceConstrained(s.db, s.nextRow, s.sessions[sid], event.env);
      }
      LockInvStep(s, sid, event);
      ConstraintsHold(Take(s, sid, event), trace[1..]);
    }
  }
}
