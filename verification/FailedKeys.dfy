/** Why at-most-once rests on FAILED rows never being committed: the branch that takes a
    FAILED key over reads it without a lock, so two requests can take the same one over. */
module FailedKeys {
  import opened Enums
  import opened FreshIds
  import opened Guarantees
  import opened Idempotency
  import opened Locking
  import opened Pricing
  import opened Protocol
  import opened Store
  import opened Wrappers

  /** A service at rest, whose table is consistent about the slot; its row may be FAILED. */
  ghost predicate AtRest(s: State, slot: Slot) {
    && s.sessions == map[]
    && slot.scope == CreateOrder && slot.key != ""
    && slot.agent in s.db.agents && s.db.agents[slot.agent].active
    && BookingsOk(s.db, slot)
    && (slot in s.db.keys ==>
          if s.db.keys[slot].status == KeyFailed then forall o :: !BookedUnder(s.db, o, slot)
          else RowOk(s.db, s.nextRow, slot))
  }

  ghost predicate AtMostOne(db: Db, slot: Slot) {
    forall o, p :: BookedUnder(db, o, slot) && BookedUnder(db, p, slot) ==> o == p
  }

  /** The request both sessions of the double booking send. */
  function Retry(slot: Slot): Request {
    Request(slot.agent, Create(Payload("offer", [Adult], "")), Some(slot.key))
  }

  function Quoted(id: OrderId): Env {
    Env(0, id, Offer(1.0, "USD", None))
  }

  lemma OneAdultCosts()
    ensures OrderTotal(1.0, [Adult]) == 100
  {
    TotalNeedsNoRounding(1.0, [Adult]);
    assert [Adult][..0] == [];
    assert SumFares(1.0, [Adult]) == PaxFare(1.0, Adult);
  }

  /** A session whose neighbours hold no locks sends its next statement and waits for nobody. */
  lemma RunAlone(s: State, t: State, sid: SessionId, env: Env) returns (u: State)
    requires Reaches(s, t) && sid in t.sessions && Runnable(t.sessions[sid])
    requires forall other :: other in t.sessions && other != sid ==> NoLocks(t.sessions[other])
    ensures Reaches(s, u)
    ensures u == State(Advance(t.db, t.nextRow, t.sessions[sid], env).0,
                       t.sessions[sid := Advance(t.db, t.nextRow, t.sessions[sid], env).1],
                       t.nextRow + 1)
  {
    ReachesStep(s, t, sid, Run(env));
    u := Take(t, sid, Run(env));
  }

  /** A session that has read the FAILED row and is about to take it over. */
  function TakingOver(db: Db, slot: Slot): Session
    requires slot in db.keys && slot.agent in db.agents
  {
    NewSession(Retry(slot)).(
      pc := Reclaiming(db.keys[slot].id, db.keys[slot].hash),
      agentCopy := Some(db.agents[slot.agent]))
  }

  /** A new session gets as far as having read the FAILED row. */
  lemma ReadsFailed(s: State, t: State, sid: SessionId, slot: Slot) returns (u: State)
    requires Reaches(s, t) && t.db == s.db && sid !in t.sessions && AtRest(s, slot)
    requires slot in s.db.keys && s.db.keys[slot].status == KeyFailed
    requires forall other :: other in t.sessions ==> NoLocks(t.sessions[other])
    ensures Reaches(s, u) && u.db == s.db && u.sessions == t.sessions[sid := TakingOver(s.db, slot)]
  {
    ReachesStep(s, t, sid, Start(Retry(slot)));
    u := Take(t, sid, Start(Retry(slot)));
    u := RunAlone(s, u, sid, Quoted(0));
    u := RunAlone(s, u, sid, Quoted(0));
    u := RunAlone(s, u, sid, Quoted(0));
  }

  /** A session that has read the FAILED row takes it over and books an order, whatever
      happened to the row since. */
  lemma TakeOverAndBook(s: State, t: State, sid: SessionId, slot: Slot, id: OrderId) returns (u: State)
    requires Reaches(s, t) && sid in t.sessions && slot in t.db.keys && slot.key != "" && slot.scope == CreateOrder
    requires id !in t.db.orders
    requires t.sessions[sid].req == Retry(slot) && t.sessions[sid].pc.Reclaiming? && t.sessions[sid].agentCopy.Some?
    requires forall other :: other in t.sessions && other != sid ==> NoLocks(t.sessions[other])
    ensures Reaches(s, u) && u.sessions.Keys == t.sessions.Keys && slot in u.db.keys
    ensures u.db.orders.Keys == t.db.orders.Keys + {id} && BookedUnder(u.db, id, slot)
    ensures forall o :: o in t.db.orders ==> u.db.orders[o] == t.db.orders[o]
    ensures NoLocks(u.sessions[sid])
    ensures forall other :: other in t.sessions && other != sid ==> u.sessions[other] == t.sessions[other]
  {
    OneAdultCosts();
    u := RunAlone(s, t, sid, Quoted(id));
    u := RunAlone(s, u, sid, Quoted(id));
    assert u.sessions[sid].pending == OrderInsert(100, "USD");
    u := RunAlone(s, u, sid, Quoted(id));
  }

  /** Two requests have both read the FAILED row. */
  lemma BothReadFailed(s: State, slot: Slot) returns (t: State)
    requires AtRest(s, slot) && slot in s.db.keys && s.db.keys[slot].status == KeyFailed
    ensures Reaches(s, t) && t.db == s.db && t.sessions == map[0 := TakingOver(s.db, slot), 1 := TakingOver(s.db, slot)]
  {
    ReachesSelf(s);
    t := ReadsFailed(s, s, 0, slot);
    t := ReadsFailed(s, t, 1, slot);
  }

  /** The COMMIT of a request that took a row over changes its status, and its hash unless the row
      had that of the request when it was read; the id and the old response stay, and so does
      every other key. */
  lemma TakeOverUpdatesColumns(db: Db, freshRow: RowId, me: Session, env: Env)
    requires Runnable(me) && Sound(db, me) && me.pc.Committing? && me.claim.Some? && !me.claim.value.inserted
    requires SlotOf(me.req) in db.keys && db.keys[SlotOf(me.req)].id == me.claim.value.row
    ensures var (db', me') := Advance(db, freshRow, me, env);
            var slot, row := SlotOf(me.req), db.keys[SlotOf(me.req)];
            db'.keys == if me'.pc.Unwinding? then db.keys
                        else db.keys[slot := KeyRow(row.id, if me.claim.value.sameHash then row.hash else me.req.op,
                                                    Locked, row.body)]
  {
  }

  /** From a FAILED row two requests can both book an order under the one key. */
  lemma FailedKeyBooksTwice(s: State, slot: Slot) returns (u: State)
    requires AtRest(s, slot) && slot in s.db.keys && s.db.keys[slot].status == KeyFailed
    ensures Reaches(s, u) && !AtMostOne(u.db, slot)
  {
    var id := UnusedId(s.db.orders.Keys);
    var t := BothReadFailed(s, slot);
    t := TakeOverAndBook(s, t, 0, slot, id);
    u := TakeOverAndBook(s, t, 1, slot, id + 1);
    assert BookedUnder(u.db, id, slot) && BookedUnder(u.db, id + 1, slot);
  }

  /** The exact condition: a key books at most one order in every run if and only if its row
      is not FAILED when the service starts. */
  lemma AtMostOnceIffNotFailed(s: State, slot: Slot)
    requires AtRest(s, slot)
    ensures (forall t :: Reaches(s, t) ==> AtMostOne(t.db, slot))
            <==> (slot in s.db.keys ==> s.db.keys[slot].status != KeyFailed)
  {
    if slot in s.db.keys && s.db.keys[slot].status == KeyFailed {
      var u := FailedKeyBooksTwice(s, slot);
    } else {
      forall t | Reaches(s, t) ensures AtMostOne(t.db, slot) {
        var trace :| Feasible(s, trace) && Exec(s, trace) == t;
        AtMostOneOrder(s, trace, slot);
      }
    }
  }
}
