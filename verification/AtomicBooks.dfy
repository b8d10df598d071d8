/** The atomic specification of issuing and booking: the books without keys, locks or
    sessions, and what an issue or a booking does to them in one indivisible step. */
module AtomicBooks {
  import opened Digits
  import opened Enums
  import opened Store
  import opened Wrappers

  datatype Books = Books(
    agents: map<AgentId, Agent>,
    orders: map<OrderId, Order>,
    ledger: seq<Txn>,
    history: seq<Hist>)

  datatype AtomicOp =
    | AtomicIssue(agent: AgentId, order: OrderId, now: int)
    | AtomicBook(agent: AgentId, order: OrderId, total: int, currency: string, under: Option<Slot>)

  predicate CanApply(b: Books, op: AtomicOp) {
    match op
    case AtomicIssue(a, o, _) =>
      && a in b.agents && o in b.orders
      && b.orders[o].agent == a
      && b.orders[o].status == Booked
      && b.orders[o].currency == b.agents[a].currency
      && 0 < b.orders[o].total <= b.agents[a].balance
      && !TicketTaken(b.orders, o, TicketNumber(o))
    case AtomicBook(a, o, total, _, _) =>
      a in b.agents && o !in b.orders && StorableTotal(total)
  }

  function Apply(b: Books, op: AtomicOp): Books
    requires CanApply(b, op)
  {
    match op
    case AtomicIssue(a, o, now) =>
      var price := b.orders[o].total;
      Books(
        b.agents[a := b.agents[a].(balance := b.agents[a].balance - price)],
        b.orders[o := b.orders[o].(status := Issued, issuedAt := Some(now), ticket := Some(TicketNumber(o)))],
        b.ledger + [Txn(a, o, Debit, price, b.agents[a].balance - price)],
        b.history + [Hist(o, Some(Booked), Issued, b.agents[a].username)])
    case AtomicBook(a, o, total, currency, under) =>
      b.(orders := b.orders[o := Order(a, Booked, total, currency, None, None, under)],
         history := b.history + [Hist(o, None, Booked, b.agents[a].username)])
  }

  predicate CanApplyAll(b: Books, ops: seq<AtomicOp>)
    decreases |ops|
  {
    ops == [] || (CanApply(b, ops[0]) && CanApplyAll(Apply(b, ops[0]), ops[1..]))
  }

  function ApplyAll(b: Books, ops: seq<AtomicOp>): Books
    requires CanApplyAll(b, ops)
    decreases |ops|
  {
    if ops == [] then b else ApplyAll(Apply(b, ops[0]), ops[1..])
  }
}
