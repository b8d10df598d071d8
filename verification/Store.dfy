/** The committed rows (app/models/agent.py, app/models/order.py). Money is in cents: every
    money column is NUMERIC(14, 2). */
module Store {
  import opened Enums
  import opened Wrappers

  type AgentId = nat
  type OrderId = nat
  type RowId = nat

  datatype Agent = Agent(username: string, active: bool, balance: int, currency: string)

  /** What a booking asks for; `rest` stands for the fields no decision depends on. */
  datatype Payload = Payload(offer: string, pax: seq<PassengerType>, rest: string)

  /** An operation, which is also its own request hash: request hashes are taken to be injective. */
  datatype Op = Issue(order: OrderId) | Create(payload: Payload)

  datatype Scope = CreateOrder | IssueOrder

  /** What the unique constraint on idempotency keys ranges over. */
  datatype Slot = Slot(agent: AgentId, scope: Scope, key: string)

  /** `bookedUnder` is a history variable, not a column: the key slot the booking came with. No step reads it. */
  datatype Order = Order(
    agent: AgentId,
    status: OrderStatus,
    total: int,
    currency: string,
    ticket: Option<string>,
    issuedAt: Option<int>,
    bookedUnder: Option<Slot>)

  datatype Txn = Txn(agent: AgentId, order: OrderId, kind: TxnType, amount: int, balanceAfter: int)

  datatype Hist = Hist(order: OrderId, from: Option<OrderStatus>, to: OrderStatus, actor: string)

  /** The JSON bodies that are returned and stored; `{}` is what a missing body replays as. */
  datatype Body =
    | EmptyBody
    | OrderBody(id: OrderId, payload: Payload, total: int, currency: string)
    | IssueBody(id: OrderId, ticket: string, debited: int, balanceAfter: int, currency: string, issuedAt: int)

  datatype KeyRow = KeyRow(id: RowId, hash: Op, status: KeyStatus, body: Option<Body>)

  datatype Db = Db(
    agents: map<AgentId, Agent>,
    orders: map<OrderId, Order>,
    ledger: seq<Txn>,
    history: seq<Hist>,
    keys: map<Slot, KeyRow>)

  /** The first amount, in cents, that NUMERIC(14, 2) cannot hold. */
  const MONEY_LIMIT := 1_0000_0000_0000_00

  /** CHECK (total_amount > 0) and the column's range. */
  predicate StorableTotal(total: int) {
    0 < total < MONEY_LIMIT
  }

  /** UNIQUE (order_id, txn_type) admits no further row of this kind. */
  predicate HasTxn(ledger: seq<Txn>, order: OrderId, kind: TxnType) {
    exists i :: 0 <= i < |ledger| && ledger[i].order == order && ledger[i].kind == kind
  }

  /** UNIQUE (ticket_number): some other order already carries this ticket. */
  predicate TicketTaken(orders: map<OrderId, Order>, order: OrderId, ticket: string) {
    exists other :: other in orders && other != order && orders[other].ticket == Some(ticket)
  }
}
