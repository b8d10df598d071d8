/** Conservation of money: what every atomic operation, and by refinement every interleaving,
    keeps true of balances, ledger, order statuses, tickets and history. */
module Ledger {
  import opened AtomicBooks
  import opened Digits
  import opened Enums
  import opened Locking
  import opened Protocol
  import opened Refinement
  import opened Store
  import opened Sums
  import opened Wrappers

  function DebitsOfAgent(ledger: seq<Txn>, a: AgentId): seq<Txn> {
    if ledger == [] then []
    else
      var last := ledger[|ledger| - 1];
      var rest := DebitsOfAgent(ledger[..|ledger| - 1], a);
      if last.agent == a && last.kind == Debit then rest + [last] else rest
  }

  function DebitsOfOrder(ledger: seq<Txn>, o: OrderId): seq<Txn> {
    if ledger == [] then []
    else
      var last := ledger[|ledger| - 1];
      var rest := DebitsOfOrder(ledger[..|ledger| - 1], o);
      if last.order == o && last.kind == Debit then rest + [last] else rest
  }

  function HistoryOf(history: seq<Hist>, o: OrderId): seq<Hist> {
    if history == [] then []
    else
      var last := history[|history| - 1];
      var rest := HistoryOf(history[..|history| - 1], o);
      if last.order == o then rest + [last] else rest
  }

  predicate IsIssueMove(h: Hist) {
    h.from == Some(Booked) && h.to == Issued
  }

  function IssueMoves(rows: seq<Hist>): seq<Hist> {
    if rows == [] then []
    else
      var last := rows[|rows| - 1];
      var rest := IssueMoves(rows[..|rows| - 1]);
      if IsIssueMove(last) then rest + [last] else rest
  }

  function SumAmounts(txns: seq<Txn>): int {
    if txns == [] then 0 else SumAmounts(txns[..|txns| - 1]) + txns[|txns| - 1].amount
  }

  /** The rows lead from the opening to the closing balance: each balance_after is the one
      before it minus the amount, and the last one is the closing balance. */
  predicate Chained(opening: int, txns: seq<Txn>, closing: int) {
    if txns == [] then closing == opening
    else
      var last := txns[|txns| - 1];
      last.balanceAfter == closing && Chained(opening, txns[..|txns| - 1], closing + last.amount)
  }

  /** A path of the transition graph, from the creation of the order to its current status. */
  predicate HistoryPath(rows: seq<Hist>, status: OrderStatus) {
    && rows != []
    && rows[0].from == None && rows[0].to == Booked
    && rows[|rows| - 1].to == status
    && forall i :: 1 <= i < |rows| ==>
         rows[i].from == Some(rows[i - 1].to) && rows[i].to in AllowedTransitions(rows[i - 1].to)
  }

  /** What the ISSUED orders of an agent cost, by order. */
  function IssuedTotals(orders: map<OrderId, Order>, a: AgentId): map<OrderId, int> {
    map o | o in orders && orders[o].agent == a && orders[o].status == Issued :: orders[o].total
  }

  /** An ISSUED order has exactly one DEBIT, of its total; any other order has none. */
  ghost predicate OrderConsistent(b: Books, o: OrderId)
    requires o in b.orders
  {
    var order := b.orders[o];
    && HistoryPath(HistoryOf(b.history, o), order.status)
    && order.total > 0
    && if order.status == Issued then
         && |DebitsOfOrder(b.ledger, o)| == 1
         && DebitsOfOrder(b.ledger, o)[0].amount == order.total
         && DebitsOfOrder(b.ledger, o)[0].agent == order.agent
         && order.ticket == Some(TicketNumber(o)) && order.issuedAt.Some?
         && |IssueMoves(HistoryOf(b.history, o))| == 1
       else
         DebitsOfOrder(b.ledger, o) == [] && order.ticket == None && order.issuedAt == None
         && IssueMoves(HistoryOf(b.history, o)) == []
  }

  ghost predicate AgentConsistent(b: Books, a: AgentId, opening: int)
    requires a in b.agents
  {
    && Chained(opening, DebitsOfAgent(b.ledger, a), b.agents[a].balance)
    && SumAmounts(DebitsOfAgent(b.ledger, a)) == Total(IssuedTotals(b.orders, a))
    && (b.agents[a].balance >= 0 || (b.agents[a].balance == opening && DebitsOfAgent(b.ledger, a) == []))
  }

  /** Every row belongs to an order, no debit overdraws, and tickets are unique. */
  ghost predicate RowsConsistent(b: Books) {
    && (forall i :: 0 <= i < |b.ledger| ==>
          b.ledger[i].order in b.orders && b.ledger[i].amount > 0 && b.ledger[i].balanceAfter >= 0)
    && (forall i :: 0 <= i < |b.history| ==> b.history[i].order in b.orders)
    && (forall o, p :: o in b.orders && p in b.orders && o != p && b.orders[o].ticket.Some? ==>
          b.orders[o].ticket != b.orders[p].ticket)
  }

  ghost predicate AgentsConsistent(b: Books, opening: map<AgentId, int>) {
    && opening.Keys == b.agents.Keys
    && forall a :: a in b.agents ==> AgentConsistent(b, a, opening[a])
  }

  ghost predicate OrdersConsistent(b: Books) {
    forall o :: o in b.orders ==> OrderConsistent(b, o)
  }

  ghost predicate BooksInv(b: Books, opening: map<AgentId, int>) {
    && AgentsConsistent(b, opening)
    && OrdersConsistent(b)
    && RowsConsistent(b)
  }

  /** Books without orders are consistent, whatever the balances are. */
  lemma OpeningBooks(agents: map<AgentId, Agent>)
    ensures BooksInv(Books(agents, map[], [], []), map a | a in agents :: agents[a].balance)
  {
    forall a | a in agents ensures IssuedTotals(map[], a) == map[] {
    }
  }

  // ------------------------------------------------- what the chain of balances means

  lemma {:induction false} ChainedBalance(opening: int, txns: seq<Txn>, closing: int)
    requires Chained(opening, txns, closing)
    ensures closing == opening - SumAmounts(txns)
  {
    if txns == [] {
    } else {
      ChainedBalance(opening, txns[..|txns| - 1], closing + txns[|txns| - 1].amount);
    }
  }

  lemma {:induction false} ChainedSteps(opening: int, txns: seq<Txn>, closing: int)
    requires Chained(opening, txns, closing)
    ensures BalancesLinked(opening, txns, closing)
  {
    if txns == [] {
    } else {
      var init, last := txns[..|txns| - 1], txns[|txns| - 1];
      ChainedSteps(opening, init, closing + last.amount);
      forall i | 1 <= i < |txns| ensures txns[i].balanceAfter == txns[i - 1].balanceAfter - txns[i].amount {
        if i < |txns| - 1 { assert init[i] == txns[i] && init[i - 1] == txns[i - 1]; }
      }
    }
  }

  /** Each balance_after follows from the one before it, and the last one is the balance. */
  predicate BalancesLinked(opening: int, rows: seq<Txn>, closing: int) {
    && (rows != [] ==> rows[0].balanceAfter == opening - rows[0].amount && rows[|rows| - 1].balanceAfter == closing)
    && forall i :: 1 <= i < |rows| ==> rows[i].balanceAfter == rows[i - 1].balanceAfter - rows[i].amount
  }

  lemma AgentAccounts(b: Books, a: AgentId, opening: int)
    requires a in b.agents && AgentConsistent(b, a, opening)
    ensures b.agents[a].balance == opening - SumAmounts(DebitsOfAgent(b.ledger, a))
    ensures b.agents[a].balance == opening - Total(IssuedTotals(b.orders, a))
    ensures BalancesLinked(opening, DebitsOfAgent(b.ledger, a), b.agents[a].balance)
  {
    ChainedBalance(opening, DebitsOfAgent(b.ledger, a), b.agents[a].balance);
    ChainedSteps(opening, DebitsOfAgent(b.ledger, a), b.agents[a].balance);
  }

  lemma BalanceAccounts(b: Books, opening: map<AgentId, int>, a: AgentId)
    requires BooksInv(b, opening) && a in b.agents
    ensures b.agents[a].balance == opening[a] - SumAmounts(DebitsOfAgent(b.ledger, a))
    ensures b.agents[a].balance == opening[a] - Total(IssuedTotals(b.orders, a))
    ensures BalancesLinked(opening[a], DebitsOfAgent(b.ledger, a), b.agents[a].balance)
    ensures opening[a] >= 0 ==> b.agents[a].balance >= 0
  {
    AgentAccounts(b, a, opening[a]);
  }

  // ------------------------------------------------- what an atomic issue does to the books

  lemma AppendTxn(ledger: seq<Txn>, t: Txn, a: AgentId, o: OrderId)
    ensures DebitsOfAgent(ledger + [t], a)
         == (if t.agent == a && t.kind == Debit then DebitsOfAgent(ledger, a) + [t] else DebitsOfAgent(ledger, a))
    ensures DebitsOfOrder(ledger + [t], o)
         == (if t.order == o && t.kind == Debit then DebitsOfOrder(ledger, o) + [t] else DebitsOfOrder(ledger, o))
  {
    assert (ledger + [t])[..|ledger|] == ledger;
  }

  lemma AppendHist(history: seq<Hist>, h: Hist, o: OrderId)
    ensures HistoryOf(history + [h], o) == if h.order == o then HistoryOf(history, o) + [h] else HistoryOf(history, o)
  {
    assert (history + [h])[..|history|] == history;
  }

  lemma AppendMove(rows: seq<Hist>, h: Hist)
    ensures IssueMoves(rows + [h]) == if IsIssueMove(h) then IssueMoves(rows) + [h] else IssueMoves(rows)
  {
    assert (rows + [h])[..|rows|] == rows;
  }

  lemma {:induction false} NoRowsOfNewOrder(b: Books, o: OrderId, txns: nat, hists: nat)
    requires RowsConsistent(b) && o !in b.orders && txns <= |b.ledger| && hists <= |b.history|
    ensures DebitsOfOrder(b.ledger[..txns], o) == [] && HistoryOf(b.history[..hists], o) == []
    decreases txns + hists
  {
    if txns == 0 && hists == 0 {
    } else if txns > 0 {
      assert b.ledger[..txns][..txns - 1] == b.ledger[..txns - 1];
      NoRowsOfNewOrder(b, o, txns - 1, hists);
    } else {
      assert b.history[..hists][..hists - 1] == b.history[..hists - 1];
      NoRowsOfNewOrder(b, o, txns, hists - 1);
    }
  }

  lemma {:induction false} DebitRowIsSelected(ledger: seq<Txn>, o: OrderId, i: nat)
    requires i < |ledger| && ledger[i].order == o && ledger[i].kind == Debit
    ensures DebitsOfOrder(ledger, o) != []
  {
    if i < |ledger| - 1 {
      DebitRowIsSelected(ledger[..|ledger| - 1], o, i);
    }
  }

  lemma ChainedAppend(opening: int, rows: seq<Txn>, t: Txn)
    requires Chained(opening, rows, t.balanceAfter + t.amount)
    ensures Chained(opening, rows + [t], t.balanceAfter)
    ensures SumAmounts(rows + [t]) == SumAmounts(rows) + t.amount
  {
    assert (rows + [t])[..|rows|] == rows;
  }

  lemma IssueKeepsTotal(b: Books, op: AtomicOp, a: AgentId)
    requires CanApply(b, op) && op.AtomicIssue?
    ensures Total(IssuedTotals(Apply(b, op).orders, a))
         == Total(IssuedTotals(b.orders, a)) + if a == op.agent then b.orders[op.order].total else 0
  {
    var price := b.orders[op.order].total;
    var before, after := IssuedTotals(b.orders, a), IssuedTotals(Apply(b, op).orders, a);
    if a == op.agent {
      TotalUpdate(before, op.order, price);
      assert after == before[op.order := price];
    } else {
      assert after == before;
    }
  }

  lemma DebitsAfterIssue(b: Books, op: AtomicOp, t: Txn)
    requires CanApply(b, op) && op.AtomicIssue?
    requires t == Txn(op.agent, op.order, Debit, b.orders[op.order].total,
        b.agents[op.agent].balance - b.orders[op.order].total)
    ensures Apply(b, op).ledger == b.ledger + [t]
    ensures op.agent in Apply(b, op).agents && Apply(b, op).agents[op.agent].balance == t.balanceAfter >= 0
  {
  }

  lemma IssueKeepsDebitedAgent(b: Books, op: AtomicOp, opening: int)
    requires CanApply(b, op) && op.AtomicIssue? && AgentConsistent(b, op.agent, opening)
    ensures AgentConsistent(Apply(b, op), op.agent, opening)
  {
    var a, price := op.agent, b.orders[op.order].total;
    var t := Txn(a, op.order, Debit, price, b.agents[a].balance - price);
    var rows := DebitsOfAgent(b.ledger, a);
    AppendTxn(b.ledger, t, a, op.order);
    ChainedAppend(opening, rows, t);
    IssueKeepsTotal(b, op, a);
    DebitsAfterIssue(b, op, t);
  }

  lemma IssueKeepsOtherAgent(b: Books, op: AtomicOp, a: AgentId, opening: int)
    requires a in b.agents && a != op.agent && AgentConsistent(b, a, opening) && CanApply(b, op) && op.AtomicIssue?
    ensures AgentConsistent(Apply(b, op), a, opening)
  {
    AppendTxn(b.ledger, Apply(b, op).ledger[|b.ledger|], a, op.order);
    IssueKeepsTotal(b, op, a);
  }

  lemma HistoryPathAppend(rows: seq<Hist>, status: OrderStatus, h: Hist)
    requires HistoryPath(rows, status) && h.from == Some(status) && h.to in AllowedTransitions(status)
    ensures HistoryPath(rows + [h], h.to)
  {
  }

  lemma UntouchedOrder(b: Books, b': Books, o: OrderId)
    requires o in b.orders && OrderConsistent(b, o)
    requires o in b'.orders && b'.orders[o] == b.orders[o]
    requires DebitsOfOrder(b'.ledger, o) == DebitsOfOrder(b.ledger, o)
    requires HistoryOf(b'.history, o) == HistoryOf(b.history, o)
    ensures OrderConsistent(b', o)
  {
  }

  lemma ApplyKeepsOtherOrder(b: Books, op: AtomicOp, o: OrderId)
    requires o in b.orders && OrderConsistent(b, o) && CanApply(b, op) && o != op.order
    ensures OrderConsistent(Apply(b, op), o)
  {
    AppendHist(b.history, Apply(b, op).history[|b.history|], o);
    if op.AtomicIssue? {
      AppendTxn(b.ledger, Apply(b, op).ledger[|b.ledger|], op.agent, o);
    }
    UntouchedOrder(b, Apply(b, op), o);
  }

  lemma IssueHistory(b: Books, op: AtomicOp)
    requires CanApply(b, op) && op.AtomicIssue? && OrderConsistent(b, op.order)
    ensures var rows := HistoryOf(Apply(b, op).history, op.order);
            HistoryPath(rows, Issued) && |IssueMoves(rows)| == 1
  {
    var rows, h := HistoryOf(b.history, op.order), Apply(b, op).history[|b.history|];
    AppendHist(b.history, h, op.order);
    AppendMove(rows, h);
    HistoryPathAppend(rows, Booked, h);
  }

  lemma IssueKeepsIssuedOrder(b: Books, op: AtomicOp)
    requires CanApply(b, op) && op.AtomicIssue? && OrderConsistent(b, op.order)
    ensures OrderConsistent(Apply(b, op), op.order)
  {
    IssueHistory(b, op);
    AppendTxn(b.ledger, Apply(b, op).ledger[|b.ledger|], op.agent, op.order);
  }

  lemma ApplyKeepsRows(b: Books, op: AtomicOp)
    requires RowsConsistent(b) && CanApply(b, op)
    ensures RowsConsistent(Apply(b, op))
  {
  }

  lemma BookedOrderConsistent(b: Books, op: AtomicOp)
    requires RowsConsistent(b) && CanApply(b, op) && op.AtomicBook?
    ensures OrderConsistent(Apply(b, op), op.order)
  {
    var o, h := op.order, Hist(op.order, None, Booked, b.agents[op.agent].username);
    NoRowsOfNewOrder(b, o, |b.ledger|, |b.history|);
    assert b.ledger[..|b.ledger|] == b.ledger && b.history[..|b.history|] == b.history;
    AppendHist(b.history, h, o);
    FirstHistory(h);
    FreshOrderConsistent(Apply(b, op), o, h);
  }

  lemma FreshOrderConsistent(b: Books, o: OrderId, h: Hist)
    requires o in b.orders && b.orders[o].status == Booked && b.orders[o].total > 0
    requires b.orders[o].ticket == None && b.orders[o].issuedAt == None
    requires DebitsOfOrder(b.ledger, o) == [] && HistoryOf(b.history, o) == [h]
    requires HistoryPath([h], Booked) && IssueMoves([h]) == []
    ensures OrderConsistent(b, o)
  {
  }

  lemma FirstHistory(h: Hist)
    requires h.from == None && h.to == Booked
    ensures HistoryPath([h], Booked) && IssueMoves([h]) == []
  {
    assert [h][..0] == [];
  }

  lemma BookKeepsAgent(b: Books, op: AtomicOp, a: AgentId, opening: int)
    requires a in b.agents && AgentConsistent(b, a, opening) && CanApply(b, op) && op.AtomicBook?
    ensures AgentConsistent(Apply(b, op), a, opening)
  {
    assert IssuedTotals(Apply(b, op).orders, a) == IssuedTotals(b.orders, a);
  }

  lemma ApplyKeepsAgents(b: Books, opening: map<AgentId, int>, op: AtomicOp)
    requires AgentsConsistent(b, opening) && CanApply(b, op)
    ensures AgentsConsistent(Apply(b, op), opening)
  {
    assert Apply(b, op).agents.Keys == b.agents.Keys;
    forall a | a in Apply(b, op).agents ensures AgentConsistent(Apply(b, op), a, opening[a]) {
      if op.AtomicBook? {
        BookKeepsAgent(b, op, a, opening[a]);
      } else if a == op.agent {
        IssueKeepsDebitedAgent(b, op, opening[a]);
      } else {
        IssueKeepsOtherAgent(b, op, a, opening[a]);
      }
    }
  }

  lemma ApplyKeepsOrder(b: Books, op: AtomicOp, o: OrderId)
    requires RowsConsistent(b) && CanApply(b, op) && o in Apply(b, op).orders
    requires o in b.orders ==> OrderConsistent(b, o)
    ensures OrderConsistent(Apply(b, op), o)
  {
    if o != op.order {
      ApplyKeepsOtherOrder(b, op, o);
    } else if op.AtomicIssue? {
      IssueKeepsIssuedOrder(b, op);
    } else {
      BookedOrderConsistent(b, op);
    }
  }

  lemma ApplyKeepsOrders(b: Books, op: AtomicOp)
    requires RowsConsistent(b) && OrdersConsistent(b) && CanApply(b, op)
    ensures OrdersConsistent(Apply(b, op))
  {
    forall o | o in Apply(b, op).orders ensures OrderConsistent(Apply(b, op), o) {
      ApplyKeepsOrder(b, op, o);
    }
  }

  /** Every atomic operation keeps the books consistent. */
  lemma ApplyKeepsBooks(b: Books, opening: map<AgentId, int>, op: AtomicOp)
    requires BooksInv(b, opening) && CanApply(b, op)
    ensures BooksInv(Apply(b, op), opening)
  {
    ApplyKeepsAgents(b, opening, op);
    ApplyKeepsRows(b, op);
    ApplyKeepsOrders(b, op);
  }

  lemma {:induction false} BooksInvAll(b: Books, opening: map<AgentId, int>, ops: seq<AtomicOp>)
    requires BooksInv(b, opening) && CanApplyAll(b, ops)
    ensures BooksInv(ApplyAll(b, ops), opening)
    decreases |ops|
  {
    if ops == [] {
    } else {
      ApplyKeepsBooks(b, opening, ops[0]);
      BooksInvAll(Apply(b, ops[0]), opening, ops[1..]);
    }
  }

  /** The part of the invariant that is about orders and rows. */
  ghost predicate OrderBooks(b: Books) {
    OrdersConsistent(b) && RowsConsistent(b)
  }

  lemma {:induction false} OrderBooksAll(b: Books, ops: seq<AtomicOp>)
    requires OrderBooks(b) && CanApplyAll(b, ops)
    ensures OrderBooks(ApplyAll(b, ops))
    decreases |ops|
  {
    if ops == [] {
    } else {
      ApplyKeepsOrders(b, ops[0]);
      ApplyKeepsRows(b, ops[0]);
      OrderBooksAll(Apply(b, ops[0]), ops[1..]);
    }
  }

  // ------------------------------------------------- transported to every interleaving

  lemma OrderBooksReached(s: State, t: State)
    requires LockInv(s) && OrderBooks(BooksOf(s.db)) && Reaches(s, t)
    ensures OrderBooks(BooksOf(t.db))
  {
    var trace :| Feasible(s, trace) && Exec(s, trace) == t;
    RunRefines(s, trace);
    OrderBooksAll(BooksOf(s.db), RunOps(s, trace));
  }

  /** Consistent books stay consistent in every run of the protocol. */
  lemma BooksInvRun(s: State, trace: Trace, opening: map<AgentId, int>)
    requires LockInv(s) && BooksInv(BooksOf(s.db), opening) && Feasible(s, trace)
    ensures BooksInv(BooksOf(Exec(s, trace).db), opening)
  {
    RunRefines(s, trace);
    BooksInvAll(BooksOf(s.db), opening, RunOps(s, trace));
  }

  /** The locks alone keep UNIQUE (order_id, txn_type) from ever firing: a session about to
      commit an issue finds no DEBIT of its order. */
  lemma LedgerConstraintNeverFires(s: State, opening: map<AgentId, int>, sid: SessionId)
    requires LockInv(s) && BooksInv(BooksOf(s.db), opening)
    requires sid in s.sessions && s.sessions[sid].pc.Committing? && s.sessions[sid].req.op.Issue?
    ensures !HasTxn(s.db.ledger, s.sessions[sid].req.op.order, Debit)
  {
    var o := s.sessions[sid].req.op.order;
    assert Sound(s.db, s.sessions[sid]);
    assert OrderConsistent(BooksOf(s.db), o);
    if HasTxn(s.db.ledger, o, Debit) {
      var i :| 0 <= i < |s.db.ledger| && s.db.ledger[i].order == o && s.db.ledger[i].kind == Debit;
      DebitRowIsSelected(s.db.ledger, o, i);
    }
  }

  /** Whether the COMMIT of an issue passes: exactly when no other order has the ticket. When
      it does not, nothing at all is committed: no debit, no status, no key row. */
  lemma TicketCollisionCommitsNothing(s: State, opening: map<AgentId, int>, sid: SessionId, env: Env)
    requires LockInv(s) && BooksInv(BooksOf(s.db), opening)
    requires Enabled(s, sid, Run(env))
    requires s.sessions[sid].pc.Committing? && s.sessions[sid].req.op.Issue?
    ensures var o := s.sessions[sid].req.op.order; var s' := Take(s, sid, Run(env));
            if TicketTaken(s.db.orders, o, TicketNumber(o))
            then s'.db == s.db && s'.sessions[sid].pc == Unwinding(DatabaseError, false)
            else o in s'.db.orders && s'.db.orders[o].status == Issued && s.db.orders[o].status == Booked
  {
    LedgerConstraintNeverFires(s, opening, sid);
    assert Sound(s.db, s.sessions[sid]);
    assert OrderConsistent(BooksOf(s.db), s.sessions[sid].req.op.order);
  }

  /** A service that opens: agents with some balance, and no order yet. */
  predicate Opens(s: State) {
    s.sessions == map[] && s.db.orders == map[] && s.db.ledger == [] && s.db.history == []
  }

  function Balances(db: Db): map<AgentId, int> {
    map a | a in db.agents :: db.agents[a].balance
  }

  lemma OpenRun(s: State, trace: Trace)
    requires Opens(s) && Feasible(s, trace)
    ensures LockInv(Exec(s, trace)) && BooksInv(BooksOf(Exec(s, trace).db), Balances(s.db))
  {
    OpeningBooks(s.db.agents);
    BooksInvRun(s, trace, Balances(s.db));
    LockInvRun(s, trace);
  }

  /** In every run of a service that opens, balances and ledger agree: opening minus debits, the
      last balance_after, the links, and the total of the ISSUED orders. A balance that opens
      non-negative stays so. */
  lemma BalanceAccountsForIssuedOrders(s: State, trace: Trace, a: AgentId)
    requires Opens(s) && Feasible(s, trace) && a in s.db.agents
    ensures var db, opening := Exec(s, trace).db, s.db.agents[a].balance;
            && a in db.agents
            && db.agents[a].balance == opening - SumAmounts(DebitsOfAgent(db.ledger, a))
            && db.agents[a].balance == opening - Total(IssuedTotals(db.orders, a))
            && BalancesLinked(opening, DebitsOfAgent(db.ledger, a), db.agents[a].balance)
            && (opening >= 0 ==> db.agents[a].balance >= 0)
  {
    OpenRun(s, trace);
    assert a in Balances(s.db).Keys;
    BalanceAccounts(BooksOf(Exec(s, trace).db), Balances(s.db), a);
  }

  /** The history of an order, row by row: booked by its agent, and then issued by that agent. */
  ghost predicate HistoryTold(b: Books, o: OrderId)
    requires o in b.orders
  {
    && b.orders[o].agent in b.agents
    && var actor := b.agents[b.orders[o].agent].username;
       match b.orders[o].status
       case Booked => HistoryOf(b.history, o) == [Hist(o, None, Booked, actor)]
       case Issued => HistoryOf(b.history, o) == [Hist(o, None, Booked, actor), Hist(o, Some(Booked), Issued, actor)]
       case _ => false
  }

  ghost predicate HistoriesTold(b: Books) {
    forall o :: o in b.orders ==> HistoryTold(b, o)
  }

  lemma ApplyKeepsHistory(b: Books, op: AtomicOp, o: OrderId)
    requires RowsConsistent(b) && CanApply(b, op) && o in Apply(b, op).orders
    requires o in b.orders ==> HistoryTold(b, o)
    ensures HistoryTold(Apply(b, op), o)
  {
    AppendHist(b.history, Apply(b, op).history[|b.history|], o);
    if o !in b.orders {
      NoRowsOfNewOrder(b, o, |b.ledger|, |b.history|);
      assert b.history[..|b.history|] == b.history;
    }
  }

  lemma {:induction false} HistoriesAll(b: Books, opening: map<AgentId, int>, ops: seq<AtomicOp>)
    requires BooksInv(b, opening) && HistoriesTold(b) && CanApplyAll(b, ops)
    ensures HistoriesTold(ApplyAll(b, ops))
    decreases |ops|
  {
    if ops == [] {
    } else {
      ApplyKeepsBooks(b, opening, ops[0]);
      forall o | o in Apply(b, ops[0]).orders ensures HistoryTold(Apply(b, ops[0]), o) {
        ApplyKeepsHistory(b, ops[0], o);
      }
      HistoriesAll(Apply(b, ops[0]), opening, ops[1..]);
    }
  }

  /** In every run of a service that opens, the five marks of an issued order stand or fall
      together, its ticket carries its id, and the history of any order is that of a booking,
      or of a booking and an issue, by its agent. */
  lemma IssuedIff(s: State, trace: Trace, o: OrderId)
    requires Opens(s) && Feasible(s, trace) && o in Exec(s, trace).db.orders
    ensures var db := Exec(s, trace).db; var order, debits := db.orders[o], DebitsOfOrder(db.ledger, o);
            && (order.status == Issued <==> |debits| == 1)
            && (order.status == Issued <==> |IssueMoves(HistoryOf(db.history, o))| == 1)
            && (order.status == Issued <==> order.ticket.Some?)
            && (order.status == Issued <==> order.issuedAt.Some?)
            && (order.status == Issued ==> debits[0].amount == order.total && debits[0].agent == order.agent)
            && (order.ticket.Some? ==> Carries(order.ticket.value, o))
            && HistoryPath(HistoryOf(db.history, o), order.status)
            && HistoryTold(BooksOf(db), o)
  {
    OpenRun(s, trace);
    assert OrderConsistent(BooksOf(Exec(s, trace).db), o);
    TicketCarriesId(o);
    OpeningBooks(s.db.agents);
    RunRefines(s, trace);
    HistoriesAll(BooksOf(s.db), Balances(s.db), RunOps(s, trace));
  }

  /** In every run of a service that opens, no two ISSUED orders share a ticket, so no two have
      ids that agree modulo 10^10. */
  lemma IssuedTicketsDistinct(s: State, trace: Trace, o: OrderId, p: OrderId)
    requires Opens(s) && Feasible(s, trace) && o != p
    requires o in Exec(s, trace).db.orders && Exec(s, trace).db.orders[o].status == Issued
    requires p in Exec(s, trace).db.orders && Exec(s, trace).db.orders[p].status == Issued
    ensures Exec(s, trace).db.orders[o].ticket != Exec(s, trace).db.orders[p].ticket
    ensures o % Pow10(TICKET_DIGITS) != p % Pow10(TICKET_DIGITS)
  {
    OpenRun(s, trace);
    assert OrderConsistent(BooksOf(Exec(s, trace).db), o) && OrderConsistent(BooksOf(Exec(s, trace).db), p);
    TicketsCollideExactly(o, p);
  }
}
