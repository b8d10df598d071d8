/** The domain enumerations and the order state machine (app/domain/enums.py). */
module Enums {
  datatype OrderStatus = Booked | Issued | Cancelled | OrderFailed
  datatype TxnType = Debit | Credit | Refund
  datatype PassengerType = Adult | Child | Infant
  datatype KeyStatus = Locked | Completed | KeyFailed

  /** ALLOWED_ORDER_TRANSITIONS: every status but BOOKED is terminal. */
  function AllowedTransitions(status: OrderStatus): set<OrderStatus> {
    match status
    case Booked => {Issued, Cancelled, OrderFailed}
    case Issued => {}
    case Cancelled => {}
    case OrderFailed => {}
  }

  /** Only a booked order moves, and to any other status. */
  lemma OnlyBookedMoves(from: OrderStatus, to: OrderStatus)
    ensures to in AllowedTransitions(from) <==> from == Booked && to != Booked
  {
  }
}
