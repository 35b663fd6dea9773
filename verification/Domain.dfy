/** The status values and pure rules of the domain package: the order, delivery
    and inventory transition tables, the release reasons and VND arithmetic. */
module Domain {
  import opened Results

  datatype OrderStatus =
    | PendingPayment
    | PaymentReview
    | Paid
    | Reserving
    | Delivering
    | Delivered
    | Expired
    | Cancelled
    | OutOfStock
    | DeliveryFailed
    | Refunded

  function OrderSuccessors(from: OrderStatus): set<OrderStatus> {
    match from
    case PendingPayment => {Paid, PaymentReview, Expired, Cancelled}
    case PaymentReview => {Paid, Refunded, Cancelled}
    case Paid => {Reserving, PaymentReview}
    case Reserving => {Delivering, OutOfStock}
    case Delivering => {Delivered, DeliveryFailed}
    case Delivered => {Refunded}
    case Expired => {PaymentReview}
    case OutOfStock => {Reserving, Refunded}
    case DeliveryFailed => {Delivering, Refunded}
    case Cancelled => {}
    case Refunded => {}
  }

  predicate CanTransitionOrder(from: OrderStatus, to: OrderStatus) {
    from != to && to in OrderSuccessors(from)
  }

  /** The customer may only cancel an order that still waits for its payment. */
  predicate CustomerMayMove(from: OrderStatus, to: OrderStatus) {
    from == PendingPayment && to == Cancelled
  }

  /** Orders that were paid and handed to the delivery queue. */
  predicate Fulfilling(status: OrderStatus) {
    status in {Delivering, Delivered, DeliveryFailed}
  }

  /** What a send, or a failure before it, is known to have done. */
  datatype ResultClass = Success | Retryable | Permanent | Ambiguous

  datatype DeliveryStatus =
    | JobPending
    | JobProcessing
    | JobRetryableFailed
    | JobAmbiguous
    | JobManualReview
    | JobPermanentFailed
    | JobCompleted
    | JobCancelled

  predicate AutomaticallyClaimable(status: DeliveryStatus) {
    status == JobPending || status == JobRetryableFailed
  }

  predicate CanTransitionDelivery(from: DeliveryStatus, to: DeliveryStatus, manual: bool) {
    from != to &&
    match from
    case JobPending => to == JobProcessing
    case JobRetryableFailed => to == JobProcessing
    case JobProcessing =>
      to in {JobCompleted, JobRetryableFailed, JobAmbiguous, JobPermanentFailed, JobManualReview}
    case JobAmbiguous => manual && to in {JobPending, JobCompleted, JobCancelled}
    case JobManualReview => manual && to in {JobPending, JobCompleted, JobCancelled}
    case JobPermanentFailed => manual && to in {JobPending, JobCancelled}
    case JobCompleted => false
    case JobCancelled => false
  }

  datatype ReleaseReason = ReleaseCancelled | ReleaseExpired | ReleaseRefunded | ReleaseOutOfStock

  /** The only safe reason to free the inventory of an order, if there is one. */
  function ReleaseReasonForOrder(status: OrderStatus): Option<ReleaseReason> {
    match status
    case Cancelled => Some(ReleaseCancelled)
    case Expired => Some(ReleaseExpired)
    case Refunded => Some(ReleaseRefunded)
    case OutOfStock => Some(ReleaseOutOfStock)
    case _ => None
  }

  const MAX_INT64: int := 0x7FFF_FFFF_FFFF_FFFF

  /** Money.Multiply: the quantity is compared with the truncated quotient
      MaxInt64 / m, so that the product itself is never formed when too large. */
  function Multiply(price: int, quantity: int): Result<int> {
    if price < 0 then Err(InvalidMoney)
    else if quantity <= 0 then Err(InvalidQuantity)
    else if price != 0 && quantity > MAX_INT64 / price then Err(MoneyOverflow)
    else Ok(price * quantity)
  }

  /** The division test is exact: a product is refused if and only if it does
      not fit in 64 bits. */
  lemma MultiplyExact(price: int, quantity: int)
    requires 0 <= price && 0 < quantity
    ensures Multiply(price, quantity) ==
            if price * quantity <= MAX_INT64 then Ok(price * quantity) else Err(MoneyOverflow)
  {
    if price != 0 {
      var q := MAX_INT64 / price;
      assert MAX_INT64 == q * price + MAX_INT64 % price;
      if quantity <= q {
        assert price * quantity <= price * q;
      } else {
        assert price * quantity >= price * (q + 1);
      }
    }
  }
}
