/** The workflow's value types: the order lifecycle enumeration, the pre-order
    record the workflow is started with, and one entry of the compensation log. */
module Models {

  datatype Option<+T> = None | Some(value: T)

  /** The seven order lifecycle states, in declaration order. */
  datatype OrderState =
    | PreOrderPlaced
    | PaymentProcessing
    | AwaitingRelease
    | FulfillmentInProgress
    | AwaitingDelivery
    | Delivered
    | Refunded

  /** The string value the enumeration attaches to each state. */
  function StateValue(s: OrderState): string
  {
    match s
    case PreOrderPlaced => "pre_order_placed"
    case PaymentProcessing => "payment_processing"
    case AwaitingRelease => "awaiting_release"
    case FulfillmentInProgress => "fulfillment_in_progress"
    case AwaitingDelivery => "awaiting_delivery"
    case Delivered => "delivered"
    case Refunded => "refunded"
  }

  /** Position of a state in the declaration order, starting at 0. */
  function Ordinal(s: OrderState): (n: nat)
    ensures n < 7
  {
    match s
    case PreOrderPlaced => 0
    case PaymentProcessing => 1
    case AwaitingRelease => 2
    case FulfillmentInProgress => 3
    case AwaitingDelivery => 4
    case Delivered => 5
    case Refunded => 6
  }

  /** Looks a state up by its string value: the inverse of StateValue. */
  function FromValue(v: string): (r: Option<OrderState>)
    ensures r.Some? ==> StateValue(r.value) == v
    ensures r.None? ==> forall s :: StateValue(s) != v
  {
    if v == "pre_order_placed" then Some(PreOrderPlaced)
    else if v == "payment_processing" then Some(PaymentProcessing)
    else if v == "awaiting_release" then Some(AwaitingRelease)
    else if v == "fulfillment_in_progress" then Some(FulfillmentInProgress)
    else if v == "awaiting_delivery" then Some(AwaitingDelivery)
    else if v == "delivered" then Some(Delivered)
    else if v == "refunded" then Some(Refunded)
    else None
  }

  /** Distinct states carry distinct values, so a value names exactly one state. */
  lemma ValueIdentifiesState(s: OrderState)
    ensures FromValue(StateValue(s)) == Some(s)
    ensures forall t :: StateValue(t) == StateValue(s) ==> t == s
  {
    forall t | StateValue(t) == StateValue(s) ensures t == s {
      assert FromValue(StateValue(t)) == FromValue(StateValue(s));
    }
  }

  /** The declaration order numbers the seven states 0 to 6 without repeats. */
  lemma OrdinalIsInjective(s: OrderState, t: OrderState)
    ensures Ordinal(s) == Ordinal(t) ==> s == t
  {
  }

  /** The pre-order the workflow is started with. Timestamps are whole seconds;
      the amount is only passed on to the payment activity. */
  datatype PreOrder = PreOrder(
    orderId: string,
    customerEmail: string,
    productName: string,
    amount: real,
    paymentMethodId: string,
    releaseDate: int)

  /** One committed forward action that compensation may have to undo. */
  datatype CompensationRecord = CompensationRecord(action: string, resourceId: string)
}
