/** The interface of the external activities the workflow invokes. Only their
    names, arguments and results matter here: what they do is up to the
    collaborator and reaches the model as an input outcome. */
module Activities {
  import opened Models

  /** What a notification says. Message texts are not modelled; the reminder
      keeps its number, which is part of its subject line. */
  datatype Notice =
    | PreOrderConfirmed
    | OrderBeingPrepared
    | PickUpReminder(number: nat)
    | ItemPickedUp
    | OrderCompleted
    | OrderRefunded

  /** One activity invocation with its arguments. */
  datatype Activity =
    | ChargePayment(paymentMethodId: string, amount: real, orderId: string)
    | RefundPayment(resourceId: string)
    | ReserveInventory(orderId: string, productName: string)
    | ReleaseInventory(resourceId: string)
    | CreateFulfillment(orderId: string)
    | CancelFulfillment(resourceId: string)
    | RequestPickup(fulfillmentId: string)
    | SendNotification(recipient: string, notice: Notice)

  /** The name under which the activity is registered and invoked. */
  function Name(a: Activity): string
  {
    match a
    case ChargePayment(_, _, _) => "charge_payment"
    case RefundPayment(_) => "refund_payment"
    case ReserveInventory(_, _) => "reserve_inventory"
    case ReleaseInventory(_) => "release_inventory"
    case CreateFulfillment(_) => "create_fulfillment"
    case CancelFulfillment(_) => "cancel_fulfillment"
    case RequestPickup(_) => "request_pickup"
    case SendNotification(_, _) => "send_notification"
  }

  /** The activities that undo a forward action. */
  predicate IsCompensation(a: Activity)
  {
    a.RefundPayment? || a.ReleaseInventory? || a.CancelFulfillment?
  }

  /** The retry policy an invocation was scheduled with. ServerDefault stands
      for an invocation that names no policy of its own. */
  datatype RetryPolicy =
    | ServerDefault
    | Policy(maximumAttempts: nat, initialInterval: nat, maximumInterval: Option<nat>)

  /** What an activity finally reports once its retries are over: the identifier
      in its result, or the reason it failed. */
  datatype ActivityResult = Success(value: string) | Failure(reason: string)
}
