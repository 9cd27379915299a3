/** The pre-order saga as functions: the workflow's fields as a record, the
    runtime it runs on as a record of what the runtime still has to report, and
    one function per step of the workflow. The classes in module Workflow are
    proved to compute exactly these functions; the property modules
    are stated about them. */
module Saga {
  import opened Models
  import opened Activities

  // ---------------------------------------------------------------------------
  // Constants of the workflow
  // ---------------------------------------------------------------------------

  /** The grace period after the release date: one week, in seconds. */
  const GRACE_PERIOD: int := 7 * 24 * 60 * 60
  /** Interval between pick-up reminders, in seconds. */
  const REMINDER_INTERVAL: int := 20
  /** Start-to-close timeout of the payment, inventory, fulfillment, pick-up and
      compensating activities, in seconds. */
  const ACTIVITY_TIMEOUT: nat := 30
  /** Start-to-close timeout of a notification, in seconds. */
  const NOTIFICATION_TIMEOUT: nat := 10
  /** Retry policy of the payment charge and the inventory reservation. */
  const STANDARD_RETRY: RetryPolicy := Policy(3, 2, None)
  /** Retry policy of the compensating activities. */
  const COMPENSATION_RETRY: RetryPolicy := Policy(100, 1, Some(30))
  /** Recipient of the pick-up reminders. */
  const PARTNER_EMAIL: string := "partner@example.com"

  const DEADLINE_PASSED: string := "Release date + 1 week has passed"
  const CANCELLED_BY_CUSTOMER: string := "Order cancelled by customer"
  const DEADLINE_MISSED: string := "Fulfillment not initiated by deadline"

  /** The compensation map: forward action to the name of its compensating activity. */
  const COMPENSATION_MAP: map<string, string> := map[
    "payment_charged" := "refund_payment",
    "inventory_reserved" := "release_inventory",
    "fulfillment_created" := "cancel_fulfillment"]

  // ---------------------------------------------------------------------------
  // Signals
  // ---------------------------------------------------------------------------

  datatype Signal = StartFulfillment | CancelOrder | ItemPicked | ConfirmDelivery

  /** The four signal flags. */
  datatype Flags = Flags(
    cancelRequested: bool,
    startFulfillmentRequested: bool,
    itemPickedConfirmed: bool,
    deliveryConfirmed: bool)

  const NO_SIGNALS: Flags := Flags(false, false, false, false)

  /** The effect of one signal handler: it sets its own flag. */
  function Signalled(f: Flags, s: Signal): Flags
  {
    match s
    case StartFulfillment => f.(startFulfillmentRequested := true)
    case CancelOrder => f.(cancelRequested := true)
    case ItemPicked => f.(itemPickedConfirmed := true)
    case ConfirmDelivery => f.(deliveryConfirmed := true)
  }

  /** The effect of delivering a batch of signals, in order. */
  function SignalledAll(f: Flags, batch: seq<Signal>): Flags
    decreases |batch|
  {
    if batch == [] then f
    else Signalled(SignalledAll(f, batch[..|batch| - 1]), batch[|batch| - 1])
  }

  /** No flag that was set is cleared. */
  predicate FlagsGrow(f: Flags, g: Flags)
  {
    (f.cancelRequested ==> g.cancelRequested) &&
    (f.startFulfillmentRequested ==> g.startFulfillmentRequested) &&
    (f.itemPickedConfirmed ==> g.itemPickedConfirmed) &&
    (f.deliveryConfirmed ==> g.deliveryConfirmed)
  }

  /** The predicates the workflow waits on. */
  datatype Condition = StartOrCancel | Picked | DeliveryConfirmed

  predicate Holds(c: Condition, f: Flags)
  {
    match c
    case StartOrCancel => f.startFulfillmentRequested || f.cancelRequested
    case Picked => f.itemPickedConfirmed
    case DeliveryConfirmed => f.deliveryConfirmed
  }

  // ---------------------------------------------------------------------------
  // The runtime and the workflow state
  // ---------------------------------------------------------------------------

  /** How a call into the runtime ended: with a value, with an exception
      carrying a reason, or not yet, because the runtime has nothing more to
      report and the workflow stays suspended at this call. */
  datatype Outcome<+T> = Value(value: T) | Error(reason: string) | Pending

  /** How a wait ended. */
  datatype WaitOutcome = Satisfied | TimedOut | StillWaiting

  /** One entry of the trace of runtime calls: the call, and the order state at
      the time it was made. */
  datatype Event =
    | Called(activity: Activity, timeout: nat, retry: RetryPolicy, state: OrderState, outcome: Outcome<string>)
    | Waited(condition: Condition, waitTimeout: Option<int>, waitOutcome: WaitOutcome, state: OrderState)

  /** What the runtime still has to report, and what it has been asked so far.
      Each suspension where the workflow waits for the runtime (an activity
      call, or a wait whose condition does not already hold) takes the next
      batch of `deliveries`: the signals that arrived meanwhile. Each activity
      call also takes the next entry of `results`. */
  datatype Env = Env(deliveries: seq<seq<Signal>>, results: seq<ActivityResult>, trace: seq<Event>)

  /** The workflow's fields. `visited` lists the states entered, in order. */
  datatype WorkflowState = WorkflowState(
    state: OrderState,
    visited: seq<OrderState>,
    order: Option<PreOrder>,
    log: seq<CompensationRecord>,
    flags: Flags,
    deadline: Option<int>)

  /** The state of a fresh workflow instance. */
  const INITIAL: WorkflowState := WorkflowState(PreOrderPlaced, [], None, [], NO_SIGNALS, None)

  datatype World = World(saga: WorkflowState, env: Env)

  /** A world after a call together with what the call returned. */
  datatype Step<+T> = Step(w: World, out: T)

  /** What the run method returns. `Failed` is an activity failure that no
      handler catches; `Suspended` is a run still blocked when the runtime has
      nothing more to report. */
  datatype RunResult =
    | PaymentFailed(orderId: string, reason: string)
    | Refund(orderId: string, reason: string)
    | Completed(orderId: string)
    | Failed(reason: string)
    | Suspended

  /** A phase of the run either hands on to the next one or returns. */
  datatype Phase = Next(w: World) | Done(w: World, result: RunResult)

  // ---------------------------------------------------------------------------
  // State helpers
  // ---------------------------------------------------------------------------

  /** The states of the happy path after PRE_ORDER_PLACED, in the order they are entered. */
  const HAPPY_PATH: seq<OrderState> :=
    [PaymentProcessing, AwaitingRelease, FulfillmentInProgress, AwaitingDelivery, Delivered]

  /** `after` is `before` with one more record for `action`. */
  predicate Appended(before: seq<CompensationRecord>, after: seq<CompensationRecord>, action: string)
  {
    |after| == |before| + 1 && after[..|before|] == before && after[|before|].action == action
  }

  function SetState(s: WorkflowState, newState: OrderState): WorkflowState
  {
    s.(state := newState, visited := s.visited + [newState])
  }

  function RecordCompensation(s: WorkflowState, action: string, resourceId: string): WorkflowState
  {
    s.(log := s.log + [CompensationRecord(action, resourceId)])
  }

  function Deliver(w: World, batch: seq<Signal>): World
  {
    w.(saga := w.saga.(flags := SignalledAll(w.saga.flags, batch)))
  }

  // ---------------------------------------------------------------------------
  // Runtime calls
  // ---------------------------------------------------------------------------

  function FromResult(r: ActivityResult): (o: Outcome<string>)
  {
    match r
    case Success(v) => Value(v)
    case Failure(e) => Error(e)
  }

  /** Invokes an activity and resumes with its final result. */
  function ExecuteActivity(w: World, a: Activity, timeout: nat, retry: RetryPolicy): (s: Step<Outcome<string>>)
    ensures s.w.saga == w.saga.(flags := s.w.saga.flags)
    ensures s.out.Pending? <==> (w.env.deliveries == [] || w.env.results == [])
    ensures s.out.Pending? ==> s.w == w.(env := s.w.env) && s.w.env == w.env.(trace := s.w.env.trace)
    ensures !s.out.Pending? ==>
              s.out == FromResult(w.env.results[0]) &&
              s.w.saga.flags == SignalledAll(w.saga.flags, w.env.deliveries[0]) &&
              s.w.env.deliveries == w.env.deliveries[1..] &&
              s.w.env.results == w.env.results[1..]
    ensures s.w.env.trace == w.env.trace + [Called(a, timeout, retry, w.saga.state, s.out)]
  {
    var env := w.env.(trace := w.env.trace + [Called(a, timeout, retry, w.saga.state,
                        if w.env.deliveries == [] || w.env.results == [] then Pending
                        else FromResult(w.env.results[0]))]);
    if w.env.deliveries == [] || w.env.results == [] then
      Step(w.(env := env), Pending)
    else
      Step(Deliver(World(w.saga, env.(deliveries := env.deliveries[1..], results := env.results[1..])),
                   w.env.deliveries[0]),
           FromResult(w.env.results[0]))
  }

  /** Waits until the condition holds, or until the timeout (if any) elapses. */
  function WaitCondition(w: World, c: Condition, timeout: Option<int>): (s: Step<WaitOutcome>)
    ensures s.w.saga == w.saga.(flags := s.w.saga.flags)
    ensures s.w.env.results == w.env.results
    ensures s.w.env.trace == w.env.trace + [Waited(c, timeout, s.out, w.saga.state)]
    ensures s.out == Satisfied <==> Holds(c, s.w.saga.flags)
    ensures s.out == TimedOut ==> timeout.Some?
    ensures Holds(c, w.saga.flags) ==> s.w.saga == w.saga && s.w.env.deliveries == w.env.deliveries
    ensures !Holds(c, w.saga.flags) ==>
              if w.env.deliveries == [] then s.out == StillWaiting && s.w.saga == w.saga && s.w.env.deliveries == []
              else s.w.saga.flags == SignalledAll(w.saga.flags, w.env.deliveries[0]) &&
                   s.w.env.deliveries == w.env.deliveries[1..] &&
                   s.out == (if Holds(c, s.w.saga.flags) then Satisfied
                             else if timeout.Some? then TimedOut else StillWaiting)
  {
    if Holds(c, w.saga.flags) then
      Step(w.(env := w.env.(trace := w.env.trace + [Waited(c, timeout, Satisfied, w.saga.state)])), Satisfied)
    else if w.env.deliveries == [] then
      Step(w.(env := w.env.(trace := w.env.trace + [Waited(c, timeout, StillWaiting, w.saga.state)])), StillWaiting)
    else
      var flags := SignalledAll(w.saga.flags, w.env.deliveries[0]);
      var o := if Holds(c, flags) then Satisfied else if timeout.Some? then TimedOut else StillWaiting;
      Step(World(w.saga.(flags := flags),
                 w.env.(deliveries := w.env.deliveries[1..],
                        trace := w.env.trace + [Waited(c, timeout, o, w.saga.state)])),
           o)
  }

  /** Sends a notification to the customer. */
  function Notify(w: World, n: Notice): (s: Step<Outcome<string>>)
    requires w.saga.order.Some?
  {
    ExecuteActivity(w, SendNotification(w.saga.order.value.customerEmail, n), NOTIFICATION_TIMEOUT, ServerDefault)
  }

  // ---------------------------------------------------------------------------
  // Compensation
  // ---------------------------------------------------------------------------

  /** The compensating activity for a log entry, looked up through the
      compensation map; None for an action the map does not know. */
  function Compensation(r: CompensationRecord): (a: Option<Activity>)
    ensures a.Some? <==> r.action in COMPENSATION_MAP
    ensures a.Some? ==> Name(a.value) == COMPENSATION_MAP[r.action] &&
                        IsCompensation(a.value) && a.value.resourceId == r.resourceId
  {
    if r.action == "payment_charged" then Some(RefundPayment(r.resourceId))
    else if r.action == "inventory_reserved" then Some(ReleaseInventory(r.resourceId))
    else if r.action == "fulfillment_created" then Some(CancelFulfillment(r.resourceId))
    else None
  }

  /** Undoes the given log entries, last entry first, stopping at the first
      compensating call that fails or is still pending. */
  function Undo(w: World, records: seq<CompensationRecord>): (s: Step<Outcome<()>>)
    ensures s.w.saga == w.saga.(flags := s.w.saga.flags)
    decreases |records|
  {
    if records == [] then Step(w, Value(()))
    else
      var rest := records[..|records| - 1];
      match Compensation(records[|records| - 1])
      case None => Undo(w, rest)
      case Some(a) =>
        var undone := ExecuteActivity(w, a, ACTIVITY_TIMEOUT, COMPENSATION_RETRY);
        match undone.out
        case Value(_) => Undo(undone.w, rest)
        case Error(e) => Step(undone.w, Error(e))
        case Pending => Step(undone.w, Pending)
  }

  function Discard(o: Outcome<string>): Outcome<()>
  {
    match o
    case Value(_) => Value(())
    case Error(e) => Error(e)
    case Pending => Pending
  }

  /** Enters REFUNDED, undoes the whole log in reverse and notifies the customer. */
  function Compensate(w: World): (s: Step<Outcome<()>>)
    requires w.saga.order.Some?
    ensures s.w.saga == SetState(w.saga, Refunded).(flags := s.w.saga.flags)
  {
    var entered := w.(saga := SetState(w.saga, Refunded));
    var undone := Undo(entered, entered.saga.log);
    if !undone.out.Value? then undone
    else
      var notified := Notify(undone.w, OrderRefunded);
      Step(notified.w, Discard(notified.out))
  }

  /** Compensates and returns `refunded` with the given reason; a compensation
      that raises ends the run with that failure. */
  function CompensateAndReturn(w: World, order: PreOrder, reason: string): (p: Phase)
    requires w.saga.order.Some?
    ensures p.Done? && p.w.saga.state == Refunded
  {
    var undone := Compensate(w);
    Done(undone.w, RefundResult(undone.out, order.orderId, reason))
  }

  /** The result returned after compensating with the given outcome. */
  function RefundResult(o: Outcome<()>, orderId: string, reason: string): RunResult
  {
    match o
    case Value(_) => Refund(orderId, reason)
    case Error(e) => Failed(e)
    case Pending => Suspended
  }

  // ---------------------------------------------------------------------------
  // The phases of the run
  // ---------------------------------------------------------------------------

  /** Stores the order, enters PAYMENT_PROCESSING, charges the payment and
      confirms the pre-order to the customer. A failure of either call returns
      `payment_failed`. */
  function PaymentPhase(w: World, order: PreOrder): (p: Phase)
    ensures p.w.saga.order == Some(order)
    ensures p.w.saga.state == PaymentProcessing
    ensures p.w.saga.visited == w.saga.visited + [PaymentProcessing]
    ensures p.w.saga.deadline == w.saga.deadline
    ensures p.w.saga.log == w.saga.log || Appended(w.saga.log, p.w.saga.log, "payment_charged")
    ensures p.Next? ==> Appended(w.saga.log, p.w.saga.log, "payment_charged")
    ensures p.Done? ==> p.result.Suspended? || (p.result.PaymentFailed? && p.result.orderId == order.orderId)
  {
    var started := w.(saga := SetState(w.saga.(order := Some(order)), PaymentProcessing));
    var charged := ExecuteActivity(started, ChargePayment(order.paymentMethodId, order.amount, order.orderId),
                                   ACTIVITY_TIMEOUT, STANDARD_RETRY);
    match charged.out
    case Pending => Done(charged.w, Suspended)
    case Error(e) => Done(charged.w, PaymentFailed(order.orderId, e))
    case Value(chargeId) =>
      var recorded := charged.w.(saga := RecordCompensation(charged.w.saga, "payment_charged", chargeId));
      var confirmed := Notify(recorded, PreOrderConfirmed);
      match confirmed.out
      case Pending => Done(confirmed.w, Suspended)
      case Error(e) => Done(confirmed.w, PaymentFailed(order.orderId, e))
      case Value(_) => Next(confirmed.w)
  }

  /** Reserves inventory; a failure is compensated and returns `refunded`. */
  function ReservePhase(w: World, order: PreOrder): (p: Phase)
    requires w.saga.order.Some?
    ensures p.w.saga.order == w.saga.order
    ensures p.w.saga.deadline == w.saga.deadline
    ensures p.Next? ==> p.w.saga.state == w.saga.state && p.w.saga.visited == w.saga.visited &&
                        Appended(w.saga.log, p.w.saga.log, "inventory_reserved")
    ensures p.Done? ==> p.w.saga.log == w.saga.log && !p.result.PaymentFailed? && !p.result.Completed?
    ensures p.Done? ==> (p.result.Suspended? && p.w.saga.state == w.saga.state && p.w.saga.visited == w.saga.visited) ||
                        (p.w.saga.state == Refunded && p.w.saga.visited == w.saga.visited + [Refunded])
  {
    var reserved := ExecuteActivity(w, ReserveInventory(order.orderId, order.productName),
                                    ACTIVITY_TIMEOUT, STANDARD_RETRY);
    match reserved.out
    case Pending => Done(reserved.w, Suspended)
    case Error(e) => CompensateAndReturn(reserved.w, order, e)
    case Value(reservationId) =>
      Next(reserved.w.(saga := RecordCompensation(reserved.w.saga, "inventory_reserved", reservationId)))
  }

  /** Enters AWAITING_RELEASE, sets the deadline to the release date plus the
      grace period, and waits for start-fulfillment or cancel until then. */
  function ReleasePhase(w: World, order: PreOrder, now: int): (p: Phase)
    requires w.saga.order.Some?
    ensures p.w.saga.order == w.saga.order
    ensures p.w.saga.deadline == Some(order.releaseDate + GRACE_PERIOD)
    ensures p.w.saga.log == w.saga.log
    ensures p.Next? ==> p.w.saga.state == AwaitingRelease && p.w.saga.visited == w.saga.visited + [AwaitingRelease]
    ensures p.Done? ==> !p.result.PaymentFailed? && !p.result.Completed?
    ensures p.Done? ==> (p.result.Suspended? && p.w.saga.state == AwaitingRelease &&
                         p.w.saga.visited == w.saga.visited + [AwaitingRelease]) ||
                        (p.w.saga.state == Refunded && p.w.saga.visited == w.saga.visited + [AwaitingRelease, Refunded])
  {
    var entered := w.(saga := SetState(w.saga, AwaitingRelease));
    var deadline := order.releaseDate + GRACE_PERIOD;
    var armed := entered.(saga := entered.saga.(deadline := Some(deadline)));
    if deadline - now <= 0 then
      CompensateAndReturn(armed, order, DEADLINE_PASSED)
    else
      Decide(WaitCondition(armed, StartOrCancel, Some(deadline - now)), order)
  }

  /** The decision after the wait for start-fulfillment or cancel: a cancel
      wins, then a timeout; otherwise the run goes on. */
  function Decide(waited: Step<WaitOutcome>, order: PreOrder): (p: Phase)
    requires waited.w.saga.order.Some?
    ensures p.w.saga.order == waited.w.saga.order
    ensures p.w.saga.deadline == waited.w.saga.deadline && p.w.saga.log == waited.w.saga.log
    ensures p.Next? ==> p.w == waited.w
    ensures p.Done? ==> !p.result.PaymentFailed? && !p.result.Completed?
    ensures p.Done? ==> (p.result.Suspended? && p.w == waited.w) ||
                        (p.w.saga.state == Refunded && p.w.saga.visited == waited.w.saga.visited + [Refunded])
  {
    if waited.out == StillWaiting then Done(waited.w, Suspended)
    else if waited.w.saga.flags.cancelRequested then CompensateAndReturn(waited.w, order, CANCELLED_BY_CUSTOMER)
    else if waited.out == TimedOut then CompensateAndReturn(waited.w, order, DEADLINE_MISSED)
    else Next(waited.w)
  }

  /** The reminder loop: while the item has not been picked up, waits one
      reminder interval for the pick-up signal and, each time the interval
      elapses, sends the partner the next numbered reminder. */
  function AwaitPickup(w: World, reminderCount: nat): (s: Step<Outcome<()>>)
    ensures s.w.saga == w.saga.(flags := s.w.saga.flags)
    ensures s.out.Value? ==> s.w.saga.flags.itemPickedConfirmed
    decreases |w.env.deliveries|
  {
    if w.saga.flags.itemPickedConfirmed then Step(w, Value(()))
    else
      var waited := WaitCondition(w, Picked, Some(REMINDER_INTERVAL));
      match waited.out
      case StillWaiting => Step(waited.w, Pending)
      case Satisfied => AwaitPickup(waited.w, reminderCount)
      case TimedOut =>
        var sent := ExecuteActivity(waited.w, SendNotification(PARTNER_EMAIL, PickUpReminder(reminderCount + 1)),
                                    NOTIFICATION_TIMEOUT, ServerDefault);
        match sent.out
        case Pending => Step(sent.w, Pending)
        case Error(e) => Step(sent.w, Error(e))
        case Value(_) => AwaitPickup(sent.w, reminderCount + 1)
  }

  /** The states of the happy path from FULFILLMENT_IN_PROGRESS on, split
      where the fulfilment phase hands on to the pick-up phase. */
  lemma HappyPathFrom(v: seq<OrderState>)
    ensures v + HAPPY_PATH[2..3] + HAPPY_PATH[3..4] == v + HAPPY_PATH[2..4]
    ensures v + HAPPY_PATH[2..3] + HAPPY_PATH[3..] == v + HAPPY_PATH[2..]
    ensures HAPPY_PATH[2..3] == [FulfillmentInProgress]
  {
    assert HAPPY_PATH[2..3] + HAPPY_PATH[3..4] == HAPPY_PATH[2..4];
    assert HAPPY_PATH[2..3] + HAPPY_PATH[3..] == HAPPY_PATH[2..];
  }

  /** Enters FULFILLMENT_IN_PROGRESS, creates the fulfillment and records it,
      and goes on to the pick-up. */
  function FulfilmentPhase(w: World, order: PreOrder): (p: Phase)
    requires w.saga.order.Some?
    ensures p.Done?
    ensures p.w.saga.order == w.saga.order
    ensures p.w.saga.deadline == w.saga.deadline
    ensures p.w.saga.log == w.saga.log || Appended(w.saga.log, p.w.saga.log, "fulfillment_created")
    ensures !p.result.PaymentFailed? && !p.result.Refund?
    ensures || p.w.saga.visited == w.saga.visited + HAPPY_PATH[2..3]
            || p.w.saga.visited == w.saga.visited + HAPPY_PATH[2..4]
            || p.w.saga.visited == w.saga.visited + HAPPY_PATH[2..]
    ensures p.w.saga.state == p.w.saga.visited[|p.w.saga.visited| - 1]
    ensures p.result.Completed? ==> p.result == Completed(order.orderId) &&
                                    p.w.saga.visited == w.saga.visited + HAPPY_PATH[2..] &&
                                    Appended(w.saga.log, p.w.saga.log, "fulfillment_created")
  {
    var entered := w.(saga := SetState(w.saga, FulfillmentInProgress));
    var created := ExecuteActivity(entered, CreateFulfillment(order.orderId), ACTIVITY_TIMEOUT, ServerDefault);
    match created.out
    case Pending => Done(created.w, Suspended)
    case Error(e) => Done(created.w, Failed(e))
    case Value(fulfillmentId) =>
      var recorded := created.w.(saga := RecordCompensation(created.w.saga, "fulfillment_created", fulfillmentId));
      HappyPathFrom(w.saga.visited);
      assert recorded.saga.visited == w.saga.visited + HAPPY_PATH[2..3];
      assert Appended(w.saga.log, recorded.saga.log, "fulfillment_created");
      PickupPhase(recorded, order, fulfillmentId)
  }

  /** Requests the pick-up of the fulfillment, tells the customer, and runs
      the reminder loop and what follows it. */
  function PickupPhase(w: World, order: PreOrder, fulfillmentId: string): (p: Phase)
    requires w.saga.order.Some?
    ensures p.Done?
    ensures p.w.saga.order == w.saga.order
    ensures p.w.saga.deadline == w.saga.deadline && p.w.saga.log == w.saga.log
    ensures !p.result.PaymentFailed? && !p.result.Refund?
    ensures p.w.saga.visited == w.saga.visited ==> p.w.saga.state == w.saga.state
    ensures || p.w.saga.visited == w.saga.visited
            || p.w.saga.visited == w.saga.visited + HAPPY_PATH[3..4]
            || p.w.saga.visited == w.saga.visited + HAPPY_PATH[3..]
    ensures p.w.saga.visited != w.saga.visited ==> p.w.saga.state == p.w.saga.visited[|p.w.saga.visited| - 1]
    ensures p.result.Completed? ==> p.result == Completed(order.orderId) &&
                                    p.w.saga.visited == w.saga.visited + HAPPY_PATH[3..]
  {
    var pickup := ExecuteActivity(w, RequestPickup(fulfillmentId), ACTIVITY_TIMEOUT, ServerDefault);
    match pickup.out
    case Pending => Done(pickup.w, Suspended)
    case Error(e) => Done(pickup.w, Failed(e))
    case Value(_) =>
      var prepared := Notify(pickup.w, OrderBeingPrepared);
      match prepared.out
      case Pending => Done(prepared.w, Suspended)
      case Error(e) => Done(prepared.w, Failed(e))
      case Value(_) => AfterPickup(AwaitPickup(prepared.w, 0), order)
  }

  /** What follows the reminder loop. */
  function AfterPickup(s: Step<Outcome<()>>, order: PreOrder): (p: Phase)
    requires s.w.saga.order.Some?
    ensures p.Done?
    ensures p.w.saga.order == s.w.saga.order
    ensures p.w.saga.deadline == s.w.saga.deadline && p.w.saga.log == s.w.saga.log
    ensures !p.result.PaymentFailed? && !p.result.Refund?
    ensures p.w.saga.visited == s.w.saga.visited ==> p.w.saga.state == s.w.saga.state
    ensures p.w.saga.visited == s.w.saga.visited || s.out.Value?
    ensures p.w.saga.visited == s.w.saga.visited ||
            p.w.saga.visited == s.w.saga.visited + HAPPY_PATH[3..4] ||
            p.w.saga.visited == s.w.saga.visited + HAPPY_PATH[3..]
    ensures p.w.saga.visited != s.w.saga.visited ==> p.w.saga.state == p.w.saga.visited[|p.w.saga.visited| - 1]
    ensures p.result.Completed? ==> p.result == Completed(order.orderId) &&
                                    p.w.saga.visited == s.w.saga.visited + HAPPY_PATH[3..]
  {
    match s.out
    case Pending => Done(s.w, Suspended)
    case Error(e) => Done(s.w, Failed(e))
    case Value(_) => DeliveryPhase(s.w, order)
  }

  /** Enters AWAITING_DELIVERY, tells the customer, waits without timeout for
      the delivery confirmation, enters DELIVERED and tells the customer. */
  function DeliveryPhase(w: World, order: PreOrder): (p: Phase)
    requires w.saga.order.Some?
    ensures p.Done?
    ensures p.w.saga.order == w.saga.order
    ensures p.w.saga.deadline == w.saga.deadline && p.w.saga.log == w.saga.log
    ensures !p.result.PaymentFailed? && !p.result.Refund?
    ensures p.w.saga.visited == w.saga.visited + HAPPY_PATH[3..4] || p.w.saga.visited == w.saga.visited + HAPPY_PATH[3..]
    ensures p.w.saga.state == p.w.saga.visited[|p.w.saga.visited| - 1]
    ensures p.result.Completed? ==> p.result == Completed(order.orderId) &&
                                    p.w.saga.visited == w.saga.visited + HAPPY_PATH[3..]
  {
    var entered := w.(saga := SetState(w.saga, AwaitingDelivery));
    var pickedUp := Notify(entered, ItemPickedUp);
    match pickedUp.out
    case Pending => Done(pickedUp.w, Suspended)
    case Error(e) => Done(pickedUp.w, Failed(e))
    case Value(_) =>
      var confirmed := WaitCondition(pickedUp.w, DeliveryConfirmed, None);
      if confirmed.out == StillWaiting then Done(confirmed.w, Suspended)
      else
        var delivered := confirmed.w.(saga := SetState(confirmed.w.saga, Delivered));
        var completed := Notify(delivered, OrderCompleted);
        match completed.out
        case Pending => Done(completed.w, Suspended)
        case Error(e) => Done(completed.w, Failed(e))
        case Value(_) => Done(completed.w, Completed(order.orderId))
  }

  /** The whole run, phase after phase. */
  function Run(w: World, order: PreOrder, now: int): (p: Phase)
    ensures p.Done?
    ensures p.w.saga.order == Some(order)
  {
    match PaymentPhase(w, order)
    case Done(w1, r) => Done(w1, r)
    case Next(w1) =>
      match ReservePhase(w1, order)
      case Done(w2, r) => Done(w2, r)
      case Next(w2) =>
        match ReleasePhase(w2, order, now)
        case Done(w3, r) => Done(w3, r)
        case Next(w3) => FulfilmentPhase(w3, order)
  }
}
