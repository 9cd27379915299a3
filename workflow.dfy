/** The workflow as the object it is: `PreOrderWorkflow` with the instance
    fields its methods update, and `Runtime`, the abstract workflow runtime
    that executes activities, resolves waits and delivers signals. Every
    method is proved to compute the matching function of module Saga. */
module Workflow {
  import opened Models
  import opened Activities
  import opened Saga

  class PreOrderWorkflow {
    var state: OrderState
    var order: Option<PreOrder>
    var compensationLog: seq<CompensationRecord>
    var cancelRequested: bool
    var startFulfillmentRequested: bool
    var itemPickedConfirmed: bool
    var deliveryConfirmed: bool
    var deadline: Option<int>
    /** The states entered through SetState, in order. */
    ghost var visited: seq<OrderState>

    function CurrentFlags(): Flags
      reads this
    {
      Flags(cancelRequested, startFulfillmentRequested, itemPickedConfirmed, deliveryConfirmed)
    }

    /** The instance fields as a value. */
    ghost function Model(): WorkflowState
      reads this
    {
      WorkflowState(state, visited, order, compensationLog, CurrentFlags(), deadline)
    }

    /** The instance fields together with the runtime's state. */
    ghost function WorldWith(rt: Runtime): World
      reads this, rt
    {
      World(Model(), rt.Model())
    }

    constructor ()
      ensures Model() == INITIAL
    {
      state := PreOrderPlaced;
      order := None;
      compensationLog := [];
      cancelRequested, startFulfillmentRequested := false, false;
      itemPickedConfirmed, deliveryConfirmed := false, false;
      deadline := None;
      visited := [];
    }

    // -------------------------------------------------------------------------
    // The run method
    // -------------------------------------------------------------------------

    /** The run method. Its five phases are the methods below, each proved
        against the phase function of the same name. */
    method Run(rt: Runtime, o: PreOrder, now: int) returns (r: RunResult)
      modifies this, rt
      ensures WorldWith(rt) == Saga.Run(old(WorldWith(rt)), o, now).w
      ensures r == Saga.Run(old(WorldWith(rt)), o, now).result
    {
      var finished := RunPayment(rt, o);
      if finished.Some? {
        return finished.value;
      }
      finished := RunReservation(rt, o);
      if finished.Some? {
        return finished.value;
      }
      finished := RunRelease(rt, o, now);
      if finished.Some? {
        return finished.value;
      }
      r := RunFulfilment(rt, o);
    }

    /** Payment processing: a failure of the charge or of the confirmation
        that follows it returns `payment_failed`. */
    method RunPayment(rt: Runtime, o: PreOrder) returns (finished: Option<RunResult>)
      modifies this, rt
      ensures Ended(PaymentPhase(old(WorldWith(rt)), o), WorldWith(rt), finished)
    {
      order := Some(o);
      SetState(PaymentProcessing);
      var charged := rt.ExecuteActivity(this, ChargePayment(o.paymentMethodId, o.amount, o.orderId),
                                        ACTIVITY_TIMEOUT, STANDARD_RETRY);
      if charged.Pending? {
        return Some(Suspended);
      } else if charged.Error? {
        return Some(PaymentFailed(o.orderId, charged.reason));
      }
      RecordCompensation("payment_charged", charged.value);
      var confirmed := Notify(rt, PreOrderConfirmed);
      if confirmed.Pending? {
        return Some(Suspended);
      } else if confirmed.Error? {
        return Some(PaymentFailed(o.orderId, confirmed.reason));
      }
      return None;
    }

    /** Inventory reservation: a failure is compensated. */
    method RunReservation(rt: Runtime, o: PreOrder) returns (finished: Option<RunResult>)
      requires order.Some?
      modifies this, rt
      ensures Ended(ReservePhase(old(WorldWith(rt)), o), WorldWith(rt), finished)
    {
      var reserved := rt.ExecuteActivity(this, ReserveInventory(o.orderId, o.productName),
                                         ACTIVITY_TIMEOUT, STANDARD_RETRY);
      if reserved.Pending? {
        return Some(Suspended);
      } else if reserved.Error? {
        var undone := Compensate(rt);
        return Some(RefundResult(undone, o.orderId, reserved.reason));
      }
      RecordCompensation("inventory_reserved", reserved.value);
      return None;
    }

    /** Pending until the release date plus the grace period; cancel is
        checked before the timeout. */
    method RunRelease(rt: Runtime, o: PreOrder, now: int) returns (finished: Option<RunResult>)
      requires order.Some?
      modifies this, rt
      ensures Ended(ReleasePhase(old(WorldWith(rt)), o, now), WorldWith(rt), finished)
    {
      SetState(AwaitingRelease);
      deadline := Some(o.releaseDate + GRACE_PERIOD);
      var waitDuration := o.releaseDate + GRACE_PERIOD - now;
      if waitDuration <= 0 {
        var undone := Compensate(rt);
        return Some(RefundResult(undone, o.orderId, DEADLINE_PASSED));
      }
      var timedOut := false;
      var waited := rt.WaitCondition(this, StartOrCancel, Some(waitDuration));
      assert ReleasePhase(old(WorldWith(rt)), o, now) == Decide(Step(WorldWith(rt), waited), o);
      if waited == StillWaiting {
        return Some(Suspended);
      } else if waited == TimedOut {
        timedOut := true;
      }
      if cancelRequested {
        var undone := Compensate(rt);
        return Some(RefundResult(undone, o.orderId, CANCELLED_BY_CUSTOMER));
      }
      if timedOut {
        var undone := Compensate(rt);
        return Some(RefundResult(undone, o.orderId, DEADLINE_MISSED));
      }
      return None;
    }

    /** Fulfillment, then the pick-up phase. Nothing from here on reads
        `cancelRequested` or compensates. */
    method RunFulfilment(rt: Runtime, o: PreOrder) returns (r: RunResult)
      requires order.Some?
      modifies this, rt
      ensures WorldWith(rt) == FulfilmentPhase(old(WorldWith(rt)), o).w
      ensures r == FulfilmentPhase(old(WorldWith(rt)), o).result
    {
      SetState(FulfillmentInProgress);
      var created := rt.ExecuteActivity(this, CreateFulfillment(o.orderId), ACTIVITY_TIMEOUT, ServerDefault);
      if created.Pending? {
        return Suspended;
      } else if created.Error? {
        return Failed(created.reason);
      }
      var fulfillmentId := created.value;
      RecordCompensation("fulfillment_created", fulfillmentId);
      r := RunPickup(rt, o, fulfillmentId);
    }

    /** The pick-up request, the reminder loop and what follows it. */
    method RunPickup(rt: Runtime, o: PreOrder, fulfillmentId: string) returns (r: RunResult)
      requires order.Some?
      modifies this, rt
      ensures WorldWith(rt) == PickupPhase(old(WorldWith(rt)), o, fulfillmentId).w
      ensures r == PickupPhase(old(WorldWith(rt)), o, fulfillmentId).result
    {
      var pickup := rt.ExecuteActivity(this, RequestPickup(fulfillmentId), ACTIVITY_TIMEOUT, ServerDefault);
      if pickup.Pending? {
        return Suspended;
      } else if pickup.Error? {
        return Failed(pickup.reason);
      }
      var prepared := Notify(rt, OrderBeingPrepared);
      if prepared.Pending? {
        return Suspended;
      } else if prepared.Error? {
        return Failed(prepared.reason);
      }
      ghost var loopEntry := WorldWith(rt);
      var reminderCount: nat := 0;
      while !itemPickedConfirmed
        invariant order == loopEntry.saga.order
        invariant AwaitPickup(WorldWith(rt), reminderCount) == AwaitPickup(loopEntry, 0)
        decreases |rt.deliveries|
      {
        var waited := rt.WaitCondition(this, Picked, Some(REMINDER_INTERVAL));
        if waited == StillWaiting {
          return Suspended;
        } else if waited == TimedOut {
          reminderCount := reminderCount + 1;
          var sent := rt.ExecuteActivity(this, SendNotification(PARTNER_EMAIL, PickUpReminder(reminderCount)),
                                         NOTIFICATION_TIMEOUT, ServerDefault);
          if sent.Pending? {
            return Suspended;
          } else if sent.Error? {
            return Failed(sent.reason);
          }
        }
      }
      r := RunDelivery(rt, o);
    }

    /** Delivery: waits without timeout for the confirmation. */
    method RunDelivery(rt: Runtime, o: PreOrder) returns (r: RunResult)
      requires order.Some?
      modifies this, rt
      ensures WorldWith(rt) == DeliveryPhase(old(WorldWith(rt)), o).w
      ensures r == DeliveryPhase(old(WorldWith(rt)), o).result
    {
      SetState(AwaitingDelivery);
      var pickedUp := Notify(rt, ItemPickedUp);
      if pickedUp.Pending? {
        return Suspended;
      } else if pickedUp.Error? {
        return Failed(pickedUp.reason);
      }
      var confirmed := rt.WaitCondition(this, DeliveryConfirmed, None);
      if confirmed == StillWaiting {
        return Suspended;
      }
      SetState(Delivered);
      var completed := Notify(rt, OrderCompleted);
      if completed.Pending? {
        return Suspended;
      } else if completed.Error? {
        return Failed(completed.reason);
      }
      return Completed(o.orderId);
    }

    // -------------------------------------------------------------------------
    // Signal handlers
    // -------------------------------------------------------------------------

    method StartFulfillment()
      modifies this
      ensures Model() == old(Model()).(flags := Signalled(old(Model()).flags, Signal.StartFulfillment))
    {
      startFulfillmentRequested := true;
    }

    method CancelOrder()
      modifies this
      ensures Model() == old(Model()).(flags := Signalled(old(Model()).flags, Signal.CancelOrder))
    {
      cancelRequested := true;
    }

    method ItemPicked()
      modifies this
      ensures Model() == old(Model()).(flags := Signalled(old(Model()).flags, Signal.ItemPicked))
    {
      itemPickedConfirmed := true;
    }

    method ConfirmDelivery()
      modifies this
      ensures Model() == old(Model()).(flags := Signalled(old(Model()).flags, Signal.ConfirmDelivery))
    {
      deliveryConfirmed := true;
    }

    // -------------------------------------------------------------------------
    // Queries
    // -------------------------------------------------------------------------

    /** The status query: the order id (absent before `run` stores the order)
        and the string value of the current state. */
    function GetStatus(): (s: Status)
      reads this
      ensures s.orderId.Some? <==> order.Some?
      ensures order.Some? ==> s.orderId.value == order.value.orderId
      ensures FromValue(s.state) == Some(state)
    {
      ValueIdentifiesState(state);
      Status(if order.Some? then Some(order.value.orderId) else None, StateValue(state))
    }

    /** The compensation-log query: one dictionary with the keys `action` and
        `resource_id` per log entry, in log order. */
    function GetCompensationLog(): (entries: seq<map<string, string>>)
      reads this
      ensures |entries| == |compensationLog|
      ensures forall i :: 0 <= i < |entries| ==>
                entries[i].Keys == {"action", "resource_id"} && EntryRecord(entries[i]) == compensationLog[i]
    {
      seq(|compensationLog|, i requires 0 <= i < |compensationLog| reads this =>
        map["action" := compensationLog[i].action, "resource_id" := compensationLog[i].resourceId])
    }

    /** The deadline query: the deadline, absent until it is set. */
    function GetDeadlineInfo(): (info: DeadlineInfo)
      reads this
      ensures info.deadline.Some? <==> deadline.Some?
      ensures deadline.Some? ==> info.deadline.value == deadline.value
    {
      DeadlineInfo(deadline)
    }

    // -------------------------------------------------------------------------
    // Helpers
    // -------------------------------------------------------------------------

    method SetState(newState: OrderState)
      modifies this
      ensures Model() == Saga.SetState(old(Model()), newState)
    {
      state := newState;
      visited := visited + [newState];
    }

    method RecordCompensation(action: string, resourceId: string)
      modifies this
      ensures Model() == Saga.RecordCompensation(old(Model()), action, resourceId)
    {
      compensationLog := compensationLog + [CompensationRecord(action, resourceId)];
    }

    method Notify(rt: Runtime, notice: Notice) returns (o: Outcome<string>)
      requires order.Some?
      modifies this, rt
      ensures WorldWith(rt) == Saga.Notify(old(WorldWith(rt)), notice).w
      ensures o == Saga.Notify(old(WorldWith(rt)), notice).out
    {
      o := rt.ExecuteActivity(this, SendNotification(order.value.customerEmail, notice),
                              NOTIFICATION_TIMEOUT, ServerDefault);
    }

    /** Saga compensation: REFUNDED first, then the log in reverse, then one
        notification. */
    method Compensate(rt: Runtime) returns (o: Outcome<()>)
      requires order.Some?
      modifies this, rt
      ensures WorldWith(rt) == Saga.Compensate(old(WorldWith(rt))).w
      ensures o == Saga.Compensate(old(WorldWith(rt))).out
    {
      SetState(Refunded);
      ghost var entered := WorldWith(rt);
      var i := |compensationLog|;
      assert compensationLog[..i] == compensationLog;
      while i > 0
        invariant 0 <= i <= |compensationLog|
        invariant compensationLog == entered.saga.log && order == entered.saga.order
        invariant Undo(WorldWith(rt), compensationLog[..i]) == Undo(entered, entered.saga.log)
        decreases i
      {
        assert compensationLog[..i][..i - 1] == compensationLog[..i - 1];
        i := i - 1;
        var record := compensationLog[i];
        var activity := Compensation(record);
        if activity.Some? {
          var undone := rt.ExecuteActivity(this, activity.value, ACTIVITY_TIMEOUT, COMPENSATION_RETRY);
          if undone.Pending? {
            return Pending;
          } else if undone.Error? {
            return Error(undone.reason);
          }
        }
      }
      var notified := Notify(rt, OrderRefunded);
      o := Discard(notified);
    }
  }

  /** A phase method ended as its phase function says: in the same world, and
      with the run's result exactly when the phase returns. */
  ghost predicate Ended(p: Phase, w: World, finished: Option<RunResult>)
  {
    w == p.w && (finished.Some? <==> p.Done?) && (p.Done? ==> finished.value == p.result)
  }

  /** The status query's answer. */
  datatype Status = Status(orderId: Option<string>, state: string)

  /** The deadline query's answer. */
  datatype DeadlineInfo = DeadlineInfo(deadline: Option<int>)

  /** Reads a compensation-log query entry back as a record. */
  function EntryRecord(entry: map<string, string>): CompensationRecord
  {
    CompensationRecord(if "action" in entry then entry["action"] else "",
                       if "resource_id" in entry then entry["resource_id"] else "")
  }

  /** The workflow runtime, reduced to what the workflow observes of it: the
      batches of signals it will still deliver and the activity results it will
      still report, and the trace of the calls made so far. */
  class Runtime {
    var deliveries: seq<seq<Signal>>
    var results: seq<ActivityResult>
    ghost var trace: seq<Event>

    ghost function Model(): Env
      reads this
    {
      Env(deliveries, results, trace)
    }

    constructor (deliveries: seq<seq<Signal>>, results: seq<ActivityResult>)
      ensures Model() == Env(deliveries, results, [])
    {
      this.deliveries := deliveries;
      this.results := results;
      trace := [];
    }

    /** Calls the signal handler for each signal of the batch, in order. */
    method Deliver(wf: PreOrderWorkflow, batch: seq<Signal>)
      modifies wf
      ensures wf.Model() == old(wf.Model()).(flags := SignalledAll(old(wf.Model()).flags, batch))
    {
      for i := 0 to |batch|
        invariant wf.Model() == old(wf.Model()).(flags := SignalledAll(old(wf.Model()).flags, batch[..i]))
      {
        assert batch[..i + 1][..i] == batch[..i];
        match batch[i]
        case StartFulfillment => wf.StartFulfillment();
        case CancelOrder => wf.CancelOrder();
        case ItemPicked => wf.ItemPicked();
        case ConfirmDelivery => wf.ConfirmDelivery();
      }
      assert batch[..|batch|] == batch;
    }

    method ExecuteActivity(wf: PreOrderWorkflow, a: Activity, timeout: nat, retry: RetryPolicy)
      returns (o: Outcome<string>)
      modifies this, wf
      ensures wf.WorldWith(this) == Saga.ExecuteActivity(old(wf.WorldWith(this)), a, timeout, retry).w
      ensures o == Saga.ExecuteActivity(old(wf.WorldWith(this)), a, timeout, retry).out
    {
      if deliveries == [] || results == [] {
        o := Pending;
      } else {
        var batch := deliveries[0];
        var result := results[0];
        deliveries, results := deliveries[1..], results[1..];
        Deliver(wf, batch);
        o := FromResult(result);
      }
      trace := trace + [Called(a, timeout, retry, wf.state, o)];
    }

    method WaitCondition(wf: PreOrderWorkflow, c: Condition, timeout: Option<int>) returns (o: WaitOutcome)
      modifies this, wf
      ensures wf.WorldWith(this) == Saga.WaitCondition(old(wf.WorldWith(this)), c, timeout).w
      ensures o == Saga.WaitCondition(old(wf.WorldWith(this)), c, timeout).out
    {
      if Holds(c, wf.CurrentFlags()) {
        o := Satisfied;
      } else if deliveries == [] {
        o := StillWaiting;
      } else {
        var batch := deliveries[0];
        deliveries := deliveries[1..];
        Deliver(wf, batch);
        o := if Holds(c, wf.CurrentFlags()) then Satisfied
             else if timeout.Some? then TimedOut else StillWaiting;
      }
      trace := trace + [Waited(c, timeout, o, wf.state)];
    }
  }
}
