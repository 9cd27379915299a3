/** The order lifecycle over whole runs: the states a run enters, the deadline
    it keeps, and what a completed run leaves behind. */
module LifecycleProperties {
  import opened Models
  import opened Activities
  import opened Saga
  import opened SignalProperties
  import opened RunProperties

  /** The sequences of states a run may enter: a non-empty prefix of the happy
      path, or REFUNDED right after PAYMENT_PROCESSING or AWAITING_RELEASE. */
  predicate AllowedPath(v: seq<OrderState>)
  {
    || (1 <= |v| && v <= HAPPY_PATH)
    || v == [PaymentProcessing, Refunded]
    || v == [PaymentProcessing, AwaitingRelease, Refunded]
  }

  /** Every allowed path enters states in declaration order, none twice. */
  lemma AllowedPathIsOrdered(v: seq<OrderState>)
    requires AllowedPath(v)
    ensures forall i, j :: 0 <= i < j < |v| ==> Ordinal(v[i]) < Ordinal(v[j])
  {
    if 1 <= |v| && v <= HAPPY_PATH {
      forall i, j | 0 <= i < j < |v| ensures Ordinal(v[i]) < Ordinal(v[j]) {
        assert v[i] == HAPPY_PATH[i] && v[j] == HAPPY_PATH[j];
      }
    }
  }

  /** What the lifecycle lemma states about a run that ended in phase `p`. */
  ghost predicate Lifecycle(p: Phase, order: PreOrder)
  {
    var v := p.w.saga.visited;
    && p.Done?
    && AllowedPath(v)
    && p.w.saga.state == v[|v| - 1]
    && (p.w.saga.state == Refunded <==> Refunded in v)
    && p.w.saga.deadline == (if AwaitingRelease in v then Some(order.releaseDate + GRACE_PERIOD) else None)
    && (p.result.Completed? ==> v == HAPPY_PATH && p.result == Completed(order.orderId))
    && (p.result.Refund? ==> p.w.saga.state == Refunded && p.result.orderId == order.orderId)
    && (p.result.PaymentFailed? ==> v == [PaymentProcessing] && p.result.orderId == order.orderId)
  }

  /** The run returns from the payment or the reservation phase. */
  lemma EarlyLifecycle(order: PreOrder, deliveries: seq<seq<Signal>>, results: seq<ActivityResult>)
    ensures var p1 := PaymentPhase(Start(deliveries, results), order);
            && (p1.Done? ==> Lifecycle(p1, order))
            && (p1.Next? && ReservePhase(p1.w, order).Done? ==> Lifecycle(ReservePhase(p1.w, order), order))
  {
    var p1 := PaymentPhase(Start(deliveries, results), order);
    PaymentLifecycle(order, deliveries, results);
    if p1.Next? {
      ReserveLifecycle(p1.w, order);
    }
  }

  lemma PaymentLifecycle(order: PreOrder, deliveries: seq<seq<Signal>>, results: seq<ActivityResult>)
    ensures var p1 := PaymentPhase(Start(deliveries, results), order);
            && p1.w.saga.visited == [PaymentProcessing] && p1.w.saga.state == PaymentProcessing
            && p1.w.saga.order.Some? && p1.w.saga.deadline.None?
            && (p1.Done? ==> Lifecycle(p1, order))
  {
    assert [PaymentProcessing] <= HAPPY_PATH;
  }

  lemma ReserveLifecycle(w: World, order: PreOrder)
    requires w.saga.visited == [PaymentProcessing] && w.saga.state == PaymentProcessing
    requires w.saga.order.Some? && w.saga.deadline.None?
    ensures ReservePhase(w, order).Done? ==> Lifecycle(ReservePhase(w, order), order)
  {
    var p2 := ReservePhase(w, order);
    assert [PaymentProcessing] <= HAPPY_PATH;
    assert p2.Done? ==> p2.w.saga.visited == [PaymentProcessing] || p2.w.saga.visited == [PaymentProcessing, Refunded];
  }

  /** The run returns from the release phase. */
  lemma ReleaseLifecycle(w: World, order: PreOrder, now: int)
    requires w.saga.visited == [PaymentProcessing] && w.saga.state == PaymentProcessing
    requires w.saga.order.Some? && w.saga.deadline.None?
    ensures ReleasePhase(w, order, now).Done? ==> Lifecycle(ReleasePhase(w, order, now), order)
  {
    var p3 := ReleasePhase(w, order, now);
    assert [PaymentProcessing, AwaitingRelease] <= HAPPY_PATH;
    assert p3.Done? ==> p3.w.saga.visited == [PaymentProcessing, AwaitingRelease] ||
                        p3.w.saga.visited == [PaymentProcessing, AwaitingRelease, Refunded];
  }

  /** The run goes on to fulfillment. */
  lemma FulfilmentLifecycle(w: World, order: PreOrder)
    requires w.saga.visited == [PaymentProcessing, AwaitingRelease] && w.saga.state == AwaitingRelease
    requires w.saga.order.Some? && w.saga.deadline == Some(order.releaseDate + GRACE_PERIOD)
    ensures Lifecycle(FulfilmentPhase(w, order), order)
  {
    var p4 := FulfilmentPhase(w, order);
    var v := p4.w.saga.visited;
    var n := |v| - 2;
    assert v == HAPPY_PATH[..2 + n];
    assert v[1] == AwaitingRelease && Refunded !in v;
  }

  /** A run enters its states along an allowed path, in declaration order, and
      is in the last state it entered; it is in REFUNDED exactly when it
      entered REFUNDED; its deadline is the release date plus the grace period
      once it entered AWAITING_RELEASE and unset before; a completed run
      entered the whole happy path; a `payment_failed` run entered
      PAYMENT_PROCESSING only. */
  lemma RunFollowsLifecycle(order: PreOrder, now: int, deliveries: seq<seq<Signal>>, results: seq<ActivityResult>)
    ensures Lifecycle(Run(Start(deliveries, results), order, now), order)
    ensures var v := Run(Start(deliveries, results), order, now).w.saga.visited;
            forall i, j :: 0 <= i < j < |v| ==> Ordinal(v[i]) < Ordinal(v[j])
  {
    var w0 := Start(deliveries, results);
    var p := Run(w0, order, now);
    EarlyLifecycle(order, deliveries, results);
    var p1 := PaymentPhase(w0, order);
    if p1.Done? {
      assert p == p1;
    } else {
      var p2 := ReservePhase(p1.w, order);
      if p2.Done? {
        assert p == p2;
      } else {
        assert p2.w.saga.visited == [PaymentProcessing];
        var p3 := ReleasePhase(p2.w, order, now);
        ReleaseLifecycle(p2.w, order, now);
        if p3.Done? {
          assert p == p3;
        } else {
          assert p == FulfilmentPhase(p3.w, order);
          LateLifecycle(p2.w, order, now);
        }
      }
    }
    AllowedPathIsOrdered(p.w.saga.visited);
  }

  /** The run goes from the release phase on to fulfillment. */
  lemma LateLifecycle(w: World, order: PreOrder, now: int)
    requires w.saga.visited == [PaymentProcessing] && w.saga.state == PaymentProcessing
    requires w.saga.order.Some? && w.saga.deadline.None?
    ensures var p3 := ReleasePhase(w, order, now);
            p3.Next? ==> Lifecycle(FulfilmentPhase(p3.w, order), order)
  {
    var p3 := ReleasePhase(w, order, now);
    if p3.Next? {
      FulfilmentLifecycle(p3.w, order);
    }
  }

  /** Once fulfillment has started, compensation is out of reach: a run that
      entered FULFILLMENT_IN_PROGRESS never enters REFUNDED and makes no
      compensating call. */
  lemma NoCompensationAfterFulfilmentStarts(order: PreOrder, now: int, deliveries: seq<seq<Signal>>, results: seq<ActivityResult>)
    ensures var p := Run(Start(deliveries, results), order, now);
            FulfillmentInProgress in p.w.saga.visited ==>
              && Refunded !in p.w.saga.visited
              && forall i :: 0 <= i < |p.w.env.trace| ==> !IsUndo(p.w.env.trace[i])
  {
    var w0 := Start(deliveries, results);
    var p := Run(w0, order, now);
    RunFollowsLifecycle(order, now, deliveries, results);
    if FulfillmentInProgress in p.w.saga.visited {
      HappyPathNeverRefunds(p.w.saga.visited);
      assert p.w.saga.state != Refunded;
      assert Inv(w0);
      RunKeeps(w0, order, now);
      NoUndoBeforeRefunded(p.w);
    }
  }

  /** An allowed path that entered FULFILLMENT_IN_PROGRESS never enters REFUNDED. */
  lemma HappyPathNeverRefunds(v: seq<OrderState>)
    requires AllowedPath(v) && FulfillmentInProgress in v
    ensures Refunded !in v
  {
    assert v <= HAPPY_PATH;
    assert forall i :: 0 <= i < |v| ==> v[i] == HAPPY_PATH[i];
  }

  lemma ExecuteRaises(w: World, a: Activity, timeout: nat, retry: RetryPolicy)
    ensures FlagsGrow(w.saga.flags, ExecuteActivity(w, a, timeout, retry).w.saga.flags)
  {
    if w.env.deliveries != [] {
      SignalsOnlyRaiseFlags(w.saga.flags, w.env.deliveries[0]);
    }
  }

  lemma WaitRaises(w: World, c: Condition, timeout: Option<int>)
    ensures FlagsGrow(w.saga.flags, WaitCondition(w, c, timeout).w.saga.flags)
  {
    if w.env.deliveries != [] {
      SignalsOnlyRaiseFlags(w.saga.flags, w.env.deliveries[0]);
    }
  }

  /** The delivery phase completes only after the delivery was confirmed, and
      clears no flag. */
  lemma DeliveryNeedsConfirmation(w: World, order: PreOrder)
    requires w.saga.order.Some?
    ensures var p := DeliveryPhase(w, order);
            && FlagsGrow(w.saga.flags, p.w.saga.flags)
            && (p.result.Completed? ==> p.w.saga.flags.deliveryConfirmed)
  {
    var email := w.saga.order.value.customerEmail;
    var entered := w.(saga := SetState(w.saga, AwaitingDelivery));
    var pickedUp := Notify(entered, ItemPickedUp);
    ExecuteRaises(entered, SendNotification(email, ItemPickedUp), NOTIFICATION_TIMEOUT, ServerDefault);
    if pickedUp.out.Value? {
      var confirmed := WaitCondition(pickedUp.w, DeliveryConfirmed, None);
      WaitRaises(pickedUp.w, DeliveryConfirmed, None);
      if confirmed.out != StillWaiting {
        var delivered := confirmed.w.(saga := SetState(confirmed.w.saga, Delivered));
        ExecuteRaises(delivered, SendNotification(email, OrderCompleted), NOTIFICATION_TIMEOUT, ServerDefault);
      }
    }
  }

  /** What a completed run leaves behind: it is DELIVERED after the whole happy
      path, its log is exactly the charge, the reservation and the fulfillment,
      in that order, pick-up and delivery were both confirmed, and no
      compensating call was made. */
  lemma CompletedRun(order: PreOrder, now: int, deliveries: seq<seq<Signal>>, results: seq<ActivityResult>)
    ensures var p := Run(Start(deliveries, results), order, now);
            var log := p.w.saga.log;
            p.result.Completed? ==>
              && p.w.saga.state == Delivered
              && p.w.saga.visited == HAPPY_PATH
              && |log| == 3
              && log[0].action == "payment_charged"
              && log[1].action == "inventory_reserved"
              && log[2].action == "fulfillment_created"
              && p.w.saga.flags.itemPickedConfirmed
              && p.w.saga.flags.deliveryConfirmed
              && forall i :: 0 <= i < |p.w.env.trace| ==> !IsUndo(p.w.env.trace[i])
  {
    var w0 := Start(deliveries, results);
    var p := Run(w0, order, now);
    RunFollowsLifecycle(order, now, deliveries, results);
    NoCompensationAfterFulfilmentStarts(order, now, deliveries, results);
    if p.result.Completed? {
      var p1 := PaymentPhase(w0, order);
      var p2 := ReservePhase(p1.w, order);
      var p3 := ReleasePhase(p2.w, order, now);
      assert p1.Next? && p2.Next? && p3.Next?;
      var p4 := FulfilmentPhase(p3.w, order);
      assert p4 == p;
      assert p.w.saga.log[..2] == p2.w.saga.log && p2.w.saga.log[..1] == p1.w.saga.log;
      FulfilmentEndsPicked(p3.w, order);
    }
  }

  /** A fulfilment phase that completes had the pick-up confirmed and the
      delivery confirmed, and still has both flags set at the end. */
  lemma FulfilmentEndsPicked(w: World, order: PreOrder)
    requires w.saga.order.Some?
    ensures var p := FulfilmentPhase(w, order);
            p.result.Completed? ==> p.w.saga.flags.itemPickedConfirmed && p.w.saga.flags.deliveryConfirmed
  {
    var p := FulfilmentPhase(w, order);
    if p.result.Completed? {
      var entered := w.(saga := SetState(w.saga, FulfillmentInProgress));
      var created := ExecuteActivity(entered, CreateFulfillment(order.orderId), ACTIVITY_TIMEOUT, ServerDefault);
      var id := created.out.value;
      var recorded := created.w.(saga := RecordCompensation(created.w.saga, "fulfillment_created", id));
      var pickup := ExecuteActivity(recorded, RequestPickup(id), ACTIVITY_TIMEOUT, ServerDefault);
      var prepared := Notify(pickup.w, OrderBeingPrepared);
      var picked := AwaitPickup(prepared.w, 0);
      assert p == DeliveryPhase(picked.w, order);
      DeliveryNeedsConfirmation(picked.w, order);
    }
  }
}
