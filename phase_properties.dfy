/** What each phase of the run does with the outcomes the runtime reports:
    payment failures, a failed reservation, the deadline decision, the
    fulfilment phase that no cancellation reaches, and the numbered reminders. */
module PhaseProperties {
  import opened Models
  import opened Activities
  import opened Saga
  import opened Traces
  import opened SignalProperties
  import opened CompensationProperties
  import opened RunProperties

  // ---------------------------------------------------------------------------
  // Payment
  // ---------------------------------------------------------------------------

  /** A declined charge ends the run with `payment_failed`, the order id and the
      reason, after that one call: nothing is logged and nothing compensated. */
  lemma ChargeDeclined(order: PreOrder, now: int, deliveries: seq<seq<Signal>>, results: seq<ActivityResult>)
    requires deliveries != [] && results != [] && results[0].Failure?
    ensures var p := Run(Start(deliveries, results), order, now);
            && p.result == PaymentFailed(order.orderId, results[0].reason)
            && p.w.saga.state == PaymentProcessing
            && p.w.saga.log == []
            && p.w.env.trace == [Called(ChargePayment(order.paymentMethodId, order.amount, order.orderId),
                                        ACTIVITY_TIMEOUT, STANDARD_RETRY, PaymentProcessing, Error(results[0].reason))]
  {
  }

  /** A failed confirmation notice right after a successful charge also ends
      the run with `payment_failed`; the charge stays in the log and is not
      refunded. */
  lemma ConfirmationFailureKeepsCharge(order: PreOrder, now: int, deliveries: seq<seq<Signal>>, results: seq<ActivityResult>)
    requires |deliveries| >= 2 && |results| >= 2 && results[0].Success? && results[1].Failure?
    ensures var p := Run(Start(deliveries, results), order, now);
            && p.result == PaymentFailed(order.orderId, results[1].reason)
            && p.w.saga.state == PaymentProcessing
            && p.w.saga.log == [CompensationRecord("payment_charged", results[0].value)]
            && |p.w.env.trace| == 2
            && p.w.env.trace[1].activity == SendNotification(order.customerEmail, PreOrderConfirmed)
            && forall i :: 0 <= i < |p.w.env.trace| ==> !IsUndo(p.w.env.trace[i])
  {
  }

  /** Whatever failed, a `payment_failed` run stayed in PAYMENT_PROCESSING,
      never set a deadline and made no compensating call. */
  lemma PaymentFailureNeverCompensates(order: PreOrder, now: int, deliveries: seq<seq<Signal>>, results: seq<ActivityResult>)
    ensures var p := Run(Start(deliveries, results), order, now);
            p.result.PaymentFailed? ==>
              && p.result.orderId == order.orderId
              && p.w.saga.state == PaymentProcessing
              && p.w.saga.visited == [PaymentProcessing]
              && p.w.saga.deadline.None?
              && |p.w.saga.log| <= 1
              && forall i :: 0 <= i < |p.w.env.trace| ==> !IsUndo(p.w.env.trace[i])
  {
    var w0 := Start(deliveries, results);
    var p := Run(w0, order, now);
    RunInvariant(order, now, deliveries, results);
    if p.result.PaymentFailed? {
      assert PaymentPhase(w0, order).Done?;
      assert Inv(p.w);
      NoUndoBeforeRefunded(p.w);
    }
  }

  // ---------------------------------------------------------------------------
  // Reservation
  // ---------------------------------------------------------------------------

  /** The charge and the confirmation notice both succeed: the run goes on in
      PAYMENT_PROCESSING with the charge as the only log entry. */
  lemma PaymentSucceeds(order: PreOrder, deliveries: seq<seq<Signal>>, results: seq<ActivityResult>)
    requires |deliveries| >= 2 && |results| >= 2 && results[0].Success? && results[1].Success?
    ensures var p := PaymentPhase(Start(deliveries, results), order);
            && p.Next?
            && p.w.saga.state == PaymentProcessing
            && p.w.saga.log == [CompensationRecord("payment_charged", results[0].value)]
            && p.w.env.deliveries == deliveries[2..] && p.w.env.results == results[2..]
            && |p.w.env.trace| == 2
            && p.w.env.trace[0].activity == ChargePayment(order.paymentMethodId, order.amount, order.orderId)
            && p.w.env.trace[1].activity == SendNotification(order.customerEmail, PreOrderConfirmed)
  {
  }

  /** Compensating a log that holds only a charge refunds that charge and then
      notifies the customer; both succeed when the runtime reports success. */
  lemma CompensateCharge(w: World, chargeId: string)
    requires w.saga.order.Some? && w.saga.log == [CompensationRecord("payment_charged", chargeId)]
    ensures Grows(w, Compensate(w).w)
    ensures var s := Compensate(w);
            var added := Added(w, s.w);
            && |added| >= 1
            && added[0].Called?
            && added[0] == Called(RefundPayment(chargeId), ACTIVITY_TIMEOUT, COMPENSATION_RETRY, Refunded, added[0].outcome)
            && (forall i :: 0 < i < |added| ==> !IsUndo(added[i]))
            && ((|w.env.deliveries| >= 2 && |w.env.results| >= 2 &&
                 w.env.results[0].Success? && w.env.results[1].Success?) ==> s.out.Value?)
  {
    var log := w.saga.log;
    assert Reverse(log) == log;
    assert UndoPlan(log) == [RefundPayment(chargeId)];
    CompensateFollowsPlan(w);
    LoneRefundCalls(Added(w, Compensate(w).w), UndoPlan(log), chargeId, w.saga.order.value.customerEmail);
    if |w.env.deliveries| >= 2 && |w.env.results| >= 2 && w.env.results[0].Success? && w.env.results[1].Success? {
      CompensateChargeSucceeds(w, chargeId);
    }
  }

  /** The calls of a compensation whose plan is the refund of one charge: the
      refund comes first, and the only other call is the refund notice. */
  lemma LoneRefundCalls(added: seq<Event>, plan: seq<Activity>, chargeId: string, email: string)
    requires plan == [RefundPayment(chargeId)]
    requires 1 <= |added| <= |plan| + 1
    requires forall i :: 0 <= i < |added| ==> added[i].Called? && added[i].state == Refunded
    requires forall i :: 0 <= i < |added| && i < |plan| ==>
               added[i].activity == plan[i] && added[i].timeout == ACTIVITY_TIMEOUT && added[i].retry == COMPENSATION_RETRY
    requires |added| == |plan| + 1 ==> added[|plan|].activity == SendNotification(email, OrderRefunded)
    ensures added[0].Called?
    ensures added[0] == Called(RefundPayment(chargeId), ACTIVITY_TIMEOUT, COMPENSATION_RETRY, Refunded, added[0].outcome)
    ensures forall i :: 0 < i < |added| ==> !IsUndo(added[i])
  {
    assert added[0].activity == plan[0];
  }

  /** With the refund and its notice both reported successful, compensating a
      lone charge succeeds. */
  lemma CompensateChargeSucceeds(w: World, chargeId: string)
    requires w.saga.order.Some? && w.saga.log == [CompensationRecord("payment_charged", chargeId)]
    requires |w.env.deliveries| >= 2 && |w.env.results| >= 2
    requires w.env.results[0].Success? && w.env.results[1].Success?
    ensures Compensate(w).out.Value?
  {
    var log := w.saga.log;
    var entered := w.(saga := SetState(w.saga, Refunded));
    var refund := ExecuteActivity(entered, RefundPayment(chargeId), ACTIVITY_TIMEOUT, COMPENSATION_RETRY);
    assert [] + [log[0]] == log;
    UndoSnoc(entered, [], log[0]);
    var undone := Undo(entered, log);
    assert undone == Step(refund.w, Value(()));
    assert refund.w.env.deliveries == w.env.deliveries[1..] && refund.w.env.results == w.env.results[1..];
    var notified := Notify(undone.w, OrderRefunded);
    assert notified.out == Value(w.env.results[1].value);
    assert Compensate(w) == Step(notified.w, Discard(notified.out));
  }

  /** A failed reservation refunds the charge and nothing else: the only
      compensating call is the refund of the charge identifier, made in
      REFUNDED; once the refund and its notice succeed the run returns
      `refunded` with the reservation's failure as the reason. */
  lemma ReservationFailureRefundsCharge(order: PreOrder, now: int, deliveries: seq<seq<Signal>>, results: seq<ActivityResult>)
    requires |deliveries| >= 3 && |results| >= 3
    requires results[0].Success? && results[1].Success? && results[2].Failure?
    ensures var p := Run(Start(deliveries, results), order, now);
            var t := p.w.env.trace;
            && p.w.saga.state == Refunded
            && p.w.saga.visited == [PaymentProcessing, Refunded]
            && p.w.saga.log == [CompensationRecord("payment_charged", results[0].value)]
            && |t| >= 4
            && t[3].Called? && t[3] == Called(RefundPayment(results[0].value), ACTIVITY_TIMEOUT, COMPENSATION_RETRY, Refunded, t[3].outcome)
            && (forall i :: 0 <= i < |t| && IsUndo(t[i]) ==> i == 3)
            && (p.result == Refund(order.orderId, results[2].reason) || p.result.Failed? || p.result.Suspended?)
            && (|deliveries| >= 5 && |results| >= 5 && results[3].Success? && results[4].Success? ==>
                  p.result == Refund(order.orderId, results[2].reason))
  {
    var w0 := Start(deliveries, results);
    var p := Run(w0, order, now);
    var p1 := PaymentPhase(w0, order);
    PaymentSucceeds(order, deliveries, results);
    RunEndsInReservation(order, now, deliveries, results);
    ReserveFailureRefunds(p1.w, order, results[0].value);
    var added := Added(p1.w, p.w);
    assert p.w.env.trace == p1.w.env.trace + added;
    OnlyUndoAt(p1.w.env.trace, added);
  }

  /** Two forward events, then a forward event, one compensating call and
      anything but compensating calls: the call is the only one, at index 3. */
  lemma OnlyUndoAt(t0: seq<Event>, added: seq<Event>)
    requires |t0| == 2 && !IsUndo(t0[0]) && !IsUndo(t0[1])
    requires |added| >= 2 && !IsUndo(added[0])
    requires forall i :: 1 < i < |added| ==> !IsUndo(added[i])
    ensures |t0 + added| >= 4 && (t0 + added)[3] == added[1]
    ensures forall i :: 0 <= i < |t0 + added| && IsUndo((t0 + added)[i]) ==> i == 3
  {
    var t := t0 + added;
    forall i | 0 <= i < |t| && IsUndo(t[i]) ensures i == 3 {
      if i >= 2 {
        assert t[i] == added[i - 2];
      }
    }
  }

  /** The reservation phase with a failing reservation after a charge: the
      reservation call is followed by the refund of the charge, and nothing
      else is undone. */
  lemma ReserveFailureRefunds(w: World, order: PreOrder, chargeId: string)
    requires w.saga.order.Some? && w.saga.log == [CompensationRecord("payment_charged", chargeId)]
    requires w.env.deliveries != [] && w.env.results != [] && w.env.results[0].Failure?
    ensures Grows(w, ReservePhase(w, order).w)
    ensures var p := ReservePhase(w, order);
            var added := Added(w, p.w);
            && p.w.saga.state == Refunded
            && p.w.saga.visited == w.saga.visited + [Refunded]
            && p.w.saga.log == w.saga.log
            && |added| >= 2
            && added[0] == Called(ReserveInventory(order.orderId, order.productName), ACTIVITY_TIMEOUT, STANDARD_RETRY,
                                  w.saga.state, Error(w.env.results[0].reason))
            && added[1].Called? && added[1] == Called(RefundPayment(chargeId), ACTIVITY_TIMEOUT, COMPENSATION_RETRY, Refunded, added[1].outcome)
            && (forall i :: 1 < i < |added| ==> !IsUndo(added[i]))
            && (p.result == Refund(order.orderId, w.env.results[0].reason) || p.result.Failed? || p.result.Suspended?)
            && (|w.env.deliveries| >= 3 && |w.env.results| >= 3 && w.env.results[1].Success? && w.env.results[2].Success? ==>
                  p.result == Refund(order.orderId, w.env.results[0].reason))
  {
    var reserved := ExecuteActivity(w, ReserveInventory(order.orderId, order.productName), ACTIVITY_TIMEOUT, STANDARD_RETRY);
    ExecuteAdds(w, ReserveInventory(order.orderId, order.productName), ACTIVITY_TIMEOUT, STANDARD_RETRY);
    CompensateCharge(reserved.w, chargeId);
    var s := Compensate(reserved.w);
    assert ReservePhase(w, order) == Done(s.w, RefundResult(s.out, order.orderId, w.env.results[0].reason));
    AddedAppend(w, reserved.w, s.w);
  }

  /** A run whose reservation fails returns from the reservation phase. */
  lemma RunEndsInReservation(order: PreOrder, now: int, deliveries: seq<seq<Signal>>, results: seq<ActivityResult>)
    requires |deliveries| >= 3 && |results| >= 3
    requires results[0].Success? && results[1].Success? && results[2].Failure?
    ensures var p1 := PaymentPhase(Start(deliveries, results), order);
            p1.Next? && Run(Start(deliveries, results), order, now) == ReservePhase(p1.w, order)
  {
    PaymentSucceeds(order, deliveries, results);
  }

  // ---------------------------------------------------------------------------
  // The deadline decision
  // ---------------------------------------------------------------------------

  /** The phase compensated and returns `refunded` with the reason, unless a
      compensating call failed or is still pending. */
  ghost predicate Compensated(p: Phase, orderId: string, reason: string)
  {
    && p.Done?
    && p.w.saga.state == Refunded
    && (p.result == Refund(orderId, reason) || p.result.Failed? || p.result.Suspended?)
  }

  /** When the deadline has passed on entry, the release phase compensates at
      once: it makes no wait, and everything it adds is compensation. */
  lemma DeadlinePassed(w: World, order: PreOrder, now: int)
    requires w.saga.order.Some? && order.releaseDate + GRACE_PERIOD - now <= 0
    ensures Grows(w, ReleasePhase(w, order, now).w)
    ensures var p := ReleasePhase(w, order, now);
            && Compensated(p, order.orderId, DEADLINE_PASSED)
            && forall i :: 0 <= i < |Added(w, p.w)| ==> Added(w, p.w)[i].Called? && Added(w, p.w)[i].state == Refunded
  {
    var entered := w.(saga := SetState(w.saga, AwaitingRelease));
    var armed := entered.(saga := entered.saga.(deadline := Some(order.releaseDate + GRACE_PERIOD)));
    CompensateFollowsPlan(armed);
    assert Added(w, Compensate(armed).w) == Added(armed, Compensate(armed).w);
  }

  /** The signal flags the release decision is taken on: those at the wait if
      start-fulfillment or cancel was already signalled, otherwise those after
      the next batch of signals; None while no batch arrives. */
  function DecisionFlags(w: World): (f: Option<Flags>)
    ensures Holds(StartOrCancel, w.saga.flags) ==> f == Some(w.saga.flags)
    ensures !Holds(StartOrCancel, w.saga.flags) && w.env.deliveries != [] ==>
              f.Some? &&
              f.value.cancelRequested == (w.saga.flags.cancelRequested || CancelOrder in w.env.deliveries[0]) &&
              f.value.startFulfillmentRequested == (w.saga.flags.startFulfillmentRequested || StartFulfillment in w.env.deliveries[0])
    ensures f.None? <==> !Holds(StartOrCancel, w.saga.flags) && w.env.deliveries == []
  {
    if Holds(StartOrCancel, w.saga.flags) then Some(w.saga.flags)
    else if w.env.deliveries == [] then None
    else
      SignalledAllSets(w.saga.flags, w.env.deliveries[0]);
      Some(SignalledAll(w.saga.flags, w.env.deliveries[0]))
  }

  /** Before the deadline, the release phase waits once for start-fulfillment or
      cancel, with the time left as timeout. Then a cancel wins, whether or not
      start-fulfillment was signalled too and whether or not the wait timed out;
      a timeout without either gives the deadline-missed reason; and only
      start-fulfillment without cancel goes on to fulfillment. */
  lemma ReleaseDecision(w: World, order: PreOrder, now: int)
    requires w.saga.order.Some? && now < order.releaseDate + GRACE_PERIOD
    ensures Grows(w, ReleasePhase(w, order, now).w)
    ensures var p := ReleasePhase(w, order, now);
            var f := DecisionFlags(w);
            var added := Added(w, p.w);
            && |added| >= 1
            && added[0].Waited? && added[0] == Waited(StartOrCancel, Some(order.releaseDate + GRACE_PERIOD - now), added[0].waitOutcome, AwaitingRelease)
            && (f.None? ==> p == Done(p.w, Suspended) && p.w.saga.state == AwaitingRelease)
            && (f.Some? && f.value.cancelRequested ==> Compensated(p, order.orderId, CANCELLED_BY_CUSTOMER))
            && (f.Some? && !f.value.cancelRequested && !f.value.startFulfillmentRequested ==>
                  Compensated(p, order.orderId, DEADLINE_MISSED))
            && (p.Next? <==> f.Some? && f.value.startFulfillmentRequested && !f.value.cancelRequested)
            && (p.Next? ==> p.w.saga.flags == f.value && |added| == 1)
  {
    var deadline := order.releaseDate + GRACE_PERIOD;
    var entered := w.(saga := SetState(w.saga, AwaitingRelease));
    var armed := entered.(saga := entered.saga.(deadline := Some(deadline)));
    var waited := WaitCondition(armed, StartOrCancel, Some(deadline - now));
    WaitAdds(armed, StartOrCancel, Some(deadline - now));
    assert Added(w, waited.w) == Added(armed, waited.w);
    if waited.out != StillWaiting && (waited.w.saga.flags.cancelRequested || waited.out == TimedOut) {
      var s := Compensate(waited.w);
      CompensateFollowsPlan(waited.w);
      AddedAppend(w, waited.w, s.w);
    }
  }

  // ---------------------------------------------------------------------------
  // Irrevocability: from FULFILLMENT_IN_PROGRESS on, cancel is not read
  // ---------------------------------------------------------------------------

  /** The two worlds differ at most in the cancel flag. */
  ghost predicate SameButCancel(w1: World, w2: World)
  {
    w1.env == w2.env &&
    w1.saga.(flags := w1.saga.flags.(cancelRequested := false)) ==
    w2.saga.(flags := w2.saga.flags.(cancelRequested := false))
  }

  lemma SignalsKeepSameButCancel(w1: World, w2: World, batch: seq<Signal>)
    requires SameButCancel(w1, w2)
    ensures SignalledAll(w1.saga.flags, batch).(cancelRequested := false) ==
            SignalledAll(w2.saga.flags, batch).(cancelRequested := false)
  {
    SignalledAllSets(w1.saga.flags, batch);
    SignalledAllSets(w2.saga.flags, batch);
  }

  lemma ExecuteIgnoresCancel(w1: World, w2: World, a: Activity, timeout: nat, retry: RetryPolicy)
    requires SameButCancel(w1, w2)
    ensures var s1 := ExecuteActivity(w1, a, timeout, retry);
            var s2 := ExecuteActivity(w2, a, timeout, retry);
            s1.out == s2.out && SameButCancel(s1.w, s2.w)
  {
    if w1.env.deliveries != [] {
      SignalsKeepSameButCancel(w1, w2, w1.env.deliveries[0]);
    }
  }

  lemma WaitIgnoresCancel(w1: World, w2: World, c: Condition, timeout: Option<int>)
    requires SameButCancel(w1, w2) && c != StartOrCancel
    ensures var s1 := WaitCondition(w1, c, timeout);
            var s2 := WaitCondition(w2, c, timeout);
            s1.out == s2.out && SameButCancel(s1.w, s2.w)
  {
    if w1.env.deliveries != [] {
      SignalsKeepSameButCancel(w1, w2, w1.env.deliveries[0]);
    }
  }

  lemma {:induction false} AwaitPickupIgnoresCancel(w1: World, w2: World, reminderCount: nat)
    requires SameButCancel(w1, w2)
    ensures var s1 := AwaitPickup(w1, reminderCount);
            var s2 := AwaitPickup(w2, reminderCount);
            s1.out == s2.out && SameButCancel(s1.w, s2.w)
    decreases |w1.env.deliveries|
  {
    if !w1.saga.flags.itemPickedConfirmed {
      var waited1 := WaitCondition(w1, Picked, Some(REMINDER_INTERVAL));
      var waited2 := WaitCondition(w2, Picked, Some(REMINDER_INTERVAL));
      WaitIgnoresCancel(w1, w2, Picked, Some(REMINDER_INTERVAL));
      match waited1.out
      case StillWaiting =>
      case Satisfied =>
        AwaitPickupIgnoresCancel(waited1.w, waited2.w, reminderCount);
      case TimedOut =>
        var a := SendNotification(PARTNER_EMAIL, PickUpReminder(reminderCount + 1));
        var sent1 := ExecuteActivity(waited1.w, a, NOTIFICATION_TIMEOUT, ServerDefault);
        var sent2 := ExecuteActivity(waited2.w, a, NOTIFICATION_TIMEOUT, ServerDefault);
        ExecuteIgnoresCancel(waited1.w, waited2.w, a, NOTIFICATION_TIMEOUT, ServerDefault);
        if sent1.out.Value? {
          AwaitPickupIgnoresCancel(sent1.w, sent2.w, reminderCount + 1);
        }
    }
  }

  lemma DeliveryPhaseIgnoresCancel(w1: World, w2: World, order: PreOrder)
    requires SameButCancel(w1, w2) && w1.saga.order.Some?
    ensures var p1 := DeliveryPhase(w1, order);
            var p2 := DeliveryPhase(w2, order);
            p1.result == p2.result && SameButCancel(p1.w, p2.w)
  {
    var email := w1.saga.order.value.customerEmail;
    var e1 := w1.(saga := SetState(w1.saga, AwaitingDelivery));
    var e2 := w2.(saga := SetState(w2.saga, AwaitingDelivery));
    var n1 := Notify(e1, ItemPickedUp);
    var n2 := Notify(e2, ItemPickedUp);
    ExecuteIgnoresCancel(e1, e2, SendNotification(email, ItemPickedUp), NOTIFICATION_TIMEOUT, ServerDefault);
    if n1.out.Value? {
      var c1 := WaitCondition(n1.w, DeliveryConfirmed, None);
      var c2 := WaitCondition(n2.w, DeliveryConfirmed, None);
      WaitIgnoresCancel(n1.w, n2.w, DeliveryConfirmed, None);
      if c1.out != StillWaiting {
        var d1 := c1.w.(saga := SetState(c1.w.saga, Delivered));
        var d2 := c2.w.(saga := SetState(c2.w.saga, Delivered));
        ExecuteIgnoresCancel(d1, d2, SendNotification(email, OrderCompleted), NOTIFICATION_TIMEOUT, ServerDefault);
      }
    }
  }

  /** Once fulfillment starts, the cancel flag makes no difference: two runs of
      the fulfilment phase that differ only in it return the same result and
      end in worlds that differ only in it, with the same trace, log and
      states. */
  lemma CancelIgnoredAfterFulfilmentStarts(w1: World, w2: World, order: PreOrder)
    requires SameButCancel(w1, w2) && w1.saga.order.Some?
    ensures var p1 := FulfilmentPhase(w1, order);
            var p2 := FulfilmentPhase(w2, order);
            p1.result == p2.result && SameButCancel(p1.w, p2.w)
  {
    var e1 := w1.(saga := SetState(w1.saga, FulfillmentInProgress));
    var e2 := w2.(saga := SetState(w2.saga, FulfillmentInProgress));
    var a := CreateFulfillment(order.orderId);
    var c1 := ExecuteActivity(e1, a, ACTIVITY_TIMEOUT, ServerDefault);
    var c2 := ExecuteActivity(e2, a, ACTIVITY_TIMEOUT, ServerDefault);
    ExecuteIgnoresCancel(e1, e2, a, ACTIVITY_TIMEOUT, ServerDefault);
    if c1.out.Value? {
      var id := c1.out.value;
      var r1 := c1.w.(saga := RecordCompensation(c1.w.saga, "fulfillment_created", id));
      var r2 := c2.w.(saga := RecordCompensation(c2.w.saga, "fulfillment_created", id));
      var k1 := ExecuteActivity(r1, RequestPickup(id), ACTIVITY_TIMEOUT, ServerDefault);
      var k2 := ExecuteActivity(r2, RequestPickup(id), ACTIVITY_TIMEOUT, ServerDefault);
      ExecuteIgnoresCancel(r1, r2, RequestPickup(id), ACTIVITY_TIMEOUT, ServerDefault);
      if k1.out.Value? {
        var email := w1.saga.order.value.customerEmail;
        var n1 := Notify(k1.w, OrderBeingPrepared);
        var n2 := Notify(k2.w, OrderBeingPrepared);
        ExecuteIgnoresCancel(k1.w, k2.w, SendNotification(email, OrderBeingPrepared), NOTIFICATION_TIMEOUT, ServerDefault);
        if n1.out.Value? {
          var s1 := AwaitPickup(n1.w, 0);
          var s2 := AwaitPickup(n2.w, 0);
          AwaitPickupIgnoresCancel(n1.w, n2.w, 0);
          if s1.out.Value? {
            DeliveryPhaseIgnoresCancel(s1.w, s2.w, order);
          }
        }
      }
    }
  }

  // ---------------------------------------------------------------------------
  // The reminder loop
  // ---------------------------------------------------------------------------

  predicate IsTimeout(e: Event)
  {
    e.Waited? && e.waitOutcome == TimedOut
  }

  /** The number of timed-out waits among the events. */
  function Timeouts(evs: seq<Event>): nat
    decreases |evs|
  {
    if evs == [] then 0 else Timeouts(evs[..|evs| - 1]) + (if IsTimeout(evs[|evs| - 1]) then 1 else 0)
  }

  lemma {:induction false} TimeoutsAppend(a: seq<Event>, b: seq<Event>)
    ensures Timeouts(a + b) == Timeouts(a) + Timeouts(b)
    decreases |b|
  {
    if b == [] {
      assert a + b == a;
    } else {
      var front := b[..|b| - 1];
      assert (a + b)[..|a + b| - 1] == a + front;
      assert (a + b)[|a + b| - 1] == b[|b| - 1];
      TimeoutsAppend(a, front);
    }
  }

  predicate IsPickupWait(e: Event)
  {
    e.Waited? && e.condition == Picked && e.waitTimeout == Some(REMINDER_INTERVAL)
  }

  predicate IsReminder(e: Event, n: nat)
  {
    e.Called? && e.activity == SendNotification(PARTNER_EMAIL, PickUpReminder(n)) &&
    e.timeout == NOTIFICATION_TIMEOUT && e.retry == ServerDefault
  }

  /** Event i of the reminder loop, entered with `k` reminders sent, is a wait
      of one reminder interval for the pick-up, or it follows a timed-out wait
      and is the partner's reminder numbered k plus the timeouts so far; every
      timed-out wait is followed by that reminder. */
  ghost predicate ReminderAt(added: seq<Event>, i: nat, k: nat, st: OrderState)
    requires i < |added|
  {
    && added[i].state == st
    && (IsPickupWait(added[i]) ||
        (i > 0 && IsTimeout(added[i - 1]) && IsReminder(added[i], k + Timeouts(added[..i]))))
    && (IsTimeout(added[i]) ==> i + 1 < |added| && IsReminder(added[i + 1], k + Timeouts(added[..i + 1])))
  }

  ghost predicate ReminderEvents(added: seq<Event>, k: nat, st: OrderState)
  {
    forall i: nat :: i < |added| ==> ReminderAt(added, i, k, st)
  }

  lemma ReminderEventsCons(wait: Event, call: Event, rest: seq<Event>, k: nat, st: OrderState)
    requires wait == Waited(Picked, Some(REMINDER_INTERVAL), TimedOut, st)
    requires call.Called? && call == Called(SendNotification(PARTNER_EMAIL, PickUpReminder(k + 1)), NOTIFICATION_TIMEOUT, ServerDefault, st, call.outcome)
    requires ReminderEvents(rest, k + 1, st)
    ensures ReminderEvents([wait, call] + rest, k, st)
  {
    var added := [wait, call] + rest;
    assert Timeouts([wait]) == 1 by {
      assert [wait][..0] == [];
    }
    assert Timeouts([wait, call]) == 1 by {
      assert [wait, call][..1] == [wait];
    }
    forall i: nat | i < |added| ensures ReminderAt(added, i, k, st) {
      if i == 0 {
      } else if i == 1 {
        assert added[..1] == [wait];
      } else {
        var j := i - 2;
        assert ReminderAt(rest, j, k + 1, st);
        assert added[i] == rest[j];
        assert added[..i] == [wait, call] + rest[..j];
        TimeoutsAppend([wait, call], rest[..j]);
        if j > 0 {
          assert added[i - 1] == rest[j - 1];
        }
        if IsTimeout(added[i]) {
          assert added[i + 1] == rest[j + 1];
          assert added[..i + 1] == [wait, call] + rest[..j + 1];
          TimeoutsAppend([wait, call], rest[..j + 1]);
        }
      }
    }
  }

  lemma ReminderEventsSkip(wait: Event, rest: seq<Event>, k: nat, st: OrderState)
    requires IsPickupWait(wait) && wait.state == st && !IsTimeout(wait)
    requires ReminderEvents(rest, k, st)
    ensures ReminderEvents([wait] + rest, k, st)
  {
    var added := [wait] + rest;
    forall i: nat | i < |added| ensures ReminderAt(added, i, k, st) {
      if i > 0 {
        var j := i - 1;
        assert ReminderAt(rest, j, k, st);
        assert added[i] == rest[j];
        assert added[..i] == [wait] + rest[..j];
        TimeoutsAppend([wait], rest[..j]);
        assert Timeouts([wait]) == 0 by {
          assert [wait][..0] == [];
        }
        if j > 0 {
          assert added[i - 1] == rest[j - 1];
        }
        if IsTimeout(added[i]) {
          assert added[i + 1] == rest[j + 1];
          assert added[..i + 1] == [wait] + rest[..j + 1];
          TimeoutsAppend([wait], rest[..j + 1]);
        }
      }
    }
  }

  /** The reminder loop only waits for the pick-up and sends reminders: the
      n-th timed-out wait is followed by reminder number n (counting on from
      the reminders already sent), every call it makes is such a reminder, and
      it ends normally only once the item was picked up. */
  lemma {:induction false} RemindersAreNumbered(w: World, k: nat)
    ensures Grows(w, AwaitPickup(w, k).w)
    ensures ReminderEvents(Added(w, AwaitPickup(w, k).w), k, w.saga.state)
    ensures AwaitPickup(w, k).out.Value? ==> AwaitPickup(w, k).w.saga.flags.itemPickedConfirmed
    decreases |w.env.deliveries|
  {
    if !w.saga.flags.itemPickedConfirmed {
      var waited := WaitCondition(w, Picked, Some(REMINDER_INTERVAL));
      WaitAdds(w, Picked, Some(REMINDER_INTERVAL));
      var wait := Added(w, waited.w)[0];
      match waited.out
      case StillWaiting =>
        ReminderEventsSkip(wait, [], k, w.saga.state);
        assert [wait] + [] == [wait];
      case Satisfied =>
        var s := AwaitPickup(waited.w, k);
        RemindersAreNumbered(waited.w, k);
        AddedAppend(w, waited.w, s.w);
        ReminderEventsSkip(wait, Added(waited.w, s.w), k, w.saga.state);
      case TimedOut =>
        var a := SendNotification(PARTNER_EMAIL, PickUpReminder(k + 1));
        var sent := ExecuteActivity(waited.w, a, NOTIFICATION_TIMEOUT, ServerDefault);
        ExecuteAdds(waited.w, a, NOTIFICATION_TIMEOUT, ServerDefault);
        AddedAppend(w, waited.w, sent.w);
        var call := Added(waited.w, sent.w)[0];
        if sent.out.Value? {
          var s := AwaitPickup(sent.w, k + 1);
          RemindersAreNumbered(sent.w, k + 1);
          AddedAppend(w, sent.w, s.w);
          ReminderEventsCons(wait, call, Added(sent.w, s.w), k, w.saga.state);
          assert [wait, call] + Added(sent.w, s.w) == Added(w, s.w);
        } else {
          ReminderEventsCons(wait, call, [], k, w.saga.state);
          assert [wait, call] + [] == Added(w, sent.w);
        }
    } else {
      assert Added(w, AwaitPickup(w, k).w) == [];
    }
  }

  /** AWAITING_DELIVERY is entered only once the pick-up was confirmed. */
  lemma DeliveryOnlyAfterPickup(w: World, k: nat, order: PreOrder)
    requires w.saga.order.Some?
    ensures var s := AwaitPickup(w, k);
            AfterPickup(s, order).w.saga.visited != s.w.saga.visited ==> s.w.saga.flags.itemPickedConfirmed
  {
  }
}
