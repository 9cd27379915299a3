/** Whole-run invariants of the saga, stated against the trace of runtime
    calls: the compensation log holds exactly the records the forward calls
    committed, in call order, and compensation, once begun, is the last thing
    a run does. */
module RunProperties {
  import opened Models
  import opened Activities
  import opened Saga
  import opened Traces
  import opened CompensationProperties

  // ---------------------------------------------------------------------------
  // What the trace says about the log
  // ---------------------------------------------------------------------------

  /** The log entry a forward call commits once it has returned an identifier. */
  function CommittedBy(e: Event): (r: seq<CompensationRecord>)
    ensures |r| <= 1
    ensures r != [] ==> Compensation(r[0]).Some? && e.Called? && e.outcome == Value(r[0].resourceId)
  {
    if e.Called? && e.outcome.Value? then
      match e.activity
      case ChargePayment(_, _, _) => [CompensationRecord("payment_charged", e.outcome.value)]
      case ReserveInventory(_, _) => [CompensationRecord("inventory_reserved", e.outcome.value)]
      case CreateFulfillment(_) => [CompensationRecord("fulfillment_created", e.outcome.value)]
      case _ => []
    else []
  }

  /** The log entries the calls of a trace commit, in call order. */
  function Committed(t: seq<Event>): seq<CompensationRecord>
    decreases |t|
  {
    if t == [] then [] else Committed(t[..|t| - 1]) + CommittedBy(t[|t| - 1])
  }

  lemma {:induction false} CommittedAppend(a: seq<Event>, b: seq<Event>)
    ensures Committed(a + b) == Committed(a) + Committed(b)
    decreases |b|
  {
    if b != [] {
      var front := b[..|b| - 1];
      assert (a + b)[..|a + b| - 1] == a + front;
      assert (a + b)[|a + b| - 1] == b[|b| - 1];
      CommittedAppend(a, front);
    } else {
      assert a + b == a;
    }
  }

  /** The undo of a committed record is the compensating activity for what
      committed it, applied to the identifier it returned. */
  lemma CommittedIsUndoable(e: Event)
    requires CommittedBy(e) != []
    ensures var undo := Compensation(CommittedBy(e)[0]).value;
            match e.activity
            case ChargePayment(_, _, _) => undo == RefundPayment(e.outcome.value)
            case ReserveInventory(_, _) => undo == ReleaseInventory(e.outcome.value)
            case CreateFulfillment(_) => undo == CancelFulfillment(e.outcome.value)
            case _ => false
  {
  }

  // ---------------------------------------------------------------------------
  // Forward work and compensation in the trace
  // ---------------------------------------------------------------------------

  predicate IsUndo(e: Event)
  {
    e.Called? && IsCompensation(e.activity)
  }

  /** An event of compensation: a compensating call or the refund notice, made
      in REFUNDED. */
  predicate Undoing(e: Event)
  {
    e.Called? && e.state == Refunded &&
    (IsCompensation(e.activity) || (e.activity.SendNotification? && e.activity.notice == OrderRefunded))
  }

  /** An event of forward work: not a compensating call, and not made in REFUNDED. */
  predicate Forward(e: Event)
  {
    e.state != Refunded && !IsUndo(e)
  }

  /** Every event is forward work or compensation, and nothing but
      compensation follows the first event of compensation. */
  ghost predicate CompensationLast(t: seq<Event>)
  {
    && (forall i :: 0 <= i < |t| ==> Forward(t[i]) || Undoing(t[i]))
    && (forall i, j :: 0 <= i < j < |t| && t[i].state == Refunded ==> t[j].state == Refunded)
  }

  ghost predicate EndsRefunded(t: seq<Event>)
  {
    |t| > 0 && t[|t| - 1].state == Refunded
  }

  /** The invariant of a run: the log is what the trace committed, compensation
      is last, and the workflow is in REFUNDED exactly when compensation began. */
  ghost predicate Inv(w: World)
  {
    && w.saga.log == Committed(w.env.trace)
    && CompensationLast(w.env.trace)
    && (w.saga.state == Refunded <==> EndsRefunded(w.env.trace))
  }

  /** An event stamped REFUNDED means the trace ends in compensation. */
  lemma RefundedStampsLast(t: seq<Event>)
    requires CompensationLast(t)
    ensures forall i :: 0 <= i < |t| && t[i].state == Refunded ==> EndsRefunded(t)
  {
    forall i | 0 <= i < |t| && t[i].state == Refunded ensures EndsRefunded(t) {
      assert t[|t| - 1].state == Refunded;
    }
  }

  /** Before compensation begins, every event is forward work. */
  lemma NoRefundedStamp(t: seq<Event>)
    requires CompensationLast(t) && !EndsRefunded(t)
    ensures forall i :: 0 <= i < |t| ==> Forward(t[i])
  {
    RefundedStampsLast(t);
  }

  lemma AppendForward(t: seq<Event>, e: Event)
    requires CompensationLast(t) && !EndsRefunded(t) && Forward(e)
    ensures CompensationLast(t + [e]) && !EndsRefunded(t + [e])
  {
    NoRefundedStamp(t);
    var t' := t + [e];
    assert forall i :: 0 <= i < |t'| ==> t'[i].state != Refunded && Forward(t'[i]);
  }

  lemma AppendUndoing(t: seq<Event>, u: seq<Event>)
    requires CompensationLast(t)
    requires forall i :: 0 <= i < |u| ==> Undoing(u[i])
    ensures CompensationLast(t + u)
    ensures u != [] ==> EndsRefunded(t + u)
    ensures u == [] ==> t + u == t
    ensures Committed(t + u) == Committed(t)
  {
    var t' := t + u;
    forall i | 0 <= i < |t'| ensures Forward(t'[i]) || Undoing(t'[i]) {
      if i >= |t| {
        assert t'[i] == u[i - |t|];
      }
    }
    forall i, j | 0 <= i < j < |t'| && t'[i].state == Refunded ensures t'[j].state == Refunded {
      if j >= |t| {
        assert t'[j] == u[j - |t|];
      }
    }
    CommitsNothing(u);
    CommittedAppend(t, u);
    if u == [] {
      assert t' == t;
    } else {
      assert t'[|t'| - 1] == u[|u| - 1];
    }
  }

  /** Compensation events commit no record. */
  lemma {:induction false} CommitsNothing(u: seq<Event>)
    requires forall i :: 0 <= i < |u| ==> Undoing(u[i])
    ensures Committed(u) == []
    decreases |u|
  {
    if u != [] {
      CommitsNothing(u[..|u| - 1]);
    }
  }

  /** Once the invariant holds and the workflow is not in REFUNDED, nothing in
      the trace is a compensating call. */
  lemma NoUndoBeforeRefunded(w: World)
    requires Inv(w) && w.saga.state != Refunded
    ensures forall i :: 0 <= i < |w.env.trace| ==> !IsUndo(w.env.trace[i]) && w.env.trace[i].state != Refunded
  {
    NoRefundedStamp(w.env.trace);
  }

  // ---------------------------------------------------------------------------
  // Each step keeps the invariant
  // ---------------------------------------------------------------------------

  /** A forward call adds one forward event and whatever record it commits. */
  lemma ForwardCallKeeps(w: World, a: Activity, timeout: nat, retry: RetryPolicy)
    requires Inv(w) && w.saga.state != Refunded && !IsCompensation(a)
    ensures var s := ExecuteActivity(w, a, timeout, retry);
            && CompensationLast(s.w.env.trace)
            && !EndsRefunded(s.w.env.trace)
            && Committed(s.w.env.trace) == w.saga.log + CommittedBy(Called(a, timeout, retry, w.saga.state, s.out))
  {
    var s := ExecuteActivity(w, a, timeout, retry);
    var e := Called(a, timeout, retry, w.saga.state, s.out);
    AppendForward(w.env.trace, e);
    CommittedAppend(w.env.trace, [e]);
    assert Committed([e]) == Committed([]) + CommittedBy(e);
  }

  /** A forward call that commits a record keeps the invariant once the
      workflow has logged that record. */
  lemma CommittingCallKeeps(w: World, a: Activity, timeout: nat, retry: RetryPolicy, action: string)
    requires Inv(w) && w.saga.state != Refunded
    requires || (a.ChargePayment? && action == "payment_charged")
             || (a.ReserveInventory? && action == "inventory_reserved")
             || (a.CreateFulfillment? && action == "fulfillment_created")
    ensures var s := ExecuteActivity(w, a, timeout, retry);
            && (!s.out.Value? ==> Inv(s.w))
            && (s.out.Value? ==> Inv(s.w.(saga := RecordCompensation(s.w.saga, action, s.out.value))))
  {
    ForwardCallKeeps(w, a, timeout, retry);
  }

  /** A forward call that commits nothing keeps the invariant. */
  lemma PlainCallKeeps(w: World, a: Activity, timeout: nat, retry: RetryPolicy)
    requires Inv(w) && w.saga.state != Refunded && !IsCompensation(a)
    requires !a.ChargePayment? && !a.ReserveInventory? && !a.CreateFulfillment?
    ensures Inv(ExecuteActivity(w, a, timeout, retry).w)
  {
    ForwardCallKeeps(w, a, timeout, retry);
  }

  lemma WaitKeeps(w: World, c: Condition, timeout: Option<int>)
    requires Inv(w) && w.saga.state != Refunded
    ensures Inv(WaitCondition(w, c, timeout).w)
  {
    var s := WaitCondition(w, c, timeout);
    var e := Waited(c, timeout, s.out, w.saga.state);
    AppendForward(w.env.trace, e);
    CommittedAppend(w.env.trace, [e]);
    assert Committed([e]) == Committed([]) + CommittedBy(e);
  }

  /** Compensation adds only events of compensation and records nothing. */
  lemma CompensateKeeps(w: World)
    requires Inv(w) && w.saga.order.Some?
    ensures Inv(Compensate(w).w)
  {
    var s := Compensate(w);
    CompensateFollowsPlan(w);
    var added := Added(w, s.w);
    var plan := UndoPlan(w.saga.log);
    forall i | 0 <= i < |added| ensures Undoing(added[i]) {
      if i < |plan| {
        assert IsCompensation(plan[i]);
      }
    }
    assert s.w.env.trace == w.env.trace + added;
    AppendUndoing(w.env.trace, added);
  }

  lemma {:induction false} AwaitPickupKeeps(w: World, reminderCount: nat)
    requires Inv(w) && w.saga.state != Refunded
    ensures Inv(AwaitPickup(w, reminderCount).w)
    decreases |w.env.deliveries|
  {
    if !w.saga.flags.itemPickedConfirmed {
      var waited := WaitCondition(w, Picked, Some(REMINDER_INTERVAL));
      WaitKeeps(w, Picked, Some(REMINDER_INTERVAL));
      match waited.out
      case StillWaiting =>
      case Satisfied =>
        AwaitPickupKeeps(waited.w, reminderCount);
      case TimedOut =>
        var a := SendNotification(PARTNER_EMAIL, PickUpReminder(reminderCount + 1));
        var sent := ExecuteActivity(waited.w, a, NOTIFICATION_TIMEOUT, ServerDefault);
        PlainCallKeeps(waited.w, a, NOTIFICATION_TIMEOUT, ServerDefault);
        if sent.out.Value? {
          AwaitPickupKeeps(sent.w, reminderCount + 1);
        }
    }
  }

  lemma PaymentPhaseKeeps(w: World, order: PreOrder)
    requires Inv(w) && w.saga.state != Refunded
    ensures Inv(PaymentPhase(w, order).w)
  {
    var p := PaymentPhase(w, order);
    var started := w.(saga := SetState(w.saga.(order := Some(order)), PaymentProcessing));
    QuietStepKeeps(w, started);
    var a := ChargePayment(order.paymentMethodId, order.amount, order.orderId);
    var charged := ExecuteActivity(started, a, ACTIVITY_TIMEOUT, STANDARD_RETRY);
    CommittingCallKeeps(started, a, ACTIVITY_TIMEOUT, STANDARD_RETRY, "payment_charged");
    if !charged.out.Value? {
      assert p.w == charged.w;
    } else {
      var recorded := charged.w.(saga := RecordCompensation(charged.w.saga, "payment_charged", charged.out.value));
      PlainCallKeeps(recorded, SendNotification(order.customerEmail, PreOrderConfirmed),
                     NOTIFICATION_TIMEOUT, ServerDefault);
      assert p.w == Notify(recorded, PreOrderConfirmed).w;
    }
  }

  lemma ReservePhaseKeeps(w: World, order: PreOrder)
    requires Inv(w) && w.saga.state != Refunded && w.saga.order.Some?
    ensures Inv(ReservePhase(w, order).w)
  {
    var p := ReservePhase(w, order);
    var a := ReserveInventory(order.orderId, order.productName);
    var reserved := ExecuteActivity(w, a, ACTIVITY_TIMEOUT, STANDARD_RETRY);
    CommittingCallKeeps(w, a, ACTIVITY_TIMEOUT, STANDARD_RETRY, "inventory_reserved");
    match reserved.out
    case Pending =>
      assert p.w == reserved.w;
    case Error(_) =>
      assert p.w == Compensate(reserved.w).w;
      CompensateKeeps(reserved.w);
    case Value(id) =>
      assert p.w == reserved.w.(saga := RecordCompensation(reserved.w.saga, "inventory_reserved", id));
  }

  /** A step that changes neither the trace nor the log, outside REFUNDED,
      keeps the invariant. */
  lemma QuietStepKeeps(w: World, w': World)
    requires Inv(w) && w.saga.state != Refunded && w'.saga.state != Refunded
    requires w'.env.trace == w.env.trace && w'.saga.log == w.saga.log
    ensures Inv(w')
  {
  }

  lemma ReleasePhaseKeeps(w: World, order: PreOrder, now: int)
    requires Inv(w) && w.saga.state != Refunded && w.saga.order.Some?
    ensures Inv(ReleasePhase(w, order, now).w)
  {
    var deadline := order.releaseDate + GRACE_PERIOD;
    var entered := w.(saga := SetState(w.saga, AwaitingRelease));
    var armed := entered.(saga := entered.saga.(deadline := Some(deadline)));
    QuietStepKeeps(w, armed);
    if deadline - now <= 0 {
      assert ReleasePhase(w, order, now) == CompensateAndReturn(armed, order, DEADLINE_PASSED);
      CompensateKeeps(armed);
    } else {
      var waited := WaitCondition(armed, StartOrCancel, Some(deadline - now));
      assert ReleasePhase(w, order, now) == Decide(waited, order);
      WaitKeeps(armed, StartOrCancel, Some(deadline - now));
      DecideKeeps(waited, order);
    }
  }

  lemma DecideKeeps(waited: Step<WaitOutcome>, order: PreOrder)
    requires Inv(waited.w) && waited.w.saga.order.Some?
    ensures Inv(Decide(waited, order).w)
  {
    if waited.out != StillWaiting && (waited.w.saga.flags.cancelRequested || waited.out == TimedOut) {
      CompensateKeeps(waited.w);
    }
  }

  lemma DeliveryPhaseKeeps(w: World, order: PreOrder)
    requires Inv(w) && w.saga.state != Refunded && w.saga.order.Some?
    ensures Inv(DeliveryPhase(w, order).w)
    ensures DeliveryPhase(w, order).w.saga.state != Refunded
  {
    var email := w.saga.order.value.customerEmail;
    var p := DeliveryPhase(w, order);
    var entered := w.(saga := SetState(w.saga, AwaitingDelivery));
    QuietStepKeeps(w, entered);
    var pickedUp := Notify(entered, ItemPickedUp);
    PlainCallKeeps(entered, SendNotification(email, ItemPickedUp), NOTIFICATION_TIMEOUT, ServerDefault);
    if !pickedUp.out.Value? {
      assert p.w == pickedUp.w;
    } else {
      var confirmed := WaitCondition(pickedUp.w, DeliveryConfirmed, None);
      WaitKeeps(pickedUp.w, DeliveryConfirmed, None);
      if confirmed.out == StillWaiting {
        assert p.w == confirmed.w;
      } else {
        var delivered := confirmed.w.(saga := SetState(confirmed.w.saga, Delivered));
        QuietStepKeeps(confirmed.w, delivered);
        PlainCallKeeps(delivered, SendNotification(email, OrderCompleted), NOTIFICATION_TIMEOUT, ServerDefault);
        assert p.w == Notify(delivered, OrderCompleted).w;
      }
    }
  }

  lemma FulfilmentPhaseKeeps(w: World, order: PreOrder)
    requires Inv(w) && w.saga.state != Refunded && w.saga.order.Some?
    ensures Inv(FulfilmentPhase(w, order).w)
    ensures FulfilmentPhase(w, order).w.saga.state != Refunded
  {
    var p := FulfilmentPhase(w, order);
    var entered := w.(saga := SetState(w.saga, FulfillmentInProgress));
    QuietStepKeeps(w, entered);
    var a := CreateFulfillment(order.orderId);
    var created := ExecuteActivity(entered, a, ACTIVITY_TIMEOUT, ServerDefault);
    CommittingCallKeeps(entered, a, ACTIVITY_TIMEOUT, ServerDefault, "fulfillment_created");
    if !created.out.Value? {
      assert p.w == created.w;
    } else {
      var id := created.out.value;
      var recorded := created.w.(saga := RecordCompensation(created.w.saga, "fulfillment_created", id));
      assert p == PickupPhase(recorded, order, id);
      PickupPhaseKeeps(recorded, order, id);
    }
  }

  lemma PickupPhaseKeeps(w: World, order: PreOrder, fulfillmentId: string)
    requires Inv(w) && w.saga.state != Refunded && w.saga.order.Some?
    ensures Inv(PickupPhase(w, order, fulfillmentId).w)
    ensures PickupPhase(w, order, fulfillmentId).w.saga.state != Refunded
  {
    var p := PickupPhase(w, order, fulfillmentId);
    var email := w.saga.order.value.customerEmail;
    var pickup := ExecuteActivity(w, RequestPickup(fulfillmentId), ACTIVITY_TIMEOUT, ServerDefault);
    PlainCallKeeps(w, RequestPickup(fulfillmentId), ACTIVITY_TIMEOUT, ServerDefault);
    if !pickup.out.Value? {
      assert p.w == pickup.w;
    } else {
      var prepared := Notify(pickup.w, OrderBeingPrepared);
      PlainCallKeeps(pickup.w, SendNotification(email, OrderBeingPrepared), NOTIFICATION_TIMEOUT, ServerDefault);
      if !prepared.out.Value? {
        assert p.w == prepared.w;
      } else {
        assert p == AfterPickup(AwaitPickup(prepared.w, 0), order);
        AwaitPickupKeeps(prepared.w, 0);
        AfterPickupKeeps(AwaitPickup(prepared.w, 0), order);
      }
    }
  }

  lemma AfterPickupKeeps(s: Step<Outcome<()>>, order: PreOrder)
    requires Inv(s.w) && s.w.saga.state != Refunded && s.w.saga.order.Some?
    ensures Inv(AfterPickup(s, order).w)
    ensures AfterPickup(s, order).w.saga.state != Refunded
  {
    if s.out.Value? {
      DeliveryPhaseKeeps(s.w, order);
    }
  }

  // ---------------------------------------------------------------------------
  // Whole runs
  // ---------------------------------------------------------------------------

  /** A fresh workflow instance on a runtime that will report these signals and
      activity results. */
  function Start(deliveries: seq<seq<Signal>>, results: seq<ActivityResult>): World
  {
    World(INITIAL, Env(deliveries, results, []))
  }

  /** In every run, the compensation log lists exactly the identifiers the
      forward calls returned, in call order; compensation, once begun, is all
      the run does after it; every compensating call is made in REFUNDED; and
      the run ends in REFUNDED exactly when it began compensating. */
  lemma RunInvariant(order: PreOrder, now: int, deliveries: seq<seq<Signal>>, results: seq<ActivityResult>)
    ensures var p := Run(Start(deliveries, results), order, now);
            var t := p.w.env.trace;
            && p.w.saga.log == Committed(t)
            && CompensationLast(t)
            && (forall i :: 0 <= i < |t| && IsUndo(t[i]) ==> t[i].state == Refunded)
            && (p.w.saga.state == Refunded <==> exists i :: 0 <= i < |t| && t[i].state == Refunded)
  {
    var w0 := Start(deliveries, results);
    var p := Run(w0, order, now);
    assert Inv(w0);
    RunKeeps(w0, order, now);
    InvariantFacts(p.w);
  }

  /** What the run invariant says about the trace, spelled out. */
  lemma InvariantFacts(w: World)
    requires Inv(w)
    ensures var t := w.env.trace;
            && (forall i :: 0 <= i < |t| && IsUndo(t[i]) ==> t[i].state == Refunded)
            && (w.saga.state == Refunded <==> exists i :: 0 <= i < |t| && t[i].state == Refunded)
  {
    var t := w.env.trace;
    RefundedStampsLast(t);
    if EndsRefunded(t) {
      assert t[|t| - 1].state == Refunded;
    }
  }

  lemma RunKeeps(w: World, order: PreOrder, now: int)
    requires Inv(w) && w.saga.state != Refunded
    ensures Inv(Run(w, order, now).w)
  {
    var p1 := PaymentPhase(w, order);
    PaymentPhaseKeeps(w, order);
    if p1.Next? {
      var p2 := ReservePhase(p1.w, order);
      ReservePhaseKeeps(p1.w, order);
      if p2.Next? {
        var p3 := ReleasePhase(p2.w, order, now);
        ReleasePhaseKeeps(p2.w, order, now);
        if p3.Next? {
          FulfilmentPhaseKeeps(p3.w, order);
        }
      }
    }
  }
}
