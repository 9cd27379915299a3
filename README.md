# Pre-order saga

A Dafny model of `PreOrderWorkflow`, a durable workflow for a product
pre-order. The workflow charges the customer and reserves inventory. It
then waits until the release date plus one week for a start-fulfillment or
a cancel signal. It creates the fulfillment, requests the pick-up and sends
the delivery partner numbered reminders until the item is picked up. Last,
it waits for the delivery confirmation. Every forward action that succeeds
is appended to a compensation log. A failed reservation, a cancellation or a
missed deadline runs the saga compensation: the state becomes REFUNDED, the
log is undone last entry first through the compensation map, and the
customer is notified.

The model has two layers:

- `Saga` (saga.dfy) writes the workflow as functions over a `World`. A
  `World` holds the workflow's fields (`WorkflowState`) and an abstract
  runtime (`Env`). The runtime is two input streams:
  - `deliveries`: the batch of signals that arrives at each suspension;
  - `results`: the final result of each activity call.

  The runtime also keeps a trace of the calls made, each stamped with the
  order state at the time of the call. A run stopped by an exhausted stream
  returns `Suspended`. An activity failure that no handler catches returns
  `Failed(reason)`.
- `Workflow` (workflow.dfy) is the object itself. Class `PreOrderWorkflow`
  has the instance fields of the workflow. Its run method (split into one
  method per phase), its signal handlers and its helpers update those
  fields in place. The reminder loop and the reverse compensation loop are
  `while` loops. Class `Runtime` executes activities, resolves waits and
  calls the signal handlers. Every method is proved to compute the matching
  `Saga` function.

The properties are lemmas about the `Saga` functions:

- `SignalProperties`: the signal handlers.
- `CompensationProperties`: the compensation protocol against a reference
  undo plan.
- `RunProperties`: whole-run invariants tying the log to the trace.
- `PhaseProperties`: what each phase does with the outcomes it is given.
- `LifecycleProperties`: the states entered by whole runs.

`Models` (models.dfy) and `Activities` (activities.dfy) hold the data
model: the seven order states, the pre-order and compensation records, and
the activities with their arguments.

Behaviour of the code worth noting:

- The confirmation notice after the charge is inside the payment `try`. A
  failure there returns `payment_failed` while the charge stays in the log
  and is not refunded (`PhaseProperties.ConfirmationFailureKeepsCharge`).
  The other notifications are not caught, and their failure ends the run
  (`Failed`).
- A payment failure never compensates
  (`PhaseProperties.PaymentFailureNeverCompensates`); only failures after
  the charge was recorded go through `_compensate`.
- A compensating call that still fails after its retry policy raises out of
  `_compensate`: the remaining records are not undone, and the run ends with
  that failure.
- The deadline is set once, when the release wait starts, and never
  cleared.
- The signal handlers always set their flag, whatever state the order is
  in.

## Model

| member | source | states |
|---|---|---|
| Models.FromValue | models.py:7-15 | the string value of a state maps back to that state, and a string that is no state's value maps to nothing |
| Models.ValueIdentifiesState | models.py:7-15 | the seven state values are pairwise distinct, so a value identifies its state |
| Models.OrdinalIsInjective | models.py:7-15 | declaration order numbers the seven states without repetition |
| Saga.ExecuteActivity | workflow.py:52-57 | an activity call changes only the signal flags and the runtime; it is pending exactly when the runtime has nothing more to report; otherwise it returns the next result and delivers the next batch of signals; it adds its own event to the trace |
| Saga.WaitCondition | workflow.py:107-112 | a wait is satisfied exactly when the condition holds afterwards; it times out only when it has a timeout; it consumes nothing when the condition already holds; it records itself in the trace |
| Saga.Compensation | workflow.py:263-272 | a record has a compensating activity exactly when its action is in the compensation map; that activity is the one the map names and takes the record's resource id |
| Saga.Undo | workflow.py:270-283 | undoing log entries changes nothing of the workflow but the signal flags |
| Saga.Compensate | workflow.py:257-288 | compensation enters REFUNDED and leaves the log, the order and the deadline unchanged |
| Saga.CompensateAndReturn | workflow.py:84-85 | a compensated phase returns, in REFUNDED |
| Saga.PaymentPhase | workflow.py:43-67 | the order is stored and PAYMENT_PROCESSING entered; the phase goes on only after the charge was appended to the log; it returns only `payment_failed` with the order id, or suspended |
| Saga.ReservePhase | workflow.py:72-85 | the reservation is appended to the log when the phase goes on; a failure enters REFUNDED without touching the log, and the result is never `payment_failed` or `completed` |
| Saga.ReleasePhase | workflow.py:90-120 | AWAITING_RELEASE is entered and the deadline set to the release date plus one week; the log is not touched; the phase returns only in REFUNDED or suspended in AWAITING_RELEASE |
| Saga.Decide | workflow.py:114-125 | after the wait, the phase goes on unchanged, or returns in REFUNDED, or stays suspended; the log, order and deadline are untouched and the result is never `payment_failed` or `completed` |
| Saga.PickupPhase | workflow.py:136-163 | the pick-up phase always returns, never `refunded` or `payment_failed`; it leaves the log, order and deadline alone and enters AWAITING_DELIVERY and DELIVERED only in that order; `completed` means both were entered |
| Saga.AwaitPickup | workflow.py:148-163 | the reminder loop changes only the signal flags, and ends normally only once the pick-up was confirmed |
| Saga.FulfilmentPhase | workflow.py:125-183 | the phase always returns, never `refunded` or `payment_failed`; it enters one to three further states of the happy path in order; `completed` means the whole happy path and the fulfillment appended to the log |
| Saga.AfterPickup | workflow.py:153-168 | only a normal end of the reminder loop enters AWAITING_DELIVERY |
| Saga.DeliveryPhase | workflow.py:168-183 | AWAITING_DELIVERY and then possibly DELIVERED are entered; the log, order and deadline are untouched; `completed` carries the order id and means DELIVERED was entered |
| Saga.Run | workflow.py:41-183 | every run returns, with the order stored |
| Workflow.PreOrderWorkflow.constructor | workflow.py:23-35 | a fresh instance is PRE_ORDER_PLACED with no order, an empty log, no flag set and no deadline |
| Workflow.PreOrderWorkflow.Run | workflow.py:41-183 | the run method leaves the fields and the runtime as `Saga.Run` says and returns its result |
| Workflow.PreOrderWorkflow.RunPayment | workflow.py:43-67 | the payment phase as `Saga.PaymentPhase` says |
| Workflow.PreOrderWorkflow.RunReservation | workflow.py:72-85 | the reservation phase as `Saga.ReservePhase` says |
| Workflow.PreOrderWorkflow.RunRelease | workflow.py:90-120 | the release phase as `Saga.ReleasePhase` says |
| Workflow.PreOrderWorkflow.RunFulfilment | workflow.py:125-134 | the fulfillment phase as `Saga.FulfilmentPhase` says: FULFILLMENT_IN_PROGRESS entered, the fulfillment created and recorded, then the pick-up |
| Workflow.PreOrderWorkflow.RunPickup | workflow.py:136-163 | the pick-up request, the confirmation notice and the reminder loop, as `Saga.PickupPhase` says |
| Workflow.PreOrderWorkflow.RunDelivery | workflow.py:168-183 | the delivery phase as `Saga.DeliveryPhase` says |
| Workflow.PreOrderWorkflow.StartFulfillment | workflow.py:189-193 | the handler sets its own flag and changes nothing else |
| Workflow.PreOrderWorkflow.CancelOrder | workflow.py:195-199 | the handler sets its own flag and changes nothing else |
| Workflow.PreOrderWorkflow.ItemPicked | workflow.py:201-205 | the handler sets its own flag and changes nothing else |
| Workflow.PreOrderWorkflow.ConfirmDelivery | workflow.py:207-211 | the handler sets its own flag and changes nothing else |
| Workflow.PreOrderWorkflow.GetStatus | workflow.py:217-222 | the status has an order id exactly when an order is stored, and its state string names the current state |
| Workflow.PreOrderWorkflow.GetCompensationLog | workflow.py:224-226 | one entry per log record, in log order, with exactly the keys `action` and `resource_id`, reproducing the record |
| Workflow.PreOrderWorkflow.GetDeadlineInfo | workflow.py:228-233 | the deadline is present exactly when it is set, and equal to it |
| Workflow.PreOrderWorkflow.SetState | workflow.py:240-242 | the state becomes the new state, and nothing else changes |
| Workflow.PreOrderWorkflow.RecordCompensation | workflow.py:245-246 | the record is appended to the log, and nothing else changes |
| Workflow.PreOrderWorkflow.Notify | workflow.py:249-254 | a notification call to the stored customer's address |
| Workflow.PreOrderWorkflow.Compensate | workflow.py:257-288 | the compensation method, with its reverse loop over the log, as `Saga.Compensate` says |
| Workflow.Runtime.Deliver | workflow.py:189-211 | delivering a batch calls the handlers in batch order, which sets the flags as `Saga.SignalledAll` says |
| Workflow.Runtime.ExecuteActivity | workflow.py:52-57 | an activity call as `Saga.ExecuteActivity` says |
| Workflow.Runtime.WaitCondition | workflow.py:107-112 | a wait as `Saga.WaitCondition` says |
| SignalProperties.SignalledAllSets | workflow.py:189-211 | after a batch, each flag is set exactly when it was set before or its signal is in the batch |
| SignalProperties.SignalsOnlyRaiseFlags | workflow.py:189-211 | signals never clear a flag |
| SignalProperties.SignalsAreIdempotent | workflow.py:189-211 | delivering the same batch again changes nothing |
| SignalProperties.SignalOrderIsIrrelevant | workflow.py:189-211 | batches with the same signals, in any order and with any repetition, have the same effect |
| SignalProperties.SignalledAllAppend | workflow.py:189-211 | two batches in a row have the effect of their concatenation |
| CompensationProperties.Reverse | workflow.py:270 | the reversed log has the same length, with entry i taken from the end |
| CompensationProperties.Compensations | workflow.py:263-272 | every planned call is a compensating activity, and the plan is no longer than the log |
| CompensationProperties.PlanOfSnoc | workflow.py:270-272 | the last log entry is undone first |
| CompensationProperties.PlanOfMappedLog | workflow.py:263-283 | when every action is in the map, the plan undoes every entry, the last one first |
| CompensationProperties.UndoFollowsPlan | workflow.py:270-283 | undoing calls a prefix of the plan with the compensation timeout and retry policy, stops at the first call that does not succeed, and succeeds only after the whole plan |
| CompensationProperties.CompensateFollowsPlan | workflow.py:257-288 | every call compensation makes is stamped REFUNDED; the calls follow the reverse-order plan, and every call but the last succeeded; the refund notice comes last, only after the whole plan succeeded; compensation succeeds exactly when that notice does |
| CompensationProperties.CompensateAndReturnReports | workflow.py:257-288 | after `_compensate`, the run returns `refunded` with the order id and the reason exactly when every compensating call and the refund notice returned a value; it fails exactly when one of those calls failed, with that call's error; it is suspended exactly when one is still pending |
| RunProperties.CommittedBy | workflow.py:58-59 | a forward call commits at most one record, and only with the identifier it returned and an action the compensation map can undo |
| RunProperties.CommittedAppend | workflow.py:245-246 | what two stretches of calls commit is their concatenation |
| RunProperties.CommittedIsUndoable | workflow.py:263-267 | the undo of a committed record is the compensating activity of the call that committed it, on the identifier it returned |
| RunProperties.RefundedStampsLast | workflow.py:257-259 | once a call is stamped REFUNDED, the trace ends in compensation |
| RunProperties.NoRefundedStamp | workflow.py:257-259 | before compensation begins, every call is forward work |
| RunProperties.AppendForward | workflow.py:41-183 | forward work before compensation keeps compensation last |
| RunProperties.AppendUndoing | workflow.py:257-288 | compensation events keep compensation last and commit nothing |
| RunProperties.NoUndoBeforeRefunded | workflow.py:257-259 | outside REFUNDED, no compensating call was made |
| RunProperties.ForwardCallKeeps | workflow.py:52-59 | a forward call adds exactly the record it commits |
| RunProperties.PlainCallKeeps | workflow.py:249-254 | a call that commits nothing keeps the run invariant |
| RunProperties.WaitKeeps | workflow.py:107-112 | a wait keeps the run invariant |
| RunProperties.CompensateKeeps | workflow.py:257-288 | compensation keeps the run invariant |
| RunProperties.AwaitPickupKeeps | workflow.py:153-163 | the reminder loop keeps the run invariant |
| RunProperties.PaymentPhaseKeeps | workflow.py:49-67 | the payment phase keeps the run invariant |
| RunProperties.ReservePhaseKeeps | workflow.py:72-85 | the reservation phase keeps the run invariant |
| RunProperties.ReleasePhaseKeeps | workflow.py:90-120 | the release phase keeps the run invariant |
| RunProperties.FulfilmentPhaseKeeps | workflow.py:125-163 | the fulfillment phase keeps the run invariant and never enters REFUNDED |
| RunProperties.AfterPickupKeeps | workflow.py:153-168 | what follows the reminder loop keeps the run invariant and never enters REFUNDED |
| RunProperties.DeliveryPhaseKeeps | workflow.py:168-183 | the delivery phase keeps the run invariant and never enters REFUNDED |
| RunProperties.RunKeeps | workflow.py:41-183 | a whole run keeps the run invariant |
| RunProperties.RunInvariant | workflow.py:42-246 | the log lists exactly the records the forward calls committed, in call order; compensation, once begun, is all the run does; every compensating call is made in REFUNDED; the run ends in REFUNDED exactly when it began compensating |
| PhaseProperties.ChargeDeclined | workflow.py:49-67 | a declined charge returns `payment_failed` with the order id and the reason, after that one call, in PAYMENT_PROCESSING, with an empty log |
| PhaseProperties.ConfirmationFailureKeepsCharge | workflow.py:58-67 | a failed confirmation after a successful charge returns `payment_failed`, the charge stays in the log and is not refunded |
| PhaseProperties.PaymentFailureNeverCompensates | workflow.py:49-67 | a `payment_failed` run stayed in PAYMENT_PROCESSING, set no deadline, logged at most the charge, and made no compensating call |
| PhaseProperties.PaymentSucceeds | workflow.py:49-64 | a successful charge and confirmation go on with the charge as the only log entry |
| PhaseProperties.CompensateCharge | workflow.py:257-288 | compensating a log holding only a charge refunds that charge first, in REFUNDED, and makes no other compensating call |
| PhaseProperties.ReservationFailureRefundsCharge | workflow.py:72-85 | a failed reservation enters REFUNDED; the only compensating call is the refund of the charge identifier; with a successful refund and notice the run returns `refunded` with the reservation's failure as reason |
| PhaseProperties.ReserveFailureRefunds | workflow.py:72-85 | a failed reservation after a charge is followed by the refund of that charge, made in REFUNDED, and by no other compensating call; with the refund and its notice successful the result is `refunded` with the reservation's reason |
| PhaseProperties.DeadlinePassed | workflow.py:93-100 | with the deadline already passed, the phase compensates without waiting and gives the "Release date + 1 week has passed" reason |
| PhaseProperties.DecisionFlags | workflow.py:104-112 | the flags the decision is taken on: those at the wait, or those after the next batch of signals |
| PhaseProperties.ReleaseDecision | workflow.py:104-125 | the phase waits once, for start or cancel, with the time left as timeout; cancel wins whether or not start was signalled and whether or not the wait timed out; neither gives the deadline-missed reason; only start without cancel goes on |
| PhaseProperties.SignalsKeepSameButCancel | workflow.py:189-211 | signals keep two worlds that differ only in the cancel flag differing only in it |
| PhaseProperties.ExecuteIgnoresCancel | workflow.py:52-57 | an activity call does not read the cancel flag |
| PhaseProperties.WaitIgnoresCancel | workflow.py:155-175 | a wait for pick-up or delivery does not read the cancel flag |
| PhaseProperties.AwaitPickupIgnoresCancel | workflow.py:148-163 | the reminder loop does not read the cancel flag |
| PhaseProperties.DeliveryPhaseIgnoresCancel | workflow.py:168-183 | the delivery phase does not read the cancel flag |
| PhaseProperties.CancelIgnoredAfterFulfilmentStarts | workflow.py:125-183 | once fulfillment starts, the cancel flag changes neither the result nor the trace, log or states |
| PhaseProperties.TimeoutsAppend | workflow.py:154-157 | timeouts of two stretches add up |
| PhaseProperties.ReminderEventsCons | workflow.py:153-163 | a timeout followed by reminder k+1 extends a correctly numbered loop |
| PhaseProperties.ReminderEventsSkip | workflow.py:153-155 | a wait that does not time out extends a correctly numbered loop |
| PhaseProperties.RemindersAreNumbered | workflow.py:148-163 | the loop only waits for the pick-up and sends reminders; every timed-out wait is immediately followed by the partner reminder, and the one after the n-th timeout is numbered n; the loop ends normally only once the item was picked up |
| PhaseProperties.DeliveryOnlyAfterPickup | workflow.py:153-168 | AWAITING_DELIVERY is entered only after the pick-up flag is set |
| LifecycleProperties.AllowedPathIsOrdered | models.py:9-15 | the allowed paths enter states in declaration order, none twice |
| LifecycleProperties.EarlyLifecycle | workflow.py:49-85 | a run that returns from payment or reservation follows an allowed path |
| LifecycleProperties.ReleaseLifecycle | workflow.py:90-120 | a run that returns from the release phase follows an allowed path |
| LifecycleProperties.FulfilmentLifecycle | workflow.py:125-183 | a run that reaches fulfillment follows the happy path |
| LifecycleProperties.RunFollowsLifecycle | workflow.py:42-259 | every run enters states along the happy path, or goes to REFUNDED from PAYMENT_PROCESSING or AWAITING_RELEASE; states are entered in declaration order; the run is in the last state it entered, and in REFUNDED exactly when it entered it; the deadline is set exactly once AWAITING_RELEASE is entered; `completed` means the whole happy path |
| LifecycleProperties.NoCompensationAfterFulfilmentStarts | workflow.py:125-183 | a run that entered FULFILLMENT_IN_PROGRESS never enters REFUNDED and makes no compensating call |
| LifecycleProperties.ExecuteRaises | workflow.py:52-57 | an activity call clears no flag |
| LifecycleProperties.WaitRaises | workflow.py:107-112 | a wait clears no flag |
| LifecycleProperties.DeliveryNeedsConfirmation | workflow.py:175-183 | delivery completes only after the delivery was confirmed |
| LifecycleProperties.CompletedRun | workflow.py:42-183 | a completed run is DELIVERED after the whole happy path, its log is exactly the charge, the reservation and the fulfillment in that order, both pick-up and delivery were confirmed, and nothing was compensated |
| LifecycleProperties.FulfilmentEndsPicked | workflow.py:153-183 | a completed fulfillment phase had pick-up and delivery confirmed |

## Left out

- The workflow runtime is not modelled: durable replay, timers, retries and backoff. An activity call gets one final result from the input stream. The retry policies are kept only as constants in the trace.
- An activity that has to return an identifier but returns none is not modelled. Every successful result is a resource-id string.
- A wait without a timeout that never sees its condition is modelled as the run stopping with `Suspended`. The reminder loop and the delivery wait behave the same way once the input streams are exhausted.
- Cancelling the workflow itself is not modelled. The bare `except:` around the two waits catches more than the timeout; the model treats only the timeout as its cause.
- The failure reason is the string carried by the failing result. The formatting the code applies to an exception is not modelled.
- Logging and the notification subjects and messages are left out. Each notification keeps only its kind, and the reminders keep their number.
- The order amount is a `real`. Timestamps are integers in seconds, and `now` is a parameter of the run. The ISO formatting of the deadline in the deadline query is left out: the query returns the integer.
- What happens after 100 failed compensation attempts is not defined by the code. The model reports the last failure as the compensation's result.
- client.py, worker.py and activities.py are not part of this model. Their activities are reduced to outcomes in the input stream.
- Workflow.PreOrderWorkflow.Run: the run method is split into one method per phase, and the fulfillment phase into `RunFulfilment` and `RunPickup`. The phases run in the same order with the same early returns.
