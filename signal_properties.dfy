/** Signals are flags, not events: a handler only sets its own flag, so a
    delivered batch of signals amounts to the set of signals in it. */
module SignalProperties {
  import opened Saga

  /** After a batch, a flag is set exactly when it was set before or its
      signal is in the batch. */
  lemma {:induction false} SignalledAllSets(f: Flags, batch: seq<Signal>)
    ensures SignalledAll(f, batch).cancelRequested == (f.cancelRequested || CancelOrder in batch)
    ensures SignalledAll(f, batch).startFulfillmentRequested == (f.startFulfillmentRequested || StartFulfillment in batch)
    ensures SignalledAll(f, batch).itemPickedConfirmed == (f.itemPickedConfirmed || ItemPicked in batch)
    ensures SignalledAll(f, batch).deliveryConfirmed == (f.deliveryConfirmed || ConfirmDelivery in batch)
    decreases |batch|
  {
    if batch != [] {
      var front := batch[..|batch| - 1];
      SignalledAllSets(f, front);
      assert batch == front + [batch[|batch| - 1]];
    }
  }

  /** Flags never revert to false. */
  lemma SignalsOnlyRaiseFlags(f: Flags, batch: seq<Signal>)
    ensures FlagsGrow(f, SignalledAll(f, batch))
  {
    SignalledAllSets(f, batch);
  }

  /** Delivering the same batch again changes nothing. */
  lemma SignalsAreIdempotent(f: Flags, batch: seq<Signal>)
    ensures SignalledAll(SignalledAll(f, batch), batch) == SignalledAll(f, batch)
  {
    SignalledAllSets(f, batch);
    SignalledAllSets(SignalledAll(f, batch), batch);
  }

  /** Repeating a signal, or delivering signals in another order, has the same
      effect: only which signals arrived matters. */
  lemma SignalOrderIsIrrelevant(f: Flags, b1: seq<Signal>, b2: seq<Signal>)
    requires forall s :: s in b1 <==> s in b2
    ensures SignalledAll(f, b1) == SignalledAll(f, b2)
  {
    SignalledAllSets(f, b1);
    SignalledAllSets(f, b2);
  }

  /** Delivering two batches one after the other is delivering their concatenation. */
  lemma {:induction false} SignalledAllAppend(f: Flags, b1: seq<Signal>, b2: seq<Signal>)
    ensures SignalledAll(SignalledAll(f, b1), b2) == SignalledAll(f, b1 + b2)
  {
    SignalledAllSets(f, b1);
    SignalledAllSets(SignalledAll(f, b1), b2);
    SignalledAllSets(f, b1 + b2);
  }
}
