/** Compensation undoes the committed forward actions in reverse order. The
    reference is UndoPlan: the compensating activities of the log entries, last
    entry first, with entries the compensation map does not know skipped. */
module CompensationProperties {
  import opened Models
  import opened Activities
  import opened Saga
  import opened Traces

  function Reverse<T>(s: seq<T>): (r: seq<T>)
    ensures |r| == |s|
    ensures forall i :: 0 <= i < |s| ==> r[i] == s[|s| - 1 - i]
  {
    if s == [] then [] else Reverse(s[1..]) + [s[0]]
  }

  function AsSeq<T>(o: Option<T>): seq<T>
  {
    match o
    case None => []
    case Some(v) => [v]
  }

  /** The compensating activities of the records, in record order. */
  function Compensations(records: seq<CompensationRecord>): (r: seq<Activity>)
    ensures |r| <= |records|
    ensures forall i :: 0 <= i < |r| ==> IsCompensation(r[i])
  {
    if records == [] then [] else AsSeq(Compensation(records[0])) + Compensations(records[1..])
  }

  /** What compensating a log should call, in order. */
  function UndoPlan(log: seq<CompensationRecord>): seq<Activity>
  {
    Compensations(Reverse(log))
  }

  lemma PlanOfSnoc(rest: seq<CompensationRecord>, r: CompensationRecord)
    ensures UndoPlan(rest + [r]) == AsSeq(Compensation(r)) + UndoPlan(rest)
  {
    var rev := Reverse(rest + [r]);
    assert rev == [r] + Reverse(rest);
    assert rev[1..] == Reverse(rest);
  }

  /** When every entry names a known action, the plan undoes every entry, the
      last one first. */
  lemma {:induction false} PlanOfMappedLog(log: seq<CompensationRecord>)
    requires forall i :: 0 <= i < |log| ==> log[i].action in COMPENSATION_MAP
    ensures |UndoPlan(log)| == |log|
    ensures forall i :: 0 <= i < |log| ==> Compensation(log[|log| - 1 - i]) == Some(UndoPlan(log)[i])
    decreases |log|
  {
    if log != [] {
      var rest := log[..|log| - 1];
      var r := log[|log| - 1];
      assert log == rest + [r];
      PlanOfSnoc(rest, r);
      PlanOfMappedLog(rest);
      var plan := UndoPlan(log);
      forall i | 0 <= i < |log| ensures Compensation(log[|log| - 1 - i]) == Some(plan[i]) {
        if i > 0 {
          assert plan[i] == UndoPlan(rest)[i - 1];
          assert log[|log| - 1 - i] == rest[|rest| - 1 - (i - 1)];
        }
      }
    }
  }

  /** The events `added` are a run of compensating calls along `plan`, each
      with the compensation timeout and retry policy and stamped `st`, ending
      with outcome `out`: all but the last succeeded, and the run succeeded
      only if it covers the whole plan. */
  ghost predicate FollowsPlan(added: seq<Event>, plan: seq<Activity>, st: OrderState, out: Outcome<()>)
  {
    && |added| <= |plan|
    && (forall i :: 0 <= i < |added| ==>
          added[i].Called? && added[i].activity == plan[i] && added[i].state == st &&
          added[i].timeout == ACTIVITY_TIMEOUT && added[i].retry == COMPENSATION_RETRY)
    && (forall i :: 0 <= i < |added| - 1 ==> added[i].outcome.Value?)
    && (out.Value? ==> |added| == |plan| && forall i :: 0 <= i < |added| ==> added[i].outcome.Value?)
    && (out.Error? ==> |added| > 0 && added[|added| - 1].outcome == Error(out.reason))
    && (out.Pending? ==> |added| > 0 && added[|added| - 1].outcome == Pending)
  }

  lemma FollowsPlanCons(e: Event, added: seq<Event>, a: Activity, plan: seq<Activity>, st: OrderState, out: Outcome<()>)
    requires FollowsPlan(added, plan, st, out)
    requires e.Called? && e == Called(a, ACTIVITY_TIMEOUT, COMPENSATION_RETRY, st, e.outcome) && e.outcome.Value?
    ensures FollowsPlan([e] + added, [a] + plan, st, out)
  {
    var added' := [e] + added;
    var plan' := [a] + plan;
    forall i | 0 < i < |added'| ensures added'[i] == added[i - 1] && plan'[i] == plan[i - 1] {
    }
  }

  /** Undo calls a prefix of the plan, each call with the compensation timeout
      and retry policy and stamped with the state it runs in; it stops at the
      first call that does not succeed and succeeds only after the whole plan. */
  lemma {:induction false} UndoFollowsPlan(w: World, records: seq<CompensationRecord>)
    ensures Grows(w, Undo(w, records).w)
    ensures FollowsPlan(Added(w, Undo(w, records).w), UndoPlan(records), w.saga.state, Undo(w, records).out)
    decreases |records|
  {
    if records != [] {
      var rest := records[..|records| - 1];
      var r := records[|records| - 1];
      assert records == rest + [r];
      match Compensation(r)
      case None =>
        UndoFollowsPlan(w, rest);
        UndoSkips(w, rest, r);
      case Some(a) =>
        var undone := ExecuteActivity(w, a, ACTIVITY_TIMEOUT, COMPENSATION_RETRY);
        if undone.out.Value? {
          UndoFollowsPlan(undone.w, rest);
          UndoCallSucceeds(w, rest, r, a);
        } else {
          UndoCallStops(w, rest, r, a);
        }
    }
  }

  /** An entry the compensation map does not know adds nothing to the plan or
      to the undo. */
  lemma UndoSkips(w: World, rest: seq<CompensationRecord>, r: CompensationRecord)
    requires Compensation(r).None?
    requires Grows(w, Undo(w, rest).w)
    requires FollowsPlan(Added(w, Undo(w, rest).w), UndoPlan(rest), w.saga.state, Undo(w, rest).out)
    ensures Grows(w, Undo(w, rest + [r]).w)
    ensures FollowsPlan(Added(w, Undo(w, rest + [r]).w), UndoPlan(rest + [r]), w.saga.state, Undo(w, rest + [r]).out)
  {
    PlanOfSnoc(rest, r);
    assert UndoPlan(rest + [r]) == UndoPlan(rest);
    UndoSnoc(w, rest, r);
    assert Undo(w, rest + [r]) == Undo(w, rest);
  }

  /** One successful compensating call in front of an undo that follows the
      plan of the remaining entries follows the plan of all of them. */
  lemma UndoCallSucceeds(w: World, rest: seq<CompensationRecord>, r: CompensationRecord, a: Activity)
    requires Compensation(r) == Some(a)
    requires var undone := ExecuteActivity(w, a, ACTIVITY_TIMEOUT, COMPENSATION_RETRY);
             && undone.out.Value?
             && Grows(undone.w, Undo(undone.w, rest).w)
             && FollowsPlan(Added(undone.w, Undo(undone.w, rest).w), UndoPlan(rest), w.saga.state, Undo(undone.w, rest).out)
    ensures Grows(w, Undo(w, rest + [r]).w)
    ensures FollowsPlan(Added(w, Undo(w, rest + [r]).w), UndoPlan(rest + [r]), w.saga.state, Undo(w, rest + [r]).out)
  {
    var undone := ExecuteActivity(w, a, ACTIVITY_TIMEOUT, COMPENSATION_RETRY);
    var s := Undo(undone.w, rest);
    PlanOfSnoc(rest, r);
    UndoSnoc(w, rest, r);
    ExecuteAdds(w, a, ACTIVITY_TIMEOUT, COMPENSATION_RETRY);
    AddedAppend(w, undone.w, s.w);
    FollowsPlanCons(Added(w, undone.w)[0], Added(undone.w, s.w), a, UndoPlan(rest), w.saga.state, s.out);
  }

  /** A compensating call that fails or is still pending ends the undo after
      the first step of the plan. */
  lemma UndoCallStops(w: World, rest: seq<CompensationRecord>, r: CompensationRecord, a: Activity)
    requires Compensation(r) == Some(a)
    requires !ExecuteActivity(w, a, ACTIVITY_TIMEOUT, COMPENSATION_RETRY).out.Value?
    ensures Grows(w, Undo(w, rest + [r]).w)
    ensures FollowsPlan(Added(w, Undo(w, rest + [r]).w), UndoPlan(rest + [r]), w.saga.state, Undo(w, rest + [r]).out)
  {
    var undone := ExecuteActivity(w, a, ACTIVITY_TIMEOUT, COMPENSATION_RETRY);
    PlanOfSnoc(rest, r);
    UndoSnoc(w, rest, r);
    ExecuteAdds(w, a, ACTIVITY_TIMEOUT, COMPENSATION_RETRY);
    StopFollowsPlan(Added(w, undone.w)[0], a, UndoPlan(rest), w.saga.state);
  }

  /** Undoing a log starts with its last entry: an entry the map does not know
      is skipped; otherwise its compensating call is made, and the undo goes on
      with the rest of the log only if that call succeeded. */
  lemma UndoSnoc(w: World, rest: seq<CompensationRecord>, r: CompensationRecord)
    ensures Undo(w, rest + [r]) ==
              match Compensation(r)
              case None => Undo(w, rest)
              case Some(a) =>
                var undone := ExecuteActivity(w, a, ACTIVITY_TIMEOUT, COMPENSATION_RETRY);
                if undone.out.Value? then Undo(undone.w, rest) else Step(undone.w, Discard(undone.out))
  {
    var records := rest + [r];
    assert records[..|records| - 1] == rest;
  }

  lemma StopFollowsPlan(e: Event, a: Activity, plan: seq<Activity>, st: OrderState)
    requires e.Called? && e == Called(a, ACTIVITY_TIMEOUT, COMPENSATION_RETRY, st, e.outcome) && !e.outcome.Value?
    ensures FollowsPlan([e], [a] + plan, st, Discard(e.outcome))
  {
  }

  /** Compensation enters REFUNDED first and then makes only the calls the plan
      prescribes, in plan order, followed by the refund notice to the customer
      once the whole plan has succeeded. Every call it makes is stamped REFUNDED. */
  lemma CompensateFollowsPlan(w: World)
    requires w.saga.order.Some?
    ensures Grows(w, Compensate(w).w)
    ensures var s := Compensate(w);
            var added := Added(w, s.w);
            var plan := UndoPlan(w.saga.log);
            && 1 <= |added| <= |plan| + 1
            && (forall i :: 0 <= i < |added| ==> added[i].Called? && added[i].state == Refunded)
            && (forall i :: 0 <= i < |added| - 1 ==> added[i].outcome.Value?)
            && (forall i :: 0 <= i < |added| && i < |plan| ==>
                  added[i].activity == plan[i] &&
                  added[i].timeout == ACTIVITY_TIMEOUT && added[i].retry == COMPENSATION_RETRY)
            && (|added| == |plan| + 1 ==>
                  added[|plan|].activity == SendNotification(w.saga.order.value.customerEmail, OrderRefunded) &&
                  added[|plan|].timeout == NOTIFICATION_TIMEOUT && added[|plan|].retry == ServerDefault &&
                  forall i :: 0 <= i < |plan| ==> added[i].outcome.Value?)
            && (s.out.Value? <==> |added| == |plan| + 1 && added[|plan|].outcome.Value?)
            && (s.out.Error? ==> added[|added| - 1].outcome == Error(s.out.reason))
            && (s.out.Pending? ==> added[|added| - 1].outcome == Pending)
  {
    var entered := w.(saga := SetState(w.saga, Refunded));
    var undone := Undo(entered, entered.saga.log);
    UndoFollowsPlan(entered, entered.saga.log);
    assert Added(w, undone.w) == Added(entered, undone.w);
    if undone.out.Value? {
      var notice := SendNotification(w.saga.order.value.customerEmail, OrderRefunded);
      var notified := ExecuteActivity(undone.w, notice, NOTIFICATION_TIMEOUT, ServerDefault);
      ExecuteAdds(undone.w, notice, NOTIFICATION_TIMEOUT, ServerDefault);
      AddedAppend(w, undone.w, notified.w);
    }
  }

  /** After compensating, the run returns `refunded` with the order id and the
      reason exactly when every compensating call and the refund notice
      returned a value; it fails exactly when one of those calls failed, with
      that call's error, and is suspended exactly when one is still pending. */
  lemma CompensateAndReturnReports(w: World, order: PreOrder, reason: string)
    requires w.saga.order.Some?
    ensures Grows(w, CompensateAndReturn(w, order, reason).w)
    ensures var p := CompensateAndReturn(w, order, reason);
            var added := Added(w, p.w);
            && 1 <= |added|
            && (forall i :: 0 <= i < |added| ==> added[i].Called?)
            && (p.result == Refund(order.orderId, reason) <==>
                  |added| == |UndoPlan(w.saga.log)| + 1 && forall i :: 0 <= i < |added| ==> added[i].outcome.Value?)
            && (p.result.Failed? <==> exists i :: 0 <= i < |added| && added[i].outcome.Error?)
            && (p.result.Failed? ==> added[|added| - 1].outcome == Error(p.result.reason))
            && (p.result.Suspended? <==> exists i :: 0 <= i < |added| && added[i].outcome.Pending?)
            && (p.result.Refund? || p.result.Failed? || p.result.Suspended?)
  {
    var s := Compensate(w);
    CompensateFollowsPlan(w);
    var added := Added(w, s.w);
    assert CompensateAndReturn(w, order, reason).w == s.w;
    if !s.out.Value? {
      assert Discard(added[|added| - 1].outcome) == s.out;
    }
  }
}
