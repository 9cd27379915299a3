/** Comparing the runtime trace before and after a step of the saga. */
module Traces {
  import opened Saga

  /** The trace after the step extends the trace before it. */
  ghost predicate Grows(w: World, w': World)
  {
    w.env.trace <= w'.env.trace
  }

  /** The events a step added to the trace. */
  ghost function Added(w: World, w': World): seq<Event>
    requires Grows(w, w')
  {
    w'.env.trace[|w.env.trace|..]
  }

  /** Two steps in a row add what each of them adds. */
  lemma AddedAppend(a: World, b: World, c: World)
    requires Grows(a, b) && Grows(b, c)
    ensures Grows(a, c)
    ensures Added(a, c) == Added(a, b) + Added(b, c)
  {
    assert a.env.trace + Added(a, b) == b.env.trace;
    assert b.env.trace + Added(b, c) == c.env.trace;
    assert c.env.trace == a.env.trace + (Added(a, b) + Added(b, c));
  }

  /** An activity call adds exactly its own event. */
  lemma ExecuteAdds(w: World, a: Activities.Activity, timeout: nat, retry: Activities.RetryPolicy)
    ensures var s := ExecuteActivity(w, a, timeout, retry);
            Grows(w, s.w) && Added(w, s.w) == [Called(a, timeout, retry, w.saga.state, s.out)]
  {
    var s := ExecuteActivity(w, a, timeout, retry);
    assert s.w.env.trace == w.env.trace + [Called(a, timeout, retry, w.saga.state, s.out)];
  }

  /** A wait adds exactly its own event. */
  lemma WaitAdds(w: World, c: Condition, timeout: Models.Option<int>)
    ensures var s := WaitCondition(w, c, timeout);
            Grows(w, s.w) && Added(w, s.w) == [Waited(c, timeout, s.out, w.saga.state)]
  {
    var s := WaitCondition(w, c, timeout);
    assert s.w.env.trace == w.env.trace + [Waited(c, timeout, s.out, w.saga.state)];
  }
}
