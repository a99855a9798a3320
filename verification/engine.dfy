/** The dispatcher as the state machine an implementation runs: a cursor and
    an error slot stepped over the queue, one entry per step, the cursor only
    ever moving forward. Mounted applications are inlined first; by
    `Composition.RunFlatten` this does not change what a request observes. */
module Engine {
  import opened Middleware
  import opened Dispatcher
  import opened Composition

  /** One step of the walk at the cursor `i` of a queue without mounts. */
  lemma RunAtCursor(q: seq<Entry>, i: nat, mode: Mode)
    requires i < |q| && IsFlat(q)
    ensures StepAt(q[i], mode).Stop? ==>
              Run(q[i..], mode) == Result(StepAt(q[i], mode).outcome, StepAt(q[i], mode).invoked)
    ensures StepAt(q[i], mode).Go? ==>
              Run(q[i..], mode) == Prepend(StepAt(q[i], mode).invoked, Run(q[i + 1..], StepAt(q[i], mode).next))
  {
    assert q[i..][0] == q[i];
    assert q[i..][1..] == q[i + 1..];
  }

  lemma PrependTwice(t: seq<Id>, u: seq<Id>, r: Result)
    ensures Prepend(t, Prepend(u, r)) == Prepend(t + u, r)
  {
    assert t + (u + r.trace) == (t + u) + r.trace;
  }

  /** Serves one request and returns how it ended and which handlers ran,
      exactly as the recursive walk `Dispatcher.Handle` describes. */
  method Dispatch(app: App) returns (outcome: Outcome, trace: seq<Id>)
    ensures Result(outcome, trace) == Handle(app)
  {
    var q := Flatten(app.queue);
    RunFlatten(app.queue, Normal);
    var i := 0;
    var mode := Normal;
    trace := [];
    while i < |q|
      invariant 0 <= i <= |q|
      invariant Prepend(trace, Run(q[i..], mode)) == Run(q, Normal)
    {
      var s := StepAt(q[i], mode);
      RunAtCursor(q, i, mode);
      if s.Stop? {
        outcome, trace := s.outcome, trace + s.invoked;
        return;
      }
      PrependTwice(trace, s.invoked, Run(q[i + 1..], s.next));
      trace, mode, i := trace + s.invoked, s.next, i + 1;
    }
    assert q[i..] == [];
    outcome := Exhausted(mode);
  }
}
