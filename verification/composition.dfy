/** Mounting composes queues: walking a mounted application and falling
    through to its parent is the same as walking one queue in which the
    mounted application's entries are inlined at the mount point. */
module Composition {
  import opened Middleware
  import opened Dispatcher

  /** Continues a walk that ended with `r` over the entries `b` that follow:
      only a walk that ran off its end goes on, in the mode it ended in. */
  function Then(r: Result, b: seq<Entry>): Result {
    if r.outcome.Exhausted? then Prepend(r.trace, Run(b, r.outcome.mode)) else r
  }

  /** Walking `a + b` is walking `a` and then, if it ran off its end, `b`. */
  lemma {:induction false} RunAppend(a: seq<Entry>, b: seq<Entry>, mode: Mode)
    ensures Run(a + b, mode) == Then(Run(a, mode), b)
    decreases a
  {
    if a == [] {
      assert a + b == b;
      assert [] + Run(b, mode).trace == Run(b, mode).trace;
    } else {
      assert (a + b)[0] == a[0];
      assert (a + b)[1..] == a[1..] + b;
      if a[0].Mount? {
        var inner := Run(a[0].sub.queue, mode);
        if inner.outcome.Exhausted? {
          RunAppend(a[1..], b, inner.outcome.mode);
          PrependThen(inner.trace, Run(a[1..], inner.outcome.mode), b);
        }
      } else {
        var s := StepAt(a[0], mode);
        if s.Go? {
          RunAppend(a[1..], b, s.next);
          PrependThen(s.invoked, Run(a[1..], s.next), b);
        }
      }
    }
  }

  lemma PrependThen(t: seq<Id>, r: Result, b: seq<Entry>)
    ensures Then(Prepend(t, r), b) == Prepend(t, Then(r, b))
  {
    if r.outcome.Exhausted? {
      assert t + r.trace + Run(b, r.outcome.mode).trace == t + (r.trace + Run(b, r.outcome.mode).trace);
    }
  }

  /** Delegation is inlining: walking a queue with mounted applications gives
      the same outcome and the same call trace as walking its flattening. */
  lemma {:induction false} RunFlatten(q: seq<Entry>, mode: Mode)
    ensures Run(Flatten(q), mode) == Run(q, mode)
    decreases q
  {
    if q != [] {
      var rest := Flatten(q[1..]);
      if q[0].Mount? {
        var sub := q[0].sub;
        assert q[0] decreases to sub;
        RunAppend(Flatten(sub.queue), rest, mode);
        RunFlatten(sub.queue, mode);
        var r := Run(sub.queue, mode);
        if r.outcome.Exhausted? {
          RunFlatten(q[1..], r.outcome.mode);
        }
      } else {
        assert Flatten(q) == [q[0]] + rest;
        assert ([q[0]] + rest)[1..] == rest;
        var s := StepAt(q[0], mode);
        if s.Go? {
          RunFlatten(q[1..], s.next);
        }
      }
    }
  }

  /** Once a walk has responded or hung, entries registered after it never run. */
  lemma TerminatedIgnoresSuffix(a: seq<Entry>, b: seq<Entry>, mode: Mode)
    requires !Run(a, mode).outcome.Exhausted?
    ensures Run(a + b, mode) == Run(a, mode)
  {
    RunAppend(a, b, mode);
  }
}
