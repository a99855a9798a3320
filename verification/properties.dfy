/** What the walk promises about whole queues: continuing handlers all run in
    order and end in "not found"; an error skips normal handlers and reaches
    the first error handler unchanged; a synchronous throw is `next(err)`; a
    mounted application hands its leftover request or error to its parent. */
module Properties {
  import opened Middleware
  import opened Subsequences
  import opened Dispatcher
  import opened Composition

  /** Every normal handler in the queue, mounted ones included, calls `next()`;
      error handlers may do anything. */
  predicate OnlyContinues(q: seq<Entry>)
    decreases q
  {
    q == [] ||
    (&& (match q[0]
         case Handler(_, act) => act == Next
         case ErrorHandler(_, _) => true
         case Mount(sub) =>
           assert q[0] decreases to sub;
           OnlyContinues(sub.queue))
     && OnlyContinues(q[1..]))
  }

  /** No error handler anywhere in the queue, mounted ones included. */
  predicate NoErrorHandlers(q: seq<Entry>)
    decreases q
  {
    q == [] ||
    (&& (match q[0]
         case Handler(_, _) => true
         case ErrorHandler(_, _) => false
         case Mount(sub) =>
           assert q[0] decreases to sub;
           NoErrorHandlers(sub.queue))
     && NoErrorHandlers(q[1..]))
  }

  /** The ids of the normal handlers of a queue, in registration order,
      mounted ones inlined at their mount point. */
  function NormalIds(q: seq<Entry>): seq<Id>
    decreases q
  {
    if q == [] then []
    else
      match q[0]
      case Handler(id, _) => [id] + NormalIds(q[1..])
      case ErrorHandler(_, _) => NormalIds(q[1..])
      case Mount(sub) =>
        assert q[0] decreases to sub;
        NormalIds(sub.queue) + NormalIds(q[1..])
  }

  /** When every normal handler calls `next()`, each of them runs exactly once,
      in registration order, no error handler runs, and the walk runs off the
      end with no error pending: the application answers 404. With an empty
      queue nothing runs at all. */
  lemma {:induction false} ContinuingHandlersRunInOrder(q: seq<Entry>)
    requires OnlyContinues(q)
    ensures Run(q, Normal) == Result(Exhausted(Normal), NormalIds(q))
    ensures StatusOf(Run(q, Normal).outcome) == Code(404)
    decreases q
  {
    if q != [] {
      ContinuingHandlersRunInOrder(q[1..]);
      match q[0]
      case Handler(id, _) =>
      case ErrorHandler(_, _) =>
        assert [] + NormalIds(q[1..]) == NormalIds(q[1..]);
      case Mount(sub) =>
        assert q[0] decreases to sub;
        ContinuingHandlersRunInOrder(sub.queue);
    }
  }

  /** While an error is pending, a queue without error handlers runs nothing
      and hands back exactly the error it was given: at the top level the
      application answers 500. */
  lemma {:induction false} ErrorPassesThrough(q: seq<Entry>, e: Value)
    requires NoErrorHandlers(q)
    ensures Run(q, ErrorMode(e)) == Result(Exhausted(ErrorMode(e)), [])
    ensures StatusOf(Run(q, ErrorMode(e)).outcome) == Code(500)
    decreases q
  {
    if q != [] {
      ErrorPassesThrough(q[1..], e);
      match q[0]
      case Handler(_, _) =>
        assert [] + Run(q[1..], ErrorMode(e)).trace == [];
      case Mount(sub) =>
        assert q[0] decreases to sub;
        ErrorPassesThrough(sub.queue, e);
    }
  }

  /** With no error pending, entries that are all error handlers are skipped:
      the walk goes on as if they were not registered. */
  lemma SkipErrorHandlers(a: seq<Entry>, b: seq<Entry>)
    requires forall i :: 0 <= i < |a| ==> a[i].ErrorHandler?
    ensures Run(a + b, Normal) == Run(b, Normal)
  {
    SkipErrorHandlersAlone(a);
    RunAppend(a, b, Normal);
    assert [] + Run(b, Normal).trace == Run(b, Normal).trace;
  }

  lemma {:induction false} SkipErrorHandlersAlone(a: seq<Entry>)
    requires forall i :: 0 <= i < |a| ==> a[i].ErrorHandler?
    ensures Run(a, Normal) == Result(Exhausted(Normal), [])
    decreases |a|
  {
    if a != [] {
      SkipErrorHandlersAlone(a[1..]);
    }
  }

  /** While an error is pending, entries without error handlers are skipped:
      the walk goes on with the same error as if they were not registered. */
  lemma SkipToErrorHandler(a: seq<Entry>, b: seq<Entry>, e: Value)
    requires NoErrorHandlers(a)
    ensures Run(a + b, ErrorMode(e)) == Run(b, ErrorMode(e))
  {
    ErrorPassesThrough(a, e);
    RunAppend(a, b, ErrorMode(e));
    assert [] + Run(b, ErrorMode(e)).trace == Run(b, ErrorMode(e)).trace;
  }

  /** The first error handler after a run of entries without one receives
      exactly the pending error: one that answers with `res.end(err)` writes
      that error as the body, and nothing registered after it runs. */
  lemma FirstErrorHandlerReceivesError(a: seq<Entry>, id: Id, b: seq<Entry>, e: Value)
    requires NoErrorHandlers(a)
    ensures Run(a + [ErrorHandler(id, ErrEndWithErr)] + b, ErrorMode(e)) == Result(Responded(e), [id])
  {
    assert a + [ErrorHandler(id, ErrEndWithErr)] + b == a + ([ErrorHandler(id, ErrEndWithErr)] + b);
    SkipToErrorHandler(a, [ErrorHandler(id, ErrEndWithErr)] + b, e);
  }

  /** An error handler that calls `next()` clears the error: the walk resumes
      in Normal mode right after it, so later normal handlers run again. */
  lemma ErrorHandlerRecovers(a: seq<Entry>, id: Id, b: seq<Entry>, e: Value)
    requires NoErrorHandlers(a)
    ensures Run(a + [ErrorHandler(id, ErrNext)] + b, ErrorMode(e)) == Prepend([id], Run(b, Normal))
  {
    var x := ErrorHandler(id, ErrNext);
    assert a + [x] + b == a + ([x] + b);
    SkipToErrorHandler(a, [x] + b, e);
    assert ([x] + b)[1..] == b;
  }

  /** Two handler entries that step alike lead to the same walk. */
  lemma SameStepSameRun(x: Entry, y: Entry, b: seq<Entry>, mode: Mode)
    requires !x.Mount? && !y.Mount? && StepAt(x, mode) == StepAt(y, mode)
    ensures Run([x] + b, mode) == Run([y] + b, mode)
  {
    assert ([x] + b)[1..] == b && ([y] + b)[1..] == b;
  }

  /** Replacing, anywhere in a queue, a handler entry by one that steps alike
      in every mode changes nothing a request observes. */
  lemma SameStepAnywhere(a: seq<Entry>, x: Entry, y: Entry, b: seq<Entry>, mode: Mode)
    requires !x.Mount? && !y.Mount?
    requires forall m :: StepAt(x, m) == StepAt(y, m)
    ensures Run(a + [x] + b, mode) == Run(a + [y] + b, mode)
  {
    assert a + [x] + b == a + ([x] + b);
    assert a + [y] + b == a + ([y] + b);
    RunAppend(a, [x] + b, mode);
    RunAppend(a, [y] + b, mode);
    var r := Run(a, mode);
    if r.outcome.Exhausted? {
      SameStepSameRun(x, y, b, r.outcome.mode);
    }
  }

  /** A synchronous `throw err` in a normal handler, at any position of the
      queue, gives the same outcome and trace as calling `next(err)` there. */
  lemma ThrowIsNextErr(a: seq<Entry>, id: Id, e: Value, b: seq<Entry>, mode: Mode)
    ensures Run(a + [Handler(id, Throw(e))] + b, mode) == Run(a + [Handler(id, NextErr(e))] + b, mode)
  {
    SameStepAnywhere(a, Handler(id, Throw(e)), Handler(id, NextErr(e)), b, mode);
  }

  /** The same inside a mounted application: a `throw err` at any position of
      its queue is `next(err)` there, for the parent's whole walk. */
  lemma ThrowIsNextErrInMount(a: seq<Entry>, id: Id, e: Value, b: seq<Entry>, c: seq<Entry>, mode: Mode)
    ensures Run([Mount(App(a + [Handler(id, Throw(e))] + b))] + c, mode)
              == Run([Mount(App(a + [Handler(id, NextErr(e))] + b))] + c, mode)
  {
    ThrowIsNextErr(a, id, e, b, mode);
    assert ([Mount(App(a + [Handler(id, Throw(e))] + b))] + c)[1..] == c;
    assert ([Mount(App(a + [Handler(id, NextErr(e))] + b))] + c)[1..] == c;
  }

  /** The same for an error handler: throwing is `next(err)`. */
  lemma ErrThrowIsErrNextErr(a: seq<Entry>, id: Id, e: Value, b: seq<Entry>, mode: Mode)
    ensures Run(a + [ErrorHandler(id, ErrThrow(e))] + b, mode) == Run(a + [ErrorHandler(id, ErrNextErr(e))] + b, mode)
  {
    SameStepAnywhere(a, ErrorHandler(id, ErrThrow(e)), ErrorHandler(id, ErrNextErr(e)), b, mode);
  }

  /** A mounted application that runs off its end falls through: the parent
      carries on at its next entry, whatever that is, in the mode the mounted
      application ended in, after the handlers the mounted application ran. */
  lemma MountFallsThrough(sub: App, b: seq<Entry>, mode: Mode)
    requires Run(sub.queue, mode).outcome.Exhausted?
    ensures Run([Mount(sub)] + b, mode)
              == Prepend(Run(sub.queue, mode).trace, Run(b, Run(sub.queue, mode).outcome.mode))
  {
    assert ([Mount(sub)] + b)[1..] == b;
  }

  /** A mounted application that runs off its end with error `e` pending
      resumes the parent in Error mode with that same `e`: the parent's first
      error handler after the mount point receives it unchanged. */
  lemma MountPassesErrorUp(sub: App, e: Value, c: seq<Entry>, id: Id, b: seq<Entry>, mode: Mode)
    requires Run(sub.queue, mode).outcome == Exhausted(ErrorMode(e))
    requires NoErrorHandlers(c)
    ensures Run([Mount(sub)] + c + [ErrorHandler(id, ErrEndWithErr)] + b, mode)
              == Result(Responded(e), Run(sub.queue, mode).trace + [id])
  {
    var rest := c + [ErrorHandler(id, ErrEndWithErr)] + b;
    assert [Mount(sub)] + c + [ErrorHandler(id, ErrEndWithErr)] + b == [Mount(sub)] + rest;
    MountFallsThrough(sub, rest, mode);
    FirstErrorHandlerReceivesError(c, id, b, e);
  }

  /** Walking a prefix that runs off its end with no error pending and then a
      handler entry: the handler's step comes right after the prefix's trace. */
  lemma AfterPrefix(a: seq<Entry>, x: Entry, b: seq<Entry>)
    requires Run(a, Normal).outcome == Exhausted(Normal)
    ensures Run(a + [x] + b, Normal) == Prepend(Run(a, Normal).trace, Run([x] + b, Normal))
  {
    assert a + [x] + b == a + ([x] + b);
    RunAppend(a, [x] + b, Normal);
  }

  /** `res.end(body)` in a normal handler reached with no error pending answers
      exactly `body`, and nothing registered after it runs. */
  lemma EndAnswersBody(a: seq<Entry>, id: Id, body: Value, b: seq<Entry>)
    requires Run(a, Normal).outcome == Exhausted(Normal)
    ensures Run(a + [Handler(id, End(body))] + b, Normal)
              == Result(Responded(body), Run(a, Normal).trace + [id])
  {
    AfterPrefix(a, Handler(id, End(body)), b);
  }

  /** `next()` in a normal handler reached with no error pending goes on with
      the next entry, still with no error pending. */
  lemma NextContinues(a: seq<Entry>, id: Id, b: seq<Entry>)
    requires Run(a, Normal).outcome == Exhausted(Normal)
    ensures Run(a + [Handler(id, Next)] + b, Normal)
              == Prepend(Run(a, Normal).trace + [id], Run(b, Normal))
  {
    AfterPrefix(a, Handler(id, Next), b);
    assert ([Handler(id, Next)] + b)[1..] == b;
    var r := Run(b, Normal);
    assert Run(a, Normal).trace + ([id] + r.trace) == Run(a, Normal).trace + [id] + r.trace;
  }

  /** `next(err)` in a normal handler reached with no error pending goes on in
      Error mode carrying exactly `err`: every entry up to the next error
      handler is skipped, and that error handler receives `err` unchanged and
      can answer it with `res.end(err)`. */
  lemma RaiseReachesFirstErrorHandler(a: seq<Entry>, id: Id, e: Value, c: seq<Entry>, id2: Id, b: seq<Entry>)
    requires Run(a, Normal).outcome == Exhausted(Normal)
    requires NoErrorHandlers(c)
    ensures Run(a + [Handler(id, NextErr(e))] + c + [ErrorHandler(id2, ErrEndWithErr)] + b, Normal)
              == Result(Responded(e), Run(a, Normal).trace + [id, id2])
  {
    var x := Handler(id, NextErr(e));
    var rest := c + [ErrorHandler(id2, ErrEndWithErr)] + b;
    assert a + [x] + c + [ErrorHandler(id2, ErrEndWithErr)] + b == a + [x] + rest;
    AfterPrefix(a, x, rest);
    assert ([x] + rest)[1..] == rest;
    FirstErrorHandlerReceivesError(c, id2, b, e);
    assert Run(a, Normal).trace + ([id] + [id2]) == Run(a, Normal).trace + [id, id2];
  }

  /** Each handler runs at most once and in registration order, so a request
      never invokes more handlers than the queue holds. */
  lemma TraceIsBounded(q: seq<Entry>, mode: Mode)
    ensures |Run(q, mode).trace| <= |Ids(q)|
    ensures forall id :: id in Run(q, mode).trace ==> id in Ids(q)
  {
    var r := Run(q, mode);
    SubseqLength(r.trace, Ids(q));
    forall id | id in r.trace ensures id in Ids(q) {
      SubseqMembers(r.trace, Ids(q), id);
    }
  }
}
