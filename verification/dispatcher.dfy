/** The dispatcher: one request walks an application's queue with a cursor and
    an error slot. Error handlers are skipped while no error is pending, normal
    handlers while one is, and a mounted application is walked recursively,
    falling through to its parent's next entry when it runs off its end. */
module Dispatcher {
  import opened Middleware
  import opened Subsequences

  /** The error slot: empty, or holding one opaque error value. */
  datatype Mode = Normal | ErrorMode(err: Value)

  /** How a walk over one queue ends: a handler wrote the response, a handler
      neither continued nor responded (the request hangs), or the walk ran off
      the end of the queue in the given mode. */
  datatype Outcome =
    | Responded(body: Value)
    | Hung(at: Id)
    | Exhausted(mode: Mode)

  /** An outcome together with the ids of the handlers invoked, in call order. */
  datatype Result = Result(outcome: Outcome, trace: seq<Id>)

  /** `r`, preceded by the handlers invoked in `t`. */
  function Prepend(t: seq<Id>, r: Result): Result {
    Result(r.outcome, t + r.trace)
  }

  /** What one step of the walk does at a handler entry: it stops the walk
      with an outcome, or it goes on to the next entry in a (possibly new)
      mode. Either way `invoked` lists the handler if it was called. */
  datatype Step =
    | Stop(outcome: Outcome, invoked: seq<Id>)
    | Go(invoked: seq<Id>, next: Mode)

  /** The handler's action ends its step: it answers or it hangs. */
  predicate Terminal(e: Entry) {
    || (e.Handler? && (e.act.End? || e.act.Hang?))
    || (e.ErrorHandler? && (e.errAct.ErrEnd? || e.errAct.ErrEndWithErr? || e.errAct.ErrHang?))
  }

  /** The handler's action neither continues nor answers. */
  predicate Hangs(e: Entry) {
    (e.Handler? && e.act.Hang?) || (e.ErrorHandler? && e.errAct.ErrHang?)
  }

  /** One step at a normal handler or an error handler. A handler runs only
      when its kind matches the mode: normal handlers while no error is
      pending, error handlers while one is; otherwise it is skipped and the
      mode is kept. A handler that runs either responds, hangs, or goes on:
      `next()` leaves (or returns to) Normal mode, `next(err)` and `throw err`
      go on in Error mode carrying exactly `err`. */
  function StepAt(e: Entry, mode: Mode): (s: Step)
    requires !e.Mount?
    ensures s.invoked == [] <==> (e.Handler? <==> mode.ErrorMode?)
    ensures s.invoked != [] ==> s.invoked == [e.id]
    ensures s.invoked == [] ==> s == Go([], mode)
    ensures s.invoked != [] ==> (s.Stop? <==> Terminal(e))
    ensures s.Stop? ==> (s.outcome == Hung(e.id) <==> Hangs(e))
    ensures s.Stop? ==> s.outcome.Responded? || s.outcome == Hung(e.id)
    ensures s.Stop? && s.outcome.Responded? && e.Handler? ==> e.act == End(s.outcome.body)
    ensures s.Stop? && s.outcome.Responded? && e.ErrorHandler? ==>
              e.errAct == ErrEnd(s.outcome.body) || (e.errAct == ErrEndWithErr && s.outcome.body == mode.err)
    ensures s.Go? && s.invoked != [] ==> (s.next == Normal <==> Raised([e]) == {})
    ensures s.Go? && s.invoked != [] && s.next.ErrorMode? ==> Raised([e]) == {s.next.err}
  {
    match e
    case Handler(id, act) =>
      if mode.ErrorMode? then Go([], mode)
      else
        (match act
         case End(body) => Stop(Responded(body), [id])
         case Next => Go([id], Normal)
         case NextErr(err) => Go([id], ErrorMode(err))
         case Throw(err) => Go([id], ErrorMode(err))
         case Hang => Stop(Hung(id), [id]))
    case ErrorHandler(id, act) =>
      if mode.Normal? then Go([], mode)
      else
        (match act
         case ErrEnd(body) => Stop(Responded(body), [id])
         case ErrEndWithErr => Stop(Responded(mode.err), [id])
         case ErrNext => Go([id], Normal)
         case ErrNextErr(err) => Go([id], ErrorMode(err))
         case ErrThrow(err) => Go([id], ErrorMode(err))
         case ErrHang => Stop(Hung(id), [id]))
  }

  /** Walks `q` from its first entry with the error slot `mode`.
      The handlers invoked form a subsequence of the queue's handlers: each
      runs at most once, in registration order, mounted ones included. A hung
      request hangs in the last handler invoked. An error pending at the end
      is either the one the walk started with or one some handler raised: the
      dispatcher never makes errors up. */
  function Run(q: seq<Entry>, mode: Mode): (r: Result)
    decreases q
    ensures IsSubseq(r.trace, Ids(q))
    ensures r.outcome.Hung? ==> |r.trace| > 0 && r.trace[|r.trace| - 1] == r.outcome.at
    ensures r.outcome.Exhausted? && r.outcome.mode.ErrorMode? ==>
              mode == r.outcome.mode || r.outcome.mode.err in Raised(q)
  {
    if q == [] then Result(Exhausted(mode), [])
    else if q[0].Mount? then
      var sub := q[0].sub;
      assert q[0] decreases to sub;
      var inner := Run(sub.queue, mode);
      if inner.outcome.Exhausted? then
        // fall through to the parent's next entry, carrying any pending error
        var outer := Run(q[1..], inner.outcome.mode);
        SubseqAppend(inner.trace, Ids(sub.queue), outer.trace, Ids(q[1..]));
        Prepend(inner.trace, outer)
      else
        SubseqAppend(inner.trace, Ids(sub.queue), [], Ids(q[1..]));
        assert inner.trace + [] == inner.trace;
        inner
    else
      match StepAt(q[0], mode)
      case Stop(outcome, invoked) => Result(outcome, invoked)
      case Go(invoked, next) =>
        var rest := Run(q[1..], next);
        SubseqCons(q[0].id, rest.trace, Ids(q[1..]));
        assert Ids(q) == [q[0].id] + Ids(q[1..]);
        assert invoked + rest.trace == rest.trace || invoked + rest.trace == [q[0].id] + rest.trace;
        Prepend(invoked, rest)
  }

  /** The status the HTTP layer answers with for an outcome of the whole
      application; a hung request gets none. */
  datatype Status = Code(code: nat) | NoStatus

  /** A written response answers 200 (the response's default status), running
      off the end answers 404 when no error is pending and 500 when one is. */
  function StatusOf(o: Outcome): (s: Status)
    ensures s == Code(200) <==> o.Responded?
    ensures s == Code(404) <==> o == Exhausted(Normal)
    ensures s == Code(500) <==> o.Exhausted? && o.mode.ErrorMode?
    ensures s == NoStatus <==> o.Hung?
  {
    match o
    case Responded(_) => Code(200)
    case Hung(_) => NoStatus
    case Exhausted(Normal) => Code(404)
    case Exhausted(ErrorMode(_)) => Code(500)
  }

  /** One request to the top-level application: a fresh walk, no error pending. */
  function Handle(app: App): Result {
    Run(app.queue, Normal)
  }
}
