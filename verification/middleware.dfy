/** The registration side of the middleware engine: the opaque values handlers
    exchange, what one handler does when it is invoked, the entries of an
    application's queue, `app.use`, and the arity-based entry classifier. */
module Middleware {

  /** An opaque payload: a response body or an error value. The engine passes
      it along and never inspects it. */
  type Value = string

  /** The name a handler records in the call trace when it is invoked. */
  type Id = string

  /** What a normal handler `(req, res, next)` does when it is invoked. Each
      handler produces exactly one action. */
  datatype Action =
    | End(body: Value)       // res.end(body)
    | Next                   // next()
    | NextErr(err: Value)    // next(err)
    | Throw(err: Value)      // a synchronous `throw err`
    | Hang                   // returns without calling next or res.end

  /** What an error handler `(err, req, res, next)` does when it is invoked. */
  datatype ErrAction =
    | ErrEnd(body: Value)    // res.end(body)
    | ErrEndWithErr          // res.end(err): answers with the error it received
    | ErrNext                // next(): the error counts as handled
    | ErrNextErr(err: Value) // next(err): replaces the pending error
    | ErrThrow(err: Value)   // a synchronous `throw err`
    | ErrHang                // returns without calling next or res.end

  /** One queue entry, tagged with its kind once, at registration. */
  datatype Entry =
    | Handler(id: Id, act: Action)
    | ErrorHandler(id: Id, errAct: ErrAction)
    | Mount(sub: App)

  /** An application owns one queue, in registration order. */
  datatype App = App(queue: seq<Entry>)

  /** `express()`: an application with an empty queue. */
  function New(): (app: App)
    ensures |app.queue| == 0
  {
    App([])
  }

  /** `app.use(e)`: appends exactly one entry after the existing ones and
      returns the application, so registrations chain. */
  function Use(app: App, e: Entry): (r: App)
    ensures |r.queue| == |app.queue| + 1
    ensures r.queue[..|app.queue|] == app.queue
    ensures r.queue[|app.queue|] == e
  {
    App(app.queue + [e])
  }

  /** The chain `app.use(es[0]).use(es[1])...`. */
  function UseAll(app: App, es: seq<Entry>): App
    decreases |es|
  {
    if es == [] then app else UseAll(Use(app, es[0]), es[1..])
  }

  /** A chain of registrations leaves exactly the registered entries, in
      registration order, after the ones already there. */
  lemma {:induction false} UseAllAppends(app: App, es: seq<Entry>)
    ensures UseAll(app, es).queue == app.queue + es
    decreases |es|
  {
    if es != [] {
      UseAllAppends(Use(app, es[0]), es[1..]);
      assert app.queue + [es[0]] + es[1..] == app.queue + es;
    }
  }

  datatype Kind = NormalKind | ErrorKind | AppKind

  /** The registration-time classifier: an application is mounted; a function
      declaring four parameters is an error handler; a function of any other
      arity (the tests use 0, 2 and 3) is a normal handler. */
  function Classify(arity: nat, isApp: bool): (k: Kind)
    ensures k == AppKind <==> isApp
    ensures k == ErrorKind <==> !isApp && arity == 4
    ensures k == NormalKind <==> !isApp && arity != 4
  {
    if isApp then AppKind
    else if arity == 4 then ErrorKind
    else NormalKind
  }

  /** The ids of every handler in a queue, mounted ones inlined at their
      mount point: the order of registration, depth first. */
  function Ids(q: seq<Entry>): seq<Id>
    decreases q
  {
    if q == [] then []
    else
      match q[0]
      case Handler(id, _) => [id] + Ids(q[1..])
      case ErrorHandler(id, _) => [id] + Ids(q[1..])
      case Mount(sub) =>
        assert q[0] decreases to sub;
        Ids(sub.queue) + Ids(q[1..])
  }

  /** The error values some handler in the queue (or in a mounted one) raises
      with `next(err)` or `throw err`. */
  function Raised(q: seq<Entry>): set<Value>
    decreases q
  {
    if q == [] then {}
    else
      var rest := Raised(q[1..]);
      match q[0]
      case Handler(_, act) =>
        (match act
         case NextErr(e) => {e} + rest
         case Throw(e) => {e} + rest
         case _ => rest)
      case ErrorHandler(_, act) =>
        (match act
         case ErrNextErr(e) => {e} + rest
         case ErrThrow(e) => {e} + rest
         case _ => rest)
      case Mount(sub) =>
        assert q[0] decreases to sub;
        Raised(sub.queue) + rest
  }

  /** A queue with no mounted applications in it. */
  predicate IsFlat(q: seq<Entry>) {
    forall i :: 0 <= i < |q| ==> !q[i].Mount?
  }

  lemma {:induction false} IdsAppend(a: seq<Entry>, b: seq<Entry>)
    ensures Ids(a + b) == Ids(a) + Ids(b)
    decreases a
  {
    if a != [] {
      assert (a + b)[0] == a[0];
      assert (a + b)[1..] == a[1..] + b;
      IdsAppend(a[1..], b);
    } else {
      assert a + b == b;
    }
  }

  lemma {:induction false} RaisedAppend(a: seq<Entry>, b: seq<Entry>)
    ensures Raised(a + b) == Raised(a) + Raised(b)
    decreases a
  {
    if a != [] {
      assert (a + b)[0] == a[0];
      assert (a + b)[1..] == a[1..] + b;
      RaisedAppend(a[1..], b);
    } else {
      assert a + b == b;
    }
  }

  /** Inlines every mounted application's queue at its mount point. The
      result has no mounts and lists the same handlers in the same order,
      raising the same errors. */
  function Flatten(q: seq<Entry>): (r: seq<Entry>)
    decreases q
    ensures IsFlat(r)
    ensures Ids(r) == Ids(q)
    ensures Raised(r) == Raised(q)
  {
    if q == [] then []
    else
      var rest := Flatten(q[1..]);
      match q[0]
      case Mount(sub) =>
        assert q[0] decreases to sub;
        var inner := Flatten(sub.queue);
        IdsAppend(inner, rest);
        RaisedAppend(inner, rest);
        inner + rest
      case _ =>
        IdsAppend([q[0]], rest);
        RaisedAppend([q[0]], rest);
        [q[0]] + rest
  }
}
