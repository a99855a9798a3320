/** The behaviour the application's tests pin down, one lemma per test, each
    on the application the test builds. A function that does nothing when
    called (`function(){}`) is a handler that hangs. */
module Scenarios {
  import opened Middleware
  import opened Dispatcher
  import opened Properties

  /** An application with nothing registered answers every request with 404. */
  lemma EmptyAppAnswers404()
    ensures Handle(New()) == Result(Exhausted(Normal), [])
    ensures StatusOf(Handle(New()).outcome) == Code(404)
  {
  }

  /** Two `use` calls leave a queue of two entries, in registration order. */
  lemma UseQueuesTwo()
    ensures var app := Use(Use(New(), Handler("m1", Hang)), Handler("m2", Hang));
            |app.queue| == 2 && app.queue[0].id == "m1" && app.queue[1].id == "m2"
  {
  }

  /** A single handler that ends the response answers with its body. */
  lemma SingleHandlerResponds()
    ensures var app := Use(New(), Handler("m1", End("hello from m1")));
            Handle(app) == Result(Responded("hello from m1"), ["m1"])
            && StatusOf(Handle(app).outcome) == Code(200)
  {
  }

  /** `next()` hands the request on: both handlers run, in registration order,
      and the request then finds nothing. */
  lemma NextCallsInOrder()
    ensures var app := Use(Use(New(), Handler("m1", Next)), Handler("m2", Next));
            Handle(app).trace == ["m1", "m2"]
            && StatusOf(Handle(app).outcome) == Code(404)
  {
  }

  /** `next(err)` with no error handler after it answers 500. */
  lemma UnhandledErrorAnswers500()
    ensures var app := Use(New(), Handler("m1", NextErr("boom!")));
            Handle(app) == Result(Exhausted(ErrorMode("boom!")), ["m1"])
            && StatusOf(Handle(app).outcome) == Code(500)
  {
  }

  /** A synchronous throw with nothing to catch it answers 500 too. */
  lemma UncaughtErrorAnswers500()
    ensures var app := Use(New(), Handler("m1", Throw("boom!")));
            Handle(app) == Result(Exhausted(ErrorMode("boom!")), ["m1"])
            && StatusOf(Handle(app).outcome) == Code(500)
  {
  }

  /** With no error pending the four-argument `e1` is skipped, never invoked,
      so although it would hang, `m2` answers. */
  lemma ErrorHandlerSkippedWithoutError()
    ensures var app := Use(Use(Use(New(), Handler("m1", Next)), ErrorHandler("e1", ErrHang)),
                           Handler("m2", End("m2")));
            Handle(app) == Result(Responded("m2"), ["m1", "m2"])
  {
  }

  /** With an error pending the hanging `m2` is skipped and `e1` answers. */
  lemma NormalHandlerSkippedWithError()
    ensures var app := Use(Use(Use(New(), Handler("m1", NextErr("boom!"))), Handler("m2", Hang)),
                           ErrorHandler("e1", ErrEnd("e1")));
            Handle(app) == Result(Responded("e1"), ["m1", "e1"])
  {
  }

  /** An empty mounted application hands the request to its parent's next
      handler, a two-argument function, which answers. */
  lemma SubAppPassesRequestToParent()
    ensures var app := Use(Use(New(), Mount(New())), Handler("m2", End("m2")));
            Handle(app) == Result(Responded("m2"), ["m2"])
  {
  }

  /** An error raised inside a mounted application reaches the parent's error
      handler unchanged, which writes it as the body. */
  lemma SubAppPassesErrorToParent()
    ensures var sub := Use(New(), Handler("m1", NextErr("m1 error")));
            var app := Use(Use(New(), Mount(sub)), ErrorHandler("e1", ErrEndWithErr));
            Handle(app) == Result(Responded("m1 error"), ["m1", "e1"])
  {
    var sub := Use(New(), Handler("m1", NextErr("m1 error")));
    assert Run(sub.queue, Normal) == Result(Exhausted(ErrorMode("m1 error")), ["m1"]);
    MountPassesErrorUp(sub, "m1 error", [], "e1", [], Normal);
    assert [Mount(sub)] + [] + [ErrorHandler("e1", ErrEndWithErr)] + [] == [Mount(sub), ErrorHandler("e1", ErrEndWithErr)];
  }

  /** The kinds the tests' registrations get: functions of no, two and three
      parameters are normal handlers, four-parameter functions are error
      handlers, and an application is mounted even though, being callable as
      `(req, res, next)`, it also has three parameters. */
  lemma TestHandlerKinds()
    ensures Classify(0, false) == NormalKind
    ensures Classify(2, false) == NormalKind
    ensures Classify(3, false) == NormalKind
    ensures Classify(4, false) == ErrorKind
    ensures Classify(3, true) == AppKind
  {
  }
}
