# Middleware dispatch engine, modelled in Dafny

A minimal Express-style application keeps a queue of middleware. `app.use(h)`
appends `h` and returns the application, so registrations chain. A request
walks the queue with a cursor and an error slot:

- normal handlers `(req, res, next)` run while no error is pending;
- error handlers `(err, req, res, next)` run only while one is;
- `next()` moves on, `next(err)` or a synchronous `throw err` moves on with `err` pending;
- `res.end(body)` answers and stops the walk;
- a handler that does none of these leaves the request hanging;
- a mounted sub-application is walked recursively; when it runs off its end, the parent carries on at its next entry, with any pending error;
- running off the end of the top-level queue answers 404 when no error is pending and 500 when one is.

The implementation module (`require("../")`, test/app_spec.js:2) is not part of this model. The model restates what test/app_spec.js asserts about it, plus the choices listed below, which no test decides.

Modules:

- `Middleware` (middleware.dfy): entries, actions, `New`, `Use`, the arity classifier, and `Flatten`, which inlines mounted queues.
- `Dispatcher` (dispatcher.dfy): the per-entry step `StepAt`, the recursive walk `Run`, and the mapping of outcomes to HTTP status.
- `Composition` (composition.dfy): walking `a + b` is walking `a` and then `b`. Hence mounting a sub-application is the same as inlining its queue.
- `Engine` (engine.dfy): the walk as an explicit loop over a cursor and an error slot, proved equal to `Run`.
- `Properties` (properties.dfy): skipping, ordering, error propagation and fall-through, over all queues.
- `Scenarios` (scenarios.dfy): one lemma per test, on the application that test builds.
- `Subsequences` (subsequences.dfy): the subsequence relation used to state "at most once, in registration order".

Every handler is modelled by the single action it takes when invoked. For a normal handler that is `Action`; for an error handler it is `ErrAction`, which adds `ErrEndWithErr` for `res.end(err)`. A function that does nothing (`function(){}`, test/app_spec.js:35, 105-106, 117-118) is `Hang`, so invoking it would show up as a `Hung` outcome. "Was skipped" is therefore observable. Bodies and error values are opaque strings. The `new Error("boom!")` of the tests is represented by the string `"boom!"`.

These choices go beyond what the tests show:

- The tests mount applications only while no error is pending (test/app_spec.js:133-143). While an error is pending, the model still walks into a mounted application, where only its error handlers can run. A mounted application's error handler can therefore answer an error raised in its parent.
- An error is any value passed to `next`, so `next("")` also raises an error. A JavaScript implementation that tests `if (err)` would treat it as `next()`.
- The tests never call `next()` inside an error handler. The model follows the usual convention: the error counts as handled and the walk resumes in Normal mode (`Properties.ErrorHandlerRecovers`).
- The tests never call `next(err)` inside an error handler. In the model it replaces the pending error with `err`, and the walk stays in Error mode.
- The tests never throw inside an error handler. In the model a synchronous `throw err` there behaves like `next(err)`, as it does in a normal handler (`Properties.ErrThrowIsErrNextErr`).
- The tests check the body of a written response but not its status. The model answers 200, the default status of a response.

The tests register functions of arity 0 (test/app_spec.js:35) and 2 (test/app_spec.js:135) as normal handlers. So `Classify` treats every arity other than four as a normal handler, not only arity three.

## Model

| member | source | states |
|---|---|---|
| Middleware.New | test/app_spec.js:7 | `express()` gives an application whose queue is empty |
| Middleware.Use | test/app_spec.js:42-46 | `use` adds exactly one entry, after all existing ones, which stay unchanged |
| Middleware.UseAllAppends | test/app_spec.js:110 | a chain `app.use(a).use(b)...` leaves exactly the registered entries, in registration order |
| Middleware.Classify | test/app_spec.js:101-124 | a four-parameter function is an error handler, an application is mounted, any other function is a normal handler (each as an if-and-only-if) |
| Middleware.Flatten | test/app_spec.js:127-143 | inlining mounted applications leaves no mounts, keeps the same handler ids in the same order and the same set of raised errors; that walking the result is walking the original is `Composition.RunFlatten` |
| Dispatcher.StepAt | test/app_spec.js:101-124 | a handler is invoked exactly when its kind matches the mode, and a skipped one leaves the mode unchanged; an invoked handler stops the walk exactly when it answers or hangs, and hangs exactly when its action is to hang; a normal handler answers only its own `res.end` body, an error handler its own body or the pending error; after an invoked handler the walk goes on in Normal mode exactly when it raised nothing, and otherwise carries exactly the error it raised |
| Properties.EndAnswersBody | test/app_spec.js:56-62 | after any prefix that runs off its end with no error pending, a handler calling `res.end(body)` answers exactly `body`, and nothing after it runs |
| Properties.NextContinues | test/app_spec.js:64-79 | after such a prefix, a handler calling `next()` is invoked and the walk goes on with the next entry, still with no error pending |
| Properties.RaiseReachesFirstErrorHandler | test/app_spec.js:113-124 | after such a prefix, `next(err)` skips every entry up to the next error handler, which receives exactly `err` and can answer it |
| Dispatcher.Run | test/app_spec.js:64-79 | the handlers invoked form a subsequence of the queue's handlers (each at most once, in registration order); a hang is in the last handler invoked; an error pending at the end was either already pending or raised by some handler |
| Dispatcher.StatusOf | test/app_spec.js:87-100 | a response answers 200; exhaustion with no error answers 404 (test/app_spec.js:12); exhaustion with a pending error answers 500; a hung request gets no status |
| Composition.RunAppend | test/app_spec.js:133-137 | walking `a + b` is walking `a` and, only if it ran off its end, walking `b` in the mode `a` ended in, traces concatenated |
| Composition.RunFlatten | test/app_spec.js:127-143 | walking a queue with mounted applications gives the same outcome and trace as walking its flattening |
| Composition.TerminatedIgnoresSuffix | test/app_spec.js:56-62 | once a walk has responded or hung, entries registered later never run |
| Engine.Dispatch | test/app_spec.js:49-124 | the cursor-and-error-slot loop gives the same outcome and trace as the recursive walk |
| Properties.ContinuingHandlersRunInOrder | test/app_spec.js:64-79 | when every normal handler calls `next()`, each runs exactly once in registration order, no error handler runs, and the answer is 404 |
| Properties.ErrorPassesThrough | test/app_spec.js:87-93 | with an error pending and no error handler, nothing runs and exactly that error is left pending, answering 500 |
| Properties.SkipErrorHandlers | test/app_spec.js:101-112 | with no error pending, error handlers are skipped as if unregistered |
| Properties.SkipToErrorHandler | test/app_spec.js:113-124 | with an error pending, entries without error handlers are skipped, the same error kept |
| Properties.FirstErrorHandlerReceivesError | test/app_spec.js:138-143 | the first error handler after the raise receives exactly the pending error, and `res.end(err)` writes it as the body |
| Properties.ThrowIsNextErr | test/app_spec.js:94-100 | a synchronous `throw err` at any position of the queue gives the same outcome and trace as `next(err)` there |
| Properties.ThrowIsNextErrInMount | test/app_spec.js:94-100 | the same at any position inside a mounted application's queue, for the parent's whole walk |
| Properties.ErrorHandlerRecovers | test/app_spec.js:119-121 | chosen behaviour beyond the tests: an error handler reached with an error pending that calls `next()` clears the error, and the walk resumes in Normal mode right after it |
| Properties.ErrThrowIsErrNextErr | test/app_spec.js:119-121 | chosen behaviour beyond the tests: a synchronous `throw err` in an error handler, at any position of the queue, gives the same outcome and trace as `next(err)` there |
| Properties.MountFallsThrough | test/app_spec.js:133-137 | a mounted application that runs off its end lets the parent carry on at its next entry, whatever follows, in the mode the mounted application ended in |
| Properties.MountPassesErrorUp | test/app_spec.js:138-143 | a mounted application that runs off its end with error `e` resumes the parent in Error mode with that same `e`, which the parent's first error handler after the mount receives unchanged |
| Properties.TraceIsBounded | test/app_spec.js:64-79 | a request never invokes more handlers than the queue holds, and only handlers of the queue |
| Scenarios.EmptyAppAnswers404 | test/app_spec.js:10-13 | an application with nothing registered answers 404, running nothing |
| Scenarios.UseQueuesTwo | test/app_spec.js:42-46 | two `use` calls give a queue of length two, in order |
| Scenarios.TestHandlerKinds | test/app_spec.js:133-143 | the tests' registrations classify as they are used: two- and three-parameter functions are normal handlers, a four-parameter function is an error handler, an application is mounted |
| Scenarios.SingleHandlerResponds | test/app_spec.js:56-62 | a single handler ending with "hello from m1" answers that body |
| Scenarios.NextCallsInOrder | test/app_spec.js:64-79 | the call trace is exactly `["m1", "m2"]` |
| Scenarios.UnhandledErrorAnswers500 | test/app_spec.js:87-93 | `next(err)` with no error handler answers 500 |
| Scenarios.UncaughtErrorAnswers500 | test/app_spec.js:94-100 | a synchronous throw with no error handler answers 500 |
| Scenarios.ErrorHandlerSkippedWithoutError | test/app_spec.js:101-112 | the hanging error handler `e1` is never invoked, and `m2` answers "m2" |
| Scenarios.NormalHandlerSkippedWithError | test/app_spec.js:113-124 | the hanging `m2` is never invoked, and `e1` answers "e1" |
| Scenarios.SubAppPassesRequestToParent | test/app_spec.js:133-137 | an empty mounted application falls through, and the parent's handler answers "m2" |
| Scenarios.SubAppPassesErrorToParent | test/app_spec.js:138-143 | the sub-application's error "m1 error" reaches the parent's error handler, which answers it as the body |

## Left out

- The HTTP server: `http.createServer`, `app.listen`, port binding and the `http.Server` instance check (test/app_spec.js:11, 17-24). These are I/O. Only the mapping from outcome to status is modelled (`Dispatcher.StatusOf`).
- The supertest and chai request machinery, and the `req`/`res` objects. These are opaque; a response is only its body in the outcome.
- The bodies of the 404 and 500 answers. The tests check only their status codes.
- Asynchronous continuation: `next` called on a later tick, or called more than once. Each handler produces exactly one action, synchronously.
- `Function.length` introspection. Entries carry their kind as a tag; `Middleware.Classify` states the rule from arity alone.
- Request paths. `/foo`, `/test` and `/` do not affect dispatch in any test.
- Mounted applications as shared references. An application is a value, so a sub-application changed after it was mounted would not be seen by the parent. The tests finish registration before any request.
- Error objects. An error is an opaque value represented as a string; `new Error("boom!")` becomes `"boom!"`.
