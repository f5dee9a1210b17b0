# Promises — a Dafny model of the resolver and its combinators

The Swift package `Promises` gives three variants of a promise library:

- `Promises`: the promise is typed as `Promise<T, Failure>`.
- `PromisesCore`: failures are untyped `Error`s, and user code may throw.
- `PromisesExt`: the same API as `PromisesCore`. Each promise also keeps the action that resolved it, so a failed promise can be replayed (`recoverChain`) and retried (`attempt(times:)`).

At the heart of each variant is a `Resolver`, an exactly-once result box. It starts `sealed` with a queue of handlers. The first `resolve` moves it to `resolved(result)`, or to `cancelled` for `resolve(nil)`. At that point the queued handlers run once, in order, with the result. `inspect` queues a handler, or calls it at once if the resolver is already resolved. `pipe(to:)` makes one resolver follow another. The state sits behind an `Atomic` cell whose write lock brackets every state change.

Each combinator is a fresh promise whose resolver is settled by one closure registered on the source:

- `bind`, `onSuccess`, `catch`, `done`, `then`, `compactMap`, `map`, `asVoid`, `asAny` and `recover`;
- the free functions `after`, `attempt`, `firstly` and `when(fulfilled:)`.

The model has three layers:

- **State machine.** `Sealants` is the resolver state machine, stated on values. `Run` runs a trace of `inspect`/`resolve` calls, and `RunFromSealed` is the resolver's contract: the first resolution wins, and every handler is called exactly once, in registration order.
- **Classes.** Each variant has its own resolver class, proved against that state machine. Each atomic cell is a class too.
- **Outcomes.** `Outcomes` states a combinator as a function from the source promise's eventual outcome to the downstream's eventual outcome. An outcome is pending, resolved or cancelled. The function also returns the arguments the user closure was called with. It is built on `Sealants.Step` applied to a fresh sealed resolver.

Modelling conventions:

- Handlers are defunctionalised. `Callback(id)` is user code. `Forward(target)` is the closure registered by `pipe`, and `Deliver` performs it.
- User code that throws is `Throwing.Returns`/`Throwing.Throws`.
- Every dispatch queue is `nil`, so every closure runs inline.
- The delay of `after` is a flag, `elapsed`.

Where the code and its documentation disagree, the model follows the code, except for `PromisesCore`'s resolver, where both readings are modelled:

- **`PromisesCore` lock closures.** The closures of `PromisesCore`'s resolver return the state they mean to install, and `Atomic.withWriteLock` drops that value. As written, no `PromisesCore` resolver ever changes state (see Findings). The rest of the model uses the evident intent.
- **`PromisesCore` cancel.** Under that intent, `cancel()` in `PromisesCore` has no `sealed` check, so it overwrites even a resolved state. It does not keep the resolved state terminal.
- **`PromisesExt` attempt.** `attempt(times: n)` in `PromisesExt` replays the action up to `n + 1` times, not `n`.

## Model

| member | source | states |
|---|---|---|
| Atomic.Atomic.constructor | Sources/Atomic/Atomic.swift:16-18 | a new cell holds the given value, its lock free and no section taken |
| Atomic.Atomic.Write | Sources/Atomic/Atomic.swift:20-24 | the value becomes `v`, inside exactly one write section, and the lock is free again afterwards |
| Atomic.Atomic.Read | Sources/Atomic/Atomic.swift:26-30 | returns the value, leaves it unchanged, takes one read section |
| Atomic.Atomic.WithWriteLock | Sources/Atomic/Atomic.swift:32-36 | the closure sees the old value; what it leaves in its `inout` argument becomes the value and what it returns is returned; one write section |
| Atomic.Atomic.WithReadLock | Sources/Atomic/Atomic.swift:38-42 | returns the closure applied to the unchanged value; one read section |
| Atomic.WriteThenRead | Sources/Atomic/Atomic.swift:20-30 | a write followed by a read returns the written value, after a write section then a read section |
| PromisesAtomic.UnfairLock.constructor | Sources/Promises/atomic.swift:15-17 | a new lock is free |
| PromisesAtomic.UnfairLock.Lock | Sources/Promises/atomic.swift:24-26 | a free lock becomes held |
| PromisesAtomic.UnfairLock.Unlock | Sources/Promises/atomic.swift:28-30 | a held lock becomes free, completing one section |
| PromisesAtomic.UnfairLock.WithLock | Sources/Promises/atomic.swift:33-36 | runs the closure once under the lock, returns its result, and the lock is free afterwards |
| PromisesAtomic.Atomic.constructor | Sources/Promises/atomic.swift:44-46 | a new cell holds the value, with a fresh free lock |
| PromisesAtomic.Atomic.Read | Sources/Promises/atomic.swift:48-52 | returns the current value inside one lock section |
| PromisesAtomic.Atomic.Write | Sources/Promises/atomic.swift:54-58 | the value becomes `v` inside one lock section |
| PromisesAtomic.Atomic.WithWriteLock | Sources/Promises/atomic.swift:60-64 | the closure's `inout` result becomes the value and its return value is returned, in one section |
| PromisesAtomic.Atomic.WithReadLock | Sources/Promises/atomic.swift:66-70 | returns the closure applied to the value, in one section |
| PromisesAtomic.WriteThenRead | Sources/Promises/atomic.swift:48-58 | a write followed by a read returns the written value |
| Sealants.Invocations | Sources/Promises/resolver.swift:58 | each captured handler is called once, in queue order, with the value |
| Sealants.HandlersOf | Sources/Promises/resolver.swift:58 | recovers, in order, which handler each call went to |
| Sealants.ResolveSection | Sources/Promises/resolver.swift:43-56 | defines the write-lock closure of `resolve`: only a sealed state moves; `nil` cancels and drops the queue, a value resolves and captures the queue |
| Sealants.InspectSection | Sources/Promises/resolver.swift:77-87 | defines the write-lock closure of `inspect`: sealed appends the handler, resolved hands out its result, cancelled does nothing |
| Sealants.Step | Sources/Promises/resolver.swift:38-90 | defines one `inspect` or `resolve`: the section's new state, then the handler calls made after the lock |
| Sealants.Run | Sources/Promises/resolver.swift:38-90 | defines a top-level trace of operations run one after the other: final state and all handler calls in order |
| Sealants.RunHandlers | Sources/Promises/resolver.swift:58 | the `forEach` loop calls handler k as the k-th call, with the value, and makes no other call |
| Sealants.InvocationsAppend | Sources/Promises/resolver.swift:58 | calling the queue `a + b` is calling `a` then calling `b` |
| Sealants.RunFromResolved | Sources/Promises/resolver.swift:43-87 | once resolved, a resolver stays resolved; every later `inspect` fires at once with the value and every later `resolve` does nothing |
| Sealants.RunFromCancelled | Sources/Promises/resolver.swift:43-87 | once cancelled, a resolver stays cancelled and calls no handler again |
| Sealants.RunFromSealed | Sources/Promises/resolver.swift:38-90 | over any trace started sealed, the first `resolve` decides the final state; on a value, every handler queued or registered later is called once, in registration order, with that value; on a cancellation, or with no resolution, no handler is called |
| Sealants.DeliveredAsRegistered | Sources/Promises/resolver.swift:38-90 | exactly-once delivery: each handler is called as many times as it was registered if the resolver ends resolved, and never otherwise |
| PromisesResolver.Resolver.constructor | Sources/Promises/resolver.swift:30-36 | given a result, the resolver is resolved from the start; otherwise it is sealed with no handlers |
| PromisesResolver.Resolver.Resolve | Sources/Promises/resolver.swift:38-59 | equals one `resolve` step of the state machine: a sealed resolver is cancelled by `nil`, or resolved with the value, with the captured handlers called in order; any other state is left alone with no call |
| PromisesResolver.Resolver.Inspect | Sources/Promises/resolver.swift:67-90 | equals one `inspect` step: sealed queues the handler at the end, resolved calls it at once with the result (also for a pre-resolved store), cancelled does nothing |
| PromisesResolver.Resolver.Pipe | Sources/Promises/resolver.swift:61-65 | a resolved `other` resolves this resolver now with its result; a sealed `other` gets `Forward(this)` queued; a cancelled `other` changes nothing |
| PromisesResolver.Resolver.Cancel | Sources/Promises/resolver.swift:92-94 | is `resolve(nil)` |
| PromisesResolver.Resolver.Fulfill | Sources/Promises/resolver.swift:96-98 | is `resolve(.success(v))` |
| PromisesResolver.Resolver.Reject | Sources/Promises/resolver.swift:100-102 | is `resolve(.failure(e))` |
| PromisesResolver.Deliver | Sources/Promises/resolver.swift:61-65 | a forwarding handler's call resolves its target with the value; a user callback is reported as is |
| PromisesResolver.InspectThenResolve | Sources/Promises/resolver.swift:38-90 | a handler queued while sealed gets the resolved value; one registered afterwards is called at once |
| PromisesResolver.PipeThenResolve | Sources/Promises/resolver.swift:61-65 | after `r.pipe(to: other)` and `other.resolve(v)`, delivering the one forwarding call leaves both resolvers resolved with `v` |
| ExtResolver.Resolver.constructor | Sources/PromisesExt/Resolver.swift:31-40 | given a value, the resolver is resolved with `.success(value)` from the start; otherwise it is sealed with no handlers |
| ExtResolver.Resolver.Resolve | Sources/PromisesExt/Resolver.swift:42-63 | equals one `resolve` step of the shared state machine: first resolution wins, `nil` cancels, captured handlers are called in order |
| ExtResolver.Resolver.Inspect | Sources/PromisesExt/Resolver.swift:71-94 | equals one `inspect` step: queue while sealed, fire at once when resolved, nothing when cancelled |
| ExtResolver.Resolver.Pipe | Sources/PromisesExt/Resolver.swift:65-69 | as `pipe` above, over untyped failures |
| ExtResolver.Resolver.Cancel | Sources/PromisesExt/Resolver.swift:96-98 | is `resolve(nil)` |
| ExtResolver.Resolver.Fulfill | Sources/PromisesExt/Resolver.swift:100-102 | is `resolve(.success(v))` |
| ExtResolver.Resolver.Reject | Sources/PromisesExt/Resolver.swift:104-106 | is `resolve(.error(e))` |
| ExtResolver.Deliver | Sources/PromisesExt/Resolver.swift:65-69 | a forwarding call resolves its target |
| ExtResolver.ResolveTwice | Sources/PromisesExt/Resolver.swift:47-50 | a second `resolve` returns without calling a handler and the first result stays |
| CoreResolver.CancelSection | Sources/PromisesCore/Resolver.swift:34-36 | defines the closure of `resolve(nil)`: it returns `.cancelled` whatever the state |
| CoreResolver.ResolveValueSection | Sources/PromisesCore/Resolver.swift:41-48 | defines the closure of `resolve(value)`: a sealed state yields its handlers and returns `.resolved(value)`; any other state returns `nil` |
| CoreResolver.InspectValueSection | Sources/PromisesCore/Resolver.swift:61-74 | defines the closure of `inspect`: sealed returns the queue with the handler appended, resolved hands out `preResult`, cancelled returns `nil` |
| CoreResolver.CoreStep | Sources/PromisesCore/Resolver.swift:32-79 | defines one `inspect` or `resolve` under either reading of the returned state |
| CoreResolver.CoreRun | Sources/PromisesCore/Resolver.swift:32-79 | defines a trace of operations under either reading |
| CoreResolver.AsWrittenNeverMoves | Sources/PromisesCore/Resolver.swift:32-79 | as written, any trace of `inspect`/`resolve` leaves a fresh resolver `.sealed([])` and calls no handler |
| CoreResolver.InspectThenResolveReadings | Sources/PromisesCore/Resolver.swift:40-50 | `inspect(h)` then `fulfill(v)` calls `h` with `v` when read as intended, and calls nothing as written |
| CoreResolver.StepAgreesUnlessCancel | Sources/PromisesCore/Resolver.swift:40-79 | under the intended reading, every step other than a cancellation is the shared state machine's step |
| CoreResolver.SealedAgrees | Sources/PromisesCore/Resolver.swift:32-79 | on a sealed resolver, every step, cancellation included, is the shared step |
| CoreResolver.RunAgreesWithoutCancel | Sources/PromisesCore/Resolver.swift:32-79 | a trace with no `cancel()` behaves exactly as the shared state machine, so first-resolution-wins and exactly-once delivery hold for it |
| CoreResolver.CancelOverrides | Sources/PromisesCore/Resolver.swift:33-38 | `cancel()` makes any state `.cancelled`, a resolved one included, where the other variants keep the result |
| CoreResolver.Resolver.constructor | Sources/PromisesCore/Resolver.swift:30 | a new resolver is `.sealed([])` |
| CoreResolver.Resolver.Resolve | Sources/PromisesCore/Resolver.swift:32-51 | `nil` cancels whatever the state; a value resolves a sealed resolver and calls its handlers in order, and leaves any other state alone |
| CoreResolver.Resolver.ResolveAsWritten | Sources/PromisesCore/Resolver.swift:32-51 | `resolve` with its closures run as written through `Atomic.WithWriteLock`: the state is unchanged, and the call is the as-written step of `CoreStep` |
| CoreResolver.Resolver.InspectAsWritten | Sources/PromisesCore/Resolver.swift:59-79 | `inspect` run as written through `Atomic.WithWriteLock`: the handler is never queued, the state is unchanged, and the call is the as-written step |
| CoreResolver.Resolver.Inspect | Sources/PromisesCore/Resolver.swift:59-79 | queues the handler while sealed, calls it at once when resolved, does nothing when cancelled |
| CoreResolver.Resolver.Pipe | Sources/PromisesCore/Resolver.swift:53-57 | a resolved `other` resolves this one now; a sealed `other` queues `Forward(this)`; a cancelled one changes nothing |
| CoreResolver.Resolver.Cancel | Sources/PromisesCore/Resolver.swift:81-83 | the resolver ends `.cancelled` with no handler called |
| CoreResolver.Resolver.Fulfill | Sources/PromisesCore/Resolver.swift:85-87 | is `resolve(.success(v))` |
| CoreResolver.Resolver.Reject | Sources/PromisesCore/Resolver.swift:89-91 | is `resolve(.error(e))` |
| CoreResolver.Deliver | Sources/PromisesCore/Resolver.swift:53-57 | a forwarding call resolves its target |
| CoreResolver.InspectThenFulfillAsWritten | Sources/PromisesCore/Resolver.swift:32-79 | on a fresh resolver, `inspect(h)` then `fulfill(v)` run as written call no handler |
| Outcomes.OutcomeOf | Sources/Promises/resolver.swift:12-17 | defines the outcome a resolver state stands for: sealed is pending, and resolved and cancelled are themselves |
| Outcomes.SettledIsFinal | Sources/Promises/resolver.swift:43-87 | for the `Promises` and `PromisesExt` resolvers, once the outcome is no longer pending, no later `inspect` or `resolve` changes it |
| Outcomes.StateOf | Sources/Promises/resolver.swift:12-17 | every outcome is the outcome of some resolver state |
| Outcomes.Perform | Sources/Promises/resolver.swift:38-65 | on a fresh resolver, `resolve(value)` resolves and `resolve(nil)` cancels; `pipe(to:)` copies a resolved source and leaves the resolver pending otherwise |
| Outcomes.Chain | Sources/Promises/resolver.swift:67-90 | the closure registered with `inspect` on the source runs exactly when the source resolves, with its result; otherwise the downstream stays pending and no user code runs |
| Outcomes.PipeIdempotent | Sources/Promises/resolver.swift:61-65 | piping a pipe is one pipe, and a pipe never ends cancelled |
| PromisesPromise.FromValue | Sources/Promises/promise.swift:25-28 | the resolver holds `.success(value)` from the start |
| PromisesPromise.FromError | Sources/Promises/promise.swift:30-33 | the resolver holds `.failure(error)` from the start |
| PromisesPromise.Create | Sources/Promises/promise.swift:183-191 | the fresh resolver ends in the state made by the call's first resolution: resolved, cancelled, or sealed if it made none |
| PromisesPromise.Bind | Sources/Promises/promise.swift:35-39 | the new promise takes the source's result, and stays pending if the source never resolves or is cancelled |
| PromisesPromise.OnSuccess | Sources/Promises/promise.swift:41-57 | the body runs once with the value on success and never on failure; the result is forwarded unchanged |
| PromisesPromise.Catch | Sources/Promises/promise.swift:59-76 | a success is forwarded; a failure runs the body once with the error and cancels the new promise |
| PromisesPromise.Done | Sources/Promises/promise.swift:78-95 | on success the body runs once and the new promise fulfils with `()`; a failure is forwarded |
| PromisesPromise.Then | Sources/Promises/promise.swift:97-113 | on success the new promise takes the eventual result of the body's promise; on failure the body is not run and the error is forwarded |
| PromisesPromise.CompactMap | Sources/Promises/promise.swift:115-134 | `nil` rejects with `.err(value, E.self)`, a value fulfils, an upstream failure becomes `.other(error)` |
| PromisesPromise.Map | Sources/Promises/promise.swift:136-152 | on success the new promise is resolved with the transform's result; a failure is forwarded |
| PromisesPromise.AsVoid | Sources/Promises/promise.swift:154-156 | a success becomes `()`, a failure is kept |
| PromisesPromise.AsAny | Sources/Promises/promise.swift:158-160 | a success becomes the same value seen as `Any`, a failure is kept |
| PromisesPromise.Recover | Sources/Promises/promise.swift:162-178 | a success is forwarded without calling the body; on failure the new promise takes the result of the body's promise |
| PromisesPromise.ThenFulfilledIsBind | Sources/Promises/promise.swift:35-39 | `then` with a body returning a fulfilled promise of its argument is `bind` |
| PromisesPromise.ThenAssociative | Sources/Promises/promise.swift:97-113 | `then(f).then(g)` equals `then { f($0).then(g) }` |
| PromisesPromise.MapIsThen | Sources/Promises/promise.swift:136-152 | `map(t)` equals `then` with a body returning a promise resolved with `t(value)` |
| PromisesPromise.AsVoidIsDone | Sources/Promises/promise.swift:154-156 | `asVoid` settles exactly as `done` does |
| PromisesPromise.RecoverOnlyOnFailure | Sources/Promises/promise.swift:162-178 | the body runs if and only if the source failed, and a success passes through unchanged |
| PromisesAnyError.MakeAnyError | Sources/Promises/any_error.swift:27-29 | an `AnyError` passes through unchanged, any other error is boxed, and for a well-formed error the result never holds a box |
| PromisesAnyError.NoDoubleBoxing | Sources/Promises/any_error.swift:27-29 | boxing an existing box gives that box back |
| PromisesAnyError.CreateCatching | Sources/Promises/promise_any_err.swift:13-21 | a throw from the call rejects with `AnyError(error)` unless the call already resolved |
| PromisesAnyError.ThenCatching | Sources/Promises/promise_any_err.swift:23-43 | on success the new promise takes the body's promise, or is rejected with the boxed error the body throws; a failure is forwarded |
| PromisesAnyError.MapCatching | Sources/Promises/promise_any_err.swift:45-65 | a returned value fulfils, a throw rejects with the boxed error, a failure is forwarded |
| PromisesAnyError.ThenCatchingWithoutThrow | Sources/Promises/promise_any_err.swift:23-43 | a `then(catching:)` whose body does not throw is the plain `then` |
| PromisesAnyError.RethrowKeepsBox | Sources/Promises/promise_any_err.swift:23-43 | rethrowing an `AnyError` rejects with that same box |
| CorePromise.Settled | Sources/PromisesCore/Promise.swift:16-28 | defines the state left by the call's resolutions, applied in order through `resolve` |
| CorePromise.SettledCases | Sources/PromisesCore/Resolver.swift:32-51 | a `cancel()` anywhere in the call wins, even after a value; otherwise the first value wins; with no resolution the resolver stays sealed |
| CorePromise.CallState | Sources/PromisesCore/Promise.swift:21-27 | defines the state after the call, with a throw at its end turned into `reject(error)` |
| CorePromise.CallOutcome | Sources/PromisesCore/Promise.swift:16-28 | the promise is cancelled if the call cancels at any point; otherwise it holds the call's first value; with no resolution, a throw rejects with the thrown error; otherwise it is pending |
| CorePromise.Create | Sources/PromisesCore/Promise.swift:16-28 | the `resolve` loop over the call's resolutions, then the throw, leaves exactly `CallState`, so the promise's outcome is `CallOutcome` |
| CorePromise.FromValue | Sources/PromisesCore/Promise.swift:37-40 | the resolver is fulfilled with the value |
| CorePromise.Bind | Sources/PromisesCore/Promise.swift:42-46 | the new promise takes the source's result, or stays pending |
| CorePromise.OnSuccess | Sources/PromisesCore/Promise.swift:48-64 | the body runs once on success only; the result is forwarded |
| CorePromise.Catch | Sources/PromisesCore/Promise.swift:66-83 | the body runs once on failure and the new promise is cancelled; a success is forwarded |
| CorePromise.Done | Sources/PromisesCore/Promise.swift:85-102 | on success the body runs once and `()` is fulfilled; a failure is forwarded |
| CorePromise.Then | Sources/PromisesCore/Promise.swift:104-124 | on success the new promise takes the body's promise, or the error the body throws; a failure is forwarded and the body not run |
| CorePromise.CompactMap | Sources/PromisesCore/Promise.swift:126-149 | `nil` rejects with `PromiseError.compactMap(value, E.self)`, a throw rejects with the thrown error, a value fulfils, an upstream failure is forwarded |
| CorePromise.Lift | Sources/PromisesCore/Promise.swift:151-153 | defines the transform `map` hands to `compactMap`: a returned value wrapped as non-`nil`, a throw kept |
| CorePromise.Map | Sources/PromisesCore/Promise.swift:151-153 | the transform runs once with the value on success only; a returned value fulfils, a throw rejects, a failure is forwarded |
| CorePromise.MapNeverCompactMapError | Sources/PromisesCore/Promise.swift:151-153 | `map` never rejects with a `PromiseError` unless the transform threw one or the source carried one |
| CorePromise.AsVoid | Sources/PromisesCore/Promise.swift:155-157 | a success becomes `()`, a failure is kept |
| CorePromise.AsAny | Sources/PromisesCore/Promise.swift:159-161 | a success becomes the value seen as `Any`, a failure is kept |
| CorePromise.Recover | Sources/PromisesCore/Promise.swift:163-183 | a success is forwarded; on failure the new promise takes the body's promise, or the error the body throws |
| CorePromise.FulfilledLater | Tests/PromisesTests/PromisesTests.swift:24-28 | the outcome `CallOutcome` gives a call that fulfils with `()` is fulfilled with `()` |
| CorePromise.TripleThenRunsDoneOnce | Tests/PromisesTests/PromisesTests.swift:21-40 | `Promise(value: ()).bind.then.then.done` ends fulfilled and the `done` body runs exactly once |
| CorePromise.CancelledStopsChain | Sources/PromisesCore/Promise.swift:104-124 | a source cancelled before it resolves never runs anything chained below it, and leaves the chain pending |
| ExtPromise.RunOutcome | Sources/PromisesExt/Promise.swift:35-41 | defines the outcome of the k-th run of an action on a fresh resolver: its resolution if it makes one, else the rejection of its throw, else pending |
| ExtPromise.RunAction | Sources/PromisesExt/Promise.swift:35-41 | one run of the action on a sealed resolver leaves exactly that run's outcome |
| ExtPromise.Create | Sources/PromisesExt/Promise.swift:32-48 | stores the action and resolves the new promise with run 0 of it |
| ExtPromise.FromValue | Sources/PromisesExt/Promise.swift:58-62 | resolved with `.success(value)` from the start, with a no-op action |
| ExtPromise.Replay | Sources/PromisesExt/Promise.swift:50-56 | a replay is a fresh promise with the same action, resolved by its k-th run |
| ExtPromise.NoOpReplayPending | Sources/PromisesExt/Promise.swift:58-62 | replaying a value-initialised promise never resolves it |
| ExtPromise.RecoverChain | Sources/PromisesExt/Promise.swift:207-226 | a success is forwarded; on failure the callback, if one is given, gets the error, and the new promise follows the replay |
| ExtPromise.PerformAttempt | Sources/PromisesExt/Promise.swift:228-254 | on a failed source, between 1 and `times + 1` replays, and on any other source none, its success or pendency forwarded; the callback is asked at most `times` times; the result is never cancelled and, once resolved, is the last replay's outcome |
| ExtPromise.Attempt | Sources/PromisesExt/Promise.swift:256-277 | `times <= 0` returns the promise itself; a success is forwarded; a refused failure rejects with no replay; an accepted one is `performAttempt(times:)` from the first replay, with between 1 and `times + 1` replays, never cancelled, and once resolved the last replay's outcome |
| ExtPromise.Errors | Sources/PromisesExt/Promise.swift:243-249 | the errors of consecutive replays, in order |
| ExtPromise.PerformAttemptExhausts | Sources/PromisesExt/Promise.swift:228-254 | with replays that always fail and a callback that always agrees, there are `times + 1` replays, the callback is asked about all but the last, and the final error is the last replay's |
| ExtPromise.AttemptReplaysTimesPlusOne | Sources/PromisesExt/Promise.swift:256-277 | `attempt(times: n)` with `n > 0` replays `n + 1` times before giving up |
| Aggregates.AttemptSpec | Sources/Promises/after.swift:19-36 | reference retry: `body()` is called between 1 and `max(1, max)` times; every call but the last failed; a first success stops at once; the result is the last call's outcome and is never cancelled |
| Aggregates.AttemptExhausted | Sources/Promises/after.swift:19-36 | when every call fails, `body()` is called `max(1, max)` times and the result is the last failure |
| Aggregates.Combine | Sources/Promises/after.swift:50-62 | defines the aggregate given the chain built so far and the inputs not yet chained |
| Aggregates.WhenSpec | Sources/Promises/after.swift:42-64 | defines `when(fulfilled:)` on outcomes: all fulfilled gives `()`, else the last input that is not fulfilled decides |
| Aggregates.WhenAllFulfilled | Sources/Promises/after.swift:42-64 | all inputs fulfilled gives a fulfilled `()` |
| Aggregates.WhenDecidedBy | Sources/Promises/after.swift:42-64 | the last input that is not fulfilled decides: its failure, or pending |
| PromisesAfter.After | Sources/Promises/after.swift:11-17 | defines `after(delay)`: fulfilled with `()` once the delay has elapsed, pending before |
| PromisesAfter.AttemptFrom | Sources/Promises/after.swift:25-34 | defines the nested `attempt()` built from `recover`, `after` and `then`, with the number of `body()` calls it makes |
| PromisesAfter.AttemptFromMatchesSpec | Sources/Promises/after.swift:25-34 | the retry loop is the reference retry: the same result after the same number of `body()` calls |
| PromisesAfter.Attempt | Sources/Promises/after.swift:19-36 | `body()` is called between 1 and `max(1, times)` times, and a resolved result is that of the last call; it equals the reference retry from the first call |
| PromisesAfter.When | Sources/Promises/after.swift:42-64 | the `popLast` loop of `then` calls, then `done`/`catch`, gives the reference aggregate |
| CoreAfter.After | Sources/PromisesCore/after.swift:10-16 | defines `after(delay)`: fulfilled with `()` once the delay has elapsed, pending before |
| CoreAfter.AttemptFrom | Sources/PromisesCore/after.swift:20-29 | defines the nested `attempt()` that throws on exhaustion, with the number of `body()` calls it makes |
| CoreAfter.AttemptFromMatchesSpec | Sources/PromisesCore/after.swift:20-29 | the retry loop is the reference retry: the same result after the same number of `body()` calls |
| CoreAfter.Attempt | Sources/PromisesCore/after.swift:18-31 | `body()` is called between 1 and `max(1, times)` times, and a resolved result is that of the last call; it equals the reference retry from the first call |
| CoreAfter.When | Sources/PromisesCore/after.swift:37-59 | the `popLast` loop, then `done`/`catch`, gives the reference aggregate |

## Left out

- Dispatch queues, `tryAsync` and `bind(to:)`'s queue: every closure runs inline, as with a `nil` queue. Thread interleavings and data races are not modelled.
- Lock strategies: `os_unfair_lock`, mutex, read-write lock and serial-queue locks (`Sources/Atomic/Lock.swift`, `MutexLock.swift`, `RWLock.swift`, `UnfairLock.swift`, `DispatchLock.swift`) are modelled as a ghost bracket, a held flag plus a log of sections.
- `after(delay)`: the timer is the flag `elapsed`. `attempt` is proved with every delay elapsed.
- Combinators are modelled on outcomes, not as typed closures registered on resolver objects. Registration and delivery on objects are proved separately, by the resolver classes.
- User closures are opaque. Only their arguments and the promise or throw they yield are modelled.
- The combinators of `PromisesExt` have the same bodies as those of `PromisesCore`, so `CorePromise` stands for both. `ActionCtx.isRecovery` re-reading upstream through `recoverChain()` is not modelled beyond `ExtPromise.Replay`.
- `PromisesCore`'s `init(_ value:)` calls `Resolver<T>(value)`, an initialiser its resolver does not declare. `CorePromise.FromValue` models a fresh resolver fulfilled at once. The same applies to `Promise(value:)` in `Sources/PromisesCore/after.swift:41`, modelled as a fulfilled `()`.
- The `Failure == AnyError` extension repeated in `Sources/Promises/promise.swift:193-248` is modelled once, from `Sources/Promises/promise_any_err.swift`.
- Diagnostic fields of `AnyError` (`_domain`, `_code`, `localizedDescription` and the like) are not modelled.
- Nested handler calls: `Sealants.Run` lists all handler calls of one `resolve` before the next operation. In the source, a handler that itself calls `inspect`, or that resolves a piped resolver, runs nested inside the `forEach` (`Sources/Promises/resolver.swift:58`). So the registration-order guarantee of `Sealants.RunFromSealed` covers top-level traces only.
- `CorePromise.` combinators take the outcome the source's handler sees when it fires, not the source resolver's final state. In `PromisesCore`, a later `cancel()` can overwrite a value already delivered to the chain (`CoreResolver.CancelOverrides`), and the chain keeps the delivered value.
- `PromisesPromise.Create`: the call is represented by its first resolution only, since later ones are no-ops by the resolver's contract.
- `PromisesAfter.Firstly` and `CoreAfter.Firstly`: `firstly(block)` is `block()`, with nothing to state beyond that, so they carry no contract.
- `ExtPromise.PerformAttempt`: states bounds and the final outcome, not the exact sequence of replays for an arbitrary action (`ExtPromise.PerformAttemptExhausts` gives it when every replay fails).
- `Sources/Run/main.swift` (a benchmark driver) and `Package.swift` are not part of this model.

## Findings

| source | as written | input that shows it | evidently intended | confidence | as-written member | corrected member |
|---|---|---|---|---|---|---|
| Sources/PromisesCore/Resolver.swift:32-79 with Sources/Atomic/Atomic.swift:32-36 | the `withWriteLock` closures of `resolve`, `cancel` and `inspect` return the new state instead of assigning their `inout` argument, and `withWriteLock` only hands that value back, so the state never changes | `inspect(h)` then `fulfill(v)` on a fresh resolver: `h` is never called and the resolver stays `.sealed([])` | the returned state replaces the stored one, so `h` is called with `v` and the resolver is resolved | not executed | CoreResolver.AsWrittenNeverMoves | CoreResolver.Resolver.Resolve |
