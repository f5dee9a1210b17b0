/**
 * `Promise<T>` of the `PromisesCore` module: untyped failures (`Error`), user code that
 * may throw, and a thrown error turned into a rejection.
 *
 * The combinators `bind`, `onSuccess`, `catch`, `done`, `then`, `compactMap`, `map`,
 * `asVoid`, `asAny` and `recover` of the `PromisesExt` module have the same bodies,
 * reading the source through `sourceResolver(from: self)`, which outside a recovery is
 * `self.resolver`; the functions here stand for both.
 *
 * The downstream resolver of a combinator is always fresh and sealed, where this
 * variant's resolver agrees with the shared state machine (`CoreResolver.SealedAgrees`).
 */
module CorePromise {
  import opened Base
  import opened Outcomes
  import S = Sealants
  import CR = CoreResolver

  type Out<T> = Outcome<Result<T, Error>>

  datatype Promise<T> = Promise(resolver: CR.Resolver<T>)

  /** The state a fresh resolver is left in by the resolutions `settles` made by the
      user `call`, in order, `None` standing for `cancel()`. */
  function Settled<T>(settles: seq<Option<Result<T, Error>>>): CR.State<T>
    decreases |settles|
  {
    if settles == [] then S.Sealed([])
    else CR.CoreStep(CR.Intended, Settled(settles[..|settles| - 1]), S.ResolveOp(settles[|settles| - 1])).0
  }

  /** A `cancel()` anywhere in the call wins, even after a value, since this variant's
      `cancel()` has no `sealed` check; otherwise the first value wins. */
  lemma {:induction false} SettledCases<T>(settles: seq<Option<Result<T, Error>>>)
    ensures None in settles ==> Settled(settles) == S.Cancelled
    ensures None !in settles && settles != [] ==> Settled(settles) == S.Resolved(settles[0].value)
    ensures settles == [] ==> Settled(settles) == S.Sealed([])
    decreases |settles|
  {
    if settles != [] {
      var init, last := settles[..|settles| - 1], settles[|settles| - 1];
      assert settles == init + [last];
      SettledCases(init);
      if init != [] {
        assert init[0] == settles[0];
      }
    }
  }

  /** The state the call leaves, a throw at its end turned into `reject(error)`. */
  function CallState<T>(settles: seq<Option<Result<T, Error>>>, thrown: Option<Error>): CR.State<T>
  {
    var s := Settled(settles);
    if thrown.Some? then CR.CoreStep(CR.Intended, s, S.ResolveOp(Some(Failure(thrown.value)))).0 else s
  }

  /** What the promise `init(on:bindQueue:_ call:)` returns comes to: cancelled if the call
      cancels at any point, else the call's first value, else the error it throws, else
      pending. */
  function CallOutcome<T>(settles: seq<Option<Result<T, Error>>>, thrown: Option<Error>): (o: Out<T>)
    ensures None in settles ==> o == Cancelled
    ensures None !in settles && settles != [] ==> o == Resolved(settles[0].value)
    ensures settles == [] && thrown.Some? ==> o == Resolved(Failure(thrown.value))
    ensures settles == [] && thrown.None? ==> o == Pending
  {
    SettledCases(settles);
    OutcomeOf(CallState(settles, thrown))
  }

  /**
   * `init(on:bindQueue:_ call:)`: `call` gets a fresh resolver and makes the resolutions
   * `settles`, in order, then may throw `thrown`, which rejects the resolver with that
   * error (a throw in the middle of the call is a shorter `settles` and a throw).
   */
  method Create<T>(settles: seq<Option<Result<T, Error>>>, thrown: Option<Error>) returns (p: Promise<T>)
    ensures p.resolver.Valid() && fresh(p.resolver.Repr())
    ensures p.resolver.State() == CallState(settles, thrown)
    ensures OutcomeOf(p.resolver.State()) == CallOutcome(settles, thrown)
  {
    var r := new CR.Resolver();
    var i := 0;
    while i < |settles|
      invariant 0 <= i <= |settles|
      invariant r.Valid() && fresh(r.Repr())
      invariant r.State() == Settled(settles[..i])
    {
      var invoked := r.Resolve(settles[i]);
      assert settles[..i + 1][..i] == settles[..i];
      i := i + 1;
    }
    assert settles[..i] == settles;
    if thrown.Some? {
      var invoked := r.Reject(thrown.value);
    }
    p := Promise(r);
  }

  /** `init(_ value:)`: a promise already fulfilled with `value`. The initialiser it calls,
      `Resolver<T>(value)`, is not declared by this variant's resolver; its evident
      meaning, a fresh resolver fulfilled at once, is modelled. */
  method FromValue<T>(v: T) returns (p: Promise<T>)
    ensures p.resolver.Valid() && fresh(p.resolver.Repr())
    ensures p.resolver.State() == S.Resolved(Success(v))
  {
    var r := new CR.Resolver();
    var invoked := r.Fulfill(v);
    p := Promise(r);
  }

  /** `bind(to:)`: the new promise takes this one's result; it stays pending if this one
      is cancelled. */
  function Bind<T>(source: Out<T>): (o: Out<T>)
    ensures source.Resolved? ==> o == source
    ensures !source.Resolved? ==> o == Pending
  {
    Perform(PipeFrom(source))
  }

  /** `onSuccess`: `body` runs once with the value, which is then fulfilled; a failure is
      forwarded without running `body`. */
  function OnSuccess<T>(source: Out<T>): (c: Chained<Result<T, Error>, T>)
    ensures c.downstream == if source.Resolved? then source else Pending
    ensures c.calls == if source.Resolved? && source.result.Success? then [source.result.value] else []
  {
    Chain(source, (res: Result<T, Error>) =>
      match res
      case Success(v) => (Settle(Some(Success(v))), [v])
      case Failure(e) => (Settle(Some(Failure(e))), []))
  }

  /** `catch`: a success is forwarded; on failure `body` runs once with the error, then the
      new promise is cancelled. */
  function Catch<T>(source: Out<T>): (c: Chained<Result<T, Error>, Error>)
    ensures source.Resolved? && source.result.Success? ==> c == Chained(source, [])
    ensures source.Resolved? && source.result.Failure? ==> c == Chained(Cancelled, [source.result.error])
    ensures !source.Resolved? ==> c == Chained(Pending, [])
  {
    Chain(source, (res: Result<T, Error>) =>
      match res
      case Success(v) => (Settle(Some(Success(v))), [])
      case Failure(e) => (Settle(None), [e]))
  }

  /** `done`: `body` runs once with the value and the new promise fulfils with `()`;
      a failure is forwarded. */
  function Done<T>(source: Out<T>): (c: Chained<Result<(), Error>, T>)
    ensures source.Resolved? && source.result.Success? ==>
              c == Chained(Resolved(Success(())), [source.result.value])
    ensures source.Resolved? && source.result.Failure? ==> c == Chained(Resolved(Failure(source.result.error)), [])
    ensures !source.Resolved? ==> c == Chained(Pending, [])
  {
    Chain(source, (res: Result<T, Error>) =>
      match res
      case Success(v) => (Settle(Some(Success(()))), [v])
      case Failure(e) => (Settle(Some(Failure(e))), []))
  }

  /** `then`: on success the new promise takes the result of `body(value)`'s promise, or
      is rejected with the error `body` throws; a failure is forwarded and `body` not run. */
  function Then<T, E>(source: Out<T>, body: T -> Throwing<Out<E>, Error>): (c: Chained<Result<E, Error>, T>)
    ensures source.Resolved? && source.result.Success? ==>
              var made := body(source.result.value);
              c.calls == [source.result.value]
              && (made.Throws? ==> c.downstream == Resolved(Failure(made.error)))
              && (made.Returns? ==> c.downstream == if made.value.Resolved? then made.value else Pending)
    ensures source.Resolved? && source.result.Failure? ==> c == Chained(Resolved(Failure(source.result.error)), [])
    ensures !source.Resolved? ==> c == Chained(Pending, [])
  {
    Chain(source, (res: Result<T, Error>) =>
      match res
      case Success(v) =>
        (match body(v)
         case Returns(next) => PipeFrom(next)
         case Throws(e) => Settle(Some(Failure(e))), [v])
      case Failure(e) => (Settle(Some(Failure(e))), []))
  }

  /** `compactMap`: `nil` rejects with `PromiseError.compactMap(value, E.self)`, a throw
      rejects with the thrown error, a value fulfils; an upstream failure is forwarded as it
      is. `box` is how the value is seen as `Any`, `target` is `E.self`. */
  function CompactMap<T, E>(source: Out<T>, transform: T -> Throwing<Option<E>, Error>, box: T -> AnyValue, target: TypeTag)
    : (c: Chained<Result<E, Error>, T>)
    ensures source.Resolved? && source.result.Success? ==>
              var v := source.result.value;
              var made := transform(v);
              c.calls == [v]
              && (made.Throws? ==> c.downstream == Resolved(Failure(made.error)))
              && (made.Returns? && made.value.None? ==>
                    c.downstream == Resolved(Failure(Broken(PromiseError.CompactMap(box(v), target)))))
              && (made.Returns? && made.value.Some? ==> c.downstream == Resolved(Success(made.value.value)))
    ensures source.Resolved? && source.result.Failure? ==> c == Chained(Resolved(Failure(source.result.error)), [])
    ensures !source.Resolved? ==> c == Chained(Pending, [])
  {
    Chain(source, (res: Result<T, Error>) =>
      match res
      case Success(v) =>
        (match transform(v)
         case Throws(e) => Settle(Some(Failure(e)))
         case Returns(None) => Settle(Some(Failure(Broken(PromiseError.CompactMap(box(v), target)))))
         case Returns(Some(n)) => Settle(Some(Success(n))), [v])
      case Failure(e) => (Settle(Some(Failure(e))), []))
  }

  /** The never-`nil` transform `map` hands to `compactMap`. */
  function Lift<T, E>(transform: T -> Throwing<E, Error>): T -> Throwing<Option<E>, Error>
  {
    (v: T) =>
      match transform(v)
      case Returns(n) => Returns(Some(n))
      case Throws(e) => Throws(e)
  }

  /** `map`: `compactMap` with a transform that never yields `nil`. */
  function Map<T, E>(source: Out<T>, transform: T -> Throwing<E, Error>, box: T -> AnyValue, target: TypeTag)
    : (c: Chained<Result<E, Error>, T>)
    ensures source.Resolved? && source.result.Success? ==>
              var made := transform(source.result.value);
              c == Chained(Resolved(if made.Returns? then Success(made.value) else Failure(made.error)),
                           [source.result.value])
    ensures source.Resolved? && source.result.Failure? ==> c == Chained(Resolved(Failure(source.result.error)), [])
    ensures !source.Resolved? ==> c == Chained(Pending, [])
  {
    CompactMap(source, Lift(transform), box, target)
  }

  /** `map` never rejects with `PromiseError.compactMap`, unless the transform threw it. */
  lemma MapNeverCompactMapError<T, E>(source: Out<T>, transform: T -> Throwing<E, Error>, box: T -> AnyValue, target: TypeTag)
    requires source.Resolved? ==> source.result.Failure? ==> !source.result.error.Broken?
    requires forall v :: transform(v).Throws? ==> !transform(v).error.Broken?
    ensures var o := Map(source, transform, box, target).downstream;
            o.Resolved? && o.result.Failure? ==> !o.result.error.Broken?
  {
  }

  /** `asVoid`: `map { _ in }`; it always succeeds on a success. */
  function AsVoid<T>(source: Out<T>, box: T -> AnyValue, target: TypeTag): (o: Out<()>)
    ensures source.Resolved? && source.result.Success? ==> o == Resolved(Success(()))
    ensures source.Resolved? && source.result.Failure? ==> o == Resolved(Failure(source.result.error))
    ensures !source.Resolved? ==> o == Pending
  {
    Map(source, (_: T) => Returns(()), box, target).downstream
  }

  /** `asAny`: `map { $0 }`; the value, seen as `Any`. */
  function AsAny<T>(source: Out<T>, box: T -> AnyValue, target: TypeTag): (o: Out<AnyValue>)
    ensures source.Resolved? && source.result.Success? ==> o == Resolved(Success(box(source.result.value)))
    ensures source.Resolved? && source.result.Failure? ==> o == Resolved(Failure(source.result.error))
    ensures !source.Resolved? ==> o == Pending
  {
    Map(source, (v: T) => Returns(box(v)), box, target).downstream
  }

  /** `recover`: a success is forwarded; on failure the new promise takes the result of
      `body(error)`'s promise, or is rejected with the error `body` throws. */
  function Recover<T>(source: Out<T>, body: Error -> Throwing<Out<T>, Error>): (c: Chained<Result<T, Error>, Error>)
    ensures source.Resolved? && source.result.Success? ==> c == Chained(source, [])
    ensures source.Resolved? && source.result.Failure? ==>
              var made := body(source.result.error);
              c.calls == [source.result.error]
              && (made.Throws? ==> c.downstream == Resolved(Failure(made.error)))
              && (made.Returns? ==> c.downstream == if made.value.Resolved? then made.value else Pending)
    ensures !source.Resolved? ==> c == Chained(Pending, [])
  {
    Chain(source, (res: Result<T, Error>) =>
      match res
      case Success(v) => (Settle(Some(Success(v))), [])
      case Failure(e) =>
        (match body(e)
         case Returns(next) => PipeFrom(next)
         case Throws(thrown) => Settle(Some(Failure(thrown))), [e]))
  }

  /** `Promise { r in … r.fulfill(()) }`: a promise whose `call` fulfils it with `()`,
      as on another thread. */
  function FulfilledLater(): (o: Out<()>)
    ensures o == Resolved(Success(()))
  {
    CallOutcome([Some(Success(()))], None)
  }

  /**
   * `Promise(value: ()).bind(to: queue).then { … }.then { … }.done { … }`, with each
   * `then` body returning a promise that is fulfilled with `()`: the chain ends fulfilled
   * and the body of `done` runs exactly once.
   */
  lemma TripleThenRunsDoneOnce()
    ensures var start := Bind(Resolved(Success(())));
            var first := Then(start, (_: ()) => Returns(FulfilledLater())).downstream;
            var second := Then(first, (_: ()) => Returns(FulfilledLater())).downstream;
            Done(second) == Chained(Resolved(Success(())), [()])
  {
  }

  /** A source cancelled before it resolves stops the chain: nothing below it ever runs. */
  lemma CancelledStopsChain<T, E>(body: T -> Throwing<Out<E>, Error>)
    ensures Then(Cancelled, body) == Chained(Pending, [])
    ensures Done(Then(Cancelled, body).downstream) == Chained(Pending, [])
  {
  }
}
