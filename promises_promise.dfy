/**
 * `Promise<T, Failure>` of the `Promises` module: its initialisers and combinators.
 *
 * A combinator is stated on outcomes (see `Outcomes`): each takes the outcome of the
 * source promise and yields the outcome of the promise it returns, together with the
 * arguments the user closure (`body`, `transform`) was called with. Every queue is
 * `nil`, so `tryAsync` runs its closure at once. The initialisers allocate a resolver.
 */
module PromisesPromise {
  import opened Base
  import opened Outcomes
  import S = Sealants
  import PR = PromisesResolver

  type Out<T, F> = Outcome<Result<T, F>>

  /** The promise value: its resolver (the queue it is bound to is not modelled). */
  datatype Promise<T, F> = Promise(resolver: PR.Resolver<T, F>)

  /** `init(_ value:)`: a promise whose resolver holds `.success(value)` from the start. */
  method FromValue<T, F>(v: T) returns (p: Promise<T, F>)
    ensures p.resolver.Valid() && fresh(p.resolver.Repr())
    ensures p.resolver.State() == S.Resolved(Success(v))
  {
    var r := new PR.Resolver(Some(Success(v)));
    p := Promise(r);
  }

  /** `init(error:)`: a promise whose resolver holds `.failure(error)` from the start. */
  method FromError<T, F>(e: F) returns (p: Promise<T, F>)
    ensures p.resolver.Valid() && fresh(p.resolver.Repr())
    ensures p.resolver.State() == S.Resolved(Failure(e))
  {
    var r := new PR.Resolver(Some(Failure(e)));
    p := Promise(r);
  }

  /**
   * `init(on:bindQueue:_ call:)`: a fresh sealed resolver is handed to `call`. The user
   * code is represented by the first resolution it makes (`None` if it makes none,
   * `Some(None)` for `cancel()`); later ones are no-ops by the resolver's contract.
   */
  method Create<T, F>(settle: Option<Option<Result<T, F>>>) returns (p: Promise<T, F>)
    ensures p.resolver.Valid() && fresh(p.resolver.Repr())
    ensures settle.None? ==> p.resolver.State() == S.Sealed([])
    ensures settle == Some(None) ==> p.resolver.State() == S.Cancelled
    ensures settle.Some? && settle.value.Some? ==> p.resolver.State() == S.Resolved(settle.value.value)
  {
    var r := new PR.Resolver(None);
    if settle.Some? {
      var invoked := r.Resolve(settle.value);
    }
    p := Promise(r);
  }

  /** `bind(to:)`: the new promise pipes to this one, so it takes this promise's result;
      it stays pending if this one is cancelled. */
  function Bind<T, F>(source: Out<T, F>): (o: Out<T, F>)
    ensures source.Resolved? ==> o == source
    ensures !source.Resolved? ==> o == Pending
  {
    Perform(PipeFrom(source))
  }

  /** `onSuccess`: on success `body` runs once with the value and the same value is
      fulfilled; a failure is forwarded unchanged without running `body`. */
  function OnSuccess<T, F>(source: Out<T, F>): (c: Chained<Result<T, F>, T>)
    ensures c.downstream == if source.Resolved? then source else Pending
    ensures c.calls == if source.Resolved? && source.result.Success? then [source.result.value] else []
  {
    Chain(source, (res: Result<T, F>) =>
      match res
      case Success(v) => (Settle(Some(Success(v))), [v])
      case Failure(e) => (Settle(Some(Failure(e))), []))
  }

  /** `catch`: a success is forwarded; on failure `body` runs once with the error and the
      new promise is cancelled, not failed. */
  function Catch<T, F>(source: Out<T, F>): (c: Chained<Result<T, F>, F>)
    ensures source.Resolved? && source.result.Success? ==> c == Chained(source, [])
    ensures source.Resolved? && source.result.Failure? ==> c == Chained(Cancelled, [source.result.error])
    ensures !source.Resolved? ==> c == Chained(Pending, [])
  {
    Chain(source, (res: Result<T, F>) =>
      match res
      case Success(v) => (Settle(Some(Success(v))), [])
      case Failure(e) => (Settle(None), [e]))
  }

  /** `done`: on success `body` runs once and the new promise fulfils with `()`; a failure
      is forwarded. */
  function Done<T, F>(source: Out<T, F>): (c: Chained<Result<(), F>, T>)
    ensures source.Resolved? && source.result.Success? ==>
              c == Chained(Resolved(Success(())), [source.result.value])
    ensures source.Resolved? && source.result.Failure? ==> c == Chained(Resolved(Failure(source.result.error)), [])
    ensures !source.Resolved? ==> c == Chained(Pending, [])
  {
    Chain(source, (res: Result<T, F>) =>
      match res
      case Success(v) => (Settle(Some(Success(()))), [v])
      case Failure(e) => (Settle(Some(Failure(e))), []))
  }

  /** `then`: on success the new promise takes the eventual result of `body(value)`'s
      promise (and stays pending if that one never resolves or is cancelled); on failure
      `body` is never run and the error is forwarded. */
  function Then<T, E, F>(source: Out<T, F>, body: T -> Out<E, F>): (c: Chained<Result<E, F>, T>)
    ensures source.Resolved? && source.result.Success? ==>
              var next := body(source.result.value);
              c == Chained(if next.Resolved? then next else Pending, [source.result.value])
    ensures source.Resolved? && source.result.Failure? ==> c == Chained(Resolved(Failure(source.result.error)), [])
    ensures !source.Resolved? ==> c == Chained(Pending, [])
  {
    Chain(source, (res: Result<T, F>) =>
      match res
      case Success(v) => (PipeFrom(body(v)), [v])
      case Failure(e) => (Settle(Some(Failure(e))), []))
  }

  /** `compactMap`: `nil` from `transform` rejects with `.err(value, E.self)`, a value
      fulfils, and an upstream failure `e` becomes `.other(e)`. `box` is how the value is
      seen as `Any`, `target` is `E.self`. */
  function CompactMap<T, E, F>(source: Out<T, F>, transform: T -> Option<E>, box: T -> AnyValue, target: TypeTag)
    : (c: Chained<Result<E, CompactMapError<F>>, T>)
    ensures source.Resolved? && source.result.Success? ==>
              var v := source.result.value;
              c.calls == [v]
              && c.downstream == Resolved(if transform(v).Some? then Success(transform(v).value)
                                          else Failure(Err(box(v), target)))
    ensures source.Resolved? && source.result.Failure? ==>
              c == Chained(Resolved(Failure(Other(source.result.error))), [])
    ensures !source.Resolved? ==> c == Chained(Pending, [])
  {
    Chain(source, (res: Result<T, F>) =>
      match res
      case Success(v) =>
        (match transform(v)
         case None => Settle(Some(Failure(Err(box(v), target))))
         case Some(n) => Settle(Some(Success(n))), [v])
      case Failure(e) => (Settle(Some(Failure(Other(e)))), []))
  }

  /** `map`: on success the new promise is resolved with exactly `transform(value)`;
      a failure is forwarded. */
  function Map<T, E, F>(source: Out<T, F>, transform: T -> Result<E, F>): (c: Chained<Result<E, F>, T>)
    ensures source.Resolved? && source.result.Success? ==>
              c == Chained(Resolved(transform(source.result.value)), [source.result.value])
    ensures source.Resolved? && source.result.Failure? ==> c == Chained(Resolved(Failure(source.result.error)), [])
    ensures !source.Resolved? ==> c == Chained(Pending, [])
  {
    Chain(source, (res: Result<T, F>) =>
      match res
      case Success(v) => (Settle(Some(transform(v))), [v])
      case Failure(e) => (Settle(Some(Failure(e))), []))
  }

  /** `asVoid`: a success becomes `.success(())`; a failure is forwarded. */
  function AsVoid<T, F>(source: Out<T, F>): (o: Out<(), F>)
    ensures source.Resolved? && source.result.Success? ==> o == Resolved(Success(()))
    ensures source.Resolved? && source.result.Failure? ==> o == Resolved(Failure(source.result.error))
    ensures !source.Resolved? ==> o == Pending
  {
    Map(source, (_: T) => Success(())).downstream
  }

  /** `asAny`: a success becomes the same value seen as `Any`; a failure is forwarded. */
  function AsAny<T, F>(source: Out<T, F>, box: T -> AnyValue): (o: Out<AnyValue, F>)
    ensures source.Resolved? && source.result.Success? ==> o == Resolved(Success(box(source.result.value)))
    ensures source.Resolved? && source.result.Failure? ==> o == Resolved(Failure(source.result.error))
    ensures !source.Resolved? ==> o == Pending
  {
    Map(source, (v: T) => Success(box(v))).downstream
  }

  /** `recover`: a success is forwarded without calling `body`; on failure the new
      promise takes the eventual result of `body(error)`'s promise. */
  function Recover<T, F>(source: Out<T, F>, body: F -> Out<T, F>): (c: Chained<Result<T, F>, F>)
    ensures source.Resolved? && source.result.Success? ==> c == Chained(source, [])
    ensures source.Resolved? && source.result.Failure? ==>
              var next := body(source.result.error);
              c == Chained(if next.Resolved? then next else Pending, [source.result.error])
    ensures !source.Resolved? ==> c == Chained(Pending, [])
  {
    Chain(source, (res: Result<T, F>) =>
      match res
      case Success(v) => (Settle(Some(Success(v))), [])
      case Failure(e) => (PipeFrom(body(e)), [e]))
  }

  /** `then` with a body that returns an already-fulfilled promise of its argument is `bind`. */
  lemma ThenFulfilledIsBind<T, F>(source: Out<T, F>)
    ensures Then(source, (v: T) => Resolved(Success(v))).downstream == Bind(source)
  {
  }

  /** `then` is associative: chaining `f` then `g` is chaining the composite body. */
  lemma ThenAssociative<T, U, E, F>(source: Out<T, F>, f: T -> Out<U, F>, g: U -> Out<E, F>)
    ensures Then(Then(source, f).downstream, g).downstream
         == Then(source, (v: T) => Then(f(v), g).downstream).downstream
  {
    if source.Resolved? && source.result.Success? {
      var next := f(source.result.value);
      if next.Resolved? && next.result.Success? {
        PipeIdempotent(g(next.result.value));
      }
    }
  }

  /** `map` with `transform` is `then` with a body returning `transform`'s result. */
  lemma MapIsThen<T, E, F>(source: Out<T, F>, transform: T -> Result<E, F>)
    ensures Map(source, transform).downstream == Then(source, (v: T) => Resolved(transform(v))).downstream
  {
  }

  /** `asVoid` settles exactly as `done` does. */
  lemma AsVoidIsDone<T, F>(source: Out<T, F>)
    ensures AsVoid(source) == Done(source).downstream
  {
  }

  /** `recover` never runs its body on a success, and on a failure whose recovery
      promise succeeds, the result is that recovery's value. */
  lemma RecoverOnlyOnFailure<T, F>(source: Out<T, F>, body: F -> Out<T, F>)
    ensures Recover(source, body).calls != [] <==> source.Resolved? && source.result.Failure?
    ensures source.Resolved? && source.result.Success? ==> Recover(source, body).downstream == source
  {
  }
}
