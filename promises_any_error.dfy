/**
 * The `Failure == AnyError` extension of `Promise` in the `Promises` module: the
 * combinators whose user code may throw, with every thrown error boxed in `AnyError`.
 *
 * `AnyError(error)` unwraps an error that is already an `AnyError`, so a box never
 * holds another box.
 */
module PromisesAnyError {
  import opened Base
  import opened Outcomes
  import S = Sealants
  import PP = PromisesPromise

  /** An error Swift code can throw: one of its own, or an `AnyError` box. */
  datatype SwiftError = Raised(code: nat) | Boxed(box: AnyError)

  /** `struct AnyError { let error: Error }`. */
  datatype AnyError = AnyError(error: SwiftError)

  type Out<T> = Outcome<Result<T, AnyError>>

  /** A box holds an error that is not itself a box. */
  predicate Unboxed(a: AnyError)
  {
    !a.error.Boxed?
  }

  /** An error is well formed when, if it is a box, the box holds no box. */
  predicate WellFormed(e: SwiftError)
  {
    e.Boxed? ==> Unboxed(e.box)
  }

  /** `AnyError.init(_:)`: an `AnyError` passes through as it is, any other error is boxed. */
  function MakeAnyError(e: SwiftError): (a: AnyError)
    ensures e.Boxed? ==> a == e.box
    ensures !e.Boxed? ==> a.error == e
    ensures WellFormed(e) ==> Unboxed(a)
  {
    AnyError(if e.Boxed? then e.box.error else e)
  }

  /** Boxing an error that was already boxed gives the same box: no double boxing. */
  lemma NoDoubleBoxing(e: SwiftError)
    ensures MakeAnyError(Boxed(MakeAnyError(e))) == MakeAnyError(e)
  {
  }

  /**
   * `init(on:bindQueue:catching:)`: the user call first makes the resolution `settle`
   * (if any) and then, if `thrown` is given, throws it, which rejects with
   * `AnyError(error)`; a throw after a resolution changes nothing.
   */
  method CreateCatching<T>(settle: Option<Option<Result<T, AnyError>>>, thrown: Option<SwiftError>)
    returns (p: PP.Promise<T, AnyError>)
    ensures p.resolver.Valid() && fresh(p.resolver.Repr())
    ensures settle.Some? && settle.value.Some? ==> p.resolver.State() == S.Resolved(settle.value.value)
    ensures settle == Some(None) ==> p.resolver.State() == S.Cancelled
    ensures settle.None? && thrown.Some? ==> p.resolver.State() == S.Resolved(Failure(MakeAnyError(thrown.value)))
    ensures settle.None? && thrown.None? ==> p.resolver.State() == S.Sealed([])
  {
    p := PP.Create(settle);
    if thrown.Some? {
      var invoked := p.resolver.Reject(MakeAnyError(thrown.value));
    }
  }

  /** `then(catching:)`: on success the new promise takes the result of `body(value)`'s
      promise, or is rejected with `AnyError(error)` if `body` throws; an upstream failure
      is forwarded unchanged and `body` is not run. */
  function ThenCatching<T, E>(source: Out<T>, body: T -> Throwing<Out<E>, SwiftError>): (c: Chained<Result<E, AnyError>, T>)
    ensures source.Resolved? && source.result.Success? ==>
              var made := body(source.result.value);
              c.calls == [source.result.value]
              && (made.Throws? ==> c.downstream == Resolved(Failure(MakeAnyError(made.error))))
              && (made.Returns? ==> c.downstream == if made.value.Resolved? then made.value else Pending)
    ensures source.Resolved? && source.result.Failure? ==> c == Chained(Resolved(Failure(source.result.error)), [])
    ensures !source.Resolved? ==> c == Chained(Pending, [])
  {
    Chain(source, (res: Result<T, AnyError>) =>
      match res
      case Success(v) =>
        (match body(v)
         case Returns(next) => PipeFrom(next)
         case Throws(e) => Settle(Some(Failure(MakeAnyError(e)))), [v])
      case Failure(e) => (Settle(Some(Failure(e))), []))
  }

  /** Throwing `map`: a returned value fulfils, a throw rejects with `AnyError(error)`,
      and an upstream failure is forwarded unchanged. */
  function MapCatching<T, E>(source: Out<T>, transform: T -> Throwing<E, SwiftError>): (c: Chained<Result<E, AnyError>, T>)
    ensures source.Resolved? && source.result.Success? ==>
              var made := transform(source.result.value);
              c.calls == [source.result.value]
              && c.downstream == Resolved(if made.Returns? then Success(made.value) else Failure(MakeAnyError(made.error)))
    ensures source.Resolved? && source.result.Failure? ==> c == Chained(Resolved(Failure(source.result.error)), [])
    ensures !source.Resolved? ==> c == Chained(Pending, [])
  {
    Chain(source, (res: Result<T, AnyError>) =>
      match res
      case Success(v) =>
        (match transform(v)
         case Returns(n) => Settle(Some(Success(n)))
         case Throws(e) => Settle(Some(Failure(MakeAnyError(e)))), [v])
      case Failure(e) => (Settle(Some(Failure(e))), []))
  }

  /** A `then(catching:)` whose body does not throw is the plain `then`. */
  lemma ThenCatchingWithoutThrow<T, E>(source: Out<T>, body: T -> Out<E>)
    ensures ThenCatching(source, (v: T) => Returns(body(v))) == PP.Then(source, body)
  {
  }

  /** Rethrowing the `AnyError` an upstream failure carries, from `then(catching:)`,
      rejects with that same box rather than a box of it. */
  lemma RethrowKeepsBox<T, E>(v: T, a: AnyError)
    ensures ThenCatching<T, E>(Resolved(Success(v)), (_: T) => Throws(Boxed(a))).downstream
         == Resolved(Failure(a))
  {
  }
}
