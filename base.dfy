/**
 * Values shared by the three variants of the promise library: optional values,
 * the two-case `Result`, and the error values the untyped variants pass around.
 *
 * Swift's `Any` and `Any.Type` payloads carry no behaviour the library relies on,
 * so they are opaque identities here.
 */
module Base {

  datatype Option<T> = None | Some(value: T)

  /** `Result<T, Failure>` (typed variant) and `Result<T>` with `.error(Error)` (untyped variants). */
  datatype Result<T, F> = Success(value: T) | Failure(error: F)

  /** A value seen through Swift's `Any`. */
  datatype AnyValue = AnyValue(id: nat)

  /** A metatype seen through Swift's `Any.Type`, such as `E.self`. */
  datatype TypeTag = TypeTag(id: nat)

  /** `PromiseError` of the untyped variants. */
  datatype PromiseError = ChainBroken | CompactMap(value: AnyValue, target: TypeTag)

  /** Swift's untyped `Error`: one raised by user code, or a `PromiseError`. */
  datatype Error = Thrown(code: nat) | Broken(reason: PromiseError)

  /** The outcome of a Swift `throws` call: the value it returned or the error it threw. */
  datatype Throwing<X, E> = Returns(value: X) | Throws(error: E)

  /** `CompactMapError<Failure>` of the typed variant. */
  datatype CompactMapError<F> = Other(failure: F) | Err(value: AnyValue, target: TypeTag)
}
