/**
 * The free functions of the `Promises` module: `after`, `attempt`, `firstly` and
 * `when(fulfilled:)`, built from the combinators of `PromisesPromise`.
 */
module PromisesAfter {
  import opened Base
  import opened Outcomes
  import opened Aggregates
  import PP = PromisesPromise

  type Out<T, F> = Outcome<Result<T, F>>

  /** `after(delay)`: fulfilled with `()` once the delay has passed; `elapsed` says whether
      it has. */
  function After<F>(elapsed: bool): Out<(), F>
  {
    if elapsed then Resolved(Success(())) else Pending
  }

  /**
   * The nested `attempt()` of `attempt(times:delayBeforeRetry:_:)`, called when the
   * counter has just become `n`: `body().recover { error in … }`, where the recovery is
   * `Promise(error: error)` once `n` has reached `max`, and otherwise
   * `after(delay).then { _ in attempt() }`. Also counts the calls of `body()` it makes:
   * this one, plus those of the nested `attempt()` when the `then` body runs it.
   */
  function AttemptFrom<T, F>(n: nat, max: int, body: nat -> Out<T, F>, elapsed: bool): Attempts<T, F>
    decreases if n < max then max - n else 0
  {
    var rest := if n < max then AttemptFrom(n + 1, max, body, elapsed) else Attempts(Pending, 0);
    var retry := PP.Then(After<F>(elapsed), (_: ()) => rest.outcome);
    var recovered := PP.Recover(body(n), (error: F) =>
      if n < max then retry.downstream else Resolved(Failure(error)));
    var retried := recovered.calls != [] && n < max && retry.calls != [];
    Attempts(recovered.downstream, if retried then 1 + rest.calls else 1)
  }

  /** Once every delay has passed, the retry loop built from `recover` and `then` is the
      reference retry of `AttemptSpec`: the same result after the same number of calls
      of `body()`. */
  lemma {:induction false} AttemptFromMatchesSpec<T, F>(n: nat, max: int, body: nat -> Out<T, F>)
    ensures AttemptFrom(n, max, body, true) == AttemptSpec(n, max, body)
    decreases if n < max then max - n else 0
  {
    var o := body(n);
    if Rejected(o) && n < max {
      AttemptFromMatchesSpec(n + 1, max, body);
      var next := AttemptFrom(n + 1, max, body, true);
      assert !next.outcome.Cancelled?;
      var retry := PP.Then(After<F>(true), (_: ()) => next.outcome);
      assert retry.downstream == (if next.outcome.Resolved? then next.outcome else Pending);
      assert retry.calls == [()];
    }
  }

  /**
   * `attempt(times: max, …, body)`: the counter starts at 0 and becomes 1 on the first
   * call. The result is that of the first successful call, or the failure of the last
   * call, `body()` being called between 1 and `max(1, max)` times.
   */
  function Attempt<T, F>(max: int, body: nat -> Out<T, F>): (a: Attempts<T, F>)
    ensures a == AttemptSpec(1, max, body)
    ensures 1 <= a.calls <= if 1 < max then max else 1
    ensures a.outcome.Resolved? ==> a.outcome == body(a.calls)
  {
    AttemptFromMatchesSpec(1, max, body);
    AttemptFrom(1, max, body, true)
  }

  /** `firstly(block)`: `block()`'s promise, unchanged. */
  function Firstly<X>(block: () -> X): X
  {
    block()
  }

  /**
   * `when(fulfilled:)`: with no input, an already-fulfilled `Promise(())`; otherwise the
   * last input is chained to the others from the end with `then { _ in next }`, and the
   * result is fulfilled by `done` and rejected by `catch` on that chain.
   */
  method When<T, F>(fulfilled: seq<Out<T, F>>) returns (agg: Out<(), F>)
    ensures agg == WhenSpec(fulfilled)
  {
    var other := fulfilled;
    if other == [] {
      return Resolved(Success(()));
    }
    var current := other[|other| - 1];
    other := other[..|other| - 1];
    while other != []
      invariant Combine(current, other) == WhenSpec(fulfilled)
      decreases |other|
    {
      var next := other[|other| - 1];
      var rest := other[..|other| - 1];
      assert WhenSpec(other) == Combine(next, rest);
      current := PP.Then(current, (_: T) => next).downstream;
      other := rest;
    }
    var done := PP.Done(current);
    var caught := PP.Catch(done.downstream);
    agg := if done.calls != [] then Resolved(Success(()))
           else if caught.calls != [] then Resolved(Failure(caught.calls[0]))
           else Pending;
  }
}
