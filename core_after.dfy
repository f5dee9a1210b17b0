/**
 * The free functions of the `PromisesCore` module: `after`, `attempt`, `firstly` and
 * `when(fulfilled:)`, built from the combinators of `CorePromise`. Here `attempt`
 * gives up by throwing the last error inside `recover`, which rejects with it.
 */
module CoreAfter {
  import opened Base
  import opened Outcomes
  import opened Aggregates
  import CP = CorePromise

  type Out<T> = Outcome<Result<T, Error>>

  /** `after(delay)`: fulfilled with `()` once the delay has passed; `elapsed` says whether
      it has. */
  function After(elapsed: bool): Out<()>
  {
    if elapsed then Resolved(Success(())) else Pending
  }

  /**
   * The nested `attempt()`, called when the counter has just become `n`:
   * `body().recover { error in … }`, whose recovery throws `error` once `n` has reached
   * `max`, and otherwise returns `after(delay).then { _ in attempt() }`. Also counts the
   * calls of `body()` it makes: this one, plus those of the nested `attempt()` when the
   * `then` body runs it.
   */
  function AttemptFrom<T>(n: nat, max: int, body: nat -> Out<T>, elapsed: bool): Attempts<T, Error>
    decreases if n < max then max - n else 0
  {
    var rest := if n < max then AttemptFrom(n + 1, max, body, elapsed) else Attempts(Pending, 0);
    var retry := CP.Then(After(elapsed), (_: ()) => Returns(rest.outcome));
    var recovered := CP.Recover(body(n), (error: Error) =>
      if n < max then Returns(retry.downstream) else Throws(error));
    var retried := recovered.calls != [] && n < max && retry.calls != [];
    Attempts(recovered.downstream, if retried then 1 + rest.calls else 1)
  }

  /** Once every delay has passed, the retry loop is the reference retry of `AttemptSpec`,
      with the same number of calls of `body()`: the error thrown on exhaustion becomes
      the rejection of the result. */
  lemma {:induction false} AttemptFromMatchesSpec<T>(n: nat, max: int, body: nat -> Out<T>)
    ensures AttemptFrom(n, max, body, true) == AttemptSpec(n, max, body)
    decreases if n < max then max - n else 0
  {
    var o := body(n);
    if Rejected(o) && n < max {
      AttemptFromMatchesSpec(n + 1, max, body);
      var next := AttemptFrom(n + 1, max, body, true);
      assert !next.outcome.Cancelled?;
      var retry := CP.Then(After(true), (_: ()) => Returns(next.outcome));
      assert retry.downstream == (if next.outcome.Resolved? then next.outcome else Pending);
      assert retry.calls == [()];
    }
  }

  /** `attempt(times: max, …, body)`: the first successful call's result, or the failure
      of the last call, `body()` being called between 1 and `max(1, max)` times. */
  function Attempt<T>(max: int, body: nat -> Out<T>): (a: Attempts<T, Error>)
    ensures a == AttemptSpec(1, max, body)
    ensures 1 <= a.calls <= if 1 < max then max else 1
    ensures a.outcome.Resolved? ==> a.outcome == body(a.calls)
  {
    AttemptFromMatchesSpec(1, max, body);
    AttemptFrom(1, max, body, true)
  }

  /** `firstly(block)`: `block()`'s promise, unchanged. */
  function Firstly<X>(block: () -> X): X
  {
    block()
  }

  /**
   * `when(fulfilled:)`: with no input, a fulfilled `()` promise (through `Promise(value:)`,
   * an initialiser this variant does not declare); otherwise the inputs are chained from
   * the end with `then { _ in next }` and the result is settled by `done` and `catch`.
   */
  method When<T>(fulfilled: seq<Out<T>>) returns (agg: Out<()>)
    ensures agg == WhenSpec(fulfilled)
  {
    var other := fulfilled;
    if other == [] {
      return Resolved(Success(()));
    }
    var current := other[|other| - 1];
    other := other[..|other| - 1];
    while other != []
      invariant Combine(current, other) == WhenSpec(fulfilled)
      decreases |other|
    {
      var next := other[|other| - 1];
      var rest := other[..|other| - 1];
      assert WhenSpec(other) == Combine(next, rest);
      current := CP.Then(current, (_: T) => Returns(next)).downstream;
      other := rest;
    }
    var done := CP.Done(current);
    var caught := CP.Catch(done.downstream);
    agg := if done.calls != [] then Resolved(Success(()))
           else if caught.calls != [] then Resolved(Failure(caught.calls[0]))
           else Pending;
  }
}
