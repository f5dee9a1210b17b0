/**
 * Reference definitions of the free functions `attempt` and `when(fulfilled:)`, shared
 * by the `Promises` and `PromisesCore` modules, stated directly on the outcomes of the
 * promises involved; `PromisesAfter` and `CoreAfter` build the same results from the
 * combinators and prove them equal to these.
 */
module Aggregates {
  import opened Base
  import opened Outcomes

  predicate Fulfilled<T, F>(o: Outcome<Result<T, F>>)
  {
    o.Resolved? && o.result.Success?
  }

  predicate Rejected<T, F>(o: Outcome<Result<T, F>>)
  {
    o.Resolved? && o.result.Failure?
  }

  /** The promise `attempt` returns and how many times it called `body()`. */
  datatype Attempts<T, F> = Attempts(outcome: Outcome<Result<T, F>>, calls: nat)

  /**
   * Retrying from the `n`-th call of `body()` (`body(n)` is that call's outcome), with
   * the counter already at `n`: a success is the result; a failure is retried while
   * `n < max` and is the result once `n` reaches `max`; a call that never resolves (or
   * is cancelled) leaves the result pending.
   */
  function AttemptSpec<T, F>(n: nat, max: int, body: nat -> Outcome<Result<T, F>>): (a: Attempts<T, F>)
    ensures 1 <= a.calls <= if n < max then max - n + 1 else 1
    ensures !a.outcome.Cancelled?
    ensures a.outcome.Resolved? ==> a.outcome == body(n + a.calls - 1)
    ensures forall j :: n <= j < n + a.calls - 1 ==> Rejected(body(j))
    ensures Fulfilled(body(n)) ==> a == Attempts(body(n), 1)
    decreases if n < max then max - n else 0
  {
    var o := body(n);
    if Fulfilled(o) then Attempts(o, 1)
    else if Rejected(o) then
      if n < max then
        var rest := AttemptSpec(n + 1, max, body);
        Attempts(rest.outcome, 1 + rest.calls)
      else Attempts(o, 1)
    else Attempts(Pending, 1)
  }

  /** When every call fails, `body()` is called `max(1, max)` times and the result is the
      failure of the last call. */
  lemma {:induction false} AttemptExhausted<T, F>(n: nat, max: int, body: nat -> Outcome<Result<T, F>>)
    requires 1 <= n
    requires forall j :: n <= j ==> Rejected(body(j))
    ensures var a := AttemptSpec(n, max, body);
            a.calls == (if n < max then max - n + 1 else 1)
            && a.outcome == body(if n < max then max else n)
    decreases if n < max then max - n else 0
  {
    assert Rejected(body(n));
    if n < max {
      AttemptExhausted(n + 1, max, body);
    }
  }

  /** What the aggregate of `when` is, given the promise `current` the loop has built so
      far and the inputs `rest` not yet chained. */
  function Combine<T, F>(current: Outcome<Result<T, F>>, rest: seq<Outcome<Result<T, F>>>): Outcome<Result<(), F>>
    decreases |rest|, 1
  {
    if Fulfilled(current) then WhenSpec(rest)
    else if Rejected(current) then Resolved(Failure(current.result.error))
    else Pending
  }

  /**
   * `when(fulfilled:)` on the outcomes of its inputs, looked at from the last to the
   * first: all fulfilled gives `()`; otherwise the first input in that order that is not
   * fulfilled decides: its failure, or pending if it never resolves or is cancelled.
   */
  function WhenSpec<T, F>(ps: seq<Outcome<Result<T, F>>>): Outcome<Result<(), F>>
    decreases |ps|, 0
  {
    if ps == [] then Resolved(Success(()))
    else Combine(ps[|ps| - 1], ps[..|ps| - 1])
  }

  /** All inputs fulfilled: the aggregate fulfils with `()`. */
  lemma {:induction false} WhenAllFulfilled<T, F>(ps: seq<Outcome<Result<T, F>>>)
    requires forall i :: 0 <= i < |ps| ==> Fulfilled(ps[i])
    ensures WhenSpec(ps) == Resolved(Success(()))
    decreases |ps|
  {
    if ps != [] {
      var init := ps[..|ps| - 1];
      assert forall i :: 0 <= i < |init| ==> init[i] == ps[i];
      WhenAllFulfilled(init);
    }
  }

  /** The last input that is not fulfilled (`ps[j]`, every later one being fulfilled)
      decides the aggregate: its failure, or pending. */
  lemma {:induction false} WhenDecidedBy<T, F>(ps: seq<Outcome<Result<T, F>>>, j: nat)
    requires j < |ps| && !Fulfilled(ps[j])
    requires forall i :: j < i < |ps| ==> Fulfilled(ps[i])
    ensures WhenSpec(ps) == if Rejected(ps[j]) then Resolved(Failure(ps[j].result.error)) else Pending
    decreases |ps|
  {
    if j < |ps| - 1 {
      var init := ps[..|ps| - 1];
      assert Fulfilled(ps[|ps| - 1]);
      assert forall i :: 0 <= i < |init| ==> init[i] == ps[i];
      WhenDecidedBy(init, j);
    }
  }
}
