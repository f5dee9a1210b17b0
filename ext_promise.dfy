/**
 * `Promise<T>` of the `PromisesExt` module: a promise that keeps the `action` that
 * resolves it, so that a failed promise can be run again (`recoverChain`) and retried
 * (`attempt`, `performAttempt`).
 *
 * The user `call` is opaque; an `Action` describes what each of its runs does to the
 * resolver it is given: run 0 is the first one, made by the initialiser, and run `k`
 * the `k`-th replay. Its other combinators are those of `CorePromise`.
 */
module ExtPromise {
  import opened Base
  import opened Outcomes
  import S = Sealants
  import ER = ExtResolver

  type Out<T> = Outcome<Result<T, Error>>

  /** The stored `action`: the no-op of a value-initialised promise, or the user call,
      whose `k`-th run makes the resolution `settle(k)` (if any) and then may throw
      `thrown(k)`, which rejects. */
  datatype Action<T> =
    | NoOp
    | Run(settle: nat -> Option<Option<Result<T, Error>>>, thrown: nat -> Option<Error>)

  datatype Promise<T> = Promise(resolver: ER.Resolver<T>, action: Action<T>)

  /** The outcome of the `k`-th run of `a` on a fresh resolver: its first resolution
      decides; a throw counts only when nothing was resolved before it. */
  function RunOutcome<T>(a: Action<T>, k: nat): Out<T>
  {
    match a
    case NoOp => Pending
    case Run(settle, thrown) =>
      match settle(k)
      case Some(None) => Cancelled
      case Some(Some(r)) => Resolved(r)
      case None => if thrown(k).Some? then Resolved(Failure(thrown(k).value)) else Pending
  }

  /** `action(ActionCtx(resolver, …))`: the `k`-th run of the action on `r`, with a throw
      turned into `reject(error)`. On a sealed resolver it leaves the run's outcome. */
  method RunAction<T>(a: Action<T>, k: nat, r: ER.Resolver<T>)
    requires r.Valid()
    modifies r.Repr()
    ensures r.Valid()
    ensures old(r.State()) == S.Sealed([]) ==> OutcomeOf(r.State()) == RunOutcome(a, k)
  {
    match a
    case NoOp =>
    case Run(settle, thrown) =>
      if settle(k).Some? {
        var invoked := r.Resolve(settle(k).value);
      }
      if thrown(k).Some? {
        var invoked := r.Reject(thrown(k).value);
      }
  }

  /** `init(on:bindQueue:_ call:)`: stores the action and runs it once on a fresh resolver. */
  method Create<T>(a: Action<T>) returns (p: Promise<T>)
    ensures p.resolver.Valid() && fresh(p.resolver.Repr()) && p.action == a
    ensures OutcomeOf(p.resolver.State()) == RunOutcome(a, 0)
  {
    var r := new ER.Resolver(None);
    RunAction(a, 0, r);
    p := Promise(r, a);
  }

  /** `init(_ value:)`: pre-resolved with `.success(value)`, with a no-op action. */
  method FromValue<T>(v: T) returns (p: Promise<T>)
    ensures p.resolver.Valid() && fresh(p.resolver.Repr())
    ensures p.resolver.State() == S.Resolved(Success(v)) && p.action == NoOp
  {
    var r := new ER.Resolver(Some(v));
    p := Promise(r, NoOp);
  }

  /** `Promise(queue: q, recover: true, call)`: the `k`-th replay of `p`'s action on a
      fresh resolver. */
  method Replay<T>(p: Promise<T>, k: nat) returns (q: Promise<T>)
    ensures q.resolver.Valid() && fresh(q.resolver.Repr()) && q.action == p.action
    ensures OutcomeOf(q.resolver.State()) == RunOutcome(p.action, k)
  {
    var r := new ER.Resolver(None);
    RunAction(p.action, k, r);
    q := Promise(r, p.action);
  }

  /** A replayed value-initialised promise never resolves: its action does nothing. */
  lemma NoOpReplayPending<T>(k: nat)
    ensures RunOutcome<T>(NoOp, k) == Pending
  {
  }

  /**
   * `recoverChain(callback)`, where the replay it makes is run `k` of `action`: a success
   * of the source is forwarded; on failure the callback, when one is given
   * (`withCallback`), is called with the error, and the new promise takes the eventual
   * result of the replay.
   */
  function RecoverChain<T>(source: Out<T>, action: Action<T>, k: nat, withCallback: bool)
    : (c: Chained<Result<T, Error>, Error>)
    ensures source.Resolved? && source.result.Success? ==> c == Chained(source, [])
    ensures source.Resolved? && source.result.Failure? ==>
              var replay := RunOutcome(action, k);
              c == Chained(if replay.Resolved? then replay else Pending,
                           if withCallback then [source.result.error] else [])
    ensures !source.Resolved? ==> c == Chained(Pending, [])
  {
    Chain(source, (res: Result<T, Error>) =>
      match res
      case Success(v) => (Settle(Some(Success(v))), [])
      case Failure(e) => (PipeFrom(RunOutcome(action, k)), if withCallback then [e] else []))
  }

  /** The promise `attempt` returns, the number of replays made, and the errors the
      callback was asked about, in order. */
  datatype Attempted<T> = Attempted(outcome: Out<T>, replays: nat, asked: seq<Error>)

  /**
   * `performAttempt(times:)` on a failed promise whose next replay is run `k`, after its
   * delay: one replay through `recoverChain()`, with no callback; a success fulfils; a failure rejects if
   * `times == 0` or the callback refuses, and otherwise is tried again with `times - 1`.
   * A replay that never resolves leaves the result pending.
   */
  function PerformAttempt<T>(source: Out<T>, action: Action<T>, callback: Error -> bool, times: nat, k: nat)
    : (a: Attempted<T>)
    ensures a.replays <= times + 1
    ensures source.Resolved? && source.result.Failure? ==> 1 <= a.replays
    ensures !(source.Resolved? && source.result.Failure?) ==>
              a == Attempted(if source.Resolved? then source else Pending, 0, [])
    ensures a.replays - 1 <= |a.asked| <= times
    ensures !a.outcome.Cancelled?
    ensures source.Resolved? && source.result.Failure? && !a.outcome.Pending? ==>
              a.outcome == RunOutcome(action, k + a.replays - 1)
    decreases times
  {
    var replayed: nat := if source.Resolved? && source.result.Failure? then 1 else 0;
    match RecoverChain(source, action, k, false).downstream
    case Resolved(Success(v)) => Attempted(Resolved(Success(v)), replayed, [])
    case Resolved(Failure(e)) =>
      if times == 0 then Attempted(Resolved(Failure(e)), 1, [])
      else if !callback(e) then Attempted(Resolved(Failure(e)), 1, [e])
      else
        var rest := PerformAttempt(source, action, callback, times - 1, k + 1);
        Attempted(rest.outcome, 1 + rest.replays, [e] + rest.asked)
    case _ => Attempted(Pending, replayed, [])
  }

  /**
   * `attempt(times:callback)`: with `times <= 0` the promise itself is returned;
   * otherwise a success is forwarded, a failure the callback refuses is rejected with
   * no replay, and a failure it accepts starts `performAttempt(times:)` with the first replay.
   */
  function Attempt<T>(source: Out<T>, action: Action<T>, times: int, callback: Error -> bool): (a: Attempted<T>)
    ensures times <= 0 ==> a == Attempted(source, 0, [])
    ensures times > 0 && source.Resolved? && source.result.Success? ==> a == Attempted(source, 0, [])
    ensures times > 0 && source.Resolved? && source.result.Failure? && !callback(source.result.error) ==>
              a == Attempted(source, 0, [source.result.error])
    ensures times > 0 && source.Resolved? && source.result.Failure? && callback(source.result.error) ==>
              var run := PerformAttempt(source, action, callback, times, 1);
              a == Attempted(run.outcome, run.replays, [source.result.error] + run.asked)
              && 1 <= a.replays <= times + 1 && 1 <= |a.asked| <= times + 1
              && !a.outcome.Cancelled?
              && (a.outcome.Resolved? ==> a.outcome == RunOutcome(action, a.replays))
    ensures times > 0 && !source.Resolved? ==> a == Attempted(Pending, 0, [])
  {
    if times <= 0 then Attempted(source, 0, [])
    else
      match source
      case Resolved(Success(v)) => Attempted(Resolved(Success(v)), 0, [])
      case Resolved(Failure(e)) =>
        if !callback(e) then Attempted(Resolved(Failure(e)), 0, [e])
        else
          var run := PerformAttempt(source, action, callback, times, 1);
          Attempted(run.outcome, run.replays, [e] + run.asked)
      case _ => Attempted(Pending, 0, [])
  }

  /** `err(k), err(k + 1), …`, `n` of them. */
  function Errors(err: nat -> Error, k: nat, n: nat): (es: seq<Error>)
    ensures |es| == n
    ensures forall i :: 0 <= i < n ==> es[i] == err(k + i)
    decreases n
  {
    if n == 0 then [] else [err(k)] + Errors(err, k + 1, n - 1)
  }

  /**
   * With a replay that always fails and a callback that always agrees, `performAttempt`
   * with `times` replays `times + 1` times and fails with the last replay's error; the
   * callback is asked about every replay but the last.
   */
  lemma {:induction false} PerformAttemptExhausts<T>(source: Out<T>, action: Action<T>, err: nat -> Error,
                                                      callback: Error -> bool, times: nat, k: nat)
    requires source.Resolved? && source.result.Failure?
    requires forall j :: k <= j ==> RunOutcome(action, j) == Resolved(Failure(err(j)))
    requires forall e :: callback(e)
    ensures PerformAttempt(source, action, callback, times, k)
         == Attempted(Resolved(Failure(err(k + times))), times + 1, Errors(err, k, times))
    decreases times
  {
    assert RunOutcome(action, k) == Resolved(Failure(err(k)));
    assert RecoverChain(source, action, k, false).downstream == Resolved(Failure(err(k)));
    if times > 0 {
      PerformAttemptExhausts(source, action, err, callback, times - 1, k + 1);
      assert callback(err(k));
    }
  }

  /** `attempt(times:)` with `times > 0` on a failed promise whose replays always fail,
      with a callback that always agrees: `times + 1` replays after the original run, and
      the final failure is the last replay's error. */
  lemma AttemptReplaysTimesPlusOne<T>(source: Out<T>, action: Action<T>, err: nat -> Error,
                                      callback: Error -> bool, times: int)
    requires times > 0
    requires source.Resolved? && source.result.Failure?
    requires forall j :: 1 <= j ==> RunOutcome(action, j) == Resolved(Failure(err(j)))
    requires forall e :: callback(e)
    ensures var a := Attempt(source, action, times, callback);
            a.replays == times + 1 && a.outcome == Resolved(Failure(err(times + 1)))
            && |a.asked| == times + 1
  {
    PerformAttemptExhausts(source, action, err, callback, times, 1);
  }
}
