/**
 * `Resolver<T>` of the `PromisesCore` module.
 *
 * Its state lives in an `Atomic<Sealant<T>, UnfairLock>` of the `Atomic` package, whose
 * `withWriteLock` hands the closure the value `inout` and returns whatever the closure
 * returns. The closures of this resolver never assign their `inout` argument: they
 * RETURN the state they mean to install (`nil` for "leave it"), and that returned value
 * is only passed back to the caller and dropped. `CoreStep` states both readings: as
 * written the state is never replaced; as intended the returned state replaces it.
 * The class below follows the intended reading; its `…AsWritten` methods run the
 * closures as written through `Atomic.WithWriteLock`, and `AsWrittenNeverMoves`
 * records what that code does over any trace.
 *
 * `Handler<T>` is a reference box around a closure that is never mutated, so it is a
 * value here, defunctionalised as in the other variants.
 */
module CoreResolver {
  import opened Base
  import opened Sealants
  import A = Atomic

  datatype Handler<T> = Callback(id: nat) | Forward(target: Resolver<T>)

  type State<T> = Sealant<Handler<T>, Result<T, Error>>
  type Call<T> = Invocation<Handler<T>, Result<T, Error>>

  /** How the value a lock closure returns is treated. */
  datatype Reading = AsWritten | Intended

  /** The state after a lock section whose closure returned `next`: the `inout` state
      the closure leaves, which as written is the state it was given. */
  function Commit<S>(reading: Reading, s: S, next: Option<S>): S
  {
    if reading.Intended? && next.Some? then next.value else s
  }

  /** The closure of `resolve(nil)`: `.cancelled`, whatever the state was. */
  function CancelSection<H, R>(s: Sealant<H, R>): Option<Sealant<H, R>>
  {
    Some(Cancelled)
  }

  /** The closure of `resolve(value)`: a sealed state captures its handlers and asks for
      `.resolved(value)`; any other state asks for nothing. */
  function ResolveValueSection<H, R>(v: R, s: Sealant<H, R>): (Option<Sealant<H, R>>, seq<H>)
  {
    match s
    case Sealed(hs) => (Some(Resolved(v)), hs)
    case _ => (None, [])
  }

  /** The closure of `inspect`: a sealed state asks for the handler queued at the end;
      a resolved state hands its result out as `preResult`; a cancelled state does nothing. */
  function InspectValueSection<H, R>(h: H, s: Sealant<H, R>): (Option<Sealant<H, R>>, Option<R>)
  {
    match s
    case Sealed(hs) => (Some(Sealed(hs + [h])), None)
    case Resolved(r) => (None, Some(r))
    case Cancelled => (None, None)
  }

  /** One `inspect` or `resolve` under the given reading: the new state and the handler calls. */
  function CoreStep<H, R>(reading: Reading, s: Sealant<H, R>, op: Op<H, R>): (Sealant<H, R>, seq<Invocation<H, R>>)
  {
    match op
    case InspectOp(h) =>
      var (next, pre) := InspectValueSection(h, s);
      (Commit(reading, s, next), if pre.Some? then [Invocation(h, pre.value)] else [])
    case ResolveOp(None) =>
      (Commit(reading, s, CancelSection(s)), [])
    case ResolveOp(Some(v)) =>
      var (next, hs) := ResolveValueSection(v, s);
      (Commit(reading, s, next), Invocations(hs, v))
  }

  function CoreRun<H, R>(reading: Reading, s: Sealant<H, R>, ops: seq<Op<H, R>>): (Sealant<H, R>, seq<Invocation<H, R>>)
    decreases |ops|
  {
    if ops == [] then (s, [])
    else
      var (s1, inv1) := CoreStep(reading, s, ops[0]);
      var (s2, inv2) := CoreRun(reading, s1, ops[1..]);
      (s2, inv1 + inv2)
  }

  /** As written, a resolver (which starts `.sealed([])`) stays `.sealed([])` whatever is
      done to it, and no handler is ever called: no `PromisesCore` promise completes. */
  lemma {:induction false} AsWrittenNeverMoves<H, R>(ops: seq<Op<H, R>>)
    ensures CoreRun(AsWritten, Sealed([]), ops) == (Sealed([]), [])
    decreases |ops|
  {
    if ops != [] {
      AsWrittenNeverMoves(ops[1..]);
      assert CoreStep(AsWritten, Sealed([]), ops[0]) == (Sealed([]), []);
      assert CoreRun(AsWritten, Sealed([]), ops).0 == Sealed([]);
      assert CoreRun(AsWritten, Sealed([]), ops).1 == [];
    }
  }

  /** The smallest input that shows it: `inspect(h)` then `fulfill(v)` calls `h` with the
      value under the intended reading and calls nothing as written. */
  lemma InspectThenResolveReadings<H, R>(h: H, v: R)
    ensures CoreRun(Intended, Sealed([]), [InspectOp(h), ResolveOp(Some(v))]) == (Resolved(v), [Invocation(h, v)])
    ensures CoreRun(AsWritten, Sealed([]), [InspectOp(h), ResolveOp(Some(v))]) == (Sealed([]), [])
  {
    AsWrittenNeverMoves([InspectOp(h), ResolveOp(Some(v))]);
    var ops: seq<Op<H, R>> := [InspectOp(h), ResolveOp(Some(v))];
    assert ops[1..] == [ResolveOp(Some(v))];
    assert ops[1..][1..] == [];
    assert [] + [h] == [h];
    assert CoreStep(Intended, Sealed([]), ops[0]) == (Sealed([h]), []);
    assert Invocations([h], v) == [Invocation(h, v)];
    assert CoreStep(Intended, Sealed([h]), ops[1]) == (Resolved(v), [Invocation(h, v)]);
    assert CoreRun(Intended, Sealed([h]), ops[1..]) == (Resolved(v), [Invocation(h, v)]);
    assert CoreRun(Intended, Sealed([]), ops).0 == Resolved(v);
    assert CoreRun(Intended, Sealed([]), ops).1 == [] + [Invocation(h, v)] == [Invocation(h, v)];
  }

  /** Under the intended reading, a single step that is not a cancellation is exactly the
      step of the shared resolver state machine. */
  lemma StepAgreesUnlessCancel<H, R>(s: Sealant<H, R>, op: Op<H, R>)
    requires op != ResolveOp(None)
    ensures CoreStep(Intended, s, op) == Step(s, op)
  {
  }

  /** On a sealed resolver, such as the fresh one every combinator resolves, the two
      state machines agree on every step, a cancellation included. */
  lemma SealedAgrees<H, R>(hs: seq<H>, op: Op<H, R>)
    ensures CoreStep(Intended, Sealed(hs), op) == Step(Sealed(hs), op)
  {
  }

  /** Under the intended reading, a trace with no `cancel()` behaves exactly as in the
      `Promises` and `PromisesExt` resolvers, so `RunFromSealed` applies to it. */
  lemma {:induction false} RunAgreesWithoutCancel<H, R>(s: Sealant<H, R>, ops: seq<Op<H, R>>)
    requires forall k :: 0 <= k < |ops| ==> ops[k] != ResolveOp(None)
    ensures CoreRun(Intended, s, ops) == Run(s, ops)
    decreases |ops|
  {
    if ops != [] {
      StepAgreesUnlessCancel(s, ops[0]);
      var s1 := Step(s, ops[0]).0;
      assert forall k :: 0 <= k < |ops[1..]| ==> ops[1..][k] == ops[k + 1];
      RunAgreesWithoutCancel(s1, ops[1..]);
    }
  }

  /** `cancel()` has no `sealed` check: it replaces any state, a resolved one included,
      so the result of a resolved resolver can be overwritten with `.cancelled`. */
  lemma CancelOverrides<H, R>(s: Sealant<H, R>)
    ensures CoreStep(Intended, s, ResolveOp(None)) == (Cancelled, [])
    ensures s.Resolved? ==> Step(s, ResolveOp(None)).0 == s
  {
  }

  class Resolver<T> {
    const value: A.Atomic<State<T>>

    ghost function Repr(): set<object>
    {
      {value}
    }

    ghost predicate Valid()
      reads Repr()
    {
      value.Valid()
    }

    ghost function State(): State<T>
      reads Repr()
    {
      value.value
    }

    /** A new resolver is `.sealed([])`. */
    constructor ()
      ensures Valid() && fresh(Repr()) && State() == Sealed([])
    {
      value := new A.Atomic(Sealed([]));
    }

    /** `resolve(nil)` cancels unconditionally; `resolve(value)` resolves a sealed resolver
        and calls the handlers it captured, in order, after the lock. */
    method Resolve(raw: Option<Result<T, Error>>) returns (invoked: seq<Call<T>>)
      requires Valid()
      modifies Repr()
      ensures Valid()
      ensures (State(), invoked) == CoreStep(Intended, old(State()), ResolveOp(raw))
      ensures raw.None? ==> State() == Cancelled && invoked == []
      ensures raw.Some? && old(State()).Sealed? ==>
                State() == Resolved(raw.value) && invoked == Invocations(old(State()).handlers, raw.value)
      ensures raw.Some? && !old(State()).Sealed? ==> State() == old(State()) && invoked == []
    {
      if raw.None? {
        var none := value.WithWriteLock((s: State<T>) => (Commit(Intended, s, CancelSection(s)), ()));
        return [];
      }
      var v := raw.value;
      var handlers := value.WithWriteLock((s: State<T>) =>
        var (next, hs) := ResolveValueSection(v, s); (Commit(Intended, s, next), hs));
      invoked := RunHandlers(handlers, v);
      assert invoked == Invocations(handlers, v);
    }

    /** `resolve` as written: each closure leaves its `inout` state as it found it and
        returns the state it means to install, which `withWriteLock` hands back unused;
        the handlers the value path captures are still called. */
    method ResolveAsWritten(raw: Option<Result<T, Error>>) returns (invoked: seq<Call<T>>)
      requires Valid()
      modifies Repr()
      ensures Valid()
      ensures (State(), invoked) == CoreStep(AsWritten, old(State()), ResolveOp(raw))
      ensures State() == old(State())
    {
      if raw.None? {
        var dropped := value.WithWriteLock((s: State<T>) => (s, CancelSection(s)));
        return [];
      }
      var v := raw.value;
      var section := value.WithWriteLock((s: State<T>) => (s, ResolveValueSection(v, s)));
      invoked := RunHandlers(section.1, v);
      assert invoked == Invocations(section.1, v);
    }

    /** `inspect` as written: the closure returns the queue with the handler added,
        which is dropped; a resolved state still hands out its result. */
    method InspectAsWritten(call: Handler<T>) returns (invoked: seq<Call<T>>)
      requires Valid()
      modifies Repr()
      ensures Valid()
      ensures (State(), invoked) == CoreStep(AsWritten, old(State()), InspectOp(call))
      ensures State() == old(State())
    {
      var section := value.WithWriteLock((s: State<T>) => (s, InspectValueSection(call, s)));
      invoked := if section.1.Some? then [Invocation(call, section.1.value)] else [];
    }

    method Inspect(call: Handler<T>) returns (invoked: seq<Call<T>>)
      requires Valid()
      modifies Repr()
      ensures Valid()
      ensures (State(), invoked) == CoreStep(Intended, old(State()), InspectOp(call))
      ensures old(State()).Sealed? ==> State() == Sealed(old(State()).handlers + [call]) && invoked == []
      ensures old(State()).Resolved? ==> State() == old(State()) && invoked == [Invocation(call, old(State()).result)]
      ensures old(State()).Cancelled? ==> State() == Cancelled && invoked == []
    {
      var preResult := value.WithWriteLock((s: State<T>) =>
        var (next, pre) := InspectValueSection(call, s); (Commit(Intended, s, next), pre));
      invoked := if preResult.Some? then [Invocation(call, preResult.value)] else [];
    }

    /** `pipe(to: other)`: `other.inspect { self.resolve($0) }`. */
    method Pipe(other: Resolver<T>) returns (invoked: seq<Call<T>>)
      requires Valid() && other.Valid()
      requires other == this || Repr() !! other.Repr()
      modifies Repr(), other.Repr()
      ensures Valid() && other.Valid()
      ensures old(other.State()).Resolved? ==>
                other.State() == old(other.State())
                && (State(), invoked) == CoreStep(Intended, old(State()), ResolveOp(Some(old(other.State()).result)))
      ensures old(other.State()).Sealed? ==>
                other.State() == Sealed(old(other.State()).handlers + [Forward(this)]) && invoked == []
      ensures old(other.State()).Cancelled? ==> other.State() == Cancelled && invoked == []
      ensures other != this && !old(other.State()).Resolved? ==> State() == old(State())
    {
      var fired := other.Inspect(Forward(this));
      if fired == [] {
        invoked := [];
      } else {
        invoked := Resolve(Some(fired[0].arg));
      }
    }

    method Cancel() returns (invoked: seq<Call<T>>)
      requires Valid()
      modifies Repr()
      ensures Valid() && State() == Cancelled && invoked == []
    {
      invoked := Resolve(None);
    }

    method Fulfill(v: T) returns (invoked: seq<Call<T>>)
      requires Valid()
      modifies Repr()
      ensures Valid()
      ensures (State(), invoked) == CoreStep(Intended, old(State()), ResolveOp(Some(Success(v))))
    {
      invoked := Resolve(Some(Success(v)));
    }

    method Reject(e: Error) returns (invoked: seq<Call<T>>)
      requires Valid()
      modifies Repr()
      ensures Valid()
      ensures (State(), invoked) == CoreStep(Intended, old(State()), ResolveOp(Some(Failure(e))))
    {
      invoked := Resolve(Some(Failure(e)));
    }
  }

  /** Performs one handler call, as in the other variants. */
  method Deliver<T>(call: Call<T>) returns (invoked: seq<Call<T>>)
    requires call.handler.Forward? ==> call.handler.target.Valid()
    modifies if call.handler.Forward? then call.handler.target.Repr() else {}
    ensures call.handler.Callback? ==> invoked == [call]
    ensures call.handler.Forward? ==>
              var t := call.handler.target;
              t.Valid() && (t.State(), invoked) == CoreStep(Intended, old(t.State()), ResolveOp(Some(call.arg)))
  {
    match call.handler
    case Callback(_) =>
      invoked := [call];
    case Forward(t) =>
      invoked := t.Resolve(Some(call.arg));
  }

  /** The witness of the as-written behaviour, on the class: `inspect(h)` then
      `fulfill(v)` on a fresh resolver calls nothing and leaves it `.sealed([])`. */
  method InspectThenFulfillAsWritten<T>(h: Handler<T>, v: T) returns (invoked: seq<Call<T>>)
    ensures invoked == []
  {
    var r := new Resolver<T>();
    var none := r.InspectAsWritten(h);
    invoked := r.ResolveAsWritten(Some(Success(v)));
    assert r.State() == Sealed([]);
  }
}
