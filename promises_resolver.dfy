/**
 * `Resolver<T, Failure>` of the `Promises` module: the exactly-once result box.
 *
 * Its `Store` is either a result known at construction (`.value`, no lock needed) or an
 * `Atomic<Sealant>`. Handlers are defunctionalised: `Callback(id)` stands for a closure
 * of user or combinator code, `Forward(target)` for the closure `pipe(to:)` registers,
 * which resolves `target`. `resolve` and `inspect` return the handler calls they make,
 * in order, after the lock section; `Deliver` performs the one call that belongs to
 * this library, the forwarding of `pipe`.
 */
module PromisesResolver {
  import opened Base
  import opened Sealants
  import PromisesAtomic

  datatype Handler<T, F> = Callback(id: nat) | Forward(target: Resolver<T, F>)

  type State<T, F> = Sealant<Handler<T, F>, Result<T, F>>
  type Call<T, F> = Invocation<Handler<T, F>, Result<T, F>>

  datatype Store<T, F> = Value(result: Result<T, F>) | Seal(cell: PromisesAtomic.Atomic<State<T, F>>)

  class Resolver<T, F> {
    const store: Store<T, F>

    ghost function Repr(): set<object>
    {
      if store.Seal? then {store.cell, store.cell.lock} else {}
    }

    ghost predicate Valid()
      reads Repr()
    {
      store.Seal? ==> store.cell.Valid()
    }

    /** The state the resolver is in; a pre-resolved store reads as `resolved`. */
    ghost function State(): State<T, F>
      reads Repr()
    {
      match store
      case Value(r) => Resolved(r)
      case Seal(cell) => cell.value
    }

    /** `init(_ value:)`: given a result the resolver is terminal from the start,
        otherwise it starts sealed with no handlers. */
    constructor (value: Option<Result<T, F>>)
      ensures Valid() && fresh(Repr())
      ensures State() == if value.Some? then Resolved(value.value) else Sealed([])
    {
      if value.Some? {
        store := Value(value.value);
      } else {
        var cell := new PromisesAtomic.Atomic(Sealed([]));
        store := Seal(cell);
      }
    }

    /** First resolution wins; the captured handlers run after the state is installed. */
    method Resolve(raw: Option<Result<T, F>>) returns (invoked: seq<Call<T, F>>)
      requires Valid()
      modifies Repr()
      ensures Valid()
      ensures (State(), invoked) == Step(old(State()), ResolveOp(raw))
      ensures !old(State()).Sealed? ==> State() == old(State()) && invoked == []
      ensures old(State()).Sealed? && raw.None? ==> State() == Cancelled && invoked == []
      ensures old(State()).Sealed? && raw.Some? ==>
                State() == Resolved(raw.value) && invoked == Invocations(old(State()).handlers, raw.value)
    {
      if store.Value? {
        return [];
      }
      var section := store.cell.WithWriteLock((s: State<T, F>) => ResolveSection(raw, s));
      if section.value.None? {
        return [];
      }
      invoked := RunHandlers(section.handlers, section.value.value);
      assert invoked == Invocations(section.handlers, section.value.value);
    }

    /** Register-or-fire: queued at the end while sealed, called at once with the value
        when resolved, never called when cancelled. */
    method Inspect(h: Handler<T, F>) returns (invoked: seq<Call<T, F>>)
      requires Valid()
      modifies Repr()
      ensures Valid()
      ensures (State(), invoked) == Step(old(State()), InspectOp(h))
      ensures old(State()).Sealed? ==> State() == Sealed(old(State()).handlers + [h]) && invoked == []
      ensures old(State()).Resolved? ==> State() == old(State()) && invoked == [Invocation(h, old(State()).result)]
      ensures old(State()).Cancelled? ==> State() == Cancelled && invoked == []
    {
      match store
      case Value(result) =>
        invoked := [Invocation(h, result)];
      case Seal(cell) =>
        var fired := cell.WithWriteLock((s: State<T, F>) => InspectSection(h, s));
        invoked := if fired.Some? then [Invocation(h, fired.value)] else [];
    }

    /** `pipe(to: other)`: `other.inspect { self.resolve($0) }`. If `other` is already
        resolved this resolver takes its result now; if `other` is sealed the forwarding
        handler waits at the end of its queue; if `other` is cancelled nothing happens. */
    method Pipe(other: Resolver<T, F>) returns (invoked: seq<Call<T, F>>)
      requires Valid() && other.Valid()
      requires other == this || Repr() !! other.Repr()
      modifies Repr(), other.Repr()
      ensures Valid() && other.Valid()
      ensures old(other.State()).Resolved? ==>
                other.State() == old(other.State())
                && (State(), invoked) == Step(old(State()), ResolveOp(Some(old(other.State()).result)))
      ensures old(other.State()).Sealed? ==>
                other.State() == Sealed(old(other.State()).handlers + [Forward(this)]) && invoked == []
      ensures old(other.State()).Cancelled? ==> other.State() == Cancelled && invoked == []
      ensures other != this && !old(other.State()).Resolved? ==> State() == old(State())
    {
      var fired := other.Inspect(Forward(this));
      if fired == [] {
        invoked := [];
      } else {
        invoked := Resolve(Some(fired[0].arg));
      }
    }

    method Cancel() returns (invoked: seq<Call<T, F>>)
      requires Valid()
      modifies Repr()
      ensures Valid()
      ensures (State(), invoked) == Step(old(State()), ResolveOp(None))
    {
      invoked := Resolve(None);
    }

    method Fulfill(v: T) returns (invoked: seq<Call<T, F>>)
      requires Valid()
      modifies Repr()
      ensures Valid()
      ensures (State(), invoked) == Step(old(State()), ResolveOp(Some(Success(v))))
    {
      invoked := Resolve(Some(Success(v)));
    }

    method Reject(e: F) returns (invoked: seq<Call<T, F>>)
      requires Valid()
      modifies Repr()
      ensures Valid()
      ensures (State(), invoked) == Step(old(State()), ResolveOp(Some(Failure(e))))
    {
      invoked := Resolve(Some(Failure(e)));
    }
  }

  /** Performs one handler call: a `Callback` is user code, reported as is; a `Forward`
      resolves its target, whose own handler calls are returned. */
  method Deliver<T, F>(call: Call<T, F>) returns (invoked: seq<Call<T, F>>)
    requires call.handler.Forward? ==> call.handler.target.Valid()
    modifies if call.handler.Forward? then call.handler.target.Repr() else {}
    ensures call.handler.Callback? ==> invoked == [call]
    ensures call.handler.Forward? ==>
              var t := call.handler.target;
              t.Valid() && (t.State(), invoked) == Step(old(t.State()), ResolveOp(Some(call.arg)))
  {
    match call.handler
    case Callback(_) =>
      invoked := [call];
    case Forward(t) =>
      invoked := t.Resolve(Some(call.arg));
  }

  /** A handler registered while sealed sees the value passed to the first `resolve`;
      one registered from inside that handler's call finds the state already resolved
      and is called at once. */
  method InspectThenResolve<T, F>(r: Resolver<T, F>, h: Handler<T, F>, again: Handler<T, F>, v: Result<T, F>)
    returns (first: seq<Call<T, F>>, nested: seq<Call<T, F>>)
    requires r.Valid() && r.State() == Sealed([])
    modifies r.Repr()
    ensures first == [Invocation(h, v)] && nested == [Invocation(again, v)]
    ensures r.State() == Resolved(v)
  {
    var none := r.Inspect(h);
    first := r.Resolve(Some(v));
    nested := r.Inspect(again);
  }

  /** `r.pipe(to: other)` on two fresh resolvers, then `other.resolve(v)`: the forwarding
      handler is the one call `other` makes, and delivering it leaves `r` resolved with `v`. */
  method PipeThenResolve<T, F>(r: Resolver<T, F>, other: Resolver<T, F>, v: Result<T, F>)
    returns (fired: seq<Call<T, F>>)
    requires r.Valid() && other.Valid() && r.Repr() !! other.Repr()
    requires r.State() == Sealed([]) && other.State() == Sealed([])
    modifies r.Repr(), other.Repr()
    ensures fired == [Invocation(Forward(r), v)]
    ensures other.State() == Resolved(v) && r.State() == Resolved(v)
  {
    var none := r.Pipe(other);
    fired := other.Resolve(Some(v));
    var forwarded := Deliver(fired[0]);
  }
}
