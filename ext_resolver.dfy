/**
 * `Resolver<T>` of the `PromisesExt` module: the same state machine as the typed
 * resolver, over the untyped `Result<T>` (failures are `Error`), kept in an
 * `Atomic<Sealant<T>, UnfairLock>` of the `Atomic` package, with a pre-resolved
 * store only for a success value.
 */
module ExtResolver {
  import opened Base
  import opened Sealants
  import A = Atomic

  datatype Handler<T> = Callback(id: nat) | Forward(target: Resolver<T>)

  type State<T> = Sealant<Handler<T>, Result<T, Error>>
  type Call<T> = Invocation<Handler<T>, Result<T, Error>>

  datatype Store<T> = Value(result: Result<T, Error>) | Seal(cell: A.Atomic<State<T>>)

  class Resolver<T> {
    const store: Store<T>

    ghost function Repr(): set<object>
    {
      if store.Seal? then {store.cell} else {}
    }

    ghost predicate Valid()
      reads Repr()
    {
      store.Seal? ==> store.cell.Valid()
    }

    /** The state the resolver is in; a pre-resolved store reads as `resolved`. */
    ghost function State(): State<T>
      reads Repr()
    {
      match store
      case Value(r) => Resolved(r)
      case Seal(cell) => cell.value
    }

    /** `init(_ value: T?)`: a value makes the resolver resolved with `.success(value)`
        from the start; without one it starts sealed with no handlers. */
    constructor (value: Option<T>)
      ensures Valid() && fresh(Repr())
      ensures State() == if value.Some? then Resolved(Success(value.value)) else Sealed([])
    {
      if value.Some? {
        store := Value(Success(value.value));
      } else {
        var cell := new A.Atomic(Sealed([]));
        store := Seal(cell);
      }
    }

    /** First resolution wins; the captured handlers run after the state is installed. */
    method Resolve(raw: Option<Result<T, Error>>) returns (invoked: seq<Call<T>>)
      requires Valid()
      modifies Repr()
      ensures Valid()
      ensures (State(), invoked) == Step(old(State()), ResolveOp(raw))
      ensures !old(State()).Sealed? ==> State() == old(State()) && invoked == []
      ensures old(State()).Sealed? && raw.None? ==> State() == Cancelled && invoked == []
      ensures old(State()).Sealed? && raw.Some? ==>
                State() == Resolved(raw.value) && invoked == Invocations(old(State()).handlers, raw.value)
    {
      if store.Value? {
        return [];
      }
      var section := store.cell.WithWriteLock((s: State<T>) => ResolveSection(raw, s));
      if section.value.None? {
        return [];
      }
      invoked := RunHandlers(section.handlers, section.value.value);
      assert invoked == Invocations(section.handlers, section.value.value);
    }

    /** Register-or-fire: queued at the end while sealed, called at once with the value
        when resolved, never called when cancelled. */
    method Inspect(h: Handler<T>) returns (invoked: seq<Call<T>>)
      requires Valid()
      modifies Repr()
      ensures Valid()
      ensures (State(), invoked) == Step(old(State()), InspectOp(h))
      ensures old(State()).Sealed? ==> State() == Sealed(old(State()).handlers + [h]) && invoked == []
      ensures old(State()).Resolved? ==> State() == old(State()) && invoked == [Invocation(h, old(State()).result)]
      ensures old(State()).Cancelled? ==> State() == Cancelled && invoked == []
    {
      match store
      case Value(result) =>
        invoked := [Invocation(h, result)];
      case Seal(cell) =>
        var fired := cell.WithWriteLock((s: State<T>) => InspectSection(h, s));
        invoked := if fired.Some? then [Invocation(h, fired.value)] else [];
    }

    /** `pipe(to: other)`: `other.inspect { self.resolve($0) }`, forwarding `other`'s
        outcome into this resolver. */
    method Pipe(other: Resolver<T>) returns (invoked: seq<Call<T>>)
      requires Valid() && other.Valid()
      requires other == this || Repr() !! other.Repr()
      modifies Repr(), other.Repr()
      ensures Valid() && other.Valid()
      ensures old(other.State()).Resolved? ==>
                other.State() == old(other.State())
                && (State(), invoked) == Step(old(State()), ResolveOp(Some(old(other.State()).result)))
      ensures old(other.State()).Sealed? ==>
                other.State() == Sealed(old(other.State()).handlers + [Forward(this)]) && invoked == []
      ensures old(other.State()).Cancelled? ==> other.State() == Cancelled && invoked == []
      ensures other != this && !old(other.State()).Resolved? ==> State() == old(State())
    {
      var fired := other.Inspect(Forward(this));
      if fired == [] {
        invoked := [];
      } else {
        invoked := Resolve(Some(fired[0].arg));
      }
    }

    method Cancel() returns (invoked: seq<Call<T>>)
      requires Valid()
      modifies Repr()
      ensures Valid()
      ensures (State(), invoked) == Step(old(State()), ResolveOp(None))
    {
      invoked := Resolve(None);
    }

    method Fulfill(v: T) returns (invoked: seq<Call<T>>)
      requires Valid()
      modifies Repr()
      ensures Valid()
      ensures (State(), invoked) == Step(old(State()), ResolveOp(Some(Success(v))))
    {
      invoked := Resolve(Some(Success(v)));
    }

    method Reject(e: Error) returns (invoked: seq<Call<T>>)
      requires Valid()
      modifies Repr()
      ensures Valid()
      ensures (State(), invoked) == Step(old(State()), ResolveOp(Some(Failure(e))))
    {
      invoked := Resolve(Some(Failure(e)));
    }
  }

  /** Performs one handler call: a `Callback` is user code, reported as is; a `Forward`
      resolves its target, whose own handler calls are returned. */
  method Deliver<T>(call: Call<T>) returns (invoked: seq<Call<T>>)
    requires call.handler.Forward? ==> call.handler.target.Valid()
    modifies if call.handler.Forward? then call.handler.target.Repr() else {}
    ensures call.handler.Callback? ==> invoked == [call]
    ensures call.handler.Forward? ==>
              var t := call.handler.target;
              t.Valid() && (t.State(), invoked) == Step(old(t.State()), ResolveOp(Some(call.arg)))
  {
    match call.handler
    case Callback(_) =>
      invoked := [call];
    case Forward(t) =>
      invoked := t.Resolve(Some(call.arg));
  }

  /** A second `resolve` after the first returns without calling any handler. */
  method ResolveTwice<T>(r: Resolver<T>, h: Handler<T>, v: Result<T, Error>, w: Result<T, Error>)
    returns (first: seq<Call<T>>, second: seq<Call<T>>)
    requires r.Valid() && r.State() == Sealed([])
    modifies r.Repr()
    ensures first == [Invocation(h, v)] && second == []
    ensures r.State() == Resolved(v)
  {
    var none := r.Inspect(h);
    first := r.Resolve(Some(v));
    second := r.Resolve(Some(w));
  }
}
