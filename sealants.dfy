/**
 * The resolution state machine shared by the `Promises` and `PromisesExt` resolvers,
 * stated on values: the state (`Sealant`), what each write-lock section does to it,
 * and what a whole trace of `inspect`/`resolve` calls delivers to the handlers.
 *
 * It is generic in the handler type `H` and in the result type `R`, so each variant
 * instantiates it with its own handlers and its own `Result`.
 */
module Sealants {
  import opened Base

  /** `sealed(handlers)` until the first resolution, then `resolved(result)` or `cancelled`. */
  datatype Sealant<H, R> = Sealed(handlers: seq<H>) | Resolved(result: R) | Cancelled

  /** One call of a handler, with the value it was given. */
  datatype Invocation<H, R> = Invocation(handler: H, arg: R)

  /** What the write-lock section of `resolve` hands back: the handlers it took out
      of the state and the value to call them with (none when nothing is to run). */
  datatype Captured<H, R> = Captured(handlers: seq<H>, value: Option<R>)

  /** One operation on a resolver: `inspect(handler)` or `resolve(raw)`, where
      `resolve(nil)` is `cancel()`. */
  datatype Op<H, R> = InspectOp(handler: H) | ResolveOp(raw: Option<R>)

  /** The closure `resolve` runs under the write lock: only a sealed state moves;
      `nil` cancels it and drops the queue, a value resolves it and captures the queue. */
  function ResolveSection<H, R>(raw: Option<R>, s: Sealant<H, R>): (Sealant<H, R>, Captured<H, R>)
  {
    match s
    case Sealed(hs) =>
      (match raw
       case None => (Cancelled, Captured([], None))
       case Some(v) => (Resolved(v), Captured(hs, Some(v))))
    case _ => (s, Captured([], None))
  }

  /** The closure `inspect` runs under the write lock: a sealed state queues the handler
      at the end, a resolved state hands back its value, a cancelled state does nothing. */
  function InspectSection<H, R>(h: H, s: Sealant<H, R>): (Sealant<H, R>, Option<R>)
  {
    match s
    case Sealed(hs) => (Sealed(hs + [h]), None)
    case Resolved(v) => (s, Some(v))
    case Cancelled => (s, None)
  }

  /** Calling every handler of `hs` with `v`, one after the other. */
  function Invocations<H, R>(hs: seq<H>, v: R): (inv: seq<Invocation<H, R>>)
    ensures |inv| == |hs|
    ensures forall k :: 0 <= k < |hs| ==> inv[k] == Invocation(hs[k], v)
  {
    if hs == [] then [] else [Invocation(hs[0], v)] + Invocations(hs[1..], v)
  }

  /** The handlers of a list of invocations, in order. */
  function HandlersOf<H, R>(inv: seq<Invocation<H, R>>): (hs: seq<H>)
    ensures |hs| == |inv|
    ensures forall k :: 0 <= k < |inv| ==> hs[k] == inv[k].handler
  {
    if inv == [] then [] else [inv[0].handler] + HandlersOf(inv[1..])
  }

  /** The `forEach` over captured handlers: each is invoked once, in order, with the value. */
  method RunHandlers<H, R>(handlers: seq<H>, value: R) returns (invoked: seq<Invocation<H, R>>)
    ensures |invoked| == |handlers|
    ensures forall k :: 0 <= k < |handlers| ==> invoked[k] == Invocation(handlers[k], value)
  {
    invoked := [];
    var i := 0;
    while i < |handlers|
      invariant 0 <= i <= |handlers|
      invariant |invoked| == i
      invariant forall k :: 0 <= k < i ==> invoked[k] == Invocation(handlers[k], value)
    {
      invoked := invoked + [Invocation(handlers[i], value)];
      i := i + 1;
    }
  }

  /** One operation: the new state, then the handler calls made after the lock is released. */
  function Step<H, R>(s: Sealant<H, R>, op: Op<H, R>): (Sealant<H, R>, seq<Invocation<H, R>>)
  {
    match op
    case InspectOp(h) =>
      var (next, fired) := InspectSection(h, s);
      (next, if fired.Some? then [Invocation(h, fired.value)] else [])
    case ResolveOp(raw) =>
      var (next, c) := ResolveSection(raw, s);
      (next, if c.value.Some? then Invocations(c.handlers, c.value.value) else [])
  }

  /** A trace of operations run one after the other from `s`: the final state and
      every handler call, in the order they happen. */
  function Run<H, R>(s: Sealant<H, R>, ops: seq<Op<H, R>>): (Sealant<H, R>, seq<Invocation<H, R>>)
    decreases |ops|
  {
    if ops == [] then (s, [])
    else
      var (s1, inv1) := Step(s, ops[0]);
      var (s2, inv2) := Run(s1, ops[1..]);
      (s2, inv1 + inv2)
  }

  /** The handlers registered by the `inspect` calls of a trace, in order. */
  function Registered<H, R>(ops: seq<Op<H, R>>): seq<H>
  {
    if ops == [] then []
    else (if ops[0].InspectOp? then [ops[0].handler] else []) + Registered(ops[1..])
  }

  /** The argument of the first `resolve` call of a trace, if there is one. */
  function FirstResolution<H, R>(ops: seq<Op<H, R>>): Option<Option<R>>
  {
    if ops == [] then None
    else if ops[0].ResolveOp? then Some(ops[0].raw)
    else FirstResolution(ops[1..])
  }

  lemma {:induction false} InvocationsAppend<H, R>(a: seq<H>, b: seq<H>, v: R)
    ensures Invocations(a + b, v) == Invocations(a, v) + Invocations(b, v)
  {
    var l, r := Invocations(a + b, v), Invocations(a, v) + Invocations(b, v);
    assert |l| == |r|;
    forall k | 0 <= k < |l| ensures l[k] == r[k] {
      if k < |a| { assert (a + b)[k] == a[k]; } else { assert (a + b)[k] == b[k - |a|]; }
    }
  }

  /** Once resolved, a resolver stays resolved and every later `inspect` calls its
      handler at once with the value; later `resolve` calls do nothing. */
  lemma {:induction false} RunFromResolved<H, R>(v: R, ops: seq<Op<H, R>>)
    ensures Run(Resolved(v), ops) == (Resolved(v), Invocations(Registered(ops), v))
    decreases |ops|
  {
    if ops != [] {
      RunFromResolved(v, ops[1..]);
      var head := if ops[0].InspectOp? then [ops[0].handler] else [];
      InvocationsAppend(head, Registered(ops[1..]), v);
    }
  }

  /** Once cancelled, a resolver stays cancelled and never calls a handler again. */
  lemma {:induction false} RunFromCancelled<H, R>(ops: seq<Op<H, R>>)
    ensures Run(Cancelled, ops) == (Cancelled, [])
    decreases |ops|
  {
    if ops != [] {
      RunFromCancelled(ops[1..]);
      assert Run(Cancelled, ops).0 == Cancelled;
      assert Run(Cancelled, ops).1 == [];
    }
  }

  /**
   * The resolver's contract over any trace started while sealed (with the queue `hs`):
   * the first `resolve` decides the final state; if it was a value, every handler
   * ever registered (queued before it or registered after it) is called exactly once,
   * with that value, in registration order; if it was a cancellation, or there was
   * none, no handler is ever called.
   */
  lemma {:induction false} RunFromSealed<H, R>(hs: seq<H>, ops: seq<Op<H, R>>)
    ensures var (final, invoked) := Run(Sealed(hs), ops);
            match FirstResolution(ops)
            case None => final == Sealed(hs + Registered(ops)) && invoked == []
            case Some(None) => final == Cancelled && invoked == []
            case Some(Some(v)) => final == Resolved(v) && invoked == Invocations(hs + Registered(ops), v)
    decreases |ops|
  {
    if ops != [] {
      var rest := ops[1..];
      match ops[0]
      case InspectOp(h) =>
        RunFromSealed(hs + [h], rest);
        assert hs + [h] + Registered(rest) == hs + Registered(ops);
      case ResolveOp(raw) =>
        assert Registered(ops) == Registered(rest);
        match raw
        case None => RunFromCancelled(rest);
        case Some(v) =>
          RunFromResolved(v, rest);
          InvocationsAppend(hs, Registered(rest), v);
    }
  }

  /** Exactly-once delivery: a handler is called as many times as it was registered
      (once, for a handler registered once) if the resolver ends resolved, else never. */
  lemma {:induction false} DeliveredAsRegistered<H, R>(hs: seq<H>, ops: seq<Op<H, R>>, h: H)
    ensures var (final, invoked) := Run(Sealed(hs), ops);
            multiset(HandlersOf(invoked))[h] == if final.Resolved? then multiset(hs + Registered(ops))[h] else 0
  {
    RunFromSealed(hs, ops);
    var (final, invoked) := Run(Sealed(hs), ops);
    if final.Resolved? {
      var all := hs + Registered(ops);
      assert HandlersOf(invoked) == all;
    } else {
      assert invoked == [];
    }
  }
}
