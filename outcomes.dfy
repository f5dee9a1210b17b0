/**
 * What a promise combinator does, stated on outcomes.
 *
 * Every combinator builds a fresh resolver and registers one closure on the source
 * resolver with `inspect`. The closure switches on the source's `Result` and then does
 * one thing to the fresh resolver: resolves it (`fulfill`, `reject`, `resolve`, `cancel`)
 * or pipes it to another promise. With every queue `nil`, all of this runs inline, so a
 * combinator is a function from the source's eventual outcome to the downstream's
 * eventual outcome, plus the arguments its user closure was called with.
 *
 * The skeleton below goes through the resolver state machine of `Sealants`: the source
 * is inspected with `Step(…, InspectOp)`, and the downstream is a fresh `Sealed([])`
 * moved by `Step(…, ResolveOp)`.
 */
module Outcomes {
  import opened Base
  import S = Sealants

  /** The eventual state of a promise: never resolved, resolved, or cancelled. */
  datatype Outcome<R> = Pending | Resolved(result: R) | Cancelled

  /** The outcome a resolver state stands for. */
  function OutcomeOf<H, R>(s: S.Sealant<H, R>): Outcome<R>
  {
    match s
    case Sealed(_) => Pending
    case Resolved(r) => Resolved(r)
    case Cancelled => Cancelled
  }

  /** An outcome, once it is no longer pending, is final: no later `inspect` or `resolve`
      on the resolver changes it. */
  lemma SettledIsFinal<H, R>(s: S.Sealant<H, R>, ops: seq<S.Op<H, R>>)
    requires OutcomeOf(s) != Pending
    ensures OutcomeOf(S.Run(s, ops).0) == OutcomeOf(s)
  {
    if s.Resolved? {
      S.RunFromResolved(s.result, ops);
    } else {
      S.RunFromCancelled(ops);
    }
  }

  /** A resolver state with no queued handler that stands for `o`. */
  function StateOf<R>(o: Outcome<R>): (s: S.Sealant<nat, R>)
    ensures OutcomeOf(s) == o
  {
    match o
    case Pending => S.Sealed([])
    case Resolved(r) => S.Resolved(r)
    case Cancelled => S.Cancelled
  }

  /** What a closure does to the fresh downstream resolver: `resolve(raw)` (so `fulfill`,
      `reject`, and `cancel` as `resolve(nil)`), or `pipe(to:)` a promise with the given outcome. */
  datatype Action<R> = Settle(raw: Option<R>) | PipeFrom(source: Outcome<R>)

  /** The outcome of the fresh downstream resolver after `act`. A pipe only forwards a
      result: a pending or cancelled promise never calls the forwarding handler, so the
      downstream stays pending. */
  function Perform<R>(act: Action<R>): (o: Outcome<R>)
    ensures act.Settle? && act.raw.Some? ==> o == Resolved(act.raw.value)
    ensures act.Settle? && act.raw.None? ==> o == Cancelled
    ensures act.PipeFrom? ==> o == if act.source.Resolved? then act.source else Pending
  {
    var empty: S.Sealant<nat, R> := S.Sealed([]);
    match act
    case Settle(raw) =>
      OutcomeOf(S.Step(empty, S.ResolveOp(raw)).0)
    case PipeFrom(source) =>
      var forwarded := S.Step(StateOf(source), S.InspectOp(0)).1;
      if forwarded == [] then OutcomeOf(empty)
      else OutcomeOf(S.Step(empty, S.ResolveOp(Some(forwarded[0].arg))).0)
  }

  /** The downstream promise of a combinator, and the arguments of every call of the
      user closure the combinator made. */
  datatype Chained<R, B> = Chained(downstream: Outcome<R>, calls: seq<B>)

  /**
   * `Promise(queue:) { r in source.resolver.inspect { reaction } }`: the reaction runs
   * once if the source resolves, with its result, and never otherwise.
   */
  function Chain<R, R2, B>(source: Outcome<R>, reaction: R -> (Action<R2>, seq<B>)): (c: Chained<R2, B>)
    ensures !source.Resolved? ==> c == Chained(Pending, [])
    ensures source.Resolved? ==>
              c == Chained(Perform(reaction(source.result).0), reaction(source.result).1)
  {
    var fired := S.Step(StateOf(source), S.InspectOp(0)).1;
    if fired == [] then Chained(Pending, [])
    else
      var (act, calls) := reaction(fired[0].arg);
      Chained(Perform(act), calls)
  }

  /** Piping twice is piping once: the outcome a pipe leaves is itself forwarded unchanged. */
  lemma PipeIdempotent<R>(o: Outcome<R>)
    ensures Perform(PipeFrom(Perform(PipeFrom(o)))) == Perform(PipeFrom(o))
    ensures Perform(PipeFrom(o)) != Cancelled
  {
  }
}
