/**
 * The dispatch protocol of lib/ruff/handler.rb stated one step at a time, and the general
 * laws that follow from it.
 */
module HandlerLaws {
  import opened Maybe
  import opened Ids
  import opened Messages
  import opened Effects
  import opened Handlers
  import Store

  /** A normal completion goes to the value handler. */
  lemma ReturnGoesToValueHandler<S(!new)>(h: Handler<S>, s: S, v: Val, fuel: nat)
    requires fuel > 0
    ensures Handle(h, s, Ret(v), fuel) == h.valh(s, v)
  {
  }

  /** A performed effect with a clause: the clause's result, given `continue(co)`. */
  lemma MatchedEffect<S(!new)>(h: Handler<S>, s: S, id: Id, args: seq<Arg>, r: Val -> Comp, fuel: nat, cl: Clause<S>)
    requires fuel > 0 && Store.Lookup(h.table, id) == Some(cl)
    ensures Handle(h, s, Yield(Eff(id, args), r), fuel) == cl(s, args, Continue(h, r, fuel - 1))
  {
  }

  /** A performed effect without a clause is yielded outwards as a Resend of the same Eff. */
  lemma UnmatchedEffect<S(!new)>(h: Handler<S>, s: S, id: Id, args: seq<Arg>, r: Val -> Comp, fuel: nat)
    requires fuel > 0 && Store.Lookup(h.table, id).None?
    ensures var o := Handle(h, s, Yield(Eff(id, args), r), fuel);
      && o.Yield? && o.msg.Resend? && o.msg.eff == Eff(id, args) && o.resume == Done
      && forall v :: o.msg.k(v) == Handle(h, s, r(v), fuel - 1)
  {
  }

  /** A Resend whose effect has a clause here: the clause gets the `rehandles` continuation. */
  lemma MatchedResend<S(!new)>(h: Handler<S>, s: S, id: Id, args: seq<Arg>, k: Val -> Comp, r: Val -> Comp,
                         fuel: nat, cl: Clause<S>)
    requires fuel > 0 && Store.Lookup(h.table, id) == Some(cl)
    ensures Handle(h, s, Yield(Resend(Eff(id, args), k), r), fuel) == cl(s, args, Rehandles(h, r, k, fuel - 1))
  {
  }

  /** A Resend whose effect has no clause here is passed on, still carrying the original Eff. */
  lemma UnmatchedResend<S(!new)>(h: Handler<S>, s: S, id: Id, args: seq<Arg>, k: Val -> Comp, r: Val -> Comp, fuel: nat)
    requires fuel > 0 && Store.Lookup(h.table, id).None?
    ensures var o := Handle(h, s, Yield(Resend(Eff(id, args), k), r), fuel);
      && o.Yield? && o.msg.Resend? && o.msg.eff == Eff(id, args) && o.resume == Done
      && forall v :: o.msg.k(v) == Rehandles(h, r, k, fuel - 1)(s, v)
  {
  }

  /** Calling a rehandled continuation runs the lower continuation under a copy of this table. */
  lemma RehandlesRuns<S(!new)>(h: Handler<S>, r: Val -> Comp, k: Val -> Comp, fuel: nat, s: S, v: Val)
    ensures Rehandles(h, r, k, fuel)(s, v) == Handle(Handler(h.table, Continue(h, r, fuel)), s, k(v), fuel)
  {
  }

  /** Handling with the same fuel, however it was computed, gives the same result. */
  lemma Refuel<S(!new)>(h: Handler<S>, s: S, c: Comp, f: nat, g: nat)
    requires f == g
    ensures Handle(h, s, c, f) == Handle(h, s, c, g)
  {
  }

  /** Calling `continue(co)` resumes the fiber under the same handler. */
  lemma ContinueRuns<S(!new)>(h: Handler<S>, r: Val -> Comp, fuel: nat, s: S, v: Val)
    ensures Continue(h, r, fuel)(s, v) == Handle(h, s, r(v), fuel)
  {
  }

  /** `Handler.new.run { v }` is `v`: the default value handler is the identity. */
  lemma FreshHandlerReturns<S(!new)>(s: S, v: Val, fuel: nat)
    requires fuel > 0
    ensures Handle(NewHandler<S>(), s, Ret(v), fuel) == Ret(v)
  {
  }

  /** A fresh handler catches nothing: every performed effect is passed outwards unchanged. */
  lemma FreshHandlerForwards<S(!new)>(s: S, id: Id, args: seq<Arg>, r: Val -> Comp, fuel: nat)
    requires fuel > 0
    ensures var o := Handle(NewHandler<S>(), s, Yield(Eff(id, args), r), fuel);
      o.Yield? && o.msg.Resend? && o.msg.eff == Eff(id, args)
  {
    UnmatchedEffect(NewHandler<S>(), s, id, args, r, fuel);
  }

  /** A clause that ignores its continuation. */
  function Abort<S(!new)>(c: Comp): Clause<S>
  {
    (s: S, args: seq<Arg>, k: Cont<S>) => c
  }

  /**
   * A clause that never calls `k` makes its own result the result of `run`: neither the rest
   * of the thunk nor the value handler is applied.
   */
  lemma AbortSkipsValueHandler<S(!new)>(h: Handler<S>, e: Effect, c: Comp, s: S, args: seq<Arg>, r: Val -> Comp, fuel: nat)
    requires fuel > 0
    ensures Run(On(h, e, Abort(c)), s, Yield(Eff(e.id, args), r), fuel) == c
  {
    MatchedEffect(On(h, e, Abort(c)), s, e.id, args, r, fuel, Abort(c));
  }

  /** An effect that no handler catches reaches the root fiber: Ruby raises FiberError. */
  lemma UnhandledReachesRoot<S(!new)>(h: Handler<S>, s: S, id: Id, args: seq<Arg>, r: Val -> Comp, fuel: nat)
    requires fuel > 0 && Store.Lookup(h.table, id).None?
    ensures RunTop(Run(h, s, Yield(Eff(id, args), r), fuel)) == Err(YieldFromRoot)
  {
    UnmatchedEffect(h, s, id, args, r, fuel);
  }

  /** `perform` with no enclosing `run` is a yield from the root fiber. */
  lemma PerformOutsideRun(e: Effect, args: seq<Arg>)
    ensures RunTop(Perform(e, args)) == Err(YieldFromRoot)
  {
  }
}
