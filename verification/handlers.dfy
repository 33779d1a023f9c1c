/**
 * `Ruff::Handler` (lib/ruff/handler.rb): a table of effect clauses plus a value handler, and
 * the driver that runs a thunk under them.
 *
 * A handler may close over mutable local variables (State's cell, Defer's proc list). The model
 * makes that closed-over state explicit as a parameter `S` that the driver threads through
 * clauses, continuations and the value handler; a handler without such state uses `S = ()`.
 * Every continuation re-installs the handler with whatever state it is called with.
 */
module Handlers {
  import opened Maybe
  import opened Ids
  import opened Messages
  import opened Effects
  import Store

  /**
   * An effect clause `{ |k, *args| ... }`: given the current state, the performed arguments and
   * the continuation `k` (which takes the state to resume under and the value `perform`
   * returns), it evaluates to the result of the handled computation.
   */
  type Clause<!S> = (S, seq<Arg>, (S, Val) -> Comp) -> Comp

  /** A continuation handed to a clause: resume under state `S` with a value. */
  type Cont<-S> = (S, Val) -> Comp

  datatype Handler<!S> = Handler(table: map<Id, Clause<S>>, valh: Cont<S>)

  /** `Handler.new`: an empty table, and the identity function as value handler. */
  function NewHandler<S(!new)>(): (h: Handler<S>)
    ensures forall id :: Store.Lookup(h.table, id).None?
    ensures forall s, v :: h.valh(s, v) == Ret(v)
  {
    Handler(map[], (s, x) => Ret(x))
  }

  /**
   * `on(eff) { ... }`: registers the clause under exactly `eff`'s identity and returns the
   * handler; the value handler and every other entry stay as they were.
   */
  function On<S(!new)>(h: Handler<S>, eff: Effect, f: Clause<S>): (r: Handler<S>)
    ensures r.valh == h.valh
    ensures Store.Lookup(r.table, eff.id) == Some(f)
    ensures r.table.Keys == h.table.Keys + {eff.id}
    ensures forall k :: k in h.table && k != eff.id ==> r.table[k] == h.table[k]
  {
    h.(table := Store.Insert(h.table, eff.id, f))
  }

  /** `to { ... }`: replaces the value handler, keeping the table. */
  function To<S(!new)>(h: Handler<S>, f: Cont<S>): (r: Handler<S>)
    ensures r.table == h.table
    ensures r.valh == f
  {
    h.(valh := f)
  }

  /**
   * `continue(co)`: the continuation that resumes the fiber `resume` and hands what it
   * yields or returns back to this same handler (so handling is deep).
   */
  function Continue<S(!new)>(h: Handler<S>, resume: Val -> Comp, fuel: nat): (k: Cont<S>)
    decreases fuel, 1
  {
    (s, v) => Handle(h, s, resume(v), fuel)
  }

  /**
   * `rehandles(co, k)`: the continuation given to a clause for a forwarded effect. It builds a
   * copy of this handler (the one that received the `Resend`) with the same table and a value
   * handler that resumes this handler's own fiber, and runs the lower continuation `k` under it.
   */
  function Rehandles<S(!new)>(h: Handler<S>, resume: Val -> Comp, k: Val -> Comp, fuel: nat): (r: Cont<S>)
    decreases fuel, 2
  {
    // `self.class.new`, `handlers = @handlers`, then `to { continue(co) }`
    var copy := Handler(h.table, Continue(h, resume, fuel));
    (s, v) => Handle(copy, s, k(v), fuel)
  }

  /**
   * `handle(co, r)`: what the driver does with what the fiber produced.
   * - a final value goes to the value handler (the only place it is applied);
   * - a performed effect with a matching clause calls the clause with `continue(co)`, and the
   *   clause's result is the result;
   * - a performed effect with no clause is yielded outwards as `Resend(eff, continue(co))`;
   * - a `Resend` from a nested handler is looked up by its `eff`, and the clause (or the next
   *   handler out) gets the `rehandles` continuation.
   * `Fiber.yield` of the `Resend` returns straight out of `handle`, hence the `Done` resumption.
   */
  function Handle<S(!new)>(h: Handler<S>, s: S, c: Comp, fuel: nat): (r: Comp)
    ensures fuel > 0 && c.Ret? ==> r == h.valh(s, c.v)
    ensures fuel > 0 && c.Fail? ==> r == c
    ensures fuel > 0 && c.Yield? && c.msg.Eff? && Store.Lookup(h.table, c.msg.id).Some? ==>
      r == Store.Lookup(h.table, c.msg.id).value(s, c.msg.args, Continue(h, c.resume, fuel - 1))
    ensures fuel > 0 && c.Yield? && c.msg.Eff? && Store.NoMatch(h.table, c.msg.id) ==>
      r.Yield? && r.msg.Resend? && r.msg.eff == c.msg && r.resume == Done
    ensures fuel > 0 && c.Yield? && c.msg.Resend? && c.msg.eff.Eff? && Store.Lookup(h.table, c.msg.eff.id).Some? ==>
      r == Store.Lookup(h.table, c.msg.eff.id).value(s, c.msg.eff.args, Rehandles(h, c.resume, c.msg.k, fuel - 1))
    ensures fuel > 0 && c.Yield? && c.msg.Resend? && c.msg.eff.Eff? && Store.NoMatch(h.table, c.msg.eff.id) ==>
      r.Yield? && r.msg.Resend? && r.msg.eff == c.msg.eff && r.resume == Done
    decreases fuel, 0
  {
    if fuel == 0 then Fail(OutOfFuel)
    else
      match c
      case Ret(v) => h.valh(s, v)
      case Fail(e) => Fail(e)
      case Yield(Eff(id, args), resume) =>
        var k := Continue(h, resume, fuel - 1);
        (match Store.Lookup(h.table, id)
         case Some(clause) => clause(s, args, k)
         case None => Yield(Resend(Eff(id, args), v => k(s, v)), Done))
      case Yield(Resend(eff, k0), resume) =>
        var next := Rehandles(h, resume, k0, fuel - 1);
        match eff
        case Eff(id, args) =>
          (match Store.Lookup(h.table, id)
           case Some(clause) => clause(s, args, next)
           case None => Yield(Resend(eff, v => next(s, v)), Done))
        case Resend(_, _) =>
          // Store#[] asks the nested Resend for its `id`; only an empty table never asks.
          if |h.table| == 0 then Yield(Resend(eff, v => next(s, v)), Done)
          else Fail(NoMethod)
  }

  /**
   * `run { ... }`: starts the thunk's fiber and drives it with this handler. A value the thunk
   * returns comes back through the value handler; an effect the table has no clause for
   * leaves `run` for the enclosing handler; an exception propagates.
   */
  function Run<S(!new)>(h: Handler<S>, s: S, thunk: Comp, fuel: nat): (r: Comp)
    ensures fuel > 0 && thunk.Ret? ==> r == h.valh(s, thunk.v)
    ensures fuel > 0 && thunk.Fail? ==> r == thunk
    ensures fuel > 0 && thunk.Yield? && thunk.msg.Eff? && Store.NoMatch(h.table, thunk.msg.id) ==>
      r.Yield? && r.msg.Resend? && r.msg.eff == thunk.msg
  {
    Handle(h, s, thunk, fuel)
  }

  /**
   * The root of the program: no fiber encloses it, so a yield that reaches it is Ruby's
   * FiberError ("can't yield from root fiber").
   */
  function RunTop(c: Comp): (r: Result<Val, Error>)
    ensures c.Ret? <==> r.Ok?
    ensures c.Ret? ==> r.value == c.v
    ensures c.Yield? ==> r == Err(YieldFromRoot)
  {
    match c
    case Ret(v) => Ok(v)
    case Fail(e) => Err(e)
    case Yield(_, _) => Err(YieldFromRoot)
  }
}
