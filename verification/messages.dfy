/**
 * The messages a suspended computation hands to its driver (lib/ruff/objects.rb), and the
 * computation trees that stand for Ruby fibers.
 *
 * A running thunk is a tree: it has finished with a value (`Ret`), it is suspended at a
 * `Fiber.yield` of a message and waits for the value it will be resumed with (`Yield`), or it
 * has raised (`Fail`). Values are first-order; the procs that the standard modules pass through
 * `perform` travel as `Arg`s.
 */
module Messages {
  import opened Ids

  /** A first-order Ruby value. `Timing` is one entry of MeasureTime's report. */
  datatype Val =
    | Nil
    | Bool(b: bool)
    | Int(i: int)
    | Str(s: string)
    | List(items: seq<Val>)
    | Timing(tag: Val)

  /** The exceptions the model distinguishes. */
  datatype Error =
    | OutOfFuel        // the model's step bound ran out
    | NoMethod         // Ruby NoMethodError, such as a method called on nil
    | TypeMismatch     // Ruby TypeError, such as `Array#+` on a non-array
    | YieldFromRoot    // Ruby FiberError: a `Fiber.yield` with no enclosing fiber
    | Arity            // Ruby ArgumentError: a method called with the wrong number of arguments

  /** One argument of `perform`: a value, a proc returning a value, a thunk, or a shift body. */
  datatype Arg =
    | V(v: Val)
    | Fn(f: Val -> Comp)
    | Proc(p: Comp)
    | Body(body: ShiftBody)

  /**
   * A shift body `{ |k| ... }` that uses its continuation at most once: either it ignores `k`
   * and evaluates `c`, or it evaluates `pre`, calls `k` with the result, and hands `k`'s
   * result to `post`.
   */
  datatype ShiftBody =
    | Discard(c: Comp)
    | CallK(pre: Comp, post: Val -> Comp)

  /** `Throws::Eff(id, args)` and `Throws::Resend(eff, k)`; both are read-only records. */
  datatype Msg =
    | Eff(id: Id, args: seq<Arg>)
    | Resend(eff: Msg, k: Val -> Comp)

  /** A fiber: finished, suspended at a yield of `msg`, or failed. */
  datatype Comp =
    | Ret(v: Val)
    | Yield(msg: Msg, resume: Val -> Comp)
    | Fail(err: Error)

  /** The resumption of a fiber whose yield is its last statement. */
  const Done: Val -> Comp := v => Ret(v)

  /**
   * Runs `c`, then `f` on its value (Ruby statement sequencing `x = c; f(x)`). Failures and
   * yields of `c` come first; `fuel` bounds how many yields of `c` are followed.
   */
  function Bind(c: Comp, f: Val -> Comp, fuel: nat): (r: Comp)
    ensures c.Ret? ==> r == f(c.v)
    ensures c.Fail? ==> r == c
    ensures c.Yield? && fuel > 0 ==> r.Yield? && r.msg == c.msg
    decreases fuel
  {
    match c
    case Ret(v) => f(v)
    case Fail(e) => Fail(e)
    case Yield(m, resume) =>
      if fuel == 0 then Fail(OutOfFuel)
      else Yield(m, v => Bind(resume(v), f, fuel - 1))
  }
}
