/**
 * The stack discipline that `DelimCtrl.reset` (lib/ruff/standard/delim_ctrl.rb) and
 * `Call1cc.context` (lib/ruff/standard/call1cc.rb) share: make a fresh effect, push it on a
 * module-wide stack, run a thunk under a handler with one clause for that effect, pop it.
 *
 * The stack is passed in and handed back explicitly. A thunk is given the stack it runs with,
 * so what it performs on the stack's entries reaches the handler its scope installed.
 */
module Scopes {
  import opened Maybe
  import opened Ids
  import opened Messages
  import opened Effects
  import opened Handlers
  import Store

  /** The module-wide stack; the last entry belongs to the innermost scope. */
  type Stack = seq<Effect>

  /** What a scope leaves behind: its value, the stack after it, and the registry. */
  datatype Outcome = Outcome(result: Comp, stack: Stack, reg: Registry)

  /** `Ruff.handler.on(eff, &clause)`: one clause, and the identity as value handler. */
  function ScopeHandler(eff: Effect, clause: Clause<()>): (h: Handler<()>)
    ensures h.table.Keys == {eff.id} && h.table[eff.id] == clause
    ensures forall s, v :: h.valh(s, v) == Ret(v)
  {
    On(NewHandler<()>(), eff, clause)
  }

  /**
   * The scope's handler answers its own effect and what derives from it, and nothing else: a
   * note, or the effect of another scope, passes through it; a value comes out unchanged.
   */
  lemma ScopeTable(eff: Effect, clause: Clause<()>)
    ensures Store.Lookup(ScopeHandler(eff, clause).table, eff.id) == Some(clause)
    ensures forall id :: !Derives(id, eff.id) ==> Store.Lookup(ScopeHandler(eff, clause).table, id).None?
    ensures forall s, v :: ScopeHandler(eff, clause).valh(s, v) == Ret(v)
  {
    var t := ScopeHandler(eff, clause).table;
    Store.InsertThenLookup(map[], eff.id, clause);
    forall id | !Derives(id, eff.id)
      ensures Store.Lookup(t, id).None?
    {
      Store.InsertUnrelated(map[], eff.id, clause, id);
    }
  }

  /**
   * Push a fresh effect, `run` the thunk under the scope's handler, pop. The pop happens only
   * when `run` returns: if the thunk raises, or is suspended by an effect some outer handler
   * must answer, the effect is still on the stack.
   */
  function Scoped(stack: Stack, reg: Registry, clause: Effect -> Clause<()>, th: Stack -> Comp, fuel: nat): (r: Outcome)
    ensures r.result.Ret? ==> r.stack == stack
    ensures !r.result.Ret? ==> |r.stack| == |stack| + 1 && r.stack[..|stack|] == stack
    ensures !r.result.Ret? ==> !Issued(reg, r.stack[|stack|].id) && Issued(r.reg, r.stack[|stack|].id)
    ensures forall x :: Issued(reg, x) ==> Issued(r.reg, x)
  {
    var (eff, reg') := NewEffect(reg);
    var ret := Run(ScopeHandler(eff, clause(eff)), (), th(stack + [eff]), fuel);
    assert (stack + [eff])[..|stack|] == stack;
    Outcome(ret, if ret.Ret? then stack else stack + [eff], reg')
  }

  /**
   * A thunk that returns a value without performing anything leaves that value, the stack as
   * it was, and the registry advanced past the scope's effect.
   */
  lemma ScopedValue(stack: Stack, reg: Registry, clause: Effect -> Clause<()>, th: Stack -> Comp, v: Val, fuel: nat)
    requires fuel > 0 && th(stack + [NewEffect(reg).0]) == Ret(v)
    ensures Scoped(stack, reg, clause, th, fuel) == Outcome(Ret(v), stack, NewEffect(reg).1)
  {
    var eff := NewEffect(reg).0;
    ScopeTable(eff, clause(eff));
  }
}
