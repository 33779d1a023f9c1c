/**
 * `Ruff::Standard::Call1cc` (lib/ruff/standard/call1cc.rb): call-with-one-shot-continuation.
 * `context` opens a scope whose handler answers `perform(v)` with `v`; `run` hands its block
 * an escape `k`, and calling `k` drops the rest of the block and makes `run` return the value.
 */
module Call1cc {
  import opened Maybe
  import opened Ids
  import opened Messages
  import opened Effects
  import opened Handlers
  import opened HandlerLaws
  import opened Journal
  import opened Scopes
  import Store

  /** The context clause `k.call(v)`: the performed value comes straight back. */
  function ContextClause(): (r: Clause<()>)
    ensures forall v, k :: r((), [V(v)], k) == k((), v)
  {
    assert forall v :: FirstVal([V(v)]) == v;
    (s: (), args: seq<Arg>, k: Cont<()>) => k(s, FirstVal(args))
  }

  /** The handler `context` builds around its effect. */
  function ContextHandler(p: Effect): (h: Handler<()>)
    ensures h.table.Keys == {p.id} && h.table[p.id] == ContextClause()
    ensures forall s, v :: h.valh(s, v) == Ret(v)
  {
    ScopeHandler(p, ContextClause())
  }

  /**
   * `context(&prc)`: a scope whose clause returns the performed value. The block sees a fresh
   * effect on top of the stack; it is popped only when the block's `run` returns.
   */
  function Context(stack: Stack, reg: Registry, prc: Stack -> Comp, fuel: nat): (r: Outcome)
    ensures r.result.Ret? ==> r.stack == stack
    ensures !r.result.Ret? ==> r.stack == stack + [NewEffect(reg).0]
    ensures r.reg == NewEffect(reg).1
    ensures fuel > 0 && prc(stack + [NewEffect(reg).0]).Ret? ==> r.result == prc(stack + [NewEffect(reg).0])
  {
    Scoped(stack, reg, _ => ContextClause(), prc, fuel)
  }

  /** The escape `->(v) { top.perform(v) }` that `run` passes to its block. */
  function Escape(top: Effect): (k: Val -> Comp)
    ensures forall v :: k(v).Yield? && k(v).msg == Eff(top.id, [V(v)])
  {
    v => Perform(top, [V(v)])
  }

  /** `run`'s clause `top.perform(v)`: the block's continuation is dropped. */
  function RunClause(top: Effect): (r: Clause<()>)
    ensures forall v, k :: r((), [V(v)], k).Yield? && r((), [V(v)], k).msg == Eff(top.id, [V(v)])
    ensures forall args, k, k' :: r((), args, k) == r((), args, k')
  {
    (s: (), args: seq<Arg>, k: Cont<()>) => Perform(top, [V(FirstVal(args))])
  }

  /** The handler `run` builds for the effect of the outermost context. */
  function RunHandler(top: Effect): (h: Handler<()>)
    ensures h.table.Keys == {top.id} && h.table[top.id] == RunClause(top)
    ensures forall s, v :: h.valh(s, v) == Ret(v)
  {
    On(NewHandler<()>(), top, RunClause(top))
  }

  /**
   * `run(&f)`: runs the block with the escape of the first (outermost) context on the stack.
   * With no context, `@stack.first` is nil and `on(nil)` asks nil for its `id`: Ruby's
   * NoMethodError.
   */
  function RunK(stack: Stack, f: (Val -> Comp) -> Comp, fuel: nat): (r: Comp)
    ensures |stack| == 0 ==> r == Fail(NoMethod)
  {
    if |stack| == 0 then Fail(NoMethod) else Run(RunHandler(stack[0]), (), f(Escape(stack[0])), fuel)
  }

  /** The run handler answers the context's effect only, and passes values through. */
  lemma RunTable(top: Effect)
    ensures Store.Lookup(RunHandler(top).table, top.id) == Some(RunClause(top))
    ensures forall s, v :: RunHandler(top).valh(s, v) == Ret(v)
  {
    Store.InsertThenLookup(map[], top.id, RunClause(top));
  }

  /** Performing a context's effect with `v`, under that context, resumes with `v`. */
  lemma ContextAnswers(p: Effect, v: Val, r: Val -> Comp, f: nat)
    requires f > 0
    ensures Handle(ContextHandler(p), (), Yield(Eff(p.id, [V(v)]), r), f) == Handle(ContextHandler(p), (), r(v), f - 1)
  {
    ScopeTable(p, ContextClause());
    MatchedEffect(ContextHandler(p), (), p.id, [V(v)], r, f, ContextClause());
    assert FirstVal([V(v)]) == v;
    ContinueRuns(ContextHandler(p), r, f - 1, (), v);
  }

  /**
   * Calling the escape inside `run` drops whatever the block would have done next: `run`
   * itself performs the context's effect with the value, and returns what that gives back.
   */
  lemma EscapeDropsRest(top: Effect, v: Val, r: Val -> Comp, f: nat)
    requires f > 0
    ensures Handle(RunHandler(top), (), Yield(Eff(top.id, [V(v)]), r), f) == Perform(top, [V(v)])
  {
    RunTable(top);
    MatchedEffect(RunHandler(top), (), top.id, [V(v)], r, f, RunClause(top));
    assert FirstVal([V(v)]) == v;
  }

  /** A block that returns without calling its escape makes `run` return the block's value. */
  lemma RunWithoutEscape(stack: Stack, f: (Val -> Comp) -> Comp, v: Val, fuel: nat)
    requires |stack| > 0 && fuel > 0 && f(Escape(stack[0])) == Ret(v)
    ensures RunK(stack, f, fuel) == Ret(v)
  {
    RunTable(stack[0]);
  }

  /**
   * Inside the context, a `run` whose block escapes with `x` at its first effect returns `x`
   * to the code after it; the rest of the block never runs.
   */
  lemma EscapeReturnsToContext(p: Effect, f: (Val -> Comp) -> Comp, x: Val, after: Val -> Comp, fb: nat, g: nat)
    requires g > 1 && fb > 0
    requires f(Escape(p)).Yield? && f(Escape(p)).msg == Eff(p.id, [V(x)])
    ensures Handle(ContextHandler(p), (), Bind(RunK([p], f, g), after, fb), g)
         == Handle(ContextHandler(p), (), after(x), g - 1)
  {
    var c := f(Escape(p));
    assert c == Yield(Eff(p.id, [V(x)]), c.resume);
    EscapeDropsRest(p, x, c.resume, g);
    var pe := Perform(p, [V(x)]);
    var b := Bind(pe, after, fb);
    assert b.resume(x) == after(x) by {
      assert pe.resume(x) == Ret(x);
      assert b == Yield(pe.msg, v => Bind(pe.resume(v), after, fb - 1));
    }
    assert b.Yield? && b.msg == Eff(p.id, [V(x)]);
    assert b == Yield(Eff(p.id, [V(x)]), b.resume);
    ContextAnswers(p, x, b.resume, g);
  }

  /** `Array#map` of the doc example's block, one element after the other, as a list. */
  function Cons(x: Val, rest: Val): Val
  {
    if rest.List? then List([x] + rest.items) else rest
  }

  /**
   * The block of the doc example, `l.map { |e| e.zero? ? k.call(default) : e / 2 }`. Ruby's
   * `/` on integers floors, which is Dafny's `/` for the positive divisor 2.
   */
  function HalveAll(l: seq<int>, default: Val, k: Val -> Comp, fuel: nat): Comp
    decreases |l|
  {
    if |l| == 0 then Ret(List([]))
    else
      Bind(if l[0] == 0 then k(default) else Ret(Int(l[0] / 2)),
           x => Bind(HalveAll(l[1..], default, k, fuel), rest => Ret(Cons(x, rest)), fuel), fuel)
  }

  /** Each element halved. */
  function Halved(l: seq<int>): (r: seq<Val>)
    ensures |r| == |l|
    ensures forall i :: 0 <= i < |l| ==> r[i] == Int(l[i] / 2)
  {
    if |l| == 0 then [] else [Int(l[0] / 2)] + Halved(l[1..])
  }

  /** With no zero in the list the block never calls `k`, and maps every element to its half. */
  lemma {:induction false} HalveAllWithoutZero(l: seq<int>, default: Val, k: Val -> Comp, fuel: nat)
    requires forall i :: 0 <= i < |l| ==> l[i] != 0
    ensures HalveAll(l, default, k, fuel) == Ret(List(Halved(l)))
    decreases |l|
  {
    if |l| > 0 {
      HalveAllWithoutZero(l[1..], default, k, fuel);
      assert Halved(l) == [Int(l[0] / 2)] + Halved(l[1..]);
    }
  }

  /** With a zero in the list, the block calls `k` with the default when it reaches the first one. */
  lemma {:induction false} HalveAllAtZero(l: seq<int>, default: Val, top: Effect, fuel: nat)
    requires fuel > 0 && exists i :: 0 <= i < |l| && l[i] == 0
    ensures HalveAll(l, default, Escape(top), fuel).Yield?
    ensures HalveAll(l, default, Escape(top), fuel).msg == Eff(top.id, [V(default)])
    decreases |l|
  {
    if l[0] != 0 {
      var i :| 0 <= i < |l| && l[i] == 0;
      assert l[1..][i - 1] == 0;
      HalveAllAtZero(l[1..], default, top, fuel);
    }
  }

  /** The block, waiting for its escape. */
  function HalveBlock(l: seq<int>, default: Val, fuel: nat): (Val -> Comp) -> Comp
  {
    (k: Val -> Comp) => HalveAll(l, default, k, fuel)
  }

  /** The doc example's `divfail`: `run` over the block, inside a fresh `context`. */
  function Divfail(reg: Registry, l: seq<int>, default: Val, fuel: nat): Comp
  {
    Context([], reg, stk => RunK(stk, HalveBlock(l, default, fuel), fuel), fuel).result
  }

  /** With no zero, `divfail` returns the halves: `divfail.call([1, 3, 5], [1])` is `[0, 1, 2]`. */
  lemma DivfailHalves(reg: Registry, l: seq<int>, default: Val, fuel: nat)
    requires fuel > 0 && forall i :: 0 <= i < |l| ==> l[i] != 0
    ensures Divfail(reg, l, default, fuel) == Ret(List(Halved(l)))
  {
    var p := NewEffect(reg).0;
    HalveAllWithoutZero(l, default, Escape(p), fuel);
    RunWithoutEscape([p], HalveBlock(l, default, fuel), List(Halved(l)), fuel);
    assert [] + [p] == [p];
    ScopedValue([], reg, _ => ContextClause(), stk => RunK(stk, HalveBlock(l, default, fuel), fuel), List(Halved(l)), fuel);
  }

  /** With a zero, `divfail` returns the default: `divfail.call([1, 0, 5], [1])` is `[1]`. */
  lemma DivfailDefault(reg: Registry, l: seq<int>, default: Val, fuel: nat)
    requires fuel > 1 && exists i :: 0 <= i < |l| && l[i] == 0
    ensures Divfail(reg, l, default, fuel) == Ret(default)
  {
    var p := NewEffect(reg).0;
    var c := HalveAll(l, default, Escape(p), fuel);
    HalveAllAtZero(l, default, p, fuel);
    assert c == Yield(Eff(p.id, [V(default)]), c.resume);
    EscapeDropsRest(p, default, c.resume, fuel);
    assert RunK([p], HalveBlock(l, default, fuel), fuel) == Yield(Eff(p.id, [V(default)]), Done);
    ContextAnswers(p, default, Done, fuel);
    ScopeTable(p, ContextClause());
  }

  /** The halves of the doc example's first list. */
  lemma HalvedExample()
    ensures Halved([1, 3, 5]) == [Int(0), Int(1), Int(2)]
  {
    var h := Halved([1, 3, 5]);
    assert |h| == 3 && h[0] == Int(0) && h[1] == Int(1) && h[2] == Int(2);
  }

  /** The two calls of the doc example. */
  lemma DivfailExample(reg: Registry, fuel: nat)
    requires fuel > 1
    ensures Divfail(reg, [1, 3, 5], List([Int(1)]), fuel) == Ret(List([Int(0), Int(1), Int(2)]))
    ensures Divfail(reg, [1, 0, 5], List([Int(1)]), fuel) == Ret(List([Int(1)]))
  {
    assert Divfail(reg, [1, 3, 5], List([Int(1)]), fuel) == Ret(List([Int(0), Int(1), Int(2)])) by {
      DivfailHalves(reg, [1, 3, 5], List([Int(1)]), fuel);
      HalvedExample();
    }
    assert Divfail(reg, [1, 0, 5], List([Int(1)]), fuel) == Ret(List([Int(1)])) by {
      assert [1, 0, 5][1] == 0;
      DivfailDefault(reg, [1, 0, 5], List([Int(1)]), fuel);
    }
  }
}
