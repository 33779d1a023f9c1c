/**
 * `Ruff::Standard::State` (lib/ruff/standard/state.rb): a mutable cell behind two effects,
 * `get` and `modify`. The cell that `with_init` closes over is the handler's state.
 */
module State {
  import opened Maybe
  import opened Ids
  import opened Messages
  import opened Effects
  import opened Handlers
  import opened HandlerLaws
  import Store

  /** `State::Instance`: the two effects the instance delegates to. */
  datatype Instance = Instance(getter: Effect, modifier: Effect)

  /** `Instance.new`: two fresh effects. */
  function NewInstance(reg: Registry): (r: (Instance, Registry))
    ensures r.0.getter.id != r.0.modifier.id
    ensures r.0.getter.id.parent.None? && r.0.modifier.id.parent.None?
    ensures Issued(r.1, r.0.getter.id) && Issued(r.1, r.0.modifier.id)
    ensures forall x :: Issued(reg, x) ==> x != r.0.getter.id && x != r.0.modifier.id && Issued(r.1, x)
  {
    var (g, r1) := NewEffect(reg);
    var (m, r2) := NewEffect(r1);
    (Instance(g, m), r2)
  }

  /** `get`: performs the get effect with no arguments. */
  function Get(inst: Instance): (r: Comp)
    ensures r.Yield? && r.msg == Eff(inst.getter.id, [])
  {
    Perform(inst.getter, [])
  }

  /** `modify(&fn)`: performs the modify effect with the proc. */
  function Modify(inst: Instance, fn: Val -> Comp): (r: Comp)
    ensures r.Yield? && r.msg == Eff(inst.modifier.id, [Fn(fn)])
  {
    Perform(inst.modifier, [Fn(fn)])
  }

  /** `put(s)`: `modify` with the proc that ignores the old state and returns `s`. */
  function Put(inst: Instance, s: Val): (r: Comp)
    ensures r.Yield? && r.msg.Eff? && r.msg.id == inst.modifier.id
    ensures |r.msg.args| == 1 && r.msg.args[0].Fn? && forall prev :: r.msg.args[0].f(prev) == Ret(s)
  {
    Modify(inst, _ => Ret(s))
  }

  /**
   * The modify clause `state = fn[state]; k[nil]`. The proc runs where the clause runs, outside
   * the handled fiber, so effects it performs go to the handlers around `with_init`; `fuel`
   * bounds how many of them are followed. A missing or non-proc argument is Ruby's
   * NoMethodError.
   */
  function ModifyClause(fuel: nat): (r: Clause<Val>)
    ensures forall s, fn: Val -> Comp, k :: fn(s).Ret? ==> r(s, [Fn(fn)], k) == k(fn(s).v, Nil)
    ensures forall s, fn: Val -> Comp, k :: fn(s).Yield? && fuel > 0 ==> r(s, [Fn(fn)], k).Yield? && r(s, [Fn(fn)], k).msg == fn(s).msg
    ensures forall s, k :: r(s, [], k) == Fail(NoMethod)
  {
    (s: Val, args: seq<Arg>, k: Cont<Val>) =>
      if |args| > 0 && args[0].Fn? then Bind(args[0].f(s), s' => k(s', Nil), fuel)
      else Fail(NoMethod)
  }

  /** The get clause `k[state]`. */
  function GetClause(): (r: Clause<Val>)
    ensures forall s, args, k :: r(s, args, k) == k(s, s)
  {
    (s: Val, args: seq<Arg>, k: Cont<Val>) => k(s, s)
  }

  /** The handler `with_init` builds: modify first, then get; the value handler is the identity. */
  function StateHandler(inst: Instance, fuel: nat): (h: Handler<Val>)
    ensures h.table.Keys == {inst.getter.id, inst.modifier.id}
    ensures h.table[inst.getter.id] == GetClause()
    ensures inst.getter.id != inst.modifier.id ==> h.table[inst.modifier.id] == ModifyClause(fuel)
    ensures forall s, v :: h.valh(s, v) == Ret(v)
  {
    On(On(NewHandler<Val>(), inst.modifier, ModifyClause(fuel)), inst.getter, GetClause())
  }

  /** Each effect of a well-formed instance finds its own clause. */
  lemma StateTable(inst: Instance, fuel: nat)
    requires inst.getter.id != inst.modifier.id
    ensures Store.Lookup(StateHandler(inst, fuel).table, inst.getter.id) == Some(GetClause())
    ensures Store.Lookup(StateHandler(inst, fuel).table, inst.modifier.id) == Some(ModifyClause(fuel))
    ensures forall s, v :: StateHandler(inst, fuel).valh(s, v) == Ret(v)
  {
    var t := StateHandler(inst, fuel).table;
    Store.LookupExact(t, inst.getter.id);
    Store.LookupExact(t, inst.modifier.id);
  }

  /**
   * `with_init(init, &th)`: runs the thunk with a cell of its own that starts at `init`. The
   * thunk's value comes back unmodified, and effects other than this instance's own still
   * reach the handlers around it.
   */
  function WithInit(inst: Instance, init: Val, th: Comp, fuel: nat): (r: Comp)
    ensures fuel > 0 && (th.Ret? || th.Fail?) ==> r == th
    ensures fuel > 0 && th.Yield? && th.msg.Eff? && !Derives(th.msg.id, inst.getter.id) && !Derives(th.msg.id, inst.modifier.id)
         ==> r.Yield? && r.msg.Resend? && r.msg.eff == th.msg
  {
    var h := StateHandler(inst, fuel);
    assert th.Yield? && th.msg.Eff? && !Derives(th.msg.id, inst.getter.id) && !Derives(th.msg.id, inst.modifier.id)
        ==> Store.NoMatch(h.table, th.msg.id);
    Run(h, init, th, fuel)
  }

  /** `with(&th)`: `with_init(nil, &th)`, so a first `get` sees nil. */
  function With(inst: Instance, th: Comp, fuel: nat): (r: Comp)
    ensures inst.getter.id != inst.modifier.id && fuel > 0 && th.Yield? && th.msg == Eff(inst.getter.id, [])
         ==> r == Handle(StateHandler(inst, fuel), Nil, th.resume(Nil), fuel - 1)
  {
    if inst.getter.id != inst.modifier.id && fuel > 0 && th.Yield? && th.msg == Eff(inst.getter.id, []) then
      GetResumesWithState(inst, fuel, Nil, th.resume, fuel);
      WithInit(inst, Nil, th, fuel)
    else
      WithInit(inst, Nil, th, fuel)
  }

  /** `get` resumes the thunk with the current state, which stays as it was. */
  lemma GetResumesWithState(inst: Instance, fuel: nat, s: Val, r: Val -> Comp, f: nat)
    requires inst.getter.id != inst.modifier.id && f > 0
    ensures Handle(StateHandler(inst, fuel), s, Yield(Eff(inst.getter.id, []), r), f)
         == Handle(StateHandler(inst, fuel), s, r(s), f - 1)
  {
    var h := StateHandler(inst, fuel);
    StateTable(inst, fuel);
    MatchedEffect(h, s, inst.getter.id, [], r, f, GetClause());
    ContinueRuns(h, r, f - 1, s, s);
  }

  /** `modify(fn)` with a proc that returns `s'` makes `s'` the state and resumes with nil. */
  lemma ModifyUpdates(inst: Instance, fuel: nat, s: Val, fn: Val -> Comp, s': Val, r: Val -> Comp, f: nat)
    requires inst.getter.id != inst.modifier.id && f > 0
    requires fn(s) == Ret(s')
    ensures Handle(StateHandler(inst, fuel), s, Yield(Eff(inst.modifier.id, [Fn(fn)]), r), f)
         == Handle(StateHandler(inst, fuel), s', r(Nil), f - 1)
  {
    var h := StateHandler(inst, fuel);
    StateTable(inst, fuel);
    MatchedEffect(h, s, inst.modifier.id, [Fn(fn)], r, f, ModifyClause(fuel));
    var k := Continue(h, r, f - 1);
    assert ModifyClause(fuel)(s, [Fn(fn)], k) == Bind(fn(s), s'' => k(s'', Nil), fuel);
    ContinueRuns(h, r, f - 1, s', Nil);
  }

  /** `put(s)` followed by `get`: the get returns `s`, whatever the state was. */
  lemma PutThenGet(inst: Instance, fuel: nat, s0: Val, s: Val, r: Val -> Comp, f: nat)
    requires inst.getter.id != inst.modifier.id && f >= 2
    ensures Handle(StateHandler(inst, fuel), s0, Yield(Put(inst, s).msg, _ => Yield(Eff(inst.getter.id, []), r)), f)
         == Handle(StateHandler(inst, fuel), s, r(s), f - 2)
  {
    var fn := Put(inst, s).msg.args[0].f;
    assert Put(inst, s).msg == Eff(inst.modifier.id, [Fn(fn)]);
    ModifyUpdates(inst, fuel, s0, fn, s, _ => Yield(Eff(inst.getter.id, []), r), f);
    GetResumesWithState(inst, fuel, s, r, f - 1);
  }


  /**
   * A thunk whose last statement is `put(s)` returns nil, the value `k[nil]` resumes `put` with,
   * whatever `s` is.
   */
  lemma PutReturnsNil(inst: Instance, init: Val, s: Val, fuel: nat)
    requires inst.getter.id != inst.modifier.id && fuel >= 2
    ensures WithInit(inst, init, Put(inst, s), fuel) == Ret(Nil)
  {
    var p := Put(inst, s);
    var fn := p.msg.args[0].f;
    assert p == Yield(Eff(inst.modifier.id, [Fn(fn)]), Done);
    ModifyUpdates(inst, fuel, init, fn, s, Done, fuel);
  }

  /** One step of a state program: the smart methods `get`, `put(v)` and `modify { |s| f(s) }`. */
  datatype Op = GetOp | PutOp(v: Val) | ModifyOp(f: Val -> Val)

  /**
   * A thunk that performs `ops` in order and then returns `fin` of everything its `get`s
   * returned, after the values already in `seen`.
   */
  function Program(inst: Instance, ops: seq<Op>, fin: seq<Val> -> Val, seen: seq<Val>): (r: Comp)
    ensures |ops| == 0 ==> r == Ret(fin(seen))
    ensures |ops| > 0 ==> r.Yield?
    decreases |ops|
  {
    if |ops| == 0 then Ret(fin(seen))
    else
      match ops[0]
      case GetOp => Yield(Eff(inst.getter.id, []), v => Program(inst, ops[1..], fin, seen + [v]))
      case PutOp(v) => Yield(Put(inst, v).msg, _ => Program(inst, ops[1..], fin, seen))
      case ModifyOp(f) => Yield(Eff(inst.modifier.id, [Fn(x => Ret(f(x)))]), _ => Program(inst, ops[1..], fin, seen))
  }

  /** A thunk that returns the list of what its `get`s returned. */
  function AsList(xs: seq<Val>): Val
  {
    List(xs)
  }

  /** A thunk that returns `v` whatever its `get`s returned. */
  function Always(v: Val): seq<Val> -> Val
  {
    _ => v
  }

  /** The state after one step, in the pure state-passing reading. */
  function Next(op: Op, s: Val): Val
  {
    match op
    case GetOp => s
    case PutOp(v) => v
    case ModifyOp(f) => f(s)
  }

  /** What one step's `get` sees: the state for a get, nothing otherwise. */
  function Seen(op: Op, s: Val): seq<Val>
  {
    if op.GetOp? then [s] else []
  }

  /** The state-monad reading of a program: what each `get` sees, starting from state `s`. */
  function Reads(ops: seq<Op>, s: Val): seq<Val>
    decreases |ops|
  {
    if |ops| == 0 then [] else Seen(ops[0], s) + Reads(ops[1..], Next(ops[0], s))
  }

  lemma ReadsUnfold(ops: seq<Op>, s: Val, seen: seq<Val>)
    requires |ops| > 0
    ensures seen + Seen(ops[0], s) + Reads(ops[1..], Next(ops[0], s)) == seen + Reads(ops, s)
  {
    var tail := Reads(ops[1..], Next(ops[0], s));
    assert Reads(ops, s) == Seen(ops[0], s) + tail;
  }

  /** One step of a program under the handler agrees with one step of the pure reading. */
  lemma ProgramStep(inst: Instance, ops: seq<Op>, fin: seq<Val> -> Val, s: Val, seen: seq<Val>, fuel: nat, f: nat)
    requires inst.getter.id != inst.modifier.id && f > 0 && |ops| > 0
    ensures Handle(StateHandler(inst, fuel), s, Program(inst, ops, fin, seen), f)
         == Handle(StateHandler(inst, fuel), Next(ops[0], s), Program(inst, ops[1..], fin, seen + Seen(ops[0], s)), f - 1)
  {
    var rest := ops[1..];
    var p := Program(inst, ops, fin, seen);
    match ops[0]
    case GetOp =>
      var r := v => Program(inst, rest, fin, seen + [v]);
      assert p == Yield(Eff(inst.getter.id, []), r);
      GetResumesWithState(inst, fuel, s, r, f);
    case PutOp(v) =>
      var fn := Put(inst, v).msg.args[0].f;
      var r := _ => Program(inst, rest, fin, seen);
      assert p == Yield(Eff(inst.modifier.id, [Fn(fn)]), r);
      ModifyUpdates(inst, fuel, s, fn, v, r, f);
      assert seen + Seen(ops[0], s) == seen;
    case ModifyOp(g) =>
      var r := _ => Program(inst, rest, fin, seen);
      assert p == Yield(Eff(inst.modifier.id, [Fn(x => Ret(g(x)))]), r);
      ModifyUpdates(inst, fuel, s, x => Ret(g(x)), g(s), r, f);
      assert seen + Seen(ops[0], s) == seen;
  }

  /** One step of the reading, given that the rest of the program runs as the reading says. */
  lemma RunsStep(inst: Instance, ops: seq<Op>, fin: seq<Val> -> Val, s: Val, seen: seq<Val>, fuel: nat, f: nat, g: nat)
    requires inst.getter.id != inst.modifier.id && |ops| > 0 && f > 0 && g == f - 1
    requires Handle(StateHandler(inst, fuel), Next(ops[0], s), Program(inst, ops[1..], fin, seen + Seen(ops[0], s)), g)
          == Ret(fin(seen + Seen(ops[0], s) + Reads(ops[1..], Next(ops[0], s))))
    ensures Handle(StateHandler(inst, fuel), s, Program(inst, ops, fin, seen), f) == Ret(fin(seen + Reads(ops, s)))
  {
    ProgramStep(inst, ops, fin, s, seen, fuel, f);
    ReadsUnfold(ops, s, seen);
  }

  /**
   * `with_init` is the state monad: running a program under the handler returns exactly what
   * the pure state-passing reading says its `get`s see.
   */
  lemma {:induction false} RunsLikeStateMonad(inst: Instance, ops: seq<Op>, fin: seq<Val> -> Val, s: Val, seen: seq<Val>,
                                              fuel: nat, f: nat)
    requires inst.getter.id != inst.modifier.id && f > |ops|
    ensures Handle(StateHandler(inst, fuel), s, Program(inst, ops, fin, seen), f) == Ret(fin(seen + Reads(ops, s)))
    decreases |ops|
  {
    if |ops| == 0 {
      assert seen + Reads(ops, s) == seen;
    } else {
      var g: nat := f - 1;
      RunsLikeStateMonad(inst, ops[1..], fin, Next(ops[0], s), seen + Seen(ops[0], s), fuel, g);
      RunsStep(inst, ops, fin, s, seen, fuel, f, g);
    }
  }

  /**
   * `with_init` returns the thunk's value unchanged: a thunk that performs any gets, puts and
   * modifies and then returns `v` makes `with_init` return `v`.
   */
  lemma WithInitKeepsValue(inst: Instance, init: Val, ops: seq<Op>, v: Val, f: nat)
    requires inst.getter.id != inst.modifier.id && f > |ops|
    ensures WithInit(inst, init, Program(inst, ops, Always(v), []), f) == Ret(v)
  {
    RunsLikeStateMonad(inst, ops, Always(v), init, [], f, f);
  }

  /** `s + 5` on an integer state. */
  function AddFive(x: Val): Val
  {
    if x.Int? then Int(x.i + 5) else Nil
  }

  /**
   * standard_spec "manages state with get, put, and modify": from 0, `put 10; get; modify +5;
   * get; put 20; get` sees 10, 15 and 20.
   */
  lemma GetPutModify(inst: Instance, fuel: nat, f: nat)
    requires inst.getter.id != inst.modifier.id && f > 6
    ensures WithInit(inst, Int(0), Program(inst, [PutOp(Int(10)), GetOp, ModifyOp(AddFive), GetOp, PutOp(Int(20)), GetOp], AsList, []), f)
         == Ret(List([Int(10), Int(15), Int(20)]))
  {
    var ops := [PutOp(Int(10)), GetOp, ModifyOp(AddFive), GetOp, PutOp(Int(20)), GetOp];
    assert [] + Reads(ops, Int(0)) == [Int(10), Int(15), Int(20)] by {
      assert ops[1..][1..][1..][1..][1..][1..] == [];
      assert Reads(ops[1..][1..][1..][1..][1..], Int(20)) == [Int(20)];
      assert Reads(ops[1..][1..][1..][1..], Int(15)) == [Int(20)];
      assert Reads(ops[1..][1..][1..], Int(15)) == [Int(15), Int(20)];
      assert Reads(ops[1..][1..], Int(10)) == [Int(15), Int(20)];
      assert Reads(ops[1..], Int(10)) == [Int(10), Int(15), Int(20)];
    }
    RunsLikeStateMonad(inst, ops, AsList, Int(0), [], f, f);
  }

  /** standard_spec "uses nil as initial state with #with": the first `get` sees nil. */
  lemma WithSeesNil(inst: Instance, f: nat)
    requires inst.getter.id != inst.modifier.id && f > 2
    ensures With(inst, Program(inst, [GetOp, PutOp(Str("hello"))], AsList, []), f) == Ret(List([Nil]))
  {
    var ops := [GetOp, PutOp(Str("hello"))];
    RunsLikeStateMonad(inst, ops, AsList, Nil, [], f, f);
    assert ops[1..][1..] == [];
    assert Reads(ops[1..], Nil) == [];
    assert Reads(ops, Nil) == [Nil];
    assert [] + Reads(ops, Nil) == [Nil];
  }

  /** `s + t` on integer states (nil otherwise). */
  function Plus(x: Val, y: Val): Val
  {
    if x.Int? && y.Int? then Int(x.i + y.i) else Nil
  }

  /** The proc `{ |s| s + state1.get }`: it performs the outer instance's get itself. */
  function AddOuter(outer: Instance, fuel: nat): Val -> Comp
  {
    s => Bind(Get(outer), v => Ret(Plus(s, v)), fuel)
  }

  /**
   * The thunk of the nested example in lib/ruff/standard.rb: `state2.modify { |s| s +
   * state1.get }`, then `state1.get` and `state2.get`; it returns the two values read.
   */
  function NestedThunk(outer: Instance, inner: Instance, fuel: nat): Comp
  {
    Yield(Eff(inner.modifier.id, [Fn(AddOuter(outer, fuel))]),
      _ => Yield(Eff(outer.getter.id, []), a => Yield(Eff(inner.getter.id, []), b => Ret(List([a, b])))))
  }

  /** The side conditions of the nested example: each instance's effects are distinct, and the
   * inner handler has no clause for the outer get. */
  predicate Nestable(outer: Instance, inner: Instance)
  {
    && outer.getter.id != outer.modifier.id && inner.getter.id != inner.modifier.id
    && !Derives(outer.getter.id, inner.getter.id) && !Derives(outer.getter.id, inner.modifier.id)
  }

  /**
   * The inner handler runs the modify clause; the proc's `state1.get` leaves it at once, and
   * answering that get with 3 makes the inner cell 7 and resumes the thunk.
   */
  lemma NestedModify(outer: Instance, inner: Instance, fuel: nat)
    requires Nestable(outer, inner) && fuel > 1
    ensures var p := NestedThunk(outer, inner, fuel);
      var c := Handle(StateHandler(inner, fuel), Int(4), p, fuel);
      && c.Yield? && c.msg == Eff(outer.getter.id, [])
      && c.resume(Int(3)) == Handle(StateHandler(inner, fuel), Int(7), p.resume(Nil), fuel - 1)
  {
    var h2 := StateHandler(inner, fuel);
    StateTable(inner, fuel);
    var p := NestedThunk(outer, inner, fuel);
    var fn := AddOuter(outer, fuel);
    var k := Continue(h2, p.resume, fuel - 1);
    var c := Handle(h2, Int(4), p, fuel);
    assert c == Bind(fn(Int(4)), s' => k(s', Nil), fuel) by {
      MatchedEffect(h2, Int(4), inner.modifier.id, [Fn(fn)], p.resume, fuel, ModifyClause(fuel));
    }
    assert fn(Int(4)) == Yield(Eff(outer.getter.id, []), v => Bind(Done(v), v => Ret(Plus(Int(4), v)), fuel - 1));
    assert c.resume(Int(3)) == k(Int(7), Nil);
    ContinueRuns(h2, p.resume, fuel - 1, Int(7), Nil);
  }

  /**
   * The thunk's own `state1.get` is forwarded by the inner handler, the outer one answers it
   * with 3 through its `rehandles` copy, and the inner get then reads 7.
   */
  lemma NestedForwardedGet(outer: Instance, inner: Instance, fuel: nat)
    requires Nestable(outer, inner) && fuel > 3
    ensures Handle(StateHandler(outer, fuel), Int(3),
                   Handle(StateHandler(inner, fuel), Int(7), NestedThunk(outer, inner, fuel).resume(Nil), fuel - 1), fuel - 1)
         == Ret(List([Int(3), Int(7)]))
  {
    var h1, h2 := StateHandler(outer, fuel), StateHandler(inner, fuel);
    var g1 := outer.getter.id;
    StateTable(outer, fuel);
    StateTable(inner, fuel);
    assert Store.NoMatch(h2.table, g1);
    var c1 := NestedThunk(outer, inner, fuel).resume(Nil);
    var r2 := c1.resume;
    var o := Handle(h2, Int(7), c1, fuel - 1);
    assert o.Yield? && o.msg.Resend? && o.msg.eff == Eff(g1, []) && o.resume == Done;
    assert forall v :: o.msg.k(v) == Handle(h2, Int(7), r2(v), fuel - 2) by {
      UnmatchedEffect(h2, Int(7), g1, [], r2, fuel - 1);
    }
    var l := List([Int(3), Int(7)]);
    assert Handle(h2, Int(7), r2(Int(3)), fuel - 2) == Ret(l) by {
      GetResumesWithState(inner, fuel, Int(7), r2(Int(3)).resume, fuel - 2);
    }
    MatchedResend(h1, Int(3), g1, [], o.msg.k, Done, fuel - 1, GetClause());
    RehandlesRuns(h1, Done, o.msg.k, fuel - 2, Int(3), Int(3));
  }

  /**
   * Two nested instances keep separate cells. The inner modify proc's `state1.get` runs where
   * the clause runs, so it reaches the outer handler directly; the thunk's own `state1.get` is
   * not the inner handler's and is forwarded to the outer one. From 3 and 4 the thunk reads 3
   * and 7.
   */
  lemma NestedInstances(outer: Instance, inner: Instance, fuel: nat)
    requires Nestable(outer, inner) && fuel > 3
    ensures WithInit(outer, Int(3), WithInit(inner, Int(4), NestedThunk(outer, inner, fuel), fuel), fuel)
         == Ret(List([Int(3), Int(7)]))
  {
    var c := Handle(StateHandler(inner, fuel), Int(4), NestedThunk(outer, inner, fuel), fuel);
    NestedModify(outer, inner, fuel);
    GetResumesWithState(outer, fuel, Int(3), c.resume, fuel);
    NestedForwardedGet(outer, inner, fuel);
  }
}
