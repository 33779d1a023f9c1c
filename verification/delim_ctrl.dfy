/**
 * `Ruff::Standard::DelimCtrl` (lib/ruff/standard/delim_ctrl.rb): one-shot `shift` and `reset`
 * over a module-wide stack of prompts. Each `reset` makes a fresh effect, pushes it, runs its
 * thunk under a handler that hands the shift body the continuation, and pops the effect again.
 *
 * The stack is passed in and handed back explicitly. A thunk is given the stack it runs with,
 * so a `shift` inside it sees the prompt its `reset` pushed.
 */
module DelimCtrl {
  import opened Maybe
  import opened Ids
  import opened Messages
  import opened Effects
  import opened Handlers
  import opened HandlerLaws
  import opened Journal
  import opened Scopes
  import Store

  /** The prompt stack; its last entry belongs to the nearest enclosing `reset`. */
  type Prompts = Stack

  /** The shift body as `perform` passes it: a missing block is nil. */
  function BodyArg(body: Option<ShiftBody>): Arg
  {
    match body
    case Some(b) => Body(b)
    case None => V(Nil)
  }

  /**
   * `shift(&k)`: performs the nearest prompt's effect with the body. With no prompt on the
   * stack, `@stack.last` is nil and `nil.perform` is Ruby's NoMethodError.
   */
  function Shift(stack: Prompts, body: Option<ShiftBody>): (r: Comp)
    ensures |stack| == 0 <==> r == Fail(NoMethod)
    ensures |stack| > 0 ==> r.Yield? && r.msg == Eff(stack[|stack| - 1].id, [BodyArg(body)])
    ensures |stack| > 0 ==> forall v :: r.resume(v) == Ret(v)
  {
    if |stack| == 0 then Fail(NoMethod) else Perform(stack[|stack| - 1], [BodyArg(body)])
  }

  /**
   * The prompt clause `f.call(k)`. A body that ignores `k` becomes the result of the whole
   * `reset`; one that calls `k` resumes the rest of the thunk, still under this `reset`, and
   * goes on with what that returns. The body runs where the clause runs, so its own effects go
   * to the handlers around the `reset`; `fuel` bounds how many of them are followed. A shift
   * without a block leaves `f` nil, and `nil.call` is Ruby's NoMethodError.
   */
  function PromptClause(fuel: nat): (r: Clause<()>)
    ensures forall c, k :: r((), [Body(Discard(c))], k) == c
    ensures forall x, post, k :: r((), [Body(CallK(Ret(x), post))], k) == Bind(k((), x), post, fuel)
    ensures forall k :: r((), [BodyArg(None)], k) == Fail(NoMethod)
  {
    (s: (), args: seq<Arg>, k: Cont<()>) =>
      if |args| > 0 && args[0].Body? then
        match args[0].body
        case Discard(c) => c
        case CallK(pre, post) => Bind(pre, x => Bind(k(s, x), post, fuel), fuel)
      else Fail(NoMethod)
  }

  /** The handler `reset` builds around its prompt; the value handler is the identity. */
  function PromptHandler(prompt: Effect, fuel: nat): (h: Handler<()>)
    ensures h.table.Keys == {prompt.id} && h.table[prompt.id] == PromptClause(fuel)
    ensures forall s, v :: h.valh(s, v) == Ret(v)
  {
    ScopeHandler(prompt, PromptClause(fuel))
  }

  /** The prompt handler answers its own prompt only, and passes values through. */
  lemma PromptTable(prompt: Effect, fuel: nat)
    ensures Store.Lookup(PromptHandler(prompt, fuel).table, prompt.id) == Some(PromptClause(fuel))
    ensures forall id :: !Derives(id, prompt.id) ==> Store.Lookup(PromptHandler(prompt, fuel).table, id).None?
    ensures forall s, v :: PromptHandler(prompt, fuel).valh(s, v) == Ret(v)
  {
    ScopeTable(prompt, PromptClause(fuel));
  }

  /**
   * `reset(&th)`: a scope whose clause is the prompt clause. The thunk sees a fresh prompt on
   * top of the stack; the prompt is popped only when the thunk's `run` returns.
   */
  function Reset(stack: Prompts, reg: Registry, th: Prompts -> Comp, fuel: nat): (r: Outcome)
    ensures r.result.Ret? ==> r.stack == stack
    ensures !r.result.Ret? ==> r.stack == stack + [NewEffect(reg).0]
    ensures r.reg == NewEffect(reg).1
    ensures fuel > 0 && th(stack + [NewEffect(reg).0]).Ret? ==> r.result == th(stack + [NewEffect(reg).0])
  {
    Scoped(stack, reg, _ => PromptClause(fuel), th, fuel)
  }

  /** A shift body that ignores `k` is the result of its `reset`: the rest of the thunk is dropped. */
  lemma ShiftDiscards(prompt: Effect, fuel: nat, c: Comp, r: Val -> Comp, f: nat)
    requires f > 0
    ensures Handle(PromptHandler(prompt, fuel), (), Yield(Eff(prompt.id, [Body(Discard(c))]), r), f) == c
  {
    PromptTable(prompt, fuel);
    MatchedEffect(PromptHandler(prompt, fuel), (), prompt.id, [Body(Discard(c))], r, f, PromptClause(fuel));
  }

  /**
   * A shift body that calls `k` with `x` resumes the rest of the thunk with `x`, still under
   * the same `reset`, and goes on with whatever that rest returns.
   */
  lemma ShiftCallsK(prompt: Effect, fuel: nat, x: Val, post: Val -> Comp, r: Val -> Comp, f: nat)
    requires f > 0
    ensures Handle(PromptHandler(prompt, fuel), (), Yield(Eff(prompt.id, [Body(CallK(Ret(x), post))]), r), f)
         == Bind(Handle(PromptHandler(prompt, fuel), (), r(x), f - 1), post, fuel)
  {
    var h := PromptHandler(prompt, fuel);
    PromptTable(prompt, fuel);
    MatchedEffect(h, (), prompt.id, [Body(CallK(Ret(x), post))], r, f, PromptClause(fuel));
    ContinueRuns(h, r, f - 1, (), x);
  }

  /** `shift` without a block reaches its `reset` with nil for `f`, and `nil.call` raises. */
  lemma ShiftWithoutBlockFails(prompt: Effect, fuel: nat, r: Val -> Comp, f: nat)
    requires f > 0
    ensures Handle(PromptHandler(prompt, fuel), (), Yield(Eff(prompt.id, [BodyArg(None)]), r), f) == Fail(NoMethod)
  {
    PromptTable(prompt, fuel);
    MatchedEffect(PromptHandler(prompt, fuel), (), prompt.id, [V(Nil)], r, f, PromptClause(fuel));
  }

  /**
   * `reset { shift { c }; rest }`: a body that drops its continuation ends the `reset` with
   * its own result, whatever the rest of the thunk would have done.
   */
  lemma ResetAborts(stack: Prompts, reg: Registry, c: Comp, rest: Val -> Comp, fuel: nat)
    requires fuel > 0
    ensures Reset(stack, reg, stk => Bind(Shift(stk, Some(Discard(c))), rest, fuel), fuel).result == c
  {
    var prompt := NewEffect(reg).0;
    var a := Shift(stack + [prompt], Some(Discard(c)));
    var t := Bind(a, rest, fuel);
    assert t.Yield? && t.msg == Eff(prompt.id, [Body(Discard(c))]);
    ShiftDiscards(prompt, fuel, c, t.resume, fuel);
  }

  /**
   * `reset { x' = shift { |k| post(k.call(x)) }; rest(x') }`: the continuation is the rest
   * of the thunk delimited by the same `reset`, and the `reset` returns what `post` makes of
   * its result.
   */
  lemma ResetResumes(stack: Prompts, reg: Registry, x: Val, post: Val -> Comp, rest: Val -> Comp, fuel: nat)
    requires fuel > 1
    ensures var prompt := NewEffect(reg).0;
      Reset(stack, reg, stk => Bind(Shift(stk, Some(CallK(Ret(x), post))), rest, fuel), fuel).result
      == Bind(Handle(PromptHandler(prompt, fuel), (), rest(x), fuel - 1), post, fuel)
  {
    var prompt := NewEffect(reg).0;
    var a := Shift(stack + [prompt], Some(CallK(Ret(x), post)));
    var t := Bind(a, rest, fuel);
    assert t.Yield? && t.msg == Eff(prompt.id, [Body(CallK(Ret(x), post))]);
    assert t.resume(x) == rest(x);
    ShiftCallsK(prompt, fuel, x, post, t.resume, fuel);
  }

  /**
   * Two `reset`s, one inside the other, have prompts that neither handler answers for the
   * other, so a `shift` is delimited by the nearest `reset` only.
   */
  lemma NestedPromptsIndependent(reg: Registry, fuel: nat)
    ensures var (outer, reg') := NewEffect(reg);
      var inner := NewEffect(reg').0;
      && Store.Lookup(PromptHandler(outer, fuel).table, inner.id).None?
      && Store.Lookup(PromptHandler(inner, fuel).table, outer.id).None?
  {
    var (outer, reg') := NewEffect(reg);
    var inner := NewEffect(reg').0;
    PromptTable(outer, fuel);
    PromptTable(inner, fuel);
    assert !Derives(inner.id, outer.id) && !Derives(outer.id, inner.id);
  }

  /**
   * The thunk of the documentation example of `DelimCtrl`:
   * `puts "hello"; shift { |k| k.call; puts "!" }; puts "world"`, each `puts` a note
   * that resumes with nil, as `puts` returns nil.
   */
  function HelloThunk(fuel: nat): Prompts -> Comp
  {
    stk => Note(Str("hello"), _ =>
      Bind(Shift(stk, Some(CallK(Ret(Nil), _ => Note(Str("!"), Done)))), _ => Note(Str("world"), Done), fuel))
  }

  /** The documentation example prints hello, world and then !, and `reset` gives nil. */
  lemma HelloWorldOrder(stack: Prompts, reg: Registry, fuel: nat, f: nat)
    requires fuel > 3 && f > 3
    ensures Observe(Reset(stack, reg, HelloThunk(fuel), fuel).result, f)
         == Ok(Report([Str("hello"), Str("world"), Str("!")], Nil))
  {
    var prompt := NewEffect(reg).0;
    var p := PromptHandler(prompt, fuel);
    var post: Val -> Comp := _ => Note(Str("!"), Done);
    PromptTable(prompt, fuel);
    assert Store.Lookup(p.table, NoteEff.id).None? by {
      assert !Derives(NoteEff.id, prompt.id);
    }
    var rec := Recorder();
    var r1 := Relay(rec, f - 1);
    var t0 := HelloThunk(fuel)(stack + [prompt]);
    var t1 := t0.resume(Nil);
    var log1, log2, log3 := [Str("hello")], [Str("hello"), Str("world")], [Str("hello"), Str("world"), Str("!")];
    assert Handle(rec, [], Handle(p, (), t0, fuel), f) == Handle(r1, log1, Handle(p, (), t1, fuel - 1), f - 1) by {
      NoteThrough(rec, [], p, (), t0, Str("hello"), fuel, f, log1, t1);
    }
    var o := Handle(p, (), Note(Str("world"), Done), fuel - 2);
    assert Handle(p, (), t1, fuel - 1) == Bind(o, post, fuel) by {
      assert t1 == Yield(Eff(prompt.id, [Body(CallK(Ret(Nil), post))]), t1.resume);
      assert t1.resume(Nil) == Note(Str("world"), Done);
      ShiftCallsK(prompt, fuel, Nil, post, t1.resume, fuel - 1);
    }
    assert Handle(r1, log1, Bind(o, post, fuel), f - 1) == Handle(r1, log2, post(Nil), f - 2) by {
      assert Note(Str("world"), Done) == Yield(Eff(NoteEff.id, [V(Str("world"))]), Done);
      UnmatchedEffect(p, (), NoteEff.id, [V(Str("world"))], Done, fuel - 2);
      assert Done(Nil) == Ret(Nil);
      ReturnGoesToValueHandler(p, (), Nil, fuel - 3);
      assert log1 + [Str("world")] == log2;
      ForwardedNoteThenBind(r1, log1, o, Str("world"), Nil, post, fuel, f - 1);
    }
    assert Handle(r1, log2, post(Nil), f - 2) == Ret(Report(log3, Nil)) by {
      RecordsNote(r1, log2, post(Nil), Str("!"), f - 2, log3, Ret(Nil));
      ReturnGoesToValueHandler(r1, log3, Nil, f - 3);
      RelayEnds(rec, f - 1, log3, Nil);
    }
  }

  /** `"x is #{x}"`, as the pair of its text and the interpolated value. */
  function XIs(x: Val): Val
  {
    List([Str("x is"), x])
  }

  /** The shift body's first half: `output << 'shifted'`, then `k.call(1)`. */
  function ShiftedThenOne(): Comp
  {
    Note(Str("shifted"), _ => Ret(Int(1)))
  }

  /** The shift body's second half, after `k.call(1)` returns: `output << 'shift_end'; 3`. */
  function ShiftEndThenThree(): Val -> Comp
  {
    _ => Note(Str("shift_end"), _ => Ret(Int(3)))
  }

  /**
   * The thunk of standard_spec "captures and resumes continuation multiple times":
   * `x = shift { |k| output << 'shifted'; k.call(1); output << 'shift_end'; 3 }` followed by
   * `output << "x is #{x}"`.
   */
  function ResumeThunk(fuel: nat): Prompts -> Comp
  {
    stk => Bind(Shift(stk, Some(CallK(ShiftedThenOne(), ShiftEndThenThree()))), x => Note(XIs(x), Done), fuel)
  }

  /**
   * Under its `reset`, the thunk reaches the shift body at once; the body notes "shifted"
   * outside the `reset`, then resumes the rest of the thunk with 1.
   */
  lemma ResumeEntersBody(prompt: Effect, stk: Prompts, fuel: nat)
    requires fuel > 1 && |stk| > 0 && stk[|stk| - 1] == prompt
    ensures var c := Handle(PromptHandler(prompt, fuel), (), ResumeThunk(fuel)(stk), fuel);
      && c.Yield? && c.msg == Eff(NoteEff.id, [V(Str("shifted"))])
      && c.resume(Nil) == Bind(Handle(PromptHandler(prompt, fuel), (), Note(XIs(Int(1)), Done), fuel - 1), ShiftEndThenThree(), fuel)
  {
    var p := PromptHandler(prompt, fuel);
    var pre, post := ShiftedThenOne(), ShiftEndThenThree();
    var t0 := ResumeThunk(fuel)(stk);
    var k := Continue(p, t0.resume, fuel - 1);
    var g: Val -> Comp := x => Bind(k((), x), post, fuel);
    PromptTable(prompt, fuel);
    assert t0 == Yield(Eff(prompt.id, [Body(CallK(pre, post))]), t0.resume);
    MatchedEffect(p, (), prompt.id, [Body(CallK(pre, post))], t0.resume, fuel, PromptClause(fuel));
    var c1 := Bind(pre, g, fuel);
    assert pre == Yield(pre.msg, pre.resume) && pre.resume(Nil) == Ret(Int(1));
    assert c1.Yield? && c1.msg == pre.msg && c1.resume(Nil) == Bind(pre.resume(Nil), g, fuel - 1);
    assert t0.resume(Int(1)) == Note(XIs(Int(1)), Done);
    ContinueRuns(p, t0.resume, fuel - 1, (), Int(1));
  }

  /**
   * standard_spec "captures and resumes continuation multiple times": shifted, x is 1,
   * shift_end, and the `reset` returns the body's 3.
   */
  lemma ResumeOrder(stack: Prompts, reg: Registry, fuel: nat, f: nat)
    requires fuel > 2 && f > 3
    ensures Observe(Reset(stack, reg, ResumeThunk(fuel), fuel).result, f)
         == Ok(Report([Str("shifted"), XIs(Int(1)), Str("shift_end")], Int(3)))
  {
    var prompt := NewEffect(reg).0;
    var p := PromptHandler(prompt, fuel);
    var post := ShiftEndThenThree();
    var rec := Recorder();
    var c1 := Handle(p, (), ResumeThunk(fuel)(stack + [prompt]), fuel);
    var o := Handle(p, (), Note(XIs(Int(1)), Done), fuel - 1);
    var log1, log2, log3 := [Str("shifted")], [Str("shifted"), XIs(Int(1))], [Str("shifted"), XIs(Int(1)), Str("shift_end")];
    assert Handle(rec, [], c1, f) == Handle(rec, log1, Bind(o, post, fuel), f - 1) by {
      ResumeEntersBody(prompt, stack + [prompt], fuel);
      RecordsNote(rec, [], c1, Str("shifted"), f, log1, Bind(o, post, fuel));
    }
    assert Handle(rec, log1, Bind(o, post, fuel), f - 1) == Handle(rec, log2, post(Nil), f - 2) by {
      PromptTable(prompt, fuel);
      assert Store.Lookup(p.table, NoteEff.id).None? by {
        assert !Derives(NoteEff.id, prompt.id);
      }
      assert Note(XIs(Int(1)), Done) == Yield(Eff(NoteEff.id, [V(XIs(Int(1)))]), Done);
      UnmatchedEffect(p, (), NoteEff.id, [V(XIs(Int(1)))], Done, fuel - 1);
      assert Done(Nil) == Ret(Nil);
      ReturnGoesToValueHandler(p, (), Nil, fuel - 2);
      assert log1 + [XIs(Int(1))] == log2;
      ForwardedNoteThenBind(rec, log1, o, XIs(Int(1)), Nil, post, fuel, f - 1);
    }
    assert Handle(rec, log2, post(Nil), f - 2) == Ret(Report(log3, Int(3))) by {
      RecordsNote(rec, log2, post(Nil), Str("shift_end"), f - 2, log3, Ret(Int(3)));
      ReturnGoesToValueHandler(rec, log3, Int(3), f - 3);
    }
  }
}
