/**
 * The scenarios of spec/ruff/handler_spec.rb and spec/ruff/effect_spec.rb, run through the
 * model. Log lines the tests collect in an array are journal notes.
 */
module HandlerScenarios {
  import opened Maybe
  import opened Ids
  import opened Messages
  import opened Effects
  import opened Handlers
  import opened Journal
  import opened HandlerLaws
  import Store

  const LogEff: Effect := Effect(Id(1, None))
  const DoubleEff: Effect := Effect(Id(2, None))

  /** `messages << "<tag>: #{msg}"; k[]` */
  function NotingClause(tag: string): Clause<()>
  {
    (s: (), args: seq<Arg>, k: Cont<()>) => Note(List([Str(tag), FirstVal(args)]), _ => k(s, Nil))
  }


  function Twice(v: Val): Comp
  {
    if v.Int? then Ret(Int(2 * v.i)) else Fail(NoMethod)
  }

  /** `log_messages << "Inner Double: #{val}"; k[val * 2]` */
  function InnerDoubleClause(): Clause<()>
  {
    (s: (), args: seq<Arg>, k: Cont<()>) =>
      Note(List([Str("Inner Double"), FirstVal(args)]), _ =>
        if FirstVal(args).Int? then k(s, Int(2 * FirstVal(args).i)) else Fail(NoMethod))
  }

  function OuterHandler(): Handler<()> { On(NewHandler<()>(), LogEff, NotingClause("Outer Log")) }
  function InnerHandler(): Handler<()> { On(NewHandler<()>(), DoubleEff, InnerDoubleClause()) }

  function Succ(v: Val): Val { if v.Int? then Int(v.i + 1) else Nil }

  function InnerThunk(): Comp
  {
    Yield(Eff(LogEff.id, [V(Str("Starting inner"))]), _ =>
    Yield(Eff(DoubleEff.id, [V(Int(5))]), val =>
    Yield(Eff(LogEff.id, [V(List([Str("After double"), val]))]), _ =>
    Ret(Succ(val)))))
  }

  function OuterThunk(n: nat): Comp
  {
    Yield(Eff(LogEff.id, [V(Str("Starting outer"))]), _ => Run(InnerHandler(), (), InnerThunk(), n))
  }

  const M1: Val := List([Str("Outer Log"), Str("Starting outer")])
  const M2: Val := List([Str("Outer Log"), Str("Starting inner")])
  const M3: Val := List([Str("Inner Double"), Int(5)])
  const M4: Val := List([Str("Outer Log"), List([Str("After double"), Int(10)])])

  lemma LayeredTables()
    ensures Store.Lookup(OuterHandler().table, LogEff.id) == Some(NotingClause("Outer Log"))
    ensures Store.Lookup(OuterHandler().table, NoteEff.id).None?
    ensures Store.Lookup(InnerHandler().table, DoubleEff.id) == Some(InnerDoubleClause())
    ensures Store.Lookup(InnerHandler().table, LogEff.id).None?
  {
  }

  /** The fiber of the inner run after its first and second resumption. */
  function InnerAfter1(): Comp { InnerThunk().resume(Nil) }
  function InnerAfter2(): Comp { InnerAfter1().resume(Int(10)) }

  /** The outer copy that `rehandles` makes for the first forwarded effect. */
  function OuterCopy(n: nat): Handler<()> { Handler(OuterHandler().table, Continue(OuterHandler(), Done, n)) }
  function OuterCopy2(n: nat): Handler<()> { Handler(OuterCopy(n + 2).table, Continue(OuterCopy(n + 2), Done, n)) }
  function RecorderCopy(n: nat): Handler<seq<Val>> { Handler(Recorder().table, Continue(Recorder(), Done, n)) }

  /** A noting clause notes its tagged argument, then resumes the computation with nil. */
  lemma NotingNotes(tag: string, args: seq<Arg>, k: Cont<()>)
    ensures var r := NotingClause(tag)((), args, k);
      r.Yield? && r.msg == Eff(NoteEff.id, [V(List([Str(tag), FirstVal(args)]))]) && r.resume(Nil) == k((), Nil)
  {
    var r := NotingClause(tag)((), args, k);
    assert r == Note(List([Str(tag), FirstVal(args)]), _ => k((), Nil));
  }

  lemma InnerDoubleNotes(args: seq<Arg>, k: Cont<()>)
    requires FirstVal(args).Int?
    ensures var r := InnerDoubleClause()((), args, k);
      r.Yield? && r.msg == Eff(NoteEff.id, [V(List([Str("Inner Double"), FirstVal(args)]))])
      && r.resume(Nil) == k((), Int(2 * FirstVal(args).i))
  {
  }

  lemma LayeredStep1(n: nat)
    requires n >= 6
    ensures Handle(Recorder(), [], Run(OuterHandler(), (), OuterThunk(n), n), n)
         == Handle(Recorder(), [M1], Handle(OuterHandler(), (), Run(InnerHandler(), (), InnerThunk(), n), n - 1), n - 1)
  {
    LayeredTables();
    var O, t0 := OuterHandler(), OuterThunk(n);
    MatchedEffect(O, (), LogEff.id, t0.msg.args, t0.resume, n, NotingClause("Outer Log"));
    var k := Continue(O, t0.resume, n - 1);
    NotingNotes("Outer Log", t0.msg.args, k);
    var a := Handle(O, (), t0, n);
    ContinueRuns(O, t0.resume, n - 1, (), Nil);
    var X := Handle(O, (), Run(InnerHandler(), (), InnerThunk(), n), n - 1);
    assert a.resume(Nil) == X;
    RecordsNote(Recorder(), [], a, M1, n, [M1], X);
  }

  /** The outer handler catches the log forwarded from the inner run and notes it. */
  lemma LayeredForward(n: nat)
    requires n >= 6
    ensures var b := Handle(OuterHandler(), (), Run(InnerHandler(), (), InnerThunk(), n), n - 1);
      && b.Yield? && b.msg == Eff(NoteEff.id, [V(M2)])
      && b.resume(Nil) == Handle(OuterCopy(n - 2), (), Handle(InnerHandler(), (), InnerAfter1(), n - 1), n - 2)
  {
    LayeredTables();
    var O, I, t1 := OuterHandler(), InnerHandler(), InnerThunk();
    var inner := Run(I, (), t1, n);
    UnmatchedEffect(I, (), LogEff.id, t1.msg.args, t1.resume, n);
    MatchedResend(O, (), LogEff.id, t1.msg.args, inner.msg.k, Done, n - 1, NotingClause("Outer Log"));
    var nk := Rehandles(O, Done, inner.msg.k, n - 2);
    NotingNotes("Outer Log", t1.msg.args, nk);
    RehandlesRuns(O, Done, inner.msg.k, n - 2, (), Nil);
    assert inner.msg.k(Nil) == Handle(I, (), InnerAfter1(), n - 1);
  }

  lemma LayeredStep2(n: nat)
    requires n >= 6
    ensures Handle(Recorder(), [M1], Handle(OuterHandler(), (), Run(InnerHandler(), (), InnerThunk(), n), n - 1), n - 1)
         == Handle(Recorder(), [M1, M2], Handle(OuterCopy(n - 2), (), Handle(InnerHandler(), (), InnerAfter1(), n - 1), n - 2), n - 2)
  {
    LayeredForward(n);
    var b := Handle(OuterHandler(), (), Run(InnerHandler(), (), InnerThunk(), n), n - 1);
    var X := Handle(OuterCopy(n - 2), (), Handle(InnerHandler(), (), InnerAfter1(), n - 1), n - 2);
    assert Handle(Recorder(), [M1], b, n - 1) == Handle(Recorder(), [M1, M2], X, n - 2) by {
      RecordsNote(Recorder(), [M1], b, M2, n - 1, [M1, M2], X);
    }
  }

  lemma LayeredStep3(n: nat)
    requires n >= 6
    ensures Handle(Recorder(), [M1, M2], Handle(OuterCopy(n - 2), (), Handle(InnerHandler(), (), InnerAfter1(), n - 1), n - 2), n - 2)
         == Handle(RecorderCopy(n - 3), [M1, M2, M3], Handle(OuterCopy(n - 2), (), Handle(InnerHandler(), (), InnerAfter2(), n - 2), n - 3), n - 3)
  {
    LayeredTables();
    var I, O2, t2 := InnerHandler(), OuterCopy(n - 2), InnerAfter1();
    MatchedEffect(I, (), DoubleEff.id, t2.msg.args, t2.resume, n - 1, InnerDoubleClause());
    var k := Continue(I, t2.resume, n - 2);
    InnerDoubleNotes(t2.msg.args, k);
    var c := Handle(I, (), t2, n - 1);
    UnmatchedEffect(O2, (), NoteEff.id, c.msg.args, c.resume, n - 2);
    var d := Handle(O2, (), c, n - 2);
    ContinueRuns(I, t2.resume, n - 2, (), Int(10));
    assert c.resume(Nil) == Handle(I, (), InnerAfter2(), n - 2);
    var X := Handle(O2, (), Handle(I, (), InnerAfter2(), n - 2), n - 3);
    assert d.msg.k(Nil) == X;
    assert d.resume == Done;
    RecordsForwardedNote(Recorder(), [M1, M2], d, M3, n - 2, [M1, M2, M3], X);
  }

  lemma LayeredStep4(n: nat)
    requires n >= 6
    ensures Handle(RecorderCopy(n - 3), [M1, M2, M3], Handle(OuterCopy(n - 2), (), Handle(InnerHandler(), (), InnerAfter2(), n - 2), n - 3), n - 3)
         == Handle(RecorderCopy(n - 3), [M1, M2, M3, M4], Handle(OuterCopy2(n - 4), (), Handle(InnerHandler(), (), Ret(Int(11)), n - 3), n - 4), n - 4)
  {
    LayeredTables();
    var I, O2, t3 := InnerHandler(), OuterCopy(n - 2), InnerAfter2();
    var e := Handle(I, (), t3, n - 2);
    UnmatchedEffect(I, (), LogEff.id, t3.msg.args, t3.resume, n - 2);
    MatchedResend(O2, (), LogEff.id, t3.msg.args, e.msg.k, Done, n - 3, NotingClause("Outer Log"));
    var nk := Rehandles(O2, Done, e.msg.k, n - 4);
    NotingNotes("Outer Log", t3.msg.args, nk);
    var g := Handle(O2, (), e, n - 3);
    RehandlesRuns(O2, Done, e.msg.k, n - 4, (), Nil);
    assert e.msg.k(Nil) == Handle(I, (), Ret(Int(11)), n - 3);
    var X := Handle(OuterCopy2(n - 4), (), Handle(I, (), Ret(Int(11)), n - 3), n - 4);
    assert g.resume(Nil) == X;
    RecordsNote(RecorderCopy(n - 3), [M1, M2, M3], g, M4, n - 3, [M1, M2, M3, M4], X);
  }

  lemma LayeredStep5(n: nat)
    requires n >= 6
    ensures Handle(RecorderCopy(n - 3), [M1, M2, M3, M4], Handle(OuterCopy2(n - 4), (), Handle(InnerHandler(), (), Ret(Int(11)), n - 3), n - 4), n - 4)
         == Ret(Report([M1, M2, M3, M4], Int(11)))
  {
    assert Handle(InnerHandler(), (), Ret(Int(11)), n - 3) == Ret(Int(11));
    ContinueRuns(OuterCopy(n - 2), Done, n - 4, (), Int(11));
    ContinueRuns(OuterHandler(), Done, n - 2, (), Int(11));
    assert Handle(OuterCopy2(n - 4), (), Ret(Int(11)), n - 4) == Ret(Int(11));
    ContinueRuns(Recorder(), Done, n - 3, [M1, M2, M3, M4], Int(11));
  }

  /**
   * handler_spec "handles layered handlers": the outer handler catches both logs performed
   * inside the inner run, the inner handler still catches the double after the first
   * forwarded log, and the run returns 11.
   */
  lemma Layered(n: nat)
    requires n >= 6
    ensures Observe(Run(OuterHandler(), (), OuterThunk(n), n), n)
         == Ok(Report([M1, M2, M3, M4], Int(11)))
  {
    LayeredStep1(n);
    LayeredStep2(n);
    LayeredStep3(n);
    LayeredStep4(n);
    LayeredStep5(n);
  }

  /** handler_spec "modifies the result of the computation": `to { |x| x * 2 }.run { 5 }` is 10. */
  lemma DoubledResult(fuel: nat)
    requires fuel > 0
    ensures Run(To(NewHandler<()>(), (s: (), x: Val) => Twice(x)), (), Ret(Int(5)), fuel) == Ret(Int(10))
  {
  }

  /** The value handler of "interacts with effect handlers": the messages, then the final one. */
  function JoinFinal(log: seq<Val>, x: Val): Comp
  {
    Ret(List(log + [List([Str("Final result"), x])]))
  }

  /**
   * handler_spec "interacts with effect handlers": both performs reach the same clause in
   * order, and the value handler sees the thunk's value after them.
   */
  lemma ClausesThenValueHandler(log: Effect, fuel: nat)
    requires fuel >= 3
    ensures Run(To(On(NewHandler<seq<Val>>(), log, RecordClause()), JoinFinal), [],
                Emits(log.id, [Str("msg1"), Str("msg2")], Ret(Int(100))), fuel)
         == Ret(List([Str("msg1"), Str("msg2"), List([Str("Final result"), Int(100)])]))
  {
    var h := To(On(NewHandler<seq<Val>>(), log, RecordClause()), JoinFinal);
    var ms := [Str("msg1"), Str("msg2")];
    assert Store.Lookup(h.table, log.id) == Some(RecordClause());
    RecordsAll(h, log.id, [], ms, Ret(Int(100)), fuel);
    assert [] + ms == ms;
    assert Handle(h, ms, Ret(Int(100)), fuel - 2) == JoinFinal(ms, Int(100));
    assert ms + [List([Str("Final result"), Int(100)])] == [Str("msg1"), Str("msg2"), List([Str("Final result"), Int(100)])];
  }

  /** handler_spec "returns the final value from the computation". */
  lemma FinalValue(log: Effect, v: Val, fuel: nat)
    requires fuel > 0
    ensures Run(On(NewHandler<()>(), log, NotingClause("Log")), (), Ret(v), fuel) == Ret(v)
  {
  }

  const EffA: Effect := Effect(Id(3, None))
  const EffB: Effect := Effect(Id(4, None))
  const MA: Val := List([Str("Handled A"), Str("initial")])
  const MB: Val := List([Str("Handled B"), Str("second")])
  const Finished: Val := Str("Computation finished")

  function HandlerA(): Handler<()> { On(NewHandler<()>(), EffA, NotingClause("Handled A")) }
  function HandlerB(): Handler<()> { On(NewHandler<()>(), EffB, NotingClause("Handled B")) }

  /** What follows the inner run: `effect_b.perform('second'); messages << 'Computation finished'`. */
  function AfterInner(): Val -> Comp
  {
    _ => Yield(Eff(EffB.id, [V(Str("second"))]), _ => Note(Finished, Done))
  }

  /** The thunk of handler_b: the inner run, then the rest. */
  function SequentialThunk(n: nat): Comp
  {
    Bind(Run(HandlerA(), (), Perform(EffA, [V(Str("initial"))]), n), AfterInner(), n)
  }

  lemma SequentialTables()
    ensures Store.Lookup(HandlerA().table, EffA.id) == Some(NotingClause("Handled A"))
    ensures Store.Lookup(HandlerB().table, EffB.id) == Some(NotingClause("Handled B"))
    ensures Store.Lookup(HandlerB().table, NoteEff.id).None?
  {
  }

  /** The inner run catches `effect_a`; its clause's note is the thunk's first yield. */
  lemma SequentialStep1(n: nat)
    requires n >= 5
    ensures Handle(Recorder(), [], Run(HandlerB(), (), SequentialThunk(n), n), n)
         == Handle(Relay(Recorder(), n - 1), [MA], Handle(HandlerB(), (), AfterInner()(Nil), n - 1), n - 1)
  {
    SequentialTables();
    var A, t := HandlerA(), Perform(EffA, [V(Str("initial"))]);
    MatchedEffect(A, (), EffA.id, t.msg.args, t.resume, n, NotingClause("Handled A"));
    NotingNotes("Handled A", t.msg.args, Continue(A, t.resume, n - 1));
    var inner := Run(A, (), t, n);
    assert FirstVal(t.msg.args) == Str("initial");
    assert inner.Yield? && inner.msg == Eff(NoteEff.id, [V(MA)]);
    ContinueRuns(A, t.resume, n - 1, (), Nil);
    assert inner.resume(Nil) == Ret(Nil);
    var th := SequentialThunk(n);
    var r := v => Bind(inner.resume(v), AfterInner(), n - 1);
    assert th == Note(MA, r);
    assert r(Nil) == AfterInner()(Nil);
    assert Run(HandlerB(), (), th, n) == Handle(HandlerB(), (), Note(MA, r), n);
    NoteThrough(Recorder(), [], HandlerB(), (), Note(MA, r), MA, n, n, [MA], AfterInner()(Nil));
  }

  /** `effect_b` reaches handler_b after the inner run has finished; its note goes straight out. */
  lemma SequentialStep2(n: nat)
    requires n >= 5
    ensures Handle(Relay(Recorder(), n - 1), [MA], Handle(HandlerB(), (), AfterInner()(Nil), n - 1), n - 1)
         == Handle(Relay(Recorder(), n - 1), [MA, MB], Handle(HandlerB(), (), Note(Finished, Done), n - 2), n - 2)
  {
    SequentialTables();
    var B, t := HandlerB(), AfterInner()(Nil);
    MatchedEffect(B, (), EffB.id, t.msg.args, t.resume, n - 1, NotingClause("Handled B"));
    NotingNotes("Handled B", t.msg.args, Continue(B, t.resume, n - 2));
    var b := Handle(B, (), t, n - 1);
    assert FirstVal(t.msg.args) == Str("second");
    assert b.Yield? && b.msg == Eff(NoteEff.id, [V(MB)]);
    ContinueRuns(B, t.resume, n - 2, (), Nil);
    assert b.resume(Nil) == Handle(B, (), Note(Finished, Done), n - 2);
    RecordsNote(Relay(Recorder(), n - 1), [MA], b, MB, n - 1, [MA, MB], Handle(B, (), Note(Finished, Done), n - 2));
  }

  lemma SequentialStep3(n: nat)
    requires n >= 5
    ensures Handle(Relay(Recorder(), n - 1), [MA, MB], Handle(HandlerB(), (), Note(Finished, Done), n - 2), n - 2)
         == Ret(Report([MA, MB, Finished], Nil))
  {
    SequentialTables();
    var R1 := Relay(Recorder(), n - 1);
    NoteThrough(R1, [MA, MB], HandlerB(), (), Note(Finished, Done), Finished, n - 2, n - 2, [MA, MB, Finished], Ret(Nil));
    assert Handle(HandlerB(), (), Ret(Nil), n - 3) == Ret(Nil);
    RelayEnds(R1, n - 3, [MA, MB, Finished], Nil);
    RelayEnds(Recorder(), n - 1, [MA, MB, Finished], Nil);
  }

  /**
   * handler_spec "allows an effect handler to perform another effect sequentially": the inner
   * run's effect, the effect performed after it, and the final line appear in program order.
   */
  lemma Sequential(n: nat)
    requires n >= 5
    ensures Observe(Run(HandlerB(), (), SequentialThunk(n), n), n) == Ok(Report([MA, MB, Finished], Nil))
  {
    SequentialStep1(n);
    SequentialStep2(n);
    SequentialStep3(n);
  }
}
