/**
 * `Ruff::Standard::Defer` (lib/ruff/standard/defer.rb): procs registered during a thunk run
 * after it completes, most recently registered first. The proc list `with` closes over is the
 * handler's state.
 */
module Defer {
  import opened Maybe
  import opened Ids
  import opened Messages
  import opened Effects
  import opened Handlers
  import opened HandlerLaws
  import opened Journal
  import opened Lists
  import Store

  /** `Defer::Instance`: the effect it delegates to; `Instance.new` is `NewSingle`. */
  type Instance = Single

  /** `register(&prc)`: performs the effect with the proc. */
  function Register(inst: Instance, prc: Comp): (r: Comp)
    ensures r.Yield? && r.msg == Eff(inst.eff.id, [Proc(prc)])
  {
    Perform(inst.eff, [Proc(prc)])
  }

  /** The clause `procs << prc; k[]` (a missing argument is a nil entry). */
  function RegisterClause(): (r: Clause<seq<Arg>>)
    ensures forall procs, prc, k :: r(procs, [Proc(prc)], k) == k(procs + [Proc(prc)], Nil)
    ensures forall procs, k :: r(procs, [], k) == k(procs + [V(Nil)], Nil)
  {
    (procs: seq<Arg>, args: seq<Arg>, k: Cont<seq<Arg>>) => k(procs + [if |args| > 0 then args[0] else V(Nil)], Nil)
  }

  /**
   * `each(&:[])`: calls each entry in the order given, each after the previous one has
   * finished; an entry that is not a proc is Ruby's NoMethodError. `fuel` bounds how many
   * effects of each proc are followed.
   */
  function RunAll(ps: seq<Arg>, fuel: nat): (r: Comp)
    ensures |ps| == 0 ==> r == Ret(Nil)
    ensures |ps| > 0 && !ps[0].Proc? ==> r == Fail(NoMethod)
    decreases |ps|
  {
    if |ps| == 0 then Ret(Nil)
    else if ps[0].Proc? then Bind(ps[0].p, _ => RunAll(ps[1..], fuel), fuel)
    else Fail(NoMethod)
  }

  /** The handler `with` builds: registers procs, and runs them in reverse once the thunk returns. */
  function DeferHandler(inst: Instance, fuel: nat): Handler<seq<Arg>>
  {
    To(On(NewHandler<seq<Arg>>(), inst.eff, RegisterClause()), (procs: seq<Arg>, _: Val) => RunAll(Reverse(procs), fuel))
  }

  /**
   * `with(&th)`: every call starts with an empty proc list. A registered proc is kept, not run,
   * and the thunk goes on; effects other than the instance's own reach the handlers around.
   */
  function With(inst: Instance, th: Comp, fuel: nat): Comp
  {
    Run(DeferHandler(inst, fuel), [], th, fuel)
  }

  /** Under `with`, a registration is recorded in the proc list and the thunk resumes with nil. */
  lemma WithRegisters(inst: Instance, th: Comp, fuel: nat)
    requires fuel > 0 && th.Yield? && th.msg.Eff? && th.msg.id == inst.eff.id && |th.msg.args| == 1 && th.msg.args[0].Proc?
    ensures With(inst, th, fuel) == Handle(DeferHandler(inst, fuel), [th.msg.args[0]], th.resume(Nil), fuel - 1)
  {
    var prc := th.msg.args[0].p;
    assert th == Yield(Eff(inst.eff.id, [Proc(prc)]), th.resume);
    RegisterResumes(inst, fuel, [], prc, th.resume, fuel);
    assert [] + [Proc(prc)] == [th.msg.args[0]];
  }

  /** Under `with`, an effect not derived from the instance's passes outwards unhandled. */
  lemma WithForwards(inst: Instance, th: Comp, fuel: nat)
    requires fuel > 0 && th.Yield? && th.msg.Eff? && !Derives(th.msg.id, inst.eff.id)
    ensures var r := With(inst, th, fuel); r.Yield? && r.msg.Resend? && r.msg.eff == th.msg
  {
    var h := DeferHandler(inst, fuel);
    assert Store.NoMatch(h.table, th.msg.id) by {
      assert h.table == Store.Insert(map[], inst.eff.id, RegisterClause());
      Store.Foreign(h.table, inst.eff.id, th.msg.id);
    }
    assert With(inst, th, fuel) == Run(h, [], th, fuel);
  }

  /**
   * What the proofs below need to know of the handler `with` builds: the clause for the
   * instance's effect, no clause for notes, and the value handler. Stating it as a property
   * keeps the handler's table out of the way of the solver.
   */
  ghost predicate Defers(h: Handler<seq<Arg>>, inst: Instance, fuel: nat)
  {
    && Store.Lookup(h.table, inst.eff.id) == Some(RegisterClause())
    && Store.Lookup(h.table, NoteEff.id).None?
    && forall procs, v :: h.valh(procs, v) == RunAll(Reverse(procs), fuel)
  }

  /** The handler `with` builds has those properties when its effect is not the journal's. */
  lemma DeferHandlerDefers(inst: Instance, fuel: nat)
    requires inst.eff.id != NoteEff.id
    ensures Defers(DeferHandler(inst, fuel), inst, fuel)
  {
    Store.InsertUnrelated(map[], inst.eff.id, RegisterClause(), NoteEff.id);
  }

  /** `register` appends the proc to the list and resumes the thunk at once, with nil. */
  lemma RegisterResumes(inst: Instance, fuel: nat, procs: seq<Arg>, prc: Comp, r: Val -> Comp, f: nat)
    requires f > 0
    ensures Handle(DeferHandler(inst, fuel), procs, Yield(Eff(inst.eff.id, [Proc(prc)]), r), f)
         == Handle(DeferHandler(inst, fuel), procs + [Proc(prc)], r(Nil), f - 1)
  {
    var h := DeferHandler(inst, fuel);
    MatchedEffect(h, procs, inst.eff.id, [Proc(prc)], r, f, RegisterClause());
    ContinueRuns(h, r, f - 1, procs + [Proc(prc)], Nil);
  }

  /** The procs `{ messages << m }` for each `m` of `ms`, in order. */
  function NoteProcs(ms: seq<Val>): (r: seq<Arg>)
    ensures |r| == |ms|
    ensures forall i :: 0 <= i < |ms| ==> r[i] == Proc(Note(ms[i], Done))
  {
    if |ms| == 0 then [] else [Proc(Note(ms[0], Done))] + NoteProcs(ms[1..])
  }

  lemma NoteProcsAppend(ms: seq<Val>, m: Val)
    ensures NoteProcs(ms) + [Proc(Note(m, Done))] == NoteProcs(ms + [m])
  {
    assert NoteProcs(ms) + [Proc(Note(m, Done))] == NoteProcs(ms + [m]);
  }

  lemma NoteProcsReverse(ms: seq<Val>)
    ensures Reverse(NoteProcs(ms)) == NoteProcs(Reverse(ms))
  {
    assert Reverse(NoteProcs(ms)) == NoteProcs(Reverse(ms));
  }

  /** The first noting proc notes its message, then the rest run. */
  lemma RunAllFirst(ms: seq<Val>, fuel: nat)
    requires fuel > 0 && |ms| > 0
    ensures var a := RunAll(NoteProcs(ms), fuel);
      a.Yield? && a.msg == Eff(NoteEff.id, [V(ms[0])]) && a.resume(Nil) == RunAll(NoteProcs(ms[1..]), fuel)
  {
    var ps := NoteProcs(ms);
    assert ps[0] == Proc(Note(ms[0], Done));
    assert ps[1..] == NoteProcs(ms[1..]);
  }

  /** Running noting procs one after another records their notes in that order. */
  lemma {:induction false} RunAllNotes(rh: Handler<seq<Val>>, log: seq<Val>, ms: seq<Val>, fuel: nat, f: nat)
    requires fuel > 0 && f >= |ms|
    requires Store.Lookup(rh.table, NoteEff.id) == Some(RecordClause())
    ensures Handle(rh, log, RunAll(NoteProcs(ms), fuel), f) == Handle(rh, log + ms, Ret(Nil), f - |ms|)
    decreases |ms|
  {
    if |ms| == 0 {
      assert log + ms == log;
    } else {
      var a := RunAll(NoteProcs(ms), fuel);
      var next := RunAll(NoteProcs(ms[1..]), fuel);
      assert Handle(rh, log, a, f) == Handle(rh, log + [ms[0]], next, f - 1) by {
        RunAllFirst(ms, fuel);
        RecordsNote(rh, log, a, ms[0], f, log + [ms[0]], next);
      }
      assert Handle(rh, log + [ms[0]], next, f - 1) == Handle(rh, log + ms, Ret(Nil), f - |ms|) by {
        RunAllNotes(rh, log + [ms[0]], ms[1..], fuel, f - 1);
        AppendHeadTail(log, ms);
      }
    }
  }

  /** Noting procs run under the journal record their notes, then the journal ends. */
  lemma RunAllNotesEnd(rh: Handler<seq<Val>>, log: seq<Val>, ms: seq<Val>, fuel: nat, f: nat)
    requires fuel > 0 && f > |ms|
    requires Store.Lookup(rh.table, NoteEff.id) == Some(RecordClause())
    ensures Handle(rh, log, RunAll(NoteProcs(ms), fuel), f) == rh.valh(log + ms, Nil)
  {
    RunAllNotes(rh, log, ms, fuel, f);
    ReturnGoesToValueHandler(rh, log + ms, Nil, f - |ms|);
  }

  /** One statement of a thunk under `with`: `messages << m`, or `register { messages << m }`. */
  datatype Step = Say(m: Val) | Later(m: Val)

  /** The thunk that runs `steps` in order and returns `v`. */
  function Thunk(inst: Instance, steps: seq<Step>, v: Val): Comp
    decreases |steps|
  {
    if |steps| == 0 then Ret(v)
    else
      match steps[0]
      case Say(m) => Note(m, _ => Thunk(inst, steps[1..], v))
      case Later(m) => Yield(Eff(inst.eff.id, [Proc(Note(m, Done))]), _ => Thunk(inst, steps[1..], v))
  }

  /** The messages the thunk itself writes, in order. */
  function Said(steps: seq<Step>): seq<Val>
    decreases |steps|
  {
    if |steps| == 0 then [] else (if steps[0].Say? then [steps[0].m] else []) + Said(steps[1..])
  }

  /** The messages of the registered procs, in registration order. */
  function Deferred(steps: seq<Step>): seq<Val>
    decreases |steps|
  {
    if |steps| == 0 then [] else (if steps[0].Later? then [steps[0].m] else []) + Deferred(steps[1..])
  }

  /** How a thunk whose first step is a message begins. */
  lemma ThunkSays(inst: Instance, steps: seq<Step>, v: Val)
    requires |steps| > 0 && steps[0].Say?
    ensures var a := Thunk(inst, steps, v);
      a.Yield? && a.msg == Eff(NoteEff.id, [V(steps[0].m)]) && a.resume(Nil) == Thunk(inst, steps[1..], v)
  {
  }

  /** How a thunk whose first step is a registration begins. */
  lemma ThunkRegisters(inst: Instance, steps: seq<Step>, v: Val)
    requires |steps| > 0 && steps[0].Later?
    ensures var a := Thunk(inst, steps, v);
      && a == Yield(Eff(inst.eff.id, [Proc(Note(steps[0].m, Done))]), a.resume)
      && a.resume(Nil) == Thunk(inst, steps[1..], v)
  {
  }

  /** A leading message belongs to what the thunk says, not to what it defers. */
  lemma SayAlgebra(log: seq<Val>, steps: seq<Step>)
    requires |steps| > 0 && steps[0].Say?
    ensures log + [steps[0].m] + Said(steps[1..]) == log + Said(steps)
    ensures Deferred(steps) == Deferred(steps[1..])
  {
    assert Said(steps) == [steps[0].m] + Said(steps[1..]);
  }

  /** A leading registration belongs to what the thunk defers, not to what it says. */
  lemma LaterAlgebra(pend: seq<Val>, steps: seq<Step>)
    requires |steps| > 0 && steps[0].Later?
    ensures Said(steps) == Said(steps[1..])
    ensures pend + [steps[0].m] + Deferred(steps[1..]) == pend + Deferred(steps)
  {
    var m, d := steps[0].m, Deferred(steps[1..]);
    assert Said(steps) == [] + Said(steps[1..]);
    assert Deferred(steps) == [m] + d;
    assert pend + [m] + d == pend + ([m] + d);
  }

  /** The value handler runs the pending noting procs, most recent first. */
  lemma FinishReverses(h: Handler<seq<Arg>>, inst: Instance, fuel: nat, pend: seq<Val>, v: Val, f1: nat)
    requires f1 > 0 && Defers(h, inst, fuel)
    ensures Handle(h, NoteProcs(pend), Ret(v), f1) == RunAll(NoteProcs(Reverse(pend)), fuel)
  {
    ReturnGoesToValueHandler(h, NoteProcs(pend), v, f1);
    NoteProcsReverse(pend);
  }

  /** The end of the thunk: the value handler runs the pending procs, most recent first. */
  lemma FinishRunsReversed(h: Handler<seq<Arg>>, inst: Instance, fuel: nat, rh: Handler<seq<Val>>, log: seq<Val>,
                           pend: seq<Val>, v: Val, f1: nat, f2: nat)
    requires fuel > 0 && f1 > 0 && f2 > |pend| && Defers(h, inst, fuel)
    requires Store.Lookup(rh.table, NoteEff.id) == Some(RecordClause())
    ensures Handle(rh, log, Handle(h, NoteProcs(pend), Ret(v), f1), f2) == rh.valh(log + Reverse(pend), Nil)
  {
    RunAllNotesEnd(rh, log, Reverse(pend), fuel, f2);
    FinishReverses(h, inst, fuel, pend, v, f1);
  }

  /** A thunk whose first step is a message notes it, through the Defer handler, to the journal. */
  lemma SayStep(h: Handler<seq<Arg>>, inst: Instance, fuel: nat, rh: Handler<seq<Val>>, log: seq<Val>, pend: seq<Val>,
                steps: seq<Step>, v: Val, f1: nat, f2: nat)
    requires f1 > 0 && f2 > 0 && |steps| > 0 && steps[0].Say? && Defers(h, inst, fuel)
    requires Store.Lookup(rh.table, NoteEff.id) == Some(RecordClause())
    ensures Handle(rh, log, Handle(h, NoteProcs(pend), Thunk(inst, steps, v), f1), f2)
         == Handle(Relay(rh, f2 - 1), log + [steps[0].m], Handle(h, NoteProcs(pend), Thunk(inst, steps[1..], v), f1 - 1), f2 - 1)
  {
    ThunkSays(inst, steps, v);
    NoteThrough(rh, log, h, NoteProcs(pend), Thunk(inst, steps, v), steps[0].m, f1, f2,
                log + [steps[0].m], Thunk(inst, steps[1..], v));
  }

  /** A thunk whose first step is a registration adds the proc to the pending list and goes on. */
  lemma LaterStep(h: Handler<seq<Arg>>, inst: Instance, fuel: nat, pend: seq<Val>, steps: seq<Step>, v: Val, f1: nat)
    requires f1 > 0 && |steps| > 0 && steps[0].Later? && Defers(h, inst, fuel)
    ensures Handle(h, NoteProcs(pend), Thunk(inst, steps, v), f1)
         == Handle(h, NoteProcs(pend + [steps[0].m]), Thunk(inst, steps[1..], v), f1 - 1)
  {
    var m, a := steps[0].m, Thunk(inst, steps, v);
    ThunkRegisters(inst, steps, v);
    NoteProcsAppend(pend, m);
    MatchedEffect(h, NoteProcs(pend), inst.eff.id, [Proc(Note(m, Done))], a.resume, f1, RegisterClause());
    ContinueRuns(h, a.resume, f1 - 1, NoteProcs(pend) + [Proc(Note(m, Done))], Nil);
  }

  /** `SayStep` with the remaining fuel named rather than computed. */
  lemma SayStepWith(h: Handler<seq<Arg>>, inst: Instance, fuel: nat, rh: Handler<seq<Val>>, log: seq<Val>, pend: seq<Val>,
                    steps: seq<Step>, v: Val, f1: nat, f2: nat, g1: nat, g2: nat)
    requires f1 > 0 && f2 > 0 && g1 == f1 - 1 && g2 == f2 - 1 && |steps| > 0 && steps[0].Say? && Defers(h, inst, fuel)
    requires Store.Lookup(rh.table, NoteEff.id) == Some(RecordClause())
    ensures Handle(rh, log, Handle(h, NoteProcs(pend), Thunk(inst, steps, v), f1), f2)
         == Handle(Relay(rh, g2), log + [steps[0].m], Handle(h, NoteProcs(pend), Thunk(inst, steps[1..], v), g1), g2)
  {
    SayStep(h, inst, fuel, rh, log, pend, steps, v, g1 + 1, g2 + 1);
  }

  /** `LaterStep` with the remaining fuel named rather than computed. */
  lemma LaterStepWith(h: Handler<seq<Arg>>, inst: Instance, fuel: nat, pend: seq<Val>, steps: seq<Step>, v: Val,
                      f1: nat, g1: nat)
    requires f1 > 0 && g1 == f1 - 1 && |steps| > 0 && steps[0].Later? && Defers(h, inst, fuel)
    ensures Handle(h, NoteProcs(pend), Thunk(inst, steps, v), f1)
         == Handle(h, NoteProcs(pend + [steps[0].m]), Thunk(inst, steps[1..], v), g1)
  {
    LaterStep(h, inst, fuel, pend, steps, v, g1 + 1);
  }

  /** The induction step for a leading message, given the claim for the rest of the thunk. */
  lemma SayCase(h: Handler<seq<Arg>>, inst: Instance, fuel: nat, rh: Handler<seq<Val>>, log: seq<Val>, pend: seq<Val>,
                steps: seq<Step>, v: Val, f1: nat, f2: nat, g1: nat, g2: nat)
    requires f1 > 0 && f2 > 0 && g1 == f1 - 1 && g2 == f2 - 1 && g2 > 0 && |steps| > 0 && steps[0].Say?
    requires Defers(h, inst, fuel) && Store.Lookup(rh.table, NoteEff.id) == Some(RecordClause())
    requires Handle(Relay(rh, g2), log + [steps[0].m], Handle(h, NoteProcs(pend), Thunk(inst, steps[1..], v), g1), g2)
          == Relay(rh, g2).valh(log + [steps[0].m] + Said(steps[1..]) + Reverse(pend + Deferred(steps[1..])), Nil)
    ensures Handle(rh, log, Handle(h, NoteProcs(pend), Thunk(inst, steps, v), f1), f2)
         == rh.valh(log + Said(steps) + Reverse(pend + Deferred(steps)), Nil)
  {
    SayAlgebra(log, steps);
    RelayEnds(rh, g2, log + [steps[0].m] + Said(steps[1..]) + Reverse(pend + Deferred(steps[1..])), Nil);
    SayStepWith(h, inst, fuel, rh, log, pend, steps, v, f1, f2, g1, g2);
  }

  /** The induction step for a leading registration, given the claim for the rest of the thunk. */
  lemma LaterCase(h: Handler<seq<Arg>>, inst: Instance, fuel: nat, rh: Handler<seq<Val>>, log: seq<Val>, pend: seq<Val>,
                  steps: seq<Step>, v: Val, f1: nat, f2: nat, g1: nat)
    requires f1 > 0 && g1 == f1 - 1 && |steps| > 0 && steps[0].Later? && Defers(h, inst, fuel)
    requires Handle(rh, log, Handle(h, NoteProcs(pend + [steps[0].m]), Thunk(inst, steps[1..], v), g1), f2)
          == rh.valh(log + Said(steps[1..]) + Reverse(pend + [steps[0].m] + Deferred(steps[1..])), Nil)
    ensures Handle(rh, log, Handle(h, NoteProcs(pend), Thunk(inst, steps, v), f1), f2)
         == rh.valh(log + Said(steps) + Reverse(pend + Deferred(steps)), Nil)
  {
    LaterAlgebra(pend, steps);
    LaterStepWith(h, inst, fuel, pend, steps, v, f1, g1);
  }

  /** `DeferredRunReversed`, for any handler with the properties of the one `with` builds. */
  lemma {:induction false} DefersInOrder(h: Handler<seq<Arg>>, inst: Instance, fuel: nat, rh: Handler<seq<Val>>,
                                         log: seq<Val>, pend: seq<Val>, steps: seq<Step>, v: Val, f1: nat, f2: nat)
    requires fuel > 0 && f1 > |steps| && f2 > |pend| + |steps| && Defers(h, inst, fuel)
    requires Store.Lookup(rh.table, NoteEff.id) == Some(RecordClause())
    ensures Handle(rh, log, Handle(h, NoteProcs(pend), Thunk(inst, steps, v), f1), f2)
         == rh.valh(log + Said(steps) + Reverse(pend + Deferred(steps)), Nil)
    decreases |steps|
  {
    if |steps| == 0 {
      assert log + Said(steps) == log && pend + Deferred(steps) == pend;
      FinishRunsReversed(h, inst, fuel, rh, log, pend, v, f1, f2);
    } else if steps[0].Say? {
      var g1: nat, g2: nat := f1 - 1, f2 - 1;
      DefersInOrder(h, inst, fuel, Relay(rh, g2), log + [steps[0].m], pend, steps[1..], v, g1, g2);
      SayCase(h, inst, fuel, rh, log, pend, steps, v, f1, f2, g1, g2);
    } else {
      var g1: nat := f1 - 1;
      DefersInOrder(h, inst, fuel, rh, log, pend + [steps[0].m], steps[1..], v, g1, f2);
      LaterCase(h, inst, fuel, rh, log, pend, steps, v, f1, f2, g1);
    }
  }

  /**
   * The order Defer promises, for any thunk of messages and registrations under any journal:
   * first the thunk's own messages in order, then those of the registered procs, each once,
   * most recently registered first.
   */
  lemma DeferredRunReversed(inst: Instance, fuel: nat, rh: Handler<seq<Val>>, log: seq<Val>,
                            pend: seq<Val>, steps: seq<Step>, v: Val, f1: nat, f2: nat)
    requires fuel > 0 && f1 > |steps| && f2 > |pend| + |steps|
    requires inst.eff.id != NoteEff.id
    requires Store.Lookup(rh.table, NoteEff.id) == Some(RecordClause())
    ensures Handle(rh, log, Handle(DeferHandler(inst, fuel), NoteProcs(pend), Thunk(inst, steps, v), f1), f2)
         == rh.valh(log + Said(steps) + Reverse(pend + Deferred(steps)), Nil)
  {
    DeferHandlerDefers(inst, fuel);
    DefersInOrder(DeferHandler(inst, fuel), inst, fuel, rh, log, pend, steps, v, f1, f2);
  }

  /**
   * `with` itself: under any journal, the thunk's messages come first, in order, and then the
   * registered procs' messages, most recently registered first.
   */
  lemma WithRunsReversed(inst: Instance, fuel: nat, rh: Handler<seq<Val>>, log: seq<Val>, steps: seq<Step>, v: Val,
                         f: nat)
    requires fuel > |steps| && f > |steps|
    requires inst.eff.id != NoteEff.id
    requires Store.Lookup(rh.table, NoteEff.id) == Some(RecordClause())
    ensures Handle(rh, log, With(inst, Thunk(inst, steps, v), fuel), f)
         == rh.valh(log + Said(steps) + Reverse(Deferred(steps)), Nil)
  {
    var th := Thunk(inst, steps, v);
    assert With(inst, th, fuel) == Handle(DeferHandler(inst, fuel), NoteProcs([]), th, fuel) by {
      assert NoteProcs([]) == [];
    }
    assert [] + Deferred(steps) == Deferred(steps);
    DeferredRunReversed(inst, fuel, rh, log, [], steps, v, fuel, f);
  }

  /** `with` under a fresh journal: the thunk's messages, then the deferred ones reversed. */
  lemma WithJournal(inst: Instance, fuel: nat, steps: seq<Step>)
    requires fuel > |steps| && inst.eff.id != NoteEff.id
    ensures Handle(Recorder(), [], With(inst, Thunk(inst, steps, Nil), fuel), fuel)
         == Recorder().valh(Said(steps) + Reverse(Deferred(steps)), Nil)
  {
    var ms := Said(steps) + Reverse(Deferred(steps));
    assert [] + Said(steps) + Reverse(Deferred(steps)) == ms by {
      assert [] + Said(steps) == Said(steps);
    }
    WithRunsReversed(inst, fuel, Recorder(), [], steps, Nil, fuel);
  }

  /** `with` at the root under the journal reports the thunk's messages, then the deferred ones reversed. */
  lemma WithObserved(inst: Instance, fuel: nat, steps: seq<Step>)
    requires fuel > |steps| && inst.eff.id != NoteEff.id
    ensures Observe(With(inst, Thunk(inst, steps, Nil), fuel), fuel) == Ok(Report(Said(steps) + Reverse(Deferred(steps)), Nil))
  {
    WithJournal(inst, fuel, steps);
    ObserveEnds(With(inst, Thunk(inst, steps, Nil), fuel), fuel, Said(steps) + Reverse(Deferred(steps)), Nil);
  }

  /**
   * standard_spec "executes registered procs at the end of the computation in reverse order":
   * the order observed is start, middle, end, defer 2, defer 1.
   */
  lemma DeferSpecOrder(inst: Instance, fuel: nat)
    requires fuel > 5 && inst.eff.id != NoteEff.id
    ensures var steps := [Say(Str("start")), Later(Str("defer 1")), Say(Str("middle")), Later(Str("defer 2")), Say(Str("end"))];
      Observe(With(inst, Thunk(inst, steps, Nil), fuel), fuel)
      == Ok(Report([Str("start"), Str("middle"), Str("end"), Str("defer 2"), Str("defer 1")], Nil))
  {
    var steps := [Say(Str("start")), Later(Str("defer 1")), Say(Str("middle")), Later(Str("defer 2")), Say(Str("end"))];
    assert Said(steps) + Reverse(Deferred(steps)) == [Str("start"), Str("middle"), Str("end"), Str("defer 2"), Str("defer 1")] by {
      assert Said(steps) == [Str("start"), Str("middle"), Str("end")];
      assert Deferred(steps) == [Str("defer 1"), Str("defer 2")];
      assert Reverse(Deferred(steps)) == [Str("defer 2"), Str("defer 1")];
    }
    WithObserved(inst, fuel, steps);
  }
}
