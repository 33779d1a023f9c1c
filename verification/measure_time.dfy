/**
 * `Ruff::Standard::MeasureTime` (lib/ruff/standard/measure_time.rb): `measure(label)` marks a
 * point of the thunk, and `with` answers with the thunk's value followed by one entry per
 * mark, the latest mark first.
 *
 * The clock is not modelled: an entry is `Timing(label)`, and the `time` field the source
 * computes with `Time.now` is left out.
 */
module MeasureTime {
  import opened Maybe
  import opened Ids
  import opened Messages
  import opened Effects
  import opened Handlers
  import opened HandlerLaws
  import opened Journal
  import opened Lists
  import Store

  /** `MeasureTime::Instance`: the effect it delegates to; `Instance.new` is `NewSingle`. */
  type Instance = Single

  /** `measure(label)`: performs the effect with the label `name`. */
  function Measure(inst: Instance, name: Val): (r: Comp)
    ensures r.Yield? && r.msg == Eff(inst.eff.id, [V(name)])
  {
    Perform(inst.eff, [V(name)])
  }

  /**
   * `result + [entry]` on the value the rest of the thunk returned: an array gets the entry
   * appended; an Integer or a String cannot take an array (Ruby's TypeError); nil, a boolean
   * or a Hash has no `+` at all (Ruby's NoMethodError).
   */
  function AppendEntry(res: Val, entry: Val): (r: Comp)
    ensures res.List? <==> r.Ret?
    ensures res.List? ==> r.v == List(res.items + [entry])
    ensures (res.Int? || res.Str?) <==> r == Fail(TypeMismatch)
    ensures (res.Nil? || res.Bool? || res.Timing?) <==> r == Fail(NoMethod)
  {
    match res
    case List(items) => Ret(List(items + [entry]))
    case Int(_) => Fail(TypeMismatch)
    case Str(_) => Fail(TypeMismatch)
    case _ => Fail(NoMethod)
  }

  /**
   * The clause: resume the rest of the thunk with nil, then add this mark's entry at the end
   * of what it returns. The rest may perform effects of outer handlers; `fuel` bounds how many
   * are followed.
   */
  function MeasureClause(fuel: nat): (r: Clause<()>)
    ensures forall k: Cont<()>, l :: k((), Nil).Ret? ==> r((), [V(l)], k) == AppendEntry(k((), Nil).v, Timing(l))
    ensures forall k: Cont<()>, l :: k((), Nil).Fail? ==> r((), [V(l)], k) == k((), Nil)
  {
    (s: (), args: seq<Arg>, k: Cont<()>) =>
      Bind(k(s, Nil), (res: Val) => AppendEntry(res, Timing(FirstVal(args))), fuel)
  }

  /** The instance's handler: the clause, and `to { |x| [x] }`. */
  function MeasureHandler(inst: Instance, fuel: nat): (h: Handler<()>)
    ensures h.table.Keys == {inst.eff.id} && h.table[inst.eff.id] == MeasureClause(fuel)
    ensures forall s, x :: h.valh(s, x) == Ret(List([x]))
  {
    To(On(NewHandler<()>(), inst.eff, MeasureClause(fuel)), (s, x) => Ret(List([x])))
  }

  /**
   * `with(&th)`: a thunk that marks nothing is reported as `[value]`; effects other than the
   * instance's own reach the handlers around.
   */
  function With(inst: Instance, th: Comp, fuel: nat): (r: Comp)
    ensures fuel > 0 && th.Ret? ==> r == Ret(List([th.v]))
    ensures fuel > 0 && th.Yield? && th.msg.Eff? && !Derives(th.msg.id, inst.eff.id)
         ==> r.Yield? && r.msg.Resend? && r.msg.eff == th.msg
  {
    var h := MeasureHandler(inst, fuel);
    assert th.Yield? && th.msg.Eff? && !Derives(th.msg.id, inst.eff.id) ==> Store.NoMatch(h.table, th.msg.id);
    Run(h, (), th, fuel)
  }

  /** The entries for marks made with `labels`, in the order `with` reports them. */
  function Entries(labels: seq<Val>): (r: seq<Val>)
    ensures |r| == |labels|
  {
    Reverse(seq(|labels|, i requires 0 <= i < |labels| => Timing(labels[i])))
  }

  /** The entries of one more mark made after `labels`: it is reported first. */
  lemma EntriesLater(labels: seq<Val>, l: Val)
    ensures Entries(labels + [l]) == [Timing(l)] + Entries(labels)
  {
    var t := seq(|labels|, i requires 0 <= i < |labels| => Timing(labels[i]));
    assert seq(|labels + [l]|, i requires 0 <= i < |labels + [l]| => Timing((labels + [l])[i])) == t + [Timing(l)];
    ReverseSnoc(t, Timing(l));
  }

  /** The entries of a mark made before `labels`: it is reported last. */
  lemma EntriesEarlier(l: Val, labels: seq<Val>)
    ensures Entries([l] + labels) == Entries(labels) + [Timing(l)]
  {
    var t := seq(|labels|, i requires 0 <= i < |labels| => Timing(labels[i]));
    var t' := seq(|[l] + labels|, i requires 0 <= i < |[l] + labels| => Timing(([l] + labels)[i]));
    assert t' == [Timing(l)] + t;
    assert Reverse(t') == Reverse(t'[1..]) + [t'[0]];
    assert t'[1..] == t;
  }

  /** The handler answers the instance's effect with the clause, and wraps a value in a list. */
  lemma MeasureTable(inst: Instance, fuel: nat)
    ensures Store.Lookup(MeasureHandler(inst, fuel).table, inst.eff.id) == Some(MeasureClause(fuel))
    ensures forall s, x :: MeasureHandler(inst, fuel).valh(s, x) == Ret(List([x]))
  {
    Store.InsertThenLookup(map[], inst.eff.id, MeasureClause(fuel));
  }

  /**
   * One mark: the rest of the thunk runs first, and when it reports a list the mark's entry is
   * added at its end.
   */
  lemma MarkAppends(inst: Instance, fuel: nat, l: Val, r: Val -> Comp, f: nat, items: seq<Val>)
    requires f > 0 && Handle(MeasureHandler(inst, fuel), (), r(Nil), f - 1) == Ret(List(items))
    ensures Handle(MeasureHandler(inst, fuel), (), Yield(Eff(inst.eff.id, [V(l)]), r), f)
         == Ret(List(items + [Timing(l)]))
  {
    var h := MeasureHandler(inst, fuel);
    MeasureTable(inst, fuel);
    MatchedEffect(h, (), inst.eff.id, [V(l)], r, f, MeasureClause(fuel));
    ContinueRuns(h, r, f - 1, (), Nil);
    assert FirstVal([V(l)]) == l;
  }

  /** One mark more, given the report of the marks after it. */
  lemma ReportStep(inst: Instance, fuel: nat, labels: seq<Val>, v: Val, f: nat, g: nat)
    requires |labels| > 0 && f > 0 && g == f - 1
    requires Handle(MeasureHandler(inst, fuel), (), Emits(inst.eff.id, labels[1..], Ret(v)), g)
          == Ret(List([v] + Entries(labels[1..])))
    ensures Handle(MeasureHandler(inst, fuel), (), Emits(inst.eff.id, labels, Ret(v)), f)
         == Ret(List([v] + Entries(labels)))
  {
    var a := Emits(inst.eff.id, labels, Ret(v));
    assert a == Yield(Eff(inst.eff.id, [V(labels[0])]), a.resume);
    assert a.resume(Nil) == Emits(inst.eff.id, labels[1..], Ret(v));
    MarkAppends(inst, fuel, labels[0], a.resume, f, [v] + Entries(labels[1..]));
    EntriesEarlier(labels[0], labels[1..]);
    assert [labels[0]] + labels[1..] == labels;
    assert [v] + Entries(labels[1..]) + [Timing(labels[0])] == [v] + (Entries(labels[1..]) + [Timing(labels[0])]);
  }

  /**
   * The shape of the report: for a thunk that marks `labels` in order and returns `v`, `with`
   * answers `[v]` followed by one entry per mark, the latest first.
   */
  lemma {:induction false} ReportShape(inst: Instance, fuel: nat, labels: seq<Val>, v: Val, f: nat)
    requires f > |labels|
    ensures Handle(MeasureHandler(inst, fuel), (), Emits(inst.eff.id, labels, Ret(v)), f)
         == Ret(List([v] + Entries(labels)))
    decreases |labels|
  {
    if |labels| == 0 {
      assert [v] + Entries(labels) == [v];
    } else {
      var g: nat := f - 1;
      ReportShape(inst, fuel, labels[1..], v, g);
      ReportStep(inst, fuel, labels, v, f, g);
    }
  }

  /**
   * standard_spec "measures execution time of blocks": marks 'first_task' then 'second_task',
   * returns 42; the report is 42, then the entry for 'second_task', then 'first_task'.
   */
  lemma MeasureSpecShape(inst: Instance, fuel: nat)
    requires fuel > 2
    ensures With(inst, Emits(inst.eff.id, [Str("first_task"), Str("second_task")], Ret(Int(42))), fuel)
         == Ret(List([Int(42), Timing(Str("second_task")), Timing(Str("first_task"))]))
  {
    var labels := [Str("first_task"), Str("second_task")];
    ReportShape(inst, fuel, labels, Int(42), fuel);
    assert labels == [Str("first_task")] + [Str("second_task")];
    EntriesLater([Str("first_task")], Str("second_task"));
    assert [Str("first_task")] == [] + [Str("first_task")];
    EntriesLater([], Str("first_task"));
    assert Entries([]) == [];
    assert Entries([Str("first_task")]) == [Timing(Str("first_task"))];
    assert Entries(labels) == [Timing(Str("second_task")), Timing(Str("first_task"))];
    assert [Int(42)] + Entries(labels) == [Int(42), Timing(Str("second_task")), Timing(Str("first_task"))];
  }
}
