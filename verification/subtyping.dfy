/**
 * Effect subtyping as the tests of spec/ruff/effect_spec.rb and spec/ruff/handler_spec.rb use
 * it: a clause registered for an effect also catches the effects derived from it, and among
 * several registered ancestors the most derived one wins.
 */
module Subtyping {
  import opened Maybe
  import opened Ids
  import opened Messages
  import opened Effects
  import opened Handlers
  import opened Journal
  import opened HandlerLaws
  import Store

  /** `handled_by = "<tag>: #{msg}"; k[]`, keeping every assignment in order. */
  function Tagged(tag: string): Clause<seq<Val>>
  {
    (log: seq<Val>, args: seq<Arg>, k: Cont<seq<Val>>) => k(log + [List([Str(tag), FirstVal(args)])], Nil)
  }

  /** `to { |_| handled_by }`: the last assignment, nil when there was none. */
  function LastAssigned(log: seq<Val>, v: Val): Comp
  {
    Ret(if |log| == 0 then Nil else log[|log| - 1])
  }

  /** The handler with a clause for each of three generations, and `to { |_| handled_by }`. */
  function FamilyHandler(gp: Effect, p: Effect, c: Effect): Handler<seq<Val>>
  {
    To(On(On(On(NewHandler<seq<Val>>(), gp, Tagged("Grandparent")), p, Tagged("Parent")), c, Tagged("Child")),
       LastAssigned)
  }

  /**
   * A clause registered for an effect catches an effect derived from it, at any depth, when
   * nothing more specific is registered.
   */
  lemma AncestorClauseCatches<C>(anc: Id, f: C, x: Id)
    requires Derives(x, anc)
    ensures Store.Lookup(Store.Insert(map[], anc, f), x) == Some(f)
  {
    Store.InsertNearer(map[], anc, f, x);
  }

  /** The grandparent of an id is not derived from it. */
  lemma GrandparentNotBelow(gp: Id, p: Id, c: Id)
    requires p.parent == Some(gp) && c.parent == Some(p)
    ensures !Derives(gp, c)
  {
    if Derives(gp, c) {
      assert Derives(c, p);
      DerivesTransitive(gp, c, p);
      Acyclic(p);
      assert false;
    }
  }

  /**
   * With clauses for a grandparent, a parent and a child, each of the three effects finds the
   * clause registered for itself: the child's does not shadow its ancestors, and its ancestors'
   * do not catch it.
   */
  lemma MostSpecificClauseWins(gp: Effect, p: Effect, c: Effect)
    requires p.id.parent == Some(gp.id) && c.id.parent == Some(p.id)
    ensures var t := FamilyHandler(gp, p, c).table;
      && Store.Lookup(t, c.id) == Some(Tagged("Child"))
      && Store.Lookup(t, p.id) == Some(Tagged("Parent"))
      && Store.Lookup(t, gp.id) == Some(Tagged("Grandparent"))
  {
    var t1 := Store.Insert(map[], gp.id, Tagged("Grandparent"));
    var t2 := Store.Insert(t1, p.id, Tagged("Parent"));
    var t3 := Store.Insert(t2, c.id, Tagged("Child"));
    assert FamilyHandler(gp, p, c).table == t3;
    Store.InsertThenLookup(t2, c.id, Tagged("Child"));
    Acyclic(c.id);
    Store.InsertUnrelated(t2, c.id, Tagged("Child"), p.id);
    Store.InsertThenLookup(t1, p.id, Tagged("Parent"));
    GrandparentNotBelow(gp.id, p.id, c.id);
    Store.InsertUnrelated(t2, c.id, Tagged("Child"), gp.id);
    Acyclic(p.id);
    Store.InsertUnrelated(t1, p.id, Tagged("Parent"), gp.id);
    Store.InsertThenLookup(map[], gp.id, Tagged("Grandparent"));
  }

  /** One run of the three-generation handler on `e.perform(m)` that finds the clause `tag`. */
  lemma RunsTagged(h: Handler<seq<Val>>, e: Effect, tag: string, m: Val, fuel: nat)
    requires fuel >= 2 && h.valh == LastAssigned
    requires Store.Lookup(h.table, e.id) == Some(Tagged(tag))
    ensures Run(h, [], Perform(e, [V(m)]), fuel) == Ret(List([Str(tag), m]))
  {
    var t := Perform(e, [V(m)]);
    MatchedEffect(h, [], e.id, [V(m)], t.resume, fuel, Tagged(tag));
    assert FirstVal([V(m)]) == m;
    ContinueRuns(h, t.resume, fuel - 1, [List([Str(tag), m])], Nil);
  }

  /**
   * effect_spec "handles multilevel subtyping correctly", for any three effects made by
   * `Effect <<` (grandparent, parent, child): each perform reports the clause of its own level.
   */
  lemma MultilevelSubtyping(reg: Registry, fuel: nat)
    requires fuel >= 2
    ensures var (gp, r1) := NewEffect(reg);
      var (p, r2) := Derive(r1, gp);
      var (c, _) := Derive(r2, p);
      var h := FamilyHandler(gp, p, c);
      && Run(h, [], Perform(c, [V(Str("from child"))]), fuel) == Ret(List([Str("Child"), Str("from child")]))
      && Run(h, [], Perform(p, [V(Str("from parent"))]), fuel) == Ret(List([Str("Parent"), Str("from parent")]))
      && Run(h, [], Perform(gp, [V(Str("from grandparent"))]), fuel)
         == Ret(List([Str("Grandparent"), Str("from grandparent")]))
  {
    var (gp, r1) := NewEffect(reg);
    var (p, r2) := Derive(r1, gp);
    var (c, _) := Derive(r2, p);
    var h := FamilyHandler(gp, p, c);
    MostSpecificClauseWins(gp, p, c);
    RunsTagged(h, c, "Child", Str("from child"), fuel);
    RunsTagged(h, p, "Parent", Str("from parent"), fuel);
    RunsTagged(h, gp, "Grandparent", Str("from grandparent"), fuel);
  }

  /**
   * effect_spec "a handler for the parent effect catches the child effect": a handler with a
   * clause only for the parent records the child's message.
   */
  lemma ParentCatchesChild(reg: Registry, m: Val, fuel: nat)
    requires fuel >= 2
    ensures var (parent, r1) := NewEffect(reg);
      var (child, _) := Derive(r1, parent);
      var h := To(On(NewHandler<seq<Val>>(), parent, RecordClause()), (log: seq<Val>, v: Val) => Ret(Report(log, v)));
      Run(h, [], Perform(child, [V(m)]), fuel) == Ret(Report([m], Nil))
  {
    var (parent, r1) := NewEffect(reg);
    var (child, _) := Derive(r1, parent);
    var h := To(On(NewHandler<seq<Val>>(), parent, RecordClause()), (log: seq<Val>, v: Val) => Ret(Report(log, v)));
    assert h.table == Store.Insert(map[], parent.id, RecordClause());
    AncestorClauseCatches(parent.id, RecordClause(), child.id);
    var t := Perform(child, [V(m)]);
    RecordsNote(h, [], t, m, fuel, [m], Ret(Nil));
  }
}
