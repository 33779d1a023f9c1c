/** `Ruff::Effect` (lib/ruff/effect.rb): an effect is a handle on one identity. */
module Effects {
  import opened Maybe
  import opened Ids
  import opened Messages

  datatype Effect = Effect(id: Id)

  /** `Effect.new`: an effect with a fresh root identity. */
  function NewEffect(reg: Registry): (r: (Effect, Registry))
    ensures r.0.id.parent.None?
    ensures Issued(r.1, r.0.id) && r.0.id != Reserved
    ensures forall x :: Issued(reg, x) ==> x != r.0.id && Issued(r.1, x)
  {
    var (id, reg') := NewId(reg, None);
    (Effect(id), reg')
  }

  /** `Effect << parent`: a fresh effect whose identity is a direct child of the parent's. */
  function Derive(reg: Registry, parent: Effect): (r: (Effect, Registry))
    requires Issued(reg, parent.id)
    ensures r.0.id.parent == Some(parent.id)
    ensures Derives(r.0.id, parent.id) && !Derives(parent.id, r.0.id)
    ensures Issued(r.1, r.0.id) && r.0.id != Reserved
    ensures forall x :: Issued(reg, x) ==> x != r.0.id && Issued(r.1, x)
  {
    var (id, reg') := NewId(reg, Some(parent.id));
    Acyclic(id);
    (Effect(id), reg')
  }

  /**
   * The `Instance` of a standard module that delegates to one effect of its own (`Defer`,
   * `MeasureTime`).
   */
  datatype Single = Single(eff: Effect)

  /** `Instance.new` of such a module: `Ruff.instance`, a fresh root effect. */
  function NewSingle(reg: Registry): (r: (Single, Registry))
    ensures r.0.eff.id.parent.None? && r.0.eff.id != Reserved
    ensures Issued(r.1, r.0.eff.id)
    ensures forall x :: Issued(reg, x) ==> x != r.0.eff.id && Issued(r.1, x)
  {
    var (e, r1) := NewEffect(reg);
    (Single(e), r1)
  }

  /**
   * `perform(*a)`: yields `Eff(id, a)` to the nearest driver and evaluates to whatever value
   * the driver resumes the fiber with.
   */
  function Perform(e: Effect, args: seq<Arg>): (r: Comp)
    ensures r.Yield? && r.msg.Eff? && r.msg.id == e.id && r.msg.args == args
    ensures forall v :: r.resume(v) == Ret(v)
  {
    Yield(Eff(e.id, args), Done)
  }

  /** Two effects created one after the other have different identities. */
  lemma SeparatelyCreatedDiffer(reg: Registry)
    ensures NewEffect(reg).0.id != NewEffect(NewEffect(reg).1).0.id
  {
    var (e1, reg1) := NewEffect(reg);
    assert Issued(reg1, e1.id);
  }
}
