/**
 * The handler table exactly as `Handler::Store#[]` (lib/ruff/handler.rb) and
 * `HandlerStore#[]` (lib/ruff/handler_store.rb) compute a lookup.
 *
 * The table is a Ruby hash from the effect's `id` to its clause, kept in insertion order. A
 * lookup keeps the entries whose key's class the performed id `is_a?`, then takes the one whose
 * key's class is smallest. Every key and every performed id is a `String` (a UUID), so every
 * entry is kept, all classes tie, and `min_by` returns the first entry inserted: the performed
 * id plays no part. The rest of the model uses `Store.Lookup`, the most-specific match the
 * comments and the tests describe.
 */
module AsWritten {
  import opened Maybe
  import opened Ids
  import opened Messages
  import opened Effects
  import opened Handlers
  import State
  import Store

  /** One hash entry. */
  datatype Entry<C> = Entry(key: Id, clause: C)

  /** The keys present in the hash. */
  function Keys<C>(t: seq<Entry<C>>): set<Id>
  {
    set i | 0 <= i < |t| :: t[i].key
  }

  /**
   * `@handler[r.id] = e`: a key already present keeps its position and takes the new clause;
   * a new key goes at the end.
   */
  function Put<C>(t: seq<Entry<C>>, id: Id, f: C): (r: seq<Entry<C>>)
    ensures Keys(r) == Keys(t) + {id}
    ensures |t| <= |r|
    ensures forall i :: 0 <= i < |t| && t[i].key != id ==> r[i] == t[i]
    ensures forall i :: 0 <= i < |r| && r[i].key == id ==> r[i].clause == f
    ensures id !in Keys(t) ==> r == t + [Entry(id, f)]
  {
    if id in Keys(t) then
      var r := seq(|t|, i requires 0 <= i < |t| => if t[i].key == id then Entry(id, f) else t[i]);
      assert forall i :: 0 <= i < |t| ==> r[i].key == t[i].key;
      assert Keys(r) == Keys(t);
      r
    else
      var r := t + [Entry(id, f)];
      assert r[|t|].key == id;
      assert forall i :: 0 <= i < |t| ==> r[i] == t[i];
      assert forall x :: x in Keys(t) ==> x in Keys(r);
      assert Keys(r) == Keys(t) + {id};
      r
  }

  /**
   * `[]` as written: with nothing registered it is nil; otherwise the first entry's clause,
   * whatever `id` is performed.
   */
  function Lookup<C>(t: seq<Entry<C>>, id: Id): (r: Option<C>)
    ensures r.None? <==> Keys(t) == {}
    ensures r.Some? ==> Entry(t[0].key, r.value) == t[0]
  {
    if |t| == 0 then None
    else
      assert t[0].key in Keys(t);
      Some(t[0].clause)
  }

  /** The table `with_init` builds as written: modify registered first, then get. */
  function StateEntries(inst: State.Instance, fuel: nat): seq<Entry<Clause<Val>>>
  {
    Put(Put([], inst.modifier.id, State.ModifyClause(fuel)), inst.getter.id, State.GetClause())
  }

  /**
   * As written, two effects registered on one handler answer to the same clause: with
   * `State`'s handler, performing `get` runs the modify clause, which, given no proc, fails
   * the way `nil[state]` does, where `get` should have resumed with the state. The corrected
   * lookup gives `get` its own clause.
   */
  lemma GetFindsModify(inst: State.Instance, fuel: nat, s: Val, k: Cont<Val>)
    requires inst.getter.id != inst.modifier.id
    ensures Lookup(StateEntries(inst, fuel), inst.getter.id) == Some(State.ModifyClause(fuel))
    ensures State.ModifyClause(fuel)(s, [], k) == Fail(NoMethod)
    ensures State.GetClause()(s, [], k) == k(s, s)
    ensures State.ModifyClause(fuel) != State.GetClause()
    ensures Store.Lookup(State.StateHandler(inst, fuel).table, inst.getter.id) == Some(State.GetClause())
  {
    var t1 := Put([], inst.modifier.id, State.ModifyClause(fuel));
    assert t1 == [Entry(inst.modifier.id, State.ModifyClause(fuel))];
    assert t1[0].key == inst.modifier.id;
    assert inst.getter.id !in Keys(t1);
    var t2 := Put(t1, inst.getter.id, State.GetClause());
    assert t2[0] == t1[0];
    var done: Cont<Val> := (s': Val, v: Val) => Ret(Nil);
    assert State.ModifyClause(fuel)(s, [], done) != State.GetClause()(s, [], done);
    State.StateTable(inst, fuel);
  }

  /**
   * As written, a handler with any clause at all catches every effect, even one no key is an
   * ancestor of; the corrected lookup finds nothing, so the effect is forwarded outwards.
   */
  lemma ForeignEffectCaught(inst: State.Instance, fuel: nat, x: Id)
    requires !Derives(x, inst.getter.id) && !Derives(x, inst.modifier.id)
    ensures Lookup(StateEntries(inst, fuel), x).Some?
    ensures Store.Lookup(State.StateHandler(inst, fuel).table, x).None?
  {
    var t := State.StateHandler(inst, fuel).table;
    assert t.Keys == {inst.modifier.id, inst.getter.id};
    assert Store.NoMatch(t, x);
    var t1 := Put([], inst.modifier.id, State.ModifyClause(fuel));
    assert inst.modifier.id in Keys(t1);
  }

  /**
   * `Ruff.instance(parent = nil)` as written in lib/ruff.rb: it calls `Effect.new(parent)`,
   * but `Effect#initialize` takes no argument, so every call raises ArgumentError, with or
   * without a parent.
   */
  function Instance(reg: Registry, parent: Option<Effect>): Result<(Effect, Registry), Error>
  {
    Err(Arity)
  }

  /**
   * As written, no call of `Ruff.instance` makes an effect, although `State`, `Defer`,
   * `MeasureTime` and `Call1cc` build theirs with it; the corrected constructors make a fresh
   * effect, a root without a parent and a child of the parent with one.
   */
  lemma InstanceRaises(reg: Registry, parent: Effect)
    requires Issued(reg, parent.id)
    ensures Instance(reg, None) == Err(Arity) && Instance(reg, Some(parent)) == Err(Arity)
    ensures var (e, reg') := NewEffect(reg); e.id.parent.None? && !Issued(reg, e.id) && Issued(reg', e.id)
    ensures var (e, reg') := Derive(reg, parent);
      e.id.parent == Some(parent.id) && !Issued(reg, e.id) && Issued(reg', e.id)
  {
  }
}
