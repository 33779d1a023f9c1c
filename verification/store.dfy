/**
 * The handler table (`Handler::Store` in lib/ruff/handler.rb, and the same code again as
 * `Ruff::HandlerStore` in lib/ruff/handler_store.rb).
 *
 * Entries are keyed by effect identity. A lookup for a performed identity keeps the keys the
 * identity derives from and picks the most derived of them; on a single parent chain that is
 * the first key met when walking from the identity towards its root.
 */
module Store {
  import opened Maybe
  import opened Ids

  /** `[]=`: store `f` under `id`, replacing only the entry for exactly that identity. */
  function Insert<C>(t: map<Id, C>, id: Id, f: C): (r: map<Id, C>)
    ensures r.Keys == t.Keys + {id}
    ensures r[id] == f
    ensures forall k :: k in t && k != id ==> r[k] == t[k]
  {
    t[id := f]
  }

  /** No key of `t` is `id` or one of its ancestors. */
  predicate NoMatch<C>(t: map<Id, C>, id: Id)
  {
    forall k :: k in t ==> !Derives(id, k)
  }

  /** A table with one key has no match for an identity that does not derive from it. */
  lemma Foreign<C>(t: map<Id, C>, key: Id, id: Id)
    requires t.Keys == {key} && !Derives(id, key)
    ensures NoMatch(t, id)
  {
    forall k | k in t
      ensures !Derives(id, k)
    {
      assert k in t.Keys;
    }
  }

  /** `m` is a key that `id` derives from, and it derives from every other such key. */
  predicate MostSpecific<C>(t: map<Id, C>, id: Id, m: Id)
  {
    && m in t
    && Derives(id, m)
    && forall k :: k in t && Derives(id, k) ==> Derives(m, k)
  }

  /** The key whose clause a lookup of `id` returns: the nearest registered ancestor-or-self. */
  function Nearest<C>(t: map<Id, C>, id: Id): (r: Option<Id>)
    ensures r.None? <==> NoMatch(t, id)
    ensures r.Some? ==> MostSpecific(t, id, r.value)
    decreases id
  {
    if id in t then Some(id)
    else
      match id.parent
      case None => None
      case Some(p) => Nearest(t, p)
  }

  /**
   * `[]`: the clause of the most specific key `id` derives from, or nil when there is none.
   * The table itself is a value, so a lookup cannot change it.
   */
  function Lookup<C>(t: map<Id, C>, id: Id): (r: Option<C>)
    ensures r.None? <==> NoMatch(t, id)
    ensures r.Some? ==> exists m :: MostSpecific(t, id, m) && r.value == t[m]
  {
    match Nearest(t, id)
    case None => None
    case Some(m) => Some(t[m])
  }

  /** The most specific key is unique, so the choice of clause is determined. */
  lemma MostSpecificUnique<C>(t: map<Id, C>, id: Id, m1: Id, m2: Id)
    requires MostSpecific(t, id, m1) && MostSpecific(t, id, m2)
    ensures m1 == m2
  {
    DerivesAntisymmetric(m1, m2);
  }

  /** Lookup returns exactly the clause of the unique most specific key. */
  lemma LookupIsMostSpecific<C>(t: map<Id, C>, id: Id, m: Id)
    requires MostSpecific(t, id, m)
    ensures Lookup(t, id) == Some(t[m])
  {
    MostSpecificUnique(t, id, Nearest(t, id).value, m);
  }

  /** A registered identity finds its own clause, whatever else is registered. */
  lemma LookupExact<C>(t: map<Id, C>, k: Id)
    requires k in t
    ensures Lookup(t, k) == Some(t[k])
  {
  }

  /** After `[]=` the identity itself finds the new clause. */
  lemma InsertThenLookup<C>(t: map<Id, C>, id: Id, f: C)
    ensures Lookup(Insert(t, id, f), id) == Some(f)
  {
  }

  /**
   * `[]=` on a key that is not an ancestor-or-self of `x` leaves the lookup of `x` as it was,
   * so registering a more general or an unrelated effect never steals a more specific match.
   */
  lemma {:induction false} InsertUnrelated<C>(t: map<Id, C>, id: Id, f: C, x: Id)
    requires !Derives(x, id)
    ensures Lookup(Insert(t, id, f), x) == Lookup(t, x)
    decreases x
  {
    var t' := Insert(t, id, f);
    if x !in t {
      match x.parent
      case None =>
      case Some(p) =>
        InsertUnrelated(t, id, f, p);
        assert Nearest(t', x) == Nearest(t', p);
    }
  }

  /**
   * `[]=` on an ancestor `a` of `x` that is at least as specific as every key `x` matched
   * before makes lookups of `x` return the new clause.
   */
  lemma InsertNearer<C>(t: map<Id, C>, a: Id, f: C, x: Id)
    requires Derives(x, a)
    requires forall k :: k in t && Derives(x, k) ==> Derives(a, k)
    ensures Lookup(Insert(t, a, f), x) == Some(f)
  {
    var t' := Insert(t, a, f);
    assert MostSpecific(t', x, a);
    LookupIsMostSpecific(t', x, a);
  }
}
