/**
 * Effect identities (lib/ruff/effect.rb, lib/ruff.rb).
 *
 * Every effect owns an identity that is unique and never changes. An identity may have a
 * parent; the parent links form a forest, and "is_a?" on identities is "is the other identity
 * on my parent chain". Uniqueness comes from a registry counter that is threaded through
 * every creation, in place of the source's random UUIDs.
 */
module Ids {
  import opened Maybe

  /** An identity: the registry serial it was issued with, and its parent, if any. */
  datatype Id = Id(serial: nat, parent: Option<Id>)

  /** `Derives(child, ancestor)`: `ancestor` is `child` itself or on `child`'s parent chain. */
  predicate Derives(child: Id, ancestor: Id)
  {
    child == ancestor || (child.parent.Some? && Derives(child.parent.value, ancestor))
  }

  /** The number of identities on the chain from `id` to its root. */
  function Depth(id: Id): nat
  {
    match id.parent
    case None => 1
    case Some(p) => 1 + Depth(p)
  }

  /** The source of fresh identities: the number of serials handed out so far. */
  datatype Registry = Registry(next: nat)

  /**
   * The identity with serial 0, which no registry hands out: serials start at 1. The model
   * keeps it for its own bookkeeping effect, so that no effect of the program can be it.
   */
  const Reserved: Id := Id(0, None)

  /** `id`, and all of its ancestors, were handed out by `reg` before now. */
  predicate Issued(reg: Registry, id: Id)
  {
    0 < id.serial <= reg.next && (id.parent.Some? ==> Issued(reg, id.parent.value))
  }

  /**
   * Creates a fresh identity with the given parent (`Effect.new`, and `Ruff.instance(parent)`).
   * The new identity differs from every identity the registry issued before, and everything
   * issued before stays issued.
   */
  function NewId(reg: Registry, parent: Option<Id>): (r: (Id, Registry))
    requires parent.Some? ==> Issued(reg, parent.value)
    ensures r.0.parent == parent
    ensures Issued(r.1, r.0) && r.0 != Reserved
    ensures forall x :: Issued(reg, x) ==> x != r.0 && Issued(r.1, x)
  {
    IssuedMonotone(reg, Registry(reg.next + 1));
    (Id(reg.next + 1, parent), Registry(reg.next + 1))
  }

  /** Issuing is preserved when the counter grows. */
  lemma IssuedMonotone(reg: Registry, reg': Registry)
    requires reg.next <= reg'.next
    ensures forall x :: Issued(reg, x) ==> Issued(reg', x)
  {
    forall x | Issued(reg, x)
      ensures Issued(reg', x)
    {
      IssuedMonotoneOne(reg, reg', x);
    }
  }

  lemma {:induction false} IssuedMonotoneOne(reg: Registry, reg': Registry, x: Id)
    requires reg.next <= reg'.next && Issued(reg, x)
    ensures Issued(reg', x)
    decreases x
  {
    if x.parent.Some? {
      IssuedMonotoneOne(reg, reg', x.parent.value);
    }
  }

  /** An ancestor never has a longer chain than its descendant. */
  lemma {:induction false} DerivesDepth(child: Id, ancestor: Id)
    requires Derives(child, ancestor)
    ensures Depth(ancestor) <= Depth(child)
    ensures Depth(ancestor) == Depth(child) ==> child == ancestor
    decreases child
  {
    if child != ancestor {
      DerivesDepth(child.parent.value, ancestor);
    }
  }

  /** The parent links never form a cycle: no identity derives from its own descendant. */
  lemma Acyclic(id: Id)
    requires id.parent.Some?
    ensures !Derives(id.parent.value, id)
  {
    if Derives(id.parent.value, id) {
      DerivesDepth(id.parent.value, id);
    }
  }

  /** Deriving is antisymmetric: two identities that derive from each other are the same. */
  lemma DerivesAntisymmetric(a: Id, b: Id)
    requires Derives(a, b) && Derives(b, a)
    ensures a == b
  {
    DerivesDepth(a, b);
    DerivesDepth(b, a);
  }

  /** Deriving is transitive. */
  lemma {:induction false} DerivesTransitive(a: Id, b: Id, c: Id)
    requires Derives(a, b) && Derives(b, c)
    ensures Derives(a, c)
    decreases a
  {
    if a != b {
      DerivesTransitive(a.parent.value, b, c);
    }
  }

  /**
   * Two ancestors of one identity are always comparable: the chain is a single path, so of any
   * two keys that match a performed identity one derives from the other.
   */
  lemma {:induction false} AncestorsComparable(id: Id, a: Id, b: Id)
    requires Derives(id, a) && Derives(id, b)
    ensures Derives(a, b) || Derives(b, a)
    decreases id
  {
    if id != a && id != b {
      AncestorsComparable(id.parent.value, a, b);
    }
  }
}
