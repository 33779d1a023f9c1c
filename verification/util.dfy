/**
 * lib/ruff/standard/util.rb: `Util::FnStack`, a last-in-first-out store of thunks (named a
 * queue, but `Array#pop` takes from the end it pushes to); `Util::Ref`, a mutable cell; and
 * `Util::ADT.create`, which makes a fresh class whose instances wrap one value.
 *
 * Objects are values here: an operation that mutates its receiver returns the receiver's new
 * state along with what the Ruby method returns.
 */
module Util {
  import opened Maybe
  import opened Ids
  import opened Messages
  import opened Lists

  /** `FnStack`: the entries in push order; nil entries are `None`. */
  datatype FnStack = FnStack(queue: seq<Option<Comp>>)

  /** `FnStack.new`. */
  function NewFnStack(): (st: FnStack)
    ensures |st.queue| == 0
  {
    FnStack([])
  }

  /** `enqueue(fn)`: pushes `fn` at the end; `Array#push` returns the array itself. */
  function Enqueue(st: FnStack, fn: Option<Comp>): (r: (FnStack, seq<Option<Comp>>))
    ensures |r.0.queue| == |st.queue| + 1 && r.0.queue[..|st.queue|] == st.queue
    ensures r.0.queue[|st.queue|] == fn
    ensures r.1 == r.0.queue
  {
    var q := st.queue + [fn];
    assert q[..|st.queue|] == st.queue;
    (FnStack(q), q)
  }

  /**
   * `dequeue`: pops the most recently pushed entry and calls it. With nothing left, or a nil
   * entry, it returns nil.
   */
  function Dequeue(st: FnStack): (r: (FnStack, Comp))
    ensures |st.queue| == 0 ==> r == (st, Ret(Nil))
    ensures |st.queue| > 0 ==> r.0.queue == st.queue[..|st.queue| - 1]
    ensures |st.queue| > 0 && st.queue[|st.queue| - 1].Some? ==> r.1 == st.queue[|st.queue| - 1].value
    ensures |st.queue| > 0 && st.queue[|st.queue| - 1].None? ==> r.1 == Ret(Nil)
  {
    if |st.queue| == 0 then (st, Ret(Nil))
    else
      var hd := st.queue[|st.queue| - 1];
      (FnStack(st.queue[..|st.queue| - 1]), if hd.Some? then hd.value else Ret(Nil))
  }

  /** `cons(hd)`: a copy of the entries with `hd` pushed on it; the stack itself is left alone. */
  function Cons(st: FnStack, hd: Option<Comp>): (r: seq<Option<Comp>>)
    ensures |r| == |st.queue| + 1 && r[..|st.queue|] == st.queue && r[|st.queue|] == hd
  {
    var q := st.queue + [hd];
    assert q[..|st.queue|] == st.queue;
    q
  }

  /** What `enqueue` pushes, `dequeue` pops first, leaving the stack as it was before. */
  lemma EnqueueThenDequeue(st: FnStack, fn: Comp)
    ensures Dequeue(Enqueue(st, Some(fn)).0) == (st, fn)
  {
  }

  /** `cons` builds exactly the entries `enqueue` would, without touching the receiver. */
  lemma ConsIsEnqueueCopy(st: FnStack, hd: Option<Comp>)
    ensures FnStack(Cons(st, hd)) == Enqueue(st, hd).0
  {
  }

  /** Pushes each of `fns` in turn. */
  function EnqueueAll(st: FnStack, fns: seq<Comp>): (r: FnStack)
    ensures |r.queue| == |st.queue| + |fns|
    decreases |fns|
  {
    if |fns| == 0 then st else EnqueueAll(Enqueue(st, Some(fns[0])).0, fns[1..])
  }

  /** Calls `dequeue` `n` times, collecting what each call returns. */
  function DequeueN(st: FnStack, n: nat): (r: (FnStack, seq<Comp>))
    ensures |r.1| == n
    decreases n
  {
    if n == 0 then (st, []) else
      var (st', c) := Dequeue(st);
      var (st'', cs) := DequeueN(st', n - 1);
      (st'', [c] + cs)
  }

  /** Pushing `fns` appends them, in order, to the entries. */
  lemma {:induction false} EnqueueAllAppends(st: FnStack, fns: seq<Comp>)
    ensures EnqueueAll(st, fns).queue == st.queue + seq(|fns|, i requires 0 <= i < |fns| => Some(fns[i]))
    decreases |fns|
  {
    if |fns| > 0 {
      EnqueueAllAppends(Enqueue(st, Some(fns[0])).0, fns[1..]);
      assert st.queue + [Some(fns[0])] + seq(|fns[1..]|, i requires 0 <= i < |fns[1..]| => Some(fns[1..][i]))
          == st.queue + seq(|fns|, i requires 0 <= i < |fns| => Some(fns[i]));
    } else {
      assert st.queue + seq(|fns|, i requires 0 <= i < |fns| => Some(fns[i])) == st.queue;
    }
  }

  /** Popping as many entries as were just pushed gives them back in reverse, and the stack as it was. */
  lemma {:induction false} DequeueReverses(st: FnStack, fns: seq<Comp>)
    ensures DequeueN(FnStack(st.queue + seq(|fns|, i requires 0 <= i < |fns| => Some(fns[i]))), |fns|) == (st, Reverse(fns))
    decreases |fns|
  {
    var q := st.queue + seq(|fns|, i requires 0 <= i < |fns| => Some(fns[i]));
    if |fns| > 0 {
      var init := fns[..|fns| - 1];
      var q' := st.queue + seq(|init|, i requires 0 <= i < |init| => Some(init[i]));
      assert q[..|q| - 1] == q';
      assert Dequeue(FnStack(q)) == (FnStack(q'), fns[|fns| - 1]);
      DequeueReverses(st, init);
      assert fns == init + [fns[|fns| - 1]];
      ReverseSnoc(init, fns[|fns| - 1]);
    } else {
      assert q == st.queue;
    }
  }

  /** LIFO: thunks pushed one after another come back from `dequeue` latest first. */
  lemma PushedComeBackReversed(st: FnStack, fns: seq<Comp>)
    ensures DequeueN(EnqueueAll(st, fns), |fns|) == (st, Reverse(fns))
  {
    EnqueueAllAppends(st, fns);
    DequeueReverses(st, fns);
  }

  /** `Util::Ref`: a cell holding one value. */
  datatype Ref = Ref(v: Val)

  /** `get`. */
  function Get(r: Ref): Val
  {
    r.v
  }

  /** `set(v_)`: the cell now holds `v_`; the assignment's value is `v_`. */
  function Set(r: Ref, v': Val): (out: (Ref, Val))
    ensures Get(out.0) == v' && out.1 == v'
  {
    (Ref(v'), v')
  }

  /** `Ref.new(v)` then `get` reads `v`; a `set` is read back; a later `set` overwrites an earlier one. */
  lemma RefLaws(v: Val, a: Val, b: Val)
    ensures Get(Ref(v)) == v
    ensures Get(Set(Ref(v), a).0) == a
    ensures Set(Set(Ref(v), a).0, b).0 == Set(Ref(v), b).0
  {
  }

  /** A class made by `ADT.create`: its identity. */
  datatype AdtClass = AdtClass(id: Id)

  /** An instance of such a class, wrapping `value`. */
  datatype AdtObject = AdtObject(cls: AdtClass, value: Val)

  /** `ADT.create`: a class nothing made before shares. */
  function Create(reg: Registry): (r: (AdtClass, Registry))
    ensures Issued(r.1, r.0.id)
    ensures forall x :: Issued(reg, x) ==> x != r.0.id && Issued(r.1, x)
  {
    var (id, reg') := NewId(reg, None);
    (AdtClass(id), reg')
  }

  /** `cls.new(v)`. */
  function New(cls: AdtClass, v: Val): (o: AdtObject)
    ensures o.cls == cls
  {
    AdtObject(cls, v)
  }

  /** `get`: the wrapped value. */
  function AdtGet(o: AdtObject): Val
  {
    o.value
  }

  /**
   * `get` returns what `new` was given, and instances of two classes made one after the other
   * are never equal, even around the same value.
   */
  lemma AdtLaws(reg: Registry, v: Val)
    ensures var (c1, reg1) := Create(reg);
      var (c2, _) := Create(reg1);
      && AdtGet(New(c1, v)) == v
      && c1 != c2
      && New(c1, v) != New(c2, v)
  {
    var (c1, reg1) := Create(reg);
    assert Issued(reg1, c1.id);
  }
}
