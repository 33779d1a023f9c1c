/**
 * The observable side effects of the source's examples and tests (`messages << msg`,
 * `puts msg`) are modelled as a `note` effect that an outermost journal handler records, in
 * the order the notes are performed. The journal is an ordinary handler whose state is the
 * list of notes so far; its value handler pairs that list with the final value.
 */
module Journal {
  import opened Maybe
  import opened Ids
  import opened Messages
  import opened Effects
  import opened Handlers
  import opened HandlerLaws
  import Store

  /** The journal's own effect, on the identity no registry issues. */
  const NoteEff: Effect := Effect(Reserved)

  /** The first argument of a perform as a value (nil when there is none). */
  function FirstVal(args: seq<Arg>): Val
  {
    if |args| > 0 && args[0].V? then args[0].v else Nil
  }

  /** `messages << m`, then carry on with `rest`. */
  function Note(m: Val, rest: Val -> Comp): (r: Comp)
    ensures r.Yield? && r.msg == Eff(NoteEff.id, [V(m)])
  {
    Yield(Eff(NoteEff.id, [V(m)]), rest)
  }

  /** What the journal reports: the notes in order, then the computation's value. */
  function Report(notes: seq<Val>, v: Val): Val
  {
    List([List(notes), v])
  }

  /** Appends the note to the journal and resumes the computation with nil. */
  function RecordClause(): Clause<seq<Val>>
  {
    (log: seq<Val>, args: seq<Arg>, k: Cont<seq<Val>>) => k(log + [FirstVal(args)], Nil)
  }

  /** The journal handler: records notes, and reports them with the final value. */
  function Recorder(): (h: Handler<seq<Val>>)
    ensures Store.Lookup(h.table, NoteEff.id) == Some(RecordClause())
  {
    Handler(map[NoteEff.id := RecordClause()], (log, v) => Ret(Report(log, v)))
  }

  /** Runs a program under the journal at the root. */
  function Observe(program: Comp, fuel: nat): Result<Val, Error>
  {
    RunTop(Handle(Recorder(), [], program, fuel))
  }

  /** A program the journal ends with `ms` and `v` is observed as that report. */
  lemma ObserveEnds(c: Comp, fuel: nat, ms: seq<Val>, v: Val)
    requires Handle(Recorder(), [], c, fuel) == Recorder().valh(ms, v)
    ensures Observe(c, fuel) == Ok(Report(ms, v))
  {
  }

  /**
   * A perform whose clause is the recording clause appends its argument to the handler's
   * state, and the computation resumes with nil under the same handler.
   */
  lemma RecordsNote(rh: Handler<seq<Val>>, log: seq<Val>, a: Comp, m: Val, fuel: nat, log': seq<Val>, next: Comp)
    requires fuel > 0 && a.Yield? && a.msg.Eff? && a.msg.args == [V(m)]
    requires Store.Lookup(rh.table, a.msg.id) == Some(RecordClause())
    requires log' == log + [m] && next == a.resume(Nil)
    ensures Handle(rh, log, a, fuel) == Handle(rh, log', next, fuel - 1)
  {
    var k := Continue(rh, a.resume, fuel - 1);
    assert Handle(rh, log, a, fuel) == RecordClause()(log, [V(m)], k);
    assert FirstVal([V(m)]) == m;
    assert RecordClause()(log, [V(m)], k) == k(log + [m], Nil);
  }

  /** Appending the head of `ms`, then its tail, appends `ms`. */
  lemma AppendHeadTail<T>(log: seq<T>, ms: seq<T>)
    requires |ms| > 0
    ensures log + [ms[0]] + ms[1..] == log + ms
  {
  }

  /** `id.perform(m)` for each `m` of `ms` in turn, then `c`. */
  function Emits(id: Id, ms: seq<Val>, c: Comp): (r: Comp)
    ensures |ms| == 0 ==> r == c
    ensures |ms| > 0 ==> r.Yield? && r.msg == Eff(id, [V(ms[0])])
  {
    if |ms| == 0 then c else Yield(Eff(id, [V(ms[0])]), _ => Emits(id, ms[1..], c))
  }

  /**
   * Deep handling: every one of a run of performs reaches the same recording clause, each
   * `k[]` resumes under the same handler, and the arguments are recorded in program order.
   */
  lemma {:induction false} RecordsAll(rh: Handler<seq<Val>>, id: Id, log: seq<Val>, ms: seq<Val>, c: Comp, fuel: nat)
    requires Store.Lookup(rh.table, id) == Some(RecordClause())
    requires fuel >= |ms|
    ensures Handle(rh, log, Emits(id, ms, c), fuel) == Handle(rh, log + ms, c, fuel - |ms|)
    decreases |ms|
  {
    if |ms| > 0 {
      var a := Emits(id, ms, c);
      assert a.resume(Nil) == Emits(id, ms[1..], c);
      RecordsNote(rh, log, a, ms[0], fuel, log + [ms[0]], Emits(id, ms[1..], c));
      RecordsAll(rh, id, log + [ms[0]], ms[1..], c, fuel - 1);
      assert log + [ms[0]] + ms[1..] == log + ms;
    } else {
      assert log + ms == log;
    }
  }

  /** A note forwarded by a nested handler is recorded too, and resumes through that handler. */
  lemma RecordsForwardedNote(rh: Handler<seq<Val>>, log: seq<Val>, a: Comp, m: Val, fuel: nat, log': seq<Val>, next: Comp)
    requires fuel > 0 && a.Yield? && a.msg.Resend? && a.msg.eff.Eff? && a.msg.eff.args == [V(m)]
    requires Store.Lookup(rh.table, a.msg.eff.id) == Some(RecordClause())
    requires log' == log + [m] && next == a.msg.k(Nil)
    ensures Handle(rh, log, a, fuel)
         == Handle(Handler(rh.table, Continue(rh, a.resume, fuel - 1)), log', next, fuel - 1)
  {
    var k := Rehandles(rh, a.resume, a.msg.k, fuel - 1);
    assert Handle(rh, log, a, fuel) == RecordClause()(log, [V(m)], k);
    assert FirstVal([V(m)]) == m;
    assert RecordClause()(log, [V(m)], k) == k(log + [m], Nil);
  }

  /**
   * The copy of a handler that `rehandles` installs when it handles an effect forwarded from
   * below: the same table, and a value handler that goes back to the handler's own fiber.
   */
  function Relay<S(!new)>(h: Handler<S>, fuel: nat): (r: Handler<S>)
    ensures r.table == h.table
  {
    Handler(h.table, Continue(h, Done, fuel))
  }

  /** A relay ends the way the handler it copies ends. */
  lemma RelayEnds<S(!new)>(h: Handler<S>, fuel: nat, s: S, v: Val)
    requires fuel > 0
    ensures Relay(h, fuel).valh(s, v) == h.valh(s, v)
  {
    assert Relay(h, fuel).valh(s, v) == Handle(h, s, Done(v), fuel);
    assert Done(v) == Ret(v);
  }

  /**
   * A handler without a clause for notes is transparent to them: the note is forwarded, the
   * journal records it, and the computation resumes under the same inner handler, with the
   * journal replaced by its relay.
   */
  lemma NoteThrough<S(!new)>(rh: Handler<seq<Val>>, log: seq<Val>, h: Handler<S>, s: S, a: Comp, m: Val, f1: nat, f2: nat,
                       log': seq<Val>, next: Comp)
    requires f1 > 0 && f2 > 0
    requires a.Yield? && a.msg == Eff(NoteEff.id, [V(m)])
    requires Store.Lookup(rh.table, NoteEff.id) == Some(RecordClause())
    requires Store.Lookup(h.table, NoteEff.id).None?
    requires log' == log + [m] && next == a.resume(Nil)
    ensures Handle(rh, log, Handle(h, s, a, f1), f2)
         == Handle(Relay(rh, f2 - 1), log', Handle(h, s, next, f1 - 1), f2 - 1)
  {
    var o := Handle(h, s, a, f1);
    UnmatchedEffect(h, s, NoteEff.id, [V(m)], a.resume, f1);
    assert o.msg.k(Nil) == Handle(h, s, next, f1 - 1);
    RecordsForwardedNote(rh, log, o, m, f2, log', Handle(h, s, next, f1 - 1));
  }

  /**
   * A note forwarded from a nested `run` whose result is then carried on by `post` (a clause
   * body that continues after `k` returns): the journal records the note, the nested run
   * finishes with `w`, and `post` goes on with it under the journal.
   */
  lemma ForwardedNoteThenBind(rh: Handler<seq<Val>>, log: seq<Val>, o: Comp, m: Val, w: Val, post: Val -> Comp,
                              fb: nat, f: nat)
    requires f > 1 && fb > 0
    requires o.Yield? && o.msg.Resend? && o.msg.eff == Eff(NoteEff.id, [V(m)]) && o.resume == Done
    requires o.msg.k(Nil) == Ret(w)
    requires Store.Lookup(rh.table, NoteEff.id) == Some(RecordClause())
    ensures Handle(rh, log, Bind(o, post, fb), f) == Handle(rh, log + [m], post(w), f - 1)
  {
    var a := Bind(o, post, fb);
    assert o == Yield(o.msg, Done);
    assert a == Yield(o.msg, v => Bind(Done(v), post, fb - 1));
    assert Done(w) == Ret(w);
    assert a.resume(w) == post(w);
    var copy := Handler(rh.table, Continue(rh, a.resume, f - 1));
    RecordsForwardedNote(rh, log, a, m, f, log + [m], Ret(w));
    ReturnGoesToValueHandler(copy, log + [m], w, f - 1);
    ContinueRuns(rh, a.resume, f - 1, log + [m], w);
  }
}
