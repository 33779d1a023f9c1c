# ruff — algebraic effects and handlers, modelled in Dafny

This project models the core of *ruff*, a Ruby library for one-shot algebraic effects and
handlers. The model covers these parts:

- **Effects** (`Ids`, `Effects`). An effect is a handle on a unique identity. An identity may
  have a parent, created by `Effect << parent`, and the parent links form a forest.
  `perform(*args)` yields an `Eff` message to the nearest handler. Its value is whatever the
  handler resumes it with.
- **The handler table** (`Store`). Clauses are keyed by effect identity. A lookup returns the
  clause of the most specific registered ancestor-or-self of the performed identity.
- **Handlers** (`Handlers`, `HandlerLaws`). `Handler.new`, `on`, `to`, `run`, `continue`,
  `handle`, `rehandles` and `handlers=`. A computation is a tree of `Comp` nodes:
  - `Ret(v)`: the computation returned `v`;
  - `Yield(msg, resume)`: it yielded a message and waits to be resumed;
  - `Fail(err)`: it raised a Ruby exception.

  `Handle` drives that tree as `handle` drives a fiber:
  - an effect with a clause calls the clause with `continue(co)`;
  - an effect without one is yielded outwards as a `Resend`;
  - a `Resend` that reaches an outer handler gets the `rehandles` continuation;
  - a returned value goes to the value handler.
- **The messages** `Eff(id, args)` and `Resend(eff, k)` (`Messages`).
- **The standard handlers**:
  - `State`: `get`, `modify`, `put`, `with_init`, `with`.
  - `Defer`: `register`, `with`. Registered procs run after the thunk, newest first.
  - `DelimCtrl`: `reset`, `shift` over a stack of prompts.
  - `Call1cc`: `context`, `run`.
  - `MeasureTime`: `measure`, `with`, and the shape of the report.
  - `Util`: `FnStack`, `Ref`, `ADT.create`.

Everything is a value:
- a handler's mutable locals are a state `S` threaded through its clauses;
- identities come from a counter `Registry` that is passed along;
- the module-level prompt and context stacks are explicit parameters.

The side effects the library's own examples observe (`messages << ...`, `puts`) are a `note`
effect. An outermost `Journal` handler records these notes, so each scenario's result is the
list of notes together with the final value. The note effect has the identity `Ids.Reserved`,
which no registry ever issues, so no effect the program creates can be mistaken for it.

Fibers are not modelled as such. A fiber is a continuation `resume: Val -> Comp`. Every
function that walks a computation takes a `fuel` bound, and when the fuel runs out the result
is `Fail(OutOfFuel)`. Every theorem states the fuel it needs.

## Model

| member | source | states |
|---|---|---|
| Ids.NewId | lib/ruff/effect.rb:10-13 | a new identity differs from every identity issued before, and everything issued stays issued |
| Ids.DerivesAntisymmetric | lib/ruff/handler.rb:20-31 | the subtype relation on identities is antisymmetric: two identities that derive from each other are equal |
| Ids.DerivesTransitive | lib/ruff/handler.rb:20-31 | the subtype relation is transitive |
| Ids.AncestorsComparable | lib/ruff/handler.rb:20-31 | any two ancestors of one identity are related, so "most specific" is well defined |
| Effects.NewEffect | lib/ruff/effect.rb:10-13 | `Effect.new` makes a root effect whose identity is fresh |
| Effects.Derive | spec/ruff/effect_spec.rb:19-23 | `Effect << parent` makes a fresh effect that derives from the parent, and the parent does not derive from it |
| Effects.NewSingle | lib/ruff/standard/defer.rb:11-13 | `Instance.new` of `Defer` and `MeasureTime` makes one fresh root effect, never the journal's reserved identity, and keeps everything issued before |
| Effects.Perform | lib/ruff/effect.rb:20-22 | `perform` yields `Eff` with the effect's own id and exactly the given arguments, and evaluates to the value it is resumed with |
| Effects.SeparatelyCreatedDiffer | spec/ruff/effect_spec.rb:9-12 | two effects created one after the other have different ids |
| Store.Insert | lib/ruff/handler.rb:16-18 | `[]=` adds the key, stores the clause under it, and leaves every other entry unchanged |
| Store.Nearest | lib/ruff/handler.rb:20-31 | the key chosen for a lookup is none exactly when no key is an ancestor-or-self of the id; otherwise it is the most specific such key |
| Store.Lookup | lib/ruff/handler.rb:20-31 | `[]` is nil exactly when no registered key is an ancestor-or-self of the id; otherwise it is the clause of a most specific such key |
| Store.Foreign | lib/ruff/handler.rb:20-31 | a table whose only key is not an ancestor-or-self of the id has no clause for it |
| Store.MostSpecificUnique | lib/ruff/handler.rb:26-27 | the most specific matching key is unique, so the choice of clause never depends on order |
| Store.LookupIsMostSpecific | lib/ruff/handler.rb:20-31 | a lookup returns exactly the clause of the most specific matching key |
| Store.LookupExact | lib/ruff/handler_store.rb:12-20 | a registered id finds its own clause, whatever else is registered |
| Store.InsertThenLookup | lib/ruff/handler_store.rb:8-10 | after `[]=` the id finds the new clause |
| Store.InsertUnrelated | lib/ruff/handler.rb:16-31 | registering a key that is not an ancestor-or-self of `x` leaves lookups of `x` as they were |
| Store.InsertNearer | lib/ruff/handler.rb:16-31 | registering an ancestor of `x` that is at least as specific as every earlier match makes `x` find the new clause |
| Handlers.NewHandler | lib/ruff/handler.rb:38-41 | a new handler catches nothing, and its value handler is the identity |
| Handlers.On | lib/ruff/handler.rb:102-106 | `on` registers the clause under exactly that effect, keeps every other entry and keeps the value handler |
| Handlers.To | lib/ruff/handler.rb:77-81 | `to` replaces the value handler and keeps the table |
| Handlers.Handle | lib/ruff/handler.rb:149-170 | a value goes to the value handler; an exception propagates; an `Eff` or a `Resend` with a clause calls the clause with `continue(co)` or the `rehandles` continuation; one without a clause is yielded outwards as a `Resend` of the same effect |
| Handlers.Run | lib/ruff/handler.rb:131-135 | `run` on a returned value gives the value handler's result, on an exception the exception, and on an effect the table has no clause for a `Resend` of that effect to the enclosing handler |
| Handlers.RunTop | lib/ruff/effect.rb:20-22 | at the root, a returned value is the result, and a yield is Ruby's FiberError |
| HandlerLaws.ReturnGoesToValueHandler | lib/ruff/handler.rb:166-167 | a returned value goes to the value handler |
| HandlerLaws.MatchedEffect | lib/ruff/handler.rb:151-153 | an `Eff` with a clause calls the clause with its arguments and `continue(co)` |
| HandlerLaws.UnmatchedEffect | lib/ruff/handler.rb:154-156 | an `Eff` without a clause is yielded as a `Resend` of the same `Eff`, whose continuation resumes the fiber under this handler |
| HandlerLaws.MatchedResend | lib/ruff/handler.rb:157-162 | a `Resend` whose effect has a clause calls the clause with the `rehandles` continuation |
| HandlerLaws.UnmatchedResend | lib/ruff/handler.rb:157-165 | a `Resend` without a clause is passed on, still carrying the original `Eff`, with the `rehandles` continuation |
| HandlerLaws.RehandlesRuns | lib/ruff/handler.rb:172-182 | `rehandles` runs the lower continuation under a copy of the table, whose value handler resumes this handler's fiber |
| HandlerLaws.ContinueRuns | lib/ruff/handler.rb:144-146 | `continue(co)` resumes the fiber and hands what it does next to the same handler, so handling is deep |
| HandlerLaws.FreshHandlerReturns | spec/ruff/handler_spec.rb:91-94 | `Handler.new.run { v }` is `v` |
| HandlerLaws.FreshHandlerForwards | lib/ruff/handler.rb:154-156 | a handler with no clauses forwards every effect unchanged |
| HandlerLaws.AbortSkipsValueHandler | lib/ruff/handler.rb:108-115 | a clause that drops its continuation gives `run` its own result, and the value handler is skipped |
| HandlerLaws.UnhandledReachesRoot | lib/ruff/handler.rb:149-156 | an effect no handler catches reaches the root fiber and raises FiberError |
| HandlerLaws.PerformOutsideRun | spec/ruff/effect_spec.rb:94-96 | `perform` outside any `run` raises FiberError |
| Subtyping.AncestorClauseCatches | lib/ruff/handler.rb:83-86 | a clause for an effect catches any effect derived from it, at any depth, when nothing more specific is registered |
| Subtyping.MostSpecificClauseWins | spec/ruff/handler_spec.rb:52-71 | with clauses for a grandparent, a parent and a child, each effect finds its own clause |
| Subtyping.MultilevelSubtyping | spec/ruff/effect_spec.rb:46-76 | performing each of three generations reports the clause of its own level |
| Subtyping.ParentCatchesChild | spec/ruff/effect_spec.rb:29-42 | a handler for the parent alone records the child's message |
| Journal.RecordsAll | spec/ruff/handler_spec.rb:15-29 | a recording handler appends every message, in the order they were performed |
| Journal.NoteThrough | lib/ruff/handler.rb:154-165 | a note that passes through an inner handler without a clause reaches the journal, and the inner computation goes on |
| HandlerScenarios.DoubledResult | spec/ruff/handler_spec.rb:10-13 | a value handler that doubles, run on a thunk returning 5, gives 10 |
| HandlerScenarios.ClausesThenValueHandler | spec/ruff/handler_spec.rb:15-29 | both performs reach the clause in order, and then the value handler sees the thunk's value |
| HandlerScenarios.FinalValue | spec/ruff/handler_spec.rb:91-94 | a thunk that performs nothing returns its value through a handler that has a clause |
| HandlerScenarios.Layered | spec/ruff/handler_spec.rb:101-132 | with nested handlers, the outer one catches both logs, the inner one still catches the double, the notes come in program order, and the result is 11 |
| HandlerScenarios.Sequential | spec/ruff/handler_spec.rb:156-184 | the inner run's effect, the effect performed after it, and the final line appear in program order |
| State.NewInstance | lib/ruff/standard/state.rb:29-35 | the two effects are fresh and distinct |
| State.Get | lib/ruff/standard/state.rb:40-42 | `get` performs the get effect with no arguments |
| State.Modify | lib/ruff/standard/state.rb:49-51 | `modify` performs the modify effect with the proc |
| State.Put | lib/ruff/standard/state.rb:57-59 | `put(s)` performs modify with a proc that returns `s` whatever state it gets |
| State.ModifyClause | lib/ruff/standard/state.rb:78-80 | the modify clause makes the proc's result the new state and resumes with nil; an effect the proc performs leaves the clause; with no proc it is NoMethodError |
| State.GetClause | lib/ruff/standard/state.rb:81-83 | the get clause resumes with the current state and keeps it, whatever the arguments |
| State.StateHandler | lib/ruff/standard/state.rb:77-84 | the handler has exactly the two keys, get and modify, each with its own clause, and the identity as value handler |
| State.StateTable | lib/ruff/standard/state.rb:78-84 | each effect finds its own clause, and the value handler is the identity |
| State.WithInit | lib/ruff/standard/state.rb:71-85 | a thunk that returns or raises at once gives that back unchanged, and an effect not derived from either of the instance's leaves `with_init` for the handlers around |
| State.With | lib/ruff/standard/state.rb:95-97 | `with` starts from nil: a first `get` resumes the thunk with nil as value and state |
| State.GetResumesWithState | lib/ruff/standard/state.rb:81-83 | `get` resumes with the current state and leaves it unchanged |
| State.ModifyUpdates | lib/ruff/standard/state.rb:78-80 | `modify(fn)` makes `fn(state)` the state and resumes with nil |
| State.PutThenGet | lib/ruff/standard/state.rb:57-59 | after `put(s)`, `get` returns `s`, whatever the state was |
| State.WithInitKeepsValue | lib/ruff/standard/state.rb:68-85 | for every thunk of gets, puts and modifies that then returns `v`, `with_init` returns `v`, whatever the initial state |
| State.PutReturnsNil | lib/ruff/standard/state.rb:57-59 | a thunk that ends with `put` returns nil |
| State.ProgramStep | lib/ruff/standard/state.rb:71-85 | one step under the handler agrees with one step of the pure state-passing reading |
| State.RunsLikeStateMonad | lib/ruff/standard/state.rb:9-23 | for every program of gets, puts and modifies, the handler returns exactly what the state-monad reading says each `get` sees |
| State.GetPutModify | spec/ruff/standard_spec.rb:108-119 | from 0: put 10, get, modify +5, get, put 20, get reads 10, 15 and 20 |
| State.WithSeesNil | spec/ruff/standard_spec.rb:121-128 | under `with`, a `get` before a `put` reads nil |
| State.NestedModify | lib/ruff/standard.rb:11-13 | the inner modify proc's `state1.get` leaves the inner handler at once, and answering it with 3 makes the inner state 7 |
| State.NestedForwardedGet | lib/ruff/standard.rb:11-16 | the thunk's own `state1.get` passes through the inner handler to the outer one and reads 3, and the inner `get` then reads 7 |
| State.NestedInstances | lib/ruff/standard.rb:8-17 | two nested instances keep separate states: from 3 and 4, after the inner modify adds `state1.get` to the inner state, the gets read 3 and 7 |
| Lists.Reverse | lib/ruff/standard/defer.rb:43 | the reversal has the input's length, and element `i` of it is the input's element counted `i` places from the end |
| Defer.Register | lib/ruff/standard/defer.rb:19-21 | `register` performs the effect with the proc |
| Defer.RegisterClause | lib/ruff/standard/defer.rb:37-40 | the clause appends the proc (nil when none is given) to the list and resumes with nil |
| Defer.RunAll | lib/ruff/standard/defer.rb:41-44 | no procs means nil, and a non-proc first entry is NoMethodError |
| Defer.WithRegisters | lib/ruff/standard/defer.rb:32-40 | under `with`, a registration starts the list with the proc and resumes the thunk with nil |
| Defer.WithForwards | lib/ruff/standard/defer.rb:32-46 | under `with`, an effect not derived from the instance's leaves for the handlers around |
| Defer.DeferHandlerDefers | lib/ruff/standard/defer.rb:36-45 | the handler registers the proc and resumes, and its value handler runs the procs newest first |
| Defer.RegisterResumes | lib/ruff/standard/defer.rb:37-40 | a registration appends the proc to the pending list and resumes with nil |
| Defer.FinishReverses | lib/ruff/standard/defer.rb:41-44 | at the end, the pending procs run in reverse order of registration |
| Defer.DefersInOrder | lib/ruff/standard/defer.rb:32-46 | for any thunk of messages and registrations, the messages appear in program order, followed by the deferred procs' output in reverse registration order |
| Defer.WithRunsReversed | lib/ruff/standard/defer.rb:32-46 | `with` runs the thunk's messages, then every registered proc, newest first |
| Defer.WithJournal | lib/ruff/standard/defer.rb:32-46 | under a fresh journal, `with` ends with the thunk's messages followed by the deferred ones reversed |
| Defer.WithObserved | lib/ruff/standard/defer.rb:32-46 | observed from the root, `with` gives the thunk's messages followed by the deferred ones reversed |
| Defer.DeferSpecOrder | spec/ruff/standard_spec.rb:42-52 | start, middle and end are printed, then defer 2, then defer 1 |
| Scopes.ScopeHandler | lib/ruff/standard/delim_ctrl.rb:29-33 | a scope's handler has exactly one key, its own effect, with the given clause, and the identity as value handler |
| Scopes.ScopeTable | lib/ruff/standard/delim_ctrl.rb:29-33 | a scope's handler answers its own effect, forwards every effect not derived from it, and passes values through |
| Scopes.Scoped | lib/ruff/standard/delim_ctrl.rb:25-37 | a fresh effect is pushed for the thunk; after a return the stack is as it was, otherwise the fresh effect stays on top |
| Scopes.ScopedValue | lib/ruff/standard/call1cc.rb:31-43 | a thunk that returns at once gives its value and leaves the stack as it was |
| DelimCtrl.Shift | lib/ruff/standard/delim_ctrl.rb:42-46 | `shift` performs the nearest (last pushed) prompt with its block, and with no prompt it is NoMethodError |
| DelimCtrl.PromptClause | lib/ruff/standard/delim_ctrl.rb:30-32 | a block that ignores `k` gives its own result; one that calls `k(x)` resumes the rest with `x` and runs its tail on what that returns; no block is NoMethodError |
| DelimCtrl.PromptHandler | lib/ruff/standard/delim_ctrl.rb:29-33 | the prompt's handler has the prompt as its only key, the prompt clause, and the identity as value handler |
| DelimCtrl.PromptTable | lib/ruff/standard/delim_ctrl.rb:29-33 | a prompt's handler answers only that prompt |
| DelimCtrl.Reset | lib/ruff/standard/delim_ctrl.rb:25-37 | `reset` uses a fresh prompt; a thunk that returns gives its value and pops the prompt, and otherwise the prompt stays on top |
| DelimCtrl.ShiftDiscards | lib/ruff/standard/delim_ctrl.rb:30-32 | a block that ignores `k` makes its own result the result of `reset` |
| DelimCtrl.ShiftCallsK | lib/ruff/standard/delim_ctrl.rb:30-32 | a block that calls `k(x)` resumes the rest of the reset body with `x` and then runs the rest of the block |
| DelimCtrl.ShiftWithoutBlockFails | lib/ruff/standard/delim_ctrl.rb:30-32 | `shift` with no block calls nil: NoMethodError |
| DelimCtrl.ResetAborts | lib/ruff/standard/delim_ctrl.rb:25-37 | inside `reset`, a `shift` whose block ignores `k` drops the rest of the body |
| DelimCtrl.ResetResumes | lib/ruff/standard/delim_ctrl.rb:25-37 | inside `reset`, a `shift` whose block calls `k(x)` runs the rest of the body with `x`, then the rest of the block |
| DelimCtrl.NestedPromptsIndependent | lib/ruff/standard/delim_ctrl.rb:25-27 | the prompts of two resets do not answer each other's effects |
| DelimCtrl.HelloWorldOrder | lib/ruff/standard/delim_ctrl.rb:4-17 | the doc example prints hello, world and then ! |
| DelimCtrl.ResumeOrder | spec/ruff/standard_spec.rb:69-81 | the block runs up to `k.call(1)`, the body prints `x is 1`, and the block ends by returning 3 |
| Call1cc.ContextClause | lib/ruff/standard/call1cc.rb:36-38 | the context clause resumes with the performed value |
| Call1cc.ContextHandler | lib/ruff/standard/call1cc.rb:35-39 | the context's handler has its effect as only key, the context clause, and the identity as value handler |
| Call1cc.Context | lib/ruff/standard/call1cc.rb:31-43 | `context` uses a fresh effect; a block that returns gives its value and pops the effect, and otherwise the effect stays on top |
| Call1cc.Escape | lib/ruff/standard/call1cc.rb:52 | the escape `k` performs the context's effect with its argument |
| Call1cc.RunClause | lib/ruff/standard/call1cc.rb:48-51 | `run`'s clause re-performs the value to the context and never uses the block's continuation |
| Call1cc.RunHandler | lib/ruff/standard/call1cc.rb:47-51 | `run`'s handler has the context's effect as only key, the run clause, and the identity as value handler |
| Call1cc.ContextAnswers | lib/ruff/standard/call1cc.rb:35-38 | performing a context's effect with `v` resumes with `v` |
| Call1cc.RunK | lib/ruff/standard/call1cc.rb:45-54 | `run` with no context is NoMethodError |
| Call1cc.RunTable | lib/ruff/standard/call1cc.rb:47-51 | `run`'s handler answers only the context's effect and passes values through |
| Call1cc.EscapeDropsRest | lib/ruff/standard/call1cc.rb:48-51 | calling the escape drops the rest of the block, and `run` re-performs the value to the context |
| Call1cc.RunWithoutEscape | lib/ruff/standard/call1cc.rb:51-53 | a block that returns without escaping makes `run` return its value |
| Call1cc.EscapeReturnsToContext | lib/ruff/standard/call1cc.rb:31-54 | inside the context, a `run` that escapes with `x` returns `x` to the code after it |
| Call1cc.HalveAllWithoutZero | lib/ruff/standard/call1cc.rb:10-16 | with no zero, the block maps every element to its half |
| Call1cc.HalveAllAtZero | lib/ruff/standard/call1cc.rb:10-16 | with a zero, the block calls `k` with the default |
| Call1cc.DivfailHalves | lib/ruff/standard/call1cc.rb:7-21 | with no zero, `divfail` returns the halves |
| Call1cc.DivfailDefault | lib/ruff/standard/call1cc.rb:7-24 | with a zero, `divfail` returns the default |
| Call1cc.DivfailExample | lib/ruff/standard/call1cc.rb:20-24 | `[1, 3, 5]` gives `[0, 1, 2]`, and `[1, 0, 5]` gives `[1]` |
| MeasureTime.Measure | lib/ruff/standard/measure_time.rb:38-40 | `measure(label)` performs the effect with the label |
| MeasureTime.AppendEntry | lib/ruff/standard/measure_time.rb:29 | `result + [entry]` appends to an array; an Integer or a String raises TypeError, and nil, a boolean or a Hash raises NoMethodError |
| MeasureTime.MeasureClause | lib/ruff/standard/measure_time.rb:25-30 | the clause runs the rest of the thunk first and appends the mark's entry to what it returns; a failure of the rest is the result |
| MeasureTime.MeasureHandler | lib/ruff/standard/measure_time.rb:22-32 | the handler has the effect as only key, the measuring clause, and a value handler that wraps the value `x` as `[x]` |
| MeasureTime.MeasureTable | lib/ruff/standard/measure_time.rb:25-31 | the handler answers the effect with the clause, and wraps a value as `[x]` |
| MeasureTime.With | lib/ruff/standard/measure_time.rb:51-53 | a thunk that returns at once is reported as `[value]`, and an effect not derived from the instance's leaves for the handlers around |
| MeasureTime.MarkAppends | lib/ruff/standard/measure_time.rb:25-30 | one mark runs the rest of the thunk first, then appends its own entry to the list that comes back |
| MeasureTime.EntriesLater | lib/ruff/standard/measure_time.rb:9-18 | a later mark's entry is reported before the earlier ones |
| MeasureTime.ReportShape | lib/ruff/standard/measure_time.rb:42-53 | for a thunk that marks `labels` and returns `v`, `with` answers `[v]` followed by one entry per mark, latest first |
| MeasureTime.MeasureSpecShape | spec/ruff/standard_spec.rb:85-104 | the report is 42, then the entry for second_task, then the one for first_task |
| Util.NewFnStack | lib/ruff/standard/util.rb:6-8 | a new stack is empty |
| Util.Enqueue | lib/ruff/standard/util.rb:10-12 | `enqueue` pushes at the end, keeps every earlier entry, and returns the array |
| Util.Dequeue | lib/ruff/standard/util.rb:14-17 | `dequeue` pops the newest entry and calls it; an empty stack or a nil entry gives nil |
| Util.Cons | lib/ruff/standard/util.rb:19-22 | `cons` returns the entries with `hd` added, without changing the receiver |
| Util.EnqueueThenDequeue | lib/ruff/standard/util.rb:10-17 | what `enqueue` pushes, `dequeue` returns first, and the stack is left as it was before |
| Util.ConsIsEnqueueCopy | lib/ruff/standard/util.rb:19-22 | `cons` builds the entries `enqueue` would build |
| Util.EnqueueAllAppends | lib/ruff/standard/util.rb:10-12 | pushing several thunks appends them in order |
| Util.DequeueReverses | lib/ruff/standard/util.rb:14-17 | popping as many entries as were pushed gives them back reversed, and the stack as it was |
| Util.PushedComeBackReversed | lib/ruff/standard/util.rb:5-23 | last in, first out: thunks come back from `dequeue` newest first |
| Util.Set | lib/ruff/standard/util.rb:34-36 | `set` stores the value and returns it |
| Util.RefLaws | lib/ruff/standard/util.rb:25-37 | `get` reads what `new` or the last `set` stored, and a later `set` overwrites an earlier one |
| Util.Create | lib/ruff/standard/util.rb:39-50 | `ADT.create` makes a class nothing made before shares |
| Util.AdtLaws | lib/ruff/standard/util.rb:39-50 | `get` returns what `new` was given, and instances of two created classes are never equal |
| AsWritten.Put | lib/ruff/handler.rb:16-18 | the hash behind the table keeps insertion order: a present key keeps its place, and a new key goes last |
| AsWritten.Lookup | lib/ruff/handler.rb:20-31 | as written, a lookup is nil only for an empty table, and otherwise returns the first entry inserted |
| AsWritten.GetFindsModify | lib/ruff/standard/state.rb:78-84 | as written, State's `get` finds the modify clause, which raises NoMethodError, while the corrected lookup gives `get` its own clause |
| AsWritten.ForeignEffectCaught | lib/ruff/handler_store.rb:12-20 | as written, a handler with any clause catches an effect that nothing registered is an ancestor of, while the corrected lookup forwards it |
| AsWritten.InstanceRaises | lib/ruff.rb:16-18 | as written, `Ruff.instance` always raises ArgumentError, while the corrected constructors make a fresh root or child effect |

## Left out

- Fibers are continuations, and every walk over a computation carries a `fuel` bound. A run
  that needs more steps than its fuel ends in `Fail(OutOfFuel)`, where Ruby would go on.
- Continuations are one-shot, as the library documents. Resuming the same fiber twice is not
  modelled.
- Values are first-order: `Val` is nil, booleans, integers, strings, lists and timing entries.
  Procs travel only as effect arguments (`Arg`), and a shift block is one of two shapes:
  - `Discard(c)`: ignore `k` and return `c`;
  - `CallK(pre, post)`: run `pre`, call `k` with its value, then run `post`.

  Blocks that call `k` more than once, or store it, are not modelled.
- `Effect << parent` does not exist in lib/ruff/effect.rb as written. There, an effect carries
  only a flat UUID `id`. The parent forest and the subtype lookup follow the handler's own
  comments (lib/ruff/handler.rb:21, 85) and the tests (spec/ruff/effect_spec.rb,
  spec/ruff/handler_spec.rb:52-71).
- The order among keys that do not derive from one another is not modelled. On a parent chain
  the most specific key is unique, and only chains can match one identity.
- Whether the table copied by `handlers=` (`dup`) shares state with the original is not
  modelled. Tables are values.
- `async.rb` and `current_time.rb` are not part of this model. Neither are the `lib/ruff.rb`
  module aliases, the `Ruff::Standard` module-level singletons, or the demo scripts. The
  singletons' instances are explicit parameters instead.
- Defer.RunAll: running the procs ends in nil, while Ruby's `reverse_each` returns the procs
  array, so the value of `Defer.with` is nil where Ruby gives that array back.
- MeasureTime.Measure: an entry is `Timing(label)`. The clock and the `time` field are left out.
- Call1cc.RunK: its ensures states only the error case. Its behaviour with a context is
  stated by `Call1cc.RunWithoutEscape` and `Call1cc.EscapeDropsRest`.
- State.ModifyClause: a `modify` whose argument is not a proc raises NoMethodError in the
  model. In Ruby, any object with a `[]` method would be called.
- DelimCtrl.Reset: the prompt stack after a `reset` whose thunk is still suspended is stated
  only as "the fresh prompt stays on top".
- Journal.Note: a note resumes with nil, whereas Ruby's `messages << m` returns the messages
  array. So HandlerScenarios.Sequential ends in nil where Ruby's thunk returns that array
  (spec/ruff/handler_spec.rb:171-177). String interpolation `"tag: #{msg}"` is kept as the pair
  `List([Str(tag), msg])` (HandlerScenarios.NotingClause, HandlerScenarios.InnerDoubleClause,
  HandlerScenarios.JoinFinal, Subtyping.Tagged), and `join` is not modelled. So
  HandlerScenarios.ClausesThenValueHandler gives the list `[msg1, msg2, [Final result, 100]]`
  where Ruby gives the string 'msg1, msg2, Final result: 100'. The order and contents of the
  notes are what these scenarios state.
- DelimCtrl.ResumeOrder: the line `"x is #{x}"` is the pair `List([Str("x is"), x])`, because
  string interpolation is not modelled.
- State.PutReturnsNil: the documentation example in lib/ruff/standard/state.rb:8-22 says a
  `with` whose thunk ends in `State.put 11` returns 11. The code returns the value that `put`
  is resumed with, which is nil, and the model follows the code.
- Call1cc: `run` uses the first (outermost) context on the stack, `@stack.first`. Nested
  contexts are not exercised.

## Findings

| source | as written | input that shows it | evidently intended | confidence | as-written member | corrected member |
|---|---|---|---|---|---|---|
| lib/ruff/handler.rb:20-31 (and lib/ruff/handler_store.rb:12-20) | the filter `eff.id.is_a? effky.class` compares a UUID string with the class of another UUID string, so every entry matches; `min_by` on equal classes then returns the first entry inserted | State's `with_init` registers modify, then get. `State.get` performs the get effect, the lookup returns the modify clause, and `fn[state]` raises NoMethodError on nil | the clause of the most specific registered effect that the performed effect derives from, and nil when there is none | not executed | AsWritten.GetFindsModify | Store.Lookup |
| lib/ruff.rb:16-18 | `Ruff.instance(parent = nil)` calls `Effect.new(parent)`, but `Effect#initialize` (lib/ruff/effect.rb:10-13) takes no argument | `Ruff.instance` with no argument, as `State::Instance.new` calls it, raises ArgumentError | a fresh effect: a root without a parent, a child of `parent` with one | not executed | AsWritten.InstanceRaises | Effects.NewEffect |
