# A verified model of a minimal reactive runtime

The runtime is a small dependency-tracking system in JavaScript.
`reactivity/effect.js` defines the process-wide state. That state is a
store (`targetsMap`: subject -> key -> set of effects), an effect call
stack (`effectStack`) and an `activeEffect` pointer. The file also defines
four functions:

- `effect` wraps a body in a runner. The runner pushes itself, runs the body and pops on every exit path.
- `track` subscribes the active effect to a (subject, key) pair.
- `trigger` runs every subscriber of a pair. It runs the subscriber's `options.job` when there is one and the effect itself otherwise.
- `watch` turns a source into a getter. It installs a `job` that calls a callback only when the getter's value changes.

`reactivity/ref.js` defines `ref`, a boxed value. Its getter tracks
`(r, "value")` and its setter stores the new value and then triggers
`(r, "value")`.

The project has five modules:

- `Values`: the JavaScript values that flow through the runtime, and `Option`/`Result`.
- `Store`: the dependency store as a value, with `Subscribe` (the store half of `track`) and `Lookup` (the store half of `trigger`).
- `Semantics`: the meaning of both files as one mutually recursive family of functions over an explicit `State`. The ref setter calls `trigger`, `trigger` runs effects, and effects use the ref accessors, so the functions depend on each other. Closures (effect bodies, getters, callbacks, custom jobs) are programs of a small instruction language. `fuel` bounds how deeply effect, job and callback bodies nest.
- `Properties`: what the runtime promises, proved about `Semantics`. A run leaves the stack and the active effect as they were. `track` is idempotent and only adds. The lemmas also cover how `trigger` dispatches, that a watch callback fires only on a change, what the accessors do, and an invariant of the whole state that holds for any sequence of calls. That invariant (`Valid`) says: the active effect is the top of the stack; the stack, the store and the watchers name only existing effects; every watch job names an existing watcher; every subscriber set is free of duplicates; and each effect's `deps` lists, once each, exactly the sets the effect belongs to.
- `Runtime`: the class `Runtime`, whose fields are the globals and whose methods change them step by step as the source does. Each method is proved to end in the state and result that the corresponding `Semantics` function gives (`Effect` and `Ref` end in `CreateEffect` and `NewRef`).

The model follows the code where the code differs from the documented intent:

- `trigger` on a subject that was never tracked throws a `TypeError`, because the code dereferences an undefined map. It is not a no-op.
- Writing a reference that no effect has read therefore fails after the value is stored.
- `trigger` also throws for a subscriber created by `effect` without options, because it reads `options.job` from `undefined`.
- `watch(undefined)` and `watch(null)` throw on `source._isRef`.

## Model

| member | source | states |
|---|---|---|
| Store.Subscribe | reactivity/effect.js:75-88 | afterwards the effect is subscribed. The store only grows. An existing member leaves it unchanged, and otherwise the effect is appended to exactly that pair's set. No other pair changes, and sets stay free of duplicates |
| Store.SubscribedAfterGrowth | reactivity/effect.js:75-88 | a subscription survives every later growth of the store |
| Store.SubscribeIdempotent | reactivity/effect.js:85-88 | subscribing twice is the same as subscribing once |
| Store.Lookup | reactivity/effect.js:93-97 | an undefined key looks nothing up and finds no subscribers. With a defined key, a subject that was never tracked throws a TypeError, and otherwise the lookup returns exactly that key's subscriber set, empty when there is none |
| Store.LookupAfterGrowth | reactivity/effect.js:93-97 | once a lookup succeeds it keeps succeeding, and it keeps finding every effect it found |
| Store.LookupAfterSubscribe | reactivity/effect.js:93-100 | after a subscription to a defined key, `trigger`'s lookup succeeds and returns the effect, and lookups of other keys of that subject no longer fail |
| Semantics.Top | reactivity/effect.js:15 | the new active effect is the last stack element, or none for an empty stack |
| Semantics.NewEffect | reactivity/effect.js:19-23 | a new runner is active, is an effect, has no deps, and keeps `fn` and `options` exactly as passed |
| Semantics.CreateEffect | reactivity/effect.js:7-26 | creating an effect appends its record and changes nothing else |
| Semantics.Enter | reactivity/effect.js:10-11 | entering a runner pushes it and makes it the active effect, the top of the stack |
| Semantics.Leave | reactivity/effect.js:13-16 | the `finally` pops the stack and makes the new top active |
| Semantics.Track | reactivity/effect.js:70-89 | with no active effect nothing changes. Otherwise the active effect is subscribed, and its `deps` grows by exactly one entry if and only if it was not already a member. Only the store and that effect's deps change |
| Semantics.NewRef | reactivity/ref.js:3-17 | `ref(v)` creates a new reference holding `v` and changes nothing else |
| Semantics.GetValue | reactivity/ref.js:7-10 | reading a reference performs exactly `track(r, "value")` and returns the stored value |
| Semantics.Assign | reactivity/ref.js:12 | the write stores `v` in this reference only |
| Semantics.ResolveGetter | reactivity/effect.js:29-37 | a function source is the getter itself. A reference is read through `.value`. `undefined` and `null` throw. Any other value is returned as a constant |
| Semantics.Exec | reactivity/effect.js:8-17 | running any code restores the stack, restores the active effect when it was the top, creates no effects, references or watchers, and only appends to the record of callback calls |
| Semantics.Step | reactivity/effect.js:8-17 | the same, for one step of code |
| Semantics.SetValue | reactivity/ref.js:11-14 | the same, for the setter |
| Semantics.Trigger | reactivity/effect.js:92-109 | the same, for `trigger` |
| Semantics.TriggerEach | reactivity/effect.js:100-107 | the same, for the loop over the subscribers |
| Semantics.Notify | reactivity/effect.js:102-106 | the same, for one subscriber. A subscriber's successful run yields undefined |
| Semantics.RunJob | reactivity/effect.js:40-50 | the same, for a watcher's job. The job yields undefined |
| Semantics.RunEffect | reactivity/effect.js:8-17 | the runner pops what it pushed on every path, failure included. Stack and active effect equal their values before the call |
| Semantics.Watch | reactivity/effect.js:28-67 | `watch` yields undefined when it does not throw |
| Properties.EvolvesReflexive | reactivity/effect.js:70-109 | doing nothing is an allowed change of state |
| Properties.EvolvesTransitive | reactivity/effect.js:70-109 | two allowed changes with the same stack compose into one |
| Properties.TrackEvolves | reactivity/effect.js:70-89 | `track` only grows the store, only grows the active effect's deps, and keeps a valid state valid |
| Properties.TrackValid | reactivity/effect.js:70-89 | `track` inside an effect keeps a valid state valid |
| Properties.TrackMirrors | reactivity/effect.js:85-88 | `track` adds the set to the active effect's `deps` exactly when it adds the effect to the set. Each `deps` then lists, once each, exactly the sets its effect belongs to |
| Properties.TrackKeepsJobs | reactivity/effect.js:85-88 | `track` changes no options, so every watch job still names an existing watcher |
| Properties.TrackKeepsEffects | reactivity/effect.js:85-88 | `track` changes no effect except the active one, and that one only by growing its deps |
| Properties.TrackSubscribesExisting | reactivity/effect.js:85-87 | in a valid state every subscriber after `track` is an existing effect, because the one added is the active effect on the stack |
| Properties.EnterLeaveEvolves | reactivity/effect.js:8-17 | pushing, running code that changes the state as allowed, then popping is an allowed change with the stack restored |
| Properties.ExecEvolves | reactivity/effect.js:8-17 | any run of code keeps the store growing, keeps effects, watcher callbacks and runners, only appends callback calls, makes each call for a real change, and keeps the state valid |
| Properties.StepEvolves | reactivity/effect.js:8-17 | the same, for one step of code |
| Properties.SetValueEvolves | reactivity/ref.js:11-14 | the same, for the setter |
| Properties.TriggerEvolves | reactivity/effect.js:92-109 | the same, for `trigger` |
| Properties.TriggerEachEvolves | reactivity/effect.js:100-107 | the same, for the loop over subscribers |
| Properties.NotifyEvolves | reactivity/effect.js:102-106 | the same, for one subscriber |
| Properties.RunJobEvolves | reactivity/effect.js:40-50 | the same, for a watcher's job. Its callback call is for a new value strictly different from the old one |
| Properties.CallbackRecordEvolves | reactivity/effect.js:43-44 | recording a callback call for a real change is an allowed change |
| Properties.OldValUpdateEvolves | reactivity/effect.js:45 | reassigning a watcher's `oldVal` is an allowed change |
| Properties.CallbackEvolves | reactivity/effect.js:43-46 | recording the call, running the callback and then updating `oldVal` is an allowed change that keeps the stack |
| Properties.RunEffectEvolves | reactivity/effect.js:8-17 | the same, for a runner |
| Properties.ExecGrows | reactivity/effect.js:75-88 | running any code never removes an entry from the store |
| Properties.FirstReadSubscribesRunner | reactivity/effect.js:10-12 | while a body runs, its effect is the active one, so the body's first read subscribes that effect to the reference |
| Properties.NestedRunsAttributeReads | reactivity/effect.js:8-16 | a nested run subscribes the inner effect. After the inner runner returns, a read subscribes the outer effect again. The outer runner returns its body's result and restores the stack and active effect |
| Properties.SingleReadRun | reactivity/effect.js:8-17 | running an effect whose body is one read tracks that read under the effect and returns the stored value |
| Properties.ReadRunKeepsWatchers | reactivity/effect.js:8-17 | a runner whose body is one read returns the stored value and leaves the watchers and the record of calls unchanged |
| Properties.CallThenRead | reactivity/effect.js:8-17 | a body that calls a runner and then reads gives the read's value, tracked in the state the inner run left |
| Properties.CreatedEffect | reactivity/effect.js:19-23 | a fresh effect is active, an effect, has empty deps, has `raw == fn` and options as passed. Earlier effects are untouched |
| Properties.TrackIdempotent | reactivity/effect.js:75-88 | repeating `track` changes nothing |
| Properties.TriggerWithoutSubscribers | reactivity/effect.js:93-100 | an undefined key, or a key with no set under a tracked subject, runs nothing and changes nothing. A never-tracked subject with a defined key fails with a TypeError |
| Properties.NotifyDispatch | reactivity/effect.js:101-106 | a subscriber with a watch job runs that job. One with a custom job runs that job's body, or fails for lack of fuel. One without a job runs itself, and its success yields undefined while its failure is passed on. One without options fails with a TypeError |
| Properties.JobCallsBackOnlyOnChange | reactivity/effect.js:40-46 | after the runner, an equal value leaves everything as the runner left it. A different value records exactly one call `cb(new, old)`, and after a successful callback `oldVal` is the new value |
| Properties.JobWithoutCallbackRunsRunner | reactivity/effect.js:47-48 | without a callback the job only calls the runner |
| Properties.ReadAfterWrite | reactivity/ref.js:9-14 | the setter stores the value before it triggers. When no code the state holds writes that reference, the reference still holds the value after the setter, whatever the triggered subscribers did (even when they failed), and a read returns it |
| Properties.TrackUntouched | reactivity/effect.js:85-88 | `track` adds no code, so code that writes no given reference stays so |
| Properties.CallbackRecordUntouched | reactivity/effect.js:45 | reassigning `oldVal` adds no code |
| Properties.ExecKeepsRef | reactivity/effect.js:8-17 | running code that writes no given reference, in a state whose code writes it nowhere, leaves that reference's value unchanged and adds no code that writes it |
| Properties.StepKeepsRef | reactivity/effect.js:8-17 | the same, for one step that is not a write of that reference |
| Properties.SetValueKeepsRef | reactivity/ref.js:11-14 | the same, for the setter of another reference |
| Properties.TriggerKeepsRef | reactivity/effect.js:92-109 | the same, for `trigger` |
| Properties.TriggerEachKeepsRef | reactivity/effect.js:100-107 | the same, for the loop over the subscribers |
| Properties.NotifyKeepsRef | reactivity/effect.js:102-106 | the same, for one subscriber |
| Properties.RunJobKeepsRef | reactivity/effect.js:40-50 | the same, for a watcher's job |
| Properties.RunEffectKeepsRef | reactivity/effect.js:8-17 | the same, for a runner |
| Properties.WriteOfSameValueTriggers | reactivity/ref.js:11-14 | the setter has no equality check. Writing the current value still triggers |
| Properties.WriteRunsOwnSubscribers | reactivity/ref.js:12-13 | a write runs exactly this reference's subscribers in subscription order, on the state holding the new value. Other references keep their values |
| Properties.WriteOfUntrackedRefFails | reactivity/ref.js:11-14 | writing a reference no effect has read stores the value and then fails with a TypeError |
| Properties.ReadOutsideEffectTracksNothing | reactivity/ref.js:7-10 | a read with no active effect leaves the state unchanged |
| Properties.WatchInstallsJob | reactivity/effect.js:52-55 | `watch` always installs its job, with or without a callback. `lazy` is passed through inert, and the effect's body is the resolved getter |
| Properties.WatchEvolves | reactivity/effect.js:28-67 | `watch` keeps a valid state valid, only grows the store, and calls back only for real changes |
| Properties.WatchImmediateRunsJob | reactivity/effect.js:52-60 | with a callback and `immediate`, any source's `watch` runs its job at once, on the new watcher whose `oldVal` is undefined and whose effect carries that job |
| Properties.WatchSeedsOldValue | reactivity/effect.js:58-63 | with a callback and without `immediate`, a failure of the getter's first run is the failure of `watch`. A success seeds `oldVal` with the getter's value and keeps that run's store and record of calls. A getter that only reads calls no callback at all |
| Properties.ReadOnlyExec | reactivity/effect.js:8-17 | code that only reads leaves references, watchers and the record of calls unchanged |
| Properties.WatchRefSeedsOldValue | reactivity/effect.js:58-63 | without `immediate`, watching a reference subscribes the runner and seeds `oldVal` with the current value. The callback is never called |
| Properties.WatchRefRun | reactivity/effect.js:58-63 | without `immediate`, `watch` on a reference runs one tracked read in the new runner, then seeds `oldVal` with the value read |
| Properties.WatchRefImmediate | reactivity/effect.js:59-60 | with `immediate`, the job runs at once against `oldVal = undefined`. It calls back with (current, undefined) unless the reference holds undefined |
| Properties.ImmediateJobOnRead | reactivity/effect.js:40-46 | a job whose runner reads one reference, run with `oldVal` undefined, calls back with (value, undefined) exactly when the value is not undefined |
| Properties.WatchConstantTracksNothing | reactivity/effect.js:35-37 | watching a constant tracks nothing and seeds `oldVal` with the constant |
| Properties.InitValid | reactivity/effect.js:2-4 | the initial state is valid |
| Properties.CreateEffectMirrors | reactivity/effect.js:19-23 | a new effect has no `deps` and is in no subscriber set, so `deps` stays in step with the store |
| Properties.CreateEffectPreserves | reactivity/effect.js:7-26 | creating an effect without a watch job keeps the state valid and the store unchanged |
| Properties.NewRefPreserves | reactivity/ref.js:3-17 | creating a reference keeps the state valid and the store unchanged |
| Properties.ApplyPreserves | reactivity/effect.js:7-109 | any single exported call keeps the state valid, only grows the store, and calls back only for real changes |
| Properties.ApplyAllPreserves | reactivity/effect.js:7-109 | the same, for any sequence of calls |
| Properties.DemoRecord | reactivity/effect.js:40-46 | `a = ref(0); watch(a, cb); a.value = 1; a.value = 1; a.value = 2` calls the callback exactly twice, with (1, 0) and (2, 1) |
| Properties.DemoWrite | reactivity/ref.js:11-14 | one write in that scenario calls back exactly when the value differs from the recorded one |
| Runtime.Runtime.constructor | reactivity/effect.js:2-4 | the process starts with an empty store, an empty stack and no active effect |
| Runtime.Runtime.Effect | reactivity/effect.js:7-26 | appends the new runner's record, the one that `CreateEffect` gives |
| Runtime.Runtime.Ref | reactivity/ref.js:3-17 | appends the reference, as `NewRef` does, and returns it |
| Runtime.Runtime.Track | reactivity/effect.js:70-89 | the in-place lazy creation of map and set and the membership test end in the state `Track` gives. The effect is subscribed and the store only grows |
| Runtime.Runtime.GetValue | reactivity/ref.js:7-10 | ends in the state and result `GetValue` gives |
| Runtime.Runtime.SetValue | reactivity/ref.js:11-14 | ends in the state and result `SetValue` gives, with the stack as before |
| Runtime.Runtime.Trigger | reactivity/effect.js:92-109 | the loop over the subscriber snapshot ends in what `Trigger` gives, with the stack as before |
| Runtime.Runtime.Notify | reactivity/effect.js:102-106 | dispatching one subscriber ends in the state and result that `Notify` gives, and a success yields undefined |
| Runtime.Runtime.RunJob | reactivity/effect.js:40-50 | reassigning the captured `oldVal` in place ends in what `RunJob` gives |
| Runtime.Runtime.RunEffect | reactivity/effect.js:8-17 | push, run, and pop-and-restore ends in what `RunEffect` gives. The stack is restored, and the active effect too when it was the top |
| Runtime.Runtime.Exec | reactivity/effect.js:12 | the step-by-step run of a body ends in what `Exec` gives |
| Runtime.Runtime.Watch | reactivity/effect.js:28-67 | allocating the effect and the watcher, then the initial run or job, ends in what `Watch` gives |

## Left out

- `targetsMap` is a `WeakMap`. Its garbage-collection behaviour cannot be expressed, so the store is an ordinary map.
- Effect bodies, getters, callbacks and custom jobs are JavaScript closures. Here they are programs of a small instruction language: constants, reference reads and writes, runner calls, `track`, `trigger` and `throw`.
- Watch callbacks: a callback program does not receive `(newVal, oldVal)` as arguments. Each call is recorded with its arguments in the state's `log`.
- Self-triggering recursion ends in the source only when the host stack overflows. Here `fuel` bounds the nesting of effect, job and callback bodies, and `Err(OutOfFuel)` stands for that overflow.
- Semantics.TriggerEach: `Set.forEach` also visits members added during the iteration. The model iterates a snapshot of the subscriber sequence taken when `trigger` starts.
- The `lazy` and `deep` options are never consulted by the code. `lazy` is carried in the options as an inert value and `deep` is ignored.
- Object identity: only references (`RefObject`) and opaque plain objects (`PlainObject`) are modelled. A plain object carrying its own `_isRef` property is not modelled, and neither are functions as data values, `NaN` or floating-point numbers.
- Effects and watchers are named by their index. Calling a runner or job that was never created stands for calling `undefined` and fails with a TypeError.
- A `watch` options argument of `null` (destructuring throws) is not modelled. Absent options are all `undefined`.
- The effect record's `deps` holds the place of each set the effect joined (subject and key), not the set object itself.
- `demo.js` and all console output are not part of this model. `Properties.DemoRecord` replays a comparable scenario.
- Properties.WatchSeedsOldValue: the clause that no callback is called is proved only for getters that only read (no writes, triggers or runner calls). A getter that writes what it reads can re-enter the watch job during its first run, and for such getters the lemma states only that the record of calls is the one that run left.
- Properties.ApplyPreserves: a direct caller of `effect` cannot build a watch's `job` closure. The lemma therefore only considers `MakeEffect` calls whose options carry no watch job.
