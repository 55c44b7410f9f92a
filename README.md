# Persistent hook state of merced-react-hooks, in Dafny

This project models the storage-backed state hooks of `merced-react-hooks`
(`src/index.js`). The library has four near-identical hooks: `useLocalStorage`
and `useSessionStorage` (one value with set and reset) and `useLocalReducer`
and `useSessionReducer` (a reducer). The persistent data stores and task
runners are built on them. All four run the same state machine over a
synchronous key/value backend. They differ only in whether the backend is
`window.localStorage` or `window.sessionStorage`. So the model has one
`Storage.Backend` class, and the hooks take it as a parameter.

- `JsonValues`: parsed JSON documents (integer numbers only), with JavaScript
  truthiness and `typeof v === 'object'`.
- `Storage`: the backend. A slot holds either a document, abstracted to the
  value it parses to, or text that `JSON.parse` rejects. A missing key reads
  as `null`.
- `Bootstrap`: load-or-seed, the prelude of every hook. A truthy stored value
  becomes `start`. Anything else (missing, `null`, `false`, `0`, `""`) is
  replaced by the default seed, which is written back. The default seed is
  `initial` when it is object-typed (records, arrays, `null`), else
  `{[key]: initial}`.
- `Session`: the life of one mounted value hook, as a pure state machine over
  storage, in-memory state and the `start` snapshot that `reset` restores.
  Its operations are set, reset and re-render. A re-render runs the hook body
  again, so it reloads or reseeds the slot and recomputes `start`, while React
  keeps the state.
- `ValueStores`: `useLocalStorage`/`useSessionStorage` as a class whose
  methods are proved against `Session.Step`.
- `ReducerStores`: `useLocalReducer`/`useSessionReducer` and
  `createDataStoreLS/SS` (fixed slot `"datastore"`). `Dispatch` reduces,
  writes the slot, then commits. A ghost history shows that the state is
  always the left fold of the reducer over the dispatched actions.
- `TaskRunners`: `createTaskRunner` (in memory) and `createTaskRunnerLS/SS`
  (a value hook on the fixed slot `"taskstore"`). A handler is modelled by
  the values it passes to the setter, in order. An unregistered task name is
  an explicit failure.
- `FormStates`: `useFormState`. `handleChange` is the spread update
  `{...form, [name]: value}`, and `reset` goes back to `initialState`.

What the code does, as the model states it:

- A stored falsy value counts as absent and is overwritten by the seed. With
  `initial = null`, the seed itself is `null`, so every bootstrap writes again.
  The snapshot and the storage are still the same after a second bootstrap
  (`Bootstrap.SeedIdempotent`).
- `reset` converges: after any run, a second `reset` changes nothing, nor
  does a re-render followed by another `reset` (`Session.ResetConverges`).
  Within one render `reset` restores the mount's snapshot. Each render
  recomputes `start` from storage, however. After `setStateStorage(v)` with a truthy `v` and a re-render,
  `reset` restores `v` and not the bootstrap snapshot
  (`Session.ResetAfterRerenderRestoresLastSet`).
- After the state is set to a falsy value, the next render reseeds the slot
  while memory keeps the falsy value. Storage and memory then disagree unless
  the value is the seed itself (`Session.RerenderAfterFalsySetDiverges`). The
  reducer hooks behave the same way, except that the render a dispatch schedules
  still writes the reducer's result after its prelude. Only a later render
  reseeds the slot (`ReducerStores.ReducerStore.Render`).
- Writes are not guarded. A failed `setItem` is not part of the model (see
  below).

## Model

| member | source | states |
|---|---|---|
| `JsonValues.Truthy` | src/index.js:54 | a parsed value passes `if (exists)` exactly when it is not `null`, `false`, `0` or `""`; empty arrays and records pass |
| `Storage.Read` | src/index.js:49 | a missing key reads as `null`; the read fails exactly when the slot holds text `JSON.parse` rejects; otherwise it gives the stored value |
| `Storage.Backend.GetParsed` | src/index.js:49 | reading a slot returns what `Storage.Read` gives for the current slots and changes nothing |
| `Storage.Backend.SetItem` | src/index.js:64 | writing a value replaces only the slot `key` |
| `Bootstrap.DefaultSeed` | src/index.js:50-51 | the seed is always object-typed; it is `initial` when `initial` is object-typed, otherwise the record with the single field `key` holding `initial` |
| `Bootstrap.Seed` | src/index.js:49-59 | the load-or-seed decision fails exactly on a slot that does not parse, skips the write only when it adopts a truthy stored value, and otherwise starts from the default seed |
| `Bootstrap.StorageAfterSeed` | src/index.js:49-59 | after a successful bootstrap the slot `key` holds `start`; a failed bootstrap writes nothing; no other slot changes and at most `key` is added |
| `Bootstrap.SeedAdoptsTruthy` | src/index.js:49-55 | a truthy stored value becomes `start` and the storage is not written |
| `Bootstrap.SeedReplacesAbsent` | src/index.js:54-59 | a missing slot or a stored `null`, `false`, `0` or `""` makes the default seed `start` and writes it under `key` |
| `Bootstrap.SeedFailsOnUnparseable` | src/index.js:48-75 | a slot that does not parse makes the bootstrap fail without writing |
| `Bootstrap.DefaultSeedFalsyIffNull` | src/index.js:50-54 | the default seed counts as absent on the next read exactly when `initial` is `null` |
| `Bootstrap.SeedIdempotent` | src/index.js:49-59 | bootstrapping the result of a bootstrap gives the same `start` and the same storage; it writes again exactly when `start` is falsy, and after a seeding write exactly when `initial` is `null` |
| `Bootstrap.Load` | src/index.js:120-130 | the imperative prelude leaves the storage as `StorageAfterSeed` says and returns the bootstrap's `start` or its error |
| `Session.Mount0` | src/index.js:47-61 | the first render fails exactly when the bootstrap does; otherwise slot and state agree on `start`, the reset target is truthy or the default seed, and no other slot has changed |
| `Session.Step` | src/index.js:47-70 | `setStateStorage(v)` makes slot and state `v`, `reset()` makes both `start`, and neither fails or moves `start`; a re-render keeps the state, fails only on an unparseable slot and leaves a truthy or default-seed target; no other slot changes |
| `Session.Run` | src/index.js:47-70 | any run of operations leaves every other slot as it was and keeps a stable reset target stable |
| `Session.RunWithinRender` | src/index.js:63-70 | any sequence of sets and resets succeeds, keeps `start` and the other slots, and leaves slot and state agreeing |
| `Session.ResetWithinRenderRestoresStart` | src/index.js:68-70 | after any sets and resets within a render, `reset()` leaves slot and state at the mount's snapshot |
| `Session.ResetConverges` | src/index.js:54-70 | after any successful run, re-renders included, `reset()` leaves slot and state at the current `start`; a second `reset()` changes nothing, and from a mount neither does a re-render followed by `reset()` |
| `Session.RerenderAdoptsState` | src/index.js:47-61 | a re-render while slot and state agree on a truthy value writes nothing and makes that value the reset target |
| `Session.ResetAfterRerenderRestoresLastSet` | src/index.js:54-70 | a set to a truthy `v`, a re-render, then `reset()` ends with `v` in slot, state and reset target |
| `Session.RerenderAfterFalsySetDiverges` | src/index.js:54-66 | after a set to a falsy `v` and a re-render, memory holds `v` and the slot holds the default seed, so they agree only if `v` is that seed |
| `ValueStores.ValueStore.SetState` | src/index.js:63-66 | `setStateStorage(v)` is `Session.Step` with `Put(v)`: slot and state become `v`, and slot and state agree |
| `ValueStores.ValueStore.Reset` | src/index.js:68-70 | `reset()` is `Session.Step` with `Restore`: slot and state become `start` |
| `ValueStores.ValueStore.Render` | src/index.js:49-61 | a later render is `Session.Step` with `Rerender`; a parse failure changes nothing |
| `ValueStores.UseStorage` | src/index.js:47-76 | the first render is `Session.Mount0`: a parse failure leaves storage untouched; otherwise a fresh hook whose state and `start` are the bootstrap snapshot |
| `ReducerStores.Replay` | src/index.js:132-138 | the state useReducer accumulates: with no action it is `start`, otherwise the reducer applied to the last action and the fold of the earlier ones |
| `ReducerStores.ReplaySnoc` | src/index.js:132-138 | folding one more action applies the reducer once more to the previous fold |
| `ReducerStores.CounterReopens` | src/index.js:120-138 | two increments from `{count: 0}` give `{count: 2}`, and a later mount of "datastore" holding it starts from it without writing |
| `ReducerStores.ReducerStore.Dispatch` | src/index.js:132-138 | dispatch computes `reducer(state, action)`, writes it to the slot only, then commits it; afterwards slot and state agree and the state is the fold of the reducer over all actions from `start` |
| `ReducerStores.ReducerStore.Render` | src/index.js:120-130 | a later render reruns the bootstrap; a synced truthy state is not touched, a synced falsy state stays synced only if it is the default seed |
| `ReducerStores.UseReducer` | src/index.js:118-145 | the first render bootstraps; on success a fresh store with the caller's key, `initial` and reducer, whose state is `start`, in agreement with the slot, with an empty history |
| `ReducerStores.OpenDataStore` | src/index.js:275-280 | the persistent data store is that hook on the slot "datastore" with the caller's `initialState` and reducer |
| `TaskRunners.Settle` | src/index.js:209-211 | when a handler calls the setter several times, the last call decides the state; with no call the state stays |
| `TaskRunners.RunPuts` | src/index.js:334-336 | a handler's setter calls on a persistent runner keep the reset target and the other slots, leave the state at the last call, and leave slot and state agreeing |
| `TaskRunners.TaskRunner.RunTask` | src/index.js:209-211 | an unregistered name fails and changes nothing; otherwise the handler gets the current state and payload and the state becomes the result of its setter calls |
| `TaskRunners.PersistentTaskRunner.RunTask` | src/index.js:334-336 | as above, with each setter call written through to "taskstore" (`Session.Run` of the calls) |
| `TaskRunners.PersistentTaskRunner.ResetTaskStore` | src/index.js:329-339 | `resetTaskStore` is the value hook's `reset()` |
| `TaskRunners.OpenTaskRunner` | src/index.js:328-332 | the persistent task runner is a value hook on the slot "taskstore" whose `initial` is `initialState`, in the state of its first render |
| `FormStates.IndexKeyInjective` | src/index.js:35 | different positions of a spread array or string get different keys |
| `FormStates.Spread` | src/index.js:35 | `{...v}` copies a record's fields; an array's element i, or a string's character i as a one-character string, under key "i" for each position and no other key; nothing from `null`, booleans or numbers |
| `FormStates.Changed` | src/index.js:34-36 | the new record has exactly the old fields plus `name`; `name` holds `value` and every other field is kept |
| `FormStates.ChangeIdempotent` | src/index.js:34-36 | repeating a change does nothing more |
| `FormStates.ChangeOverrides` | src/index.js:34-36 | a later change of the same field overrides an earlier one |
| `FormStates.ChangesCommute` | src/index.js:34-36 | changes of different fields can be applied in either order |
| `FormStates.FormState.HandleChange` | src/index.js:34-36 | `handleChange` replaces the form record by `Changed` of the previous one |
| `FormStates.FormState.Reset` | src/index.js:38 | `reset` restores `initialState` exactly |

## Left out

- `createDataStore` (src/index.js:7-25): the in-memory reducer store is React's own `useReducer` with no storage. It is not part of this model.
- React plumbing: `createContext`, `useContext` and the Provider components, so an accessor used outside its Provider is not modelled; `useState`/`useReducer` scheduling and batching, so the state is a plain field that changes at the setter call; when React re-renders. A re-render is an operation that may happen between any two others.
- The lifecycle hooks `useOnMount`, `useOnUpdate` and `useOnDismount`, and `useFetch`, `useCrud`, `useDefaultImage`, `Condition` and `Loop`: rendering, effects and network I/O.
- `JSON.stringify`/`JSON.parse` as text codecs: a stored document is the value it parses to. Field order, non-integer numbers, `NaN`, `undefined` and functions are not represented, so `initial = undefined` and setter calls with an updater function are not modelled.
- `console.log` and `alert` in the catch blocks. A failed bootstrap is an explicit `ParseError` outcome. In the code the hook then returns `undefined`.
- `setItem` failures such as an exceeded quota, and writes by other tabs or windows. Other writers appear only as arbitrary slot contents between operations.
- React may call `midReducer` twice in strict mode. It would write the same value twice, so this is not modelled.
- `TaskRunners.TaskRunner.RunTask`: a handler is modelled only by its synchronous setter calls, each computed from the state it was handed. Calls made after the handler returns, other side effects and exceptions it throws are not modelled. Names that `taskList` inherits from `Object.prototype` (such as `"toString"`) are treated as unregistered. The thrown `TypeError` is an explicit `UnknownTask` failure.
- `TaskRunners.PersistentTaskRunner.RunTask`: the same limits as the in-memory runner.
- `FormStates.FormState.HandleChange`: it reads the latest form record. In the code, two calls before a re-render both spread the record of the last render, so the first change is lost. The event is reduced to its target's `name` and `value`.
- `ReducerStores.ReducerStore.Dispatch`: the model runs `midReducer` when `dispatch` is called. React runs it during the render that the dispatch schedules, after that render's load-or-seed prelude. So the slot is written one prelude later than in the model, and a falsy result is reseeded only by the render after that.
- `FormStates.Spread`: a string is spread per `char` of the model. JavaScript spreads per UTF-16 code unit, so a character outside the Basic Multilingual Plane gives one key here and two in JavaScript.
- A shared map-valued store with per-key views: `src/index.js` has no such code.
