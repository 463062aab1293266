# redux-track-promise, modelled in Dafny

`createReduxTrackPromise(customizeActionType)` builds one instance of a small
Redux helper that mirrors the life of a promise (pending, then fulfilled or
rejected) in the store. An instance has three parts:

1. **Type identifiers and message builders** (module `Actions`, `actions.dfy`).
   The renaming function is applied once to `SET_PENDING`, `RESOLVE` and
   `REJECT`. `setPending(pending = true)`, `resolve(result)` and
   `reject(reason)` build plain messages, and only a rejection carries
   `error: true`. A JavaScript default parameter also applies to an explicit
   `undefined`, so `SetPending(types, Undefined)` carries `true`.
2. **The reducer** (module `Reducer`, `reducer.dfy`) and the store that
   folds it over the dispatched messages (module `Store`, `store.dfy`). A
   message of an unrelated type leaves an existing state unchanged. Any
   other message produces a new state computed from the message alone.
   `initialPromiseState` is the reducer applied to no state.
3. **The tracker** (module `Tracker`, `tracker.dfy`). `PromiseTracker` holds
   the instance's one mutable slot, `currentPromise`. It also holds the log
   of dispatched messages and the promise each `track` call attached its
   handlers to. `Track` overwrites the slot and dispatches `setPending()` at
   once. The later settlement is made an explicit event: `RunReaction(handle,
   outcome)` runs the handlers of the `handle`-th `track` call. They dispatch
   `resolve`/`reject` only if that call's promise is still in the slot. A
   rejection is dispatched and then thrown again, so the promise `track`
   returned rejects. A stale rejection is absorbed, and that promise then
   fulfills with `undefined`.

Promises are opaque ids compared by equality. JavaScript values are the
datatype `Values.Value`. A missing prior state (`undefined` or `null`) is
`Values.Option.None`. A ghost trace records why each message was sent. The
invariant `Valid` ties the trace to the log, and `TraceOk` states its
properties: every settlement message was sent while its promise was the most
recently tracked one, after its own pending message, at most once per
`track` call, and with the outcome the promise settled with.
`Scenarios` (`scenarios.dfy`) restates the scenarios of the repository's tests
on this API, and two runs of its own (`StaleSettlesFirst`, `SamePromiseTwice`).

At most one of pending, fulfilled and rejected holds only when the three
renamed identifiers are distinct (`Reducer.CollidingTypesBreakExclusivity`).

## Model

| member | source | states |
|---|---|---|
| `Actions.Identity` | src/index.js:5 | no contract of its own; the default renaming, which returns its argument; stated by `Actions.DefaultTypes` |
| `Actions.MakeTypes` | src/index.js:6-8 | no contract of its own; applies the renaming once to each of `SET_PENDING`, `RESOLVE` and `REJECT`; stated by `Actions.DefaultTypes`, `Actions.InjectiveRenamingDistinct` and `Actions.PrefixRenamingDistinct` |
| `Actions.SetPending` | src/index.js:12 | no contract of its own; builds `{type: setPending, payload: the argument (true when undefined), error: false}`; stated by `Actions.BuiltMessages` and `Reducer.ReduceSetPending` |
| `Actions.Resolve` | src/index.js:13 | no contract of its own; builds `{type: resolve, payload: the result, error: false}`; stated by `Actions.BuiltMessages` and `Reducer.ReduceResolve` |
| `Actions.Reject` | src/index.js:14 | no contract of its own; builds `{type: reject, payload: the reason, error: true}`; stated by `Actions.BuiltMessages` and `Reducer.ReduceReject` |
| `Actions.BuiltMessages` | src/index.js:12-14 | each builder's message carries that builder's own identifier (`setPending`, `resolve`, `reject`), so the reducer reacts to it; only `reject` sets `error`; `setPending()` (or `setPending(undefined)`) carries `true`; otherwise the payload is the argument |
| `Actions.DefaultTypes` | src/index.js:1-8 | with the default renaming the identifiers are the canonical names, and they are distinct |
| `Actions.InjectiveRenamingDistinct` | src/index.js:1-8 | an injective renaming gives distinct identifiers, because the three canonical names differ |
| `Actions.PrefixRenamingDistinct` | src/index.js:6-8 | prefixing every name gives distinct identifiers |
| `Reducer.Reduce` | src/index.js:28-42 | an unrelated message leaves an existing state unchanged and turns a missing one into the default; with distinct identifiers, pending/resolve/reject messages give exactly the pending, fulfilled and rejected states built from their payload, and well-formedness is preserved |
| `Reducer.InitialPromiseState` | src/index.js:47 | `initialPromiseState` is `{pending: false, fulfilled: false, rejected: false, value: null, reason: null}` and is well formed |
| `Reducer.ReduceIgnoresPrior` | src/index.js:35-41 | the result of a recognised message does not depend on the prior state |
| `Reducer.ReduceSetPending` | src/index.js:35-41 | with distinct identifiers, reducing `setPending(p)` from any state gives `{pending: p (true if omitted), fulfilled: false, rejected: false, value: null, reason: null}` |
| `Reducer.ReduceResolve` | src/index.js:35-41 | with distinct identifiers, reducing `resolve(v)` from any state gives `{pending: false, fulfilled: true, rejected: false, value: v, reason: null}` |
| `Reducer.ReduceReject` | src/index.js:35-41 | with distinct identifiers, reducing `reject(r)` from any state gives `{pending: false, fulfilled: false, rejected: true, value: null, reason: r}` |
| `Reducer.ReduceReportsPayload` | src/index.js:37-40 | whatever the identifiers, a resolution is reported as fulfilled with its value and a rejection as rejected with its reason |
| `Reducer.CollidingTypesBreakExclusivity` | src/index.js:36-40 | when all names are renamed to one string, a resolution yields a state that is fulfilled and rejected at once |
| `Store.StateAfter` | src/index.js:28-42 | no contract of its own; the store as the reducer folded over the dispatched messages, oldest first; stated by `Store.StateAfterLastPromiseAction` and `Store.StateAfterWellFormed` |
| `Store.LastPromiseAction` | src/index.js:33 | finds the last message of the log the reducer reacts to, or reports that there is none |
| `Store.StateAfterLastPromiseAction` | src/index.js:28-42 | the store shows the effect of the last recognised message alone; with none, it keeps the prior state or the default |
| `Store.StateAfterWellFormed` | src/index.js:35-41 | with distinct identifiers, every state the store passes through is well formed |
| `Tracker.SettlementMessage` | src/index.js:19-22 | no contract of its own; a fulfilment becomes `resolve(value)`, a rejection `reject(reason)`; used by the contract of `Tracker.PromiseTracker.RunReaction` |
| `Tracker.LastTrackedWasTracked` | src/index.js:16 | the promise in the slot is one that was tracked |
| `Tracker.TrackKeepsTraceOk` | src/index.js:15-17 | a `track` call keeps the trace invariant |
| `Tracker.ReportKeepsTraceOk` | src/index.js:19-22 | a handler that reports while its promise is current keeps the trace invariant |
| `Tracker.SilentKeepsTraceOk` | src/index.js:19-21 | a handler of a superseded promise keeps the trace invariant and adds nothing |
| `Tracker.PromiseTracker.constructor` | src/index.js:5-10 | identifiers computed once from the renaming; empty slot; nothing dispatched |
| `Tracker.PromiseTracker.Track` | src/index.js:15-18 | the slot holds the promise; exactly one `setPending()` is appended to the log; one new set of handlers is attached to the promise |
| `Tracker.PromiseTracker.RunReaction` | src/index.js:18-26 | `resolve(value)`/`reject(reason)` is appended if and only if the handlers' promise is still the current one; the slot is unchanged; the returned promise rejects with the reason exactly when a current rejection was dispatched, and otherwise fulfills with `undefined` |
| `Tracker.SettlementsAreCurrent` | src/index.js:18-25 | every settlement message in the log was sent while its promise was the most recently tracked one, after a pending message for it |
| `Tracker.StoreShowsCurrentPromise` | src/index.js:15-27 | the store fed by the tracker shows either the pending state or the outcome of the current promise, never that of a superseded one |
| `Scenarios.SingleResolve` | test/index.js:130-159 | one tracked promise: pending at once, then fulfilled with its value |
| `Scenarios.LatestResolveWins` | test/index.js:164-195 | the later promise resolves first with 2, the earlier later with 1: the log holds two pending messages and only `resolve(2)`, and the store shows value 2 |
| `Scenarios.LatestRejectWins` | test/index.js:196-230 | both reject: the store shows the later reason, that rejection is thrown again, and the stale one is absorbed |
| `Scenarios.StaleSettlesFirst` | src/index.js:19 | a superseded promise settling first leaves the store pending; the current one then decides it |
| `Scenarios.SamePromiseTwice` | src/index.js:15-19 | tracking one promise twice attaches two sets of handlers, so its resolution is dispatched twice |
| `Scenarios.PrefixedInstance` | test/index.js:83-127 | with the `@@test/` prefix the reducer ignores `@@test/blah` and reduces the built messages as without a prefix |

## Left out

- Promise machinery, microtasks and `.then` chaining are not modelled. Settlement is the explicit `RunReaction` event. The environment may run reactions in any order, which covers every real schedule.
- The `dispatch` argument of `track` is not modelled per call. Every message goes to one log, so separate dispatch functions for different calls are not told apart.
- Passing `track` something that is not a promise is not modelled. In that case the code sets the slot and dispatches before `.then` throws.
- A `dispatch` that throws, or that calls `track` again, is not modelled. Those exceptions come from code this component does not own.
- A prior state of `0`, `''` or `false` is not modelled. JavaScript truthiness makes it fall through like a missing state, but the model's prior state is a `State` or `None`.
- A message's `error` field is a boolean, so an absent field and an explicit `false` are not told apart. The reducer never reads `error`.
- Numbers are integers. Floating point is not modelled, because payloads are only carried, never computed with.
- Reducer.Reduce: its contract describes recognised messages only when the identifiers are distinct. With colliding identifiers the result is given by the definition alone, and `Reducer.CollidingTypesBreakExclusivity` shows one instance.
- The test file's API is not part of this model: `promiseReducer`, `promiseActionCreators`, `trackPromise`, `createPromiseTracker`, `ignoreOldPromises`, bound action creators and the subscription-renaming wrapper. `src/index.js` does not define them. So the non-suppressing mode and its overwrite hazard, cancel handles and the absorbing rejection variant are not modelled either. The code has no tracker factory and no switch for suppression: the shared `currentPromise` slot always applies the last-tracked-promise-wins rule, and the code rethrows a current rejection (src/index.js:23).
