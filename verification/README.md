# react-lifecycles-compat in Dafny

A model of `polyfill(Component)`, the adapter that lets a React class component written
against the static `getDerivedStateFromProps` and the instance method
`getSnapshotBeforeUpdate` run on older React versions. The adapter checks the component
definition. It refuses definitions that are not class components, and definitions that
mix a new-style method with a legacy hook it would have to replace. Otherwise it writes
synthesized legacy hooks onto `Component.prototype` and returns the same component:

- `componentWillMount` and `componentWillReceiveProps` call the instance constructor's
  `getDerivedStateFromProps` and fold a result that is neither null nor undefined into state with `setState`;
- `componentWillUpdate` swaps the next props and state into the instance, calls
  `getSnapshotBeforeUpdate`, stores the snapshot and restores props and state on every
  exit path;
- a wrapper replaces `componentDidUpdate` and passes the stored snapshot as a third argument.

Modules:

- `Values` (values.dfy): JavaScript values, props/state objects, and `setState` as a shallow merge.
- `Components` (components.dfy): the prototype's method table (`Method`), the
  `Component` class that `polyfill` edits in place, and its value view `Definition`.
- `Compat` (polyfill.dfy): the two checking stages as functions (`InstallDerivedState`,
  `InstallSnapshot`) and their composition (`PolyfillSpec`). `Polyfill` is the imperative
  method, proved to leave exactly the table `PolyfillSpec` describes and to answer what it answers.
- `Lifecycle` (lifecycle.dfy): the `Instance` class with `props`, `state`,
  `__reactInternalSnapshot` (`snapshot`) and the synthesized hooks as methods. A ghost log
  `calls` records every author-written instance method the hooks run
  (`getSnapshotBeforeUpdate`, `componentDidUpdate`), so "called exactly once, with these
  arguments" can be stated. Calls of the static `getDerivedStateFromProps` are not logged.
- `Scenarios` (scenarios.dfy): components run through `Polyfill` and the hooks: four from
  test.js (lines 23-55, 92-129, 131-139 and 141-176), plus two snapshot components built from
  index.js:29-43 and 73-99, which the repository's tests do not exercise.

Author-written methods (`getSnapshotBeforeUpdate`, `componentDidUpdate`, `render`) are
uninterpreted functions of `this.props`, `this.state` and their arguments that return a
value or throw one. The static `getDerivedStateFromProps` is such a function of
`(props, state)` returning null, undefined or a partial state. A `typeof x === 'function'`
test is key membership in the table. A thrown exception is the `Failure` arm of a `Result`.

This model follows index.js where other descriptions of the adapter differ. There is no
update-queue interception, no "snapshot taken" flag and no `replaceState` refusal: the
wrapper forwards whatever `__reactInternalSnapshot` holds. Calling `polyfill` a second
time on a definition it already patched is not a no-op: it throws, because the second
call finds the hooks the first one installed (`SecondPolyfillFails`,
`SecondSnapshotPolyfillFails`). The error messages test.js:170-175 expects are not the
ones index.js:58-66 throws. The model uses the error kinds, the check order and the
messages of index.js (`Compat.Message`).

## Model

| member | source | states |
|---|---|---|
| `Values.Merge` | index.js:17 | `setState(partial)`: the resulting keys are the old keys plus the partial's; a key of the partial takes the partial's value; every other key keeps its old value |
| `Compat.InstallDerivedState` | index.js:56-71 | fails with the `componentWillMount` error exactly when that hook is present, which is checked first; fails with the `componentWillReceiveProps` error exactly when only that hook is present; otherwise the table gains both synthesized hooks and every existing entry is kept |
| `Compat.InstallSnapshot` | index.js:73-100 | with no `getSnapshotBeforeUpdate`, passes with the table unchanged; with it, fails first on an existing `componentWillUpdate`, then on a missing `componentDidUpdate`, without writing; on success installs the synthesized `componentWillUpdate` and wraps the previous `componentDidUpdate`, all other entries kept |
| `Compat.PolyfillSpec` | index.js:51-103 | fails "Can only polyfill class components" iff the prototype is missing or lacks `isReactComponent`, leaving the table unchanged; each conflict error fires iff its condition holds and every earlier check passed, and derived-state conflicts only when `getDerivedStateFromProps` is a function; a snapshot error leaves the derived-state hooks installed; `componentWillMount`/`componentWillReceiveProps` appear only if already present or installed by the derived-state stage, `componentWillUpdate` only if already present or installed by a successful snapshot stage, and no other key is added or changed; a definition with neither new-style method passes unchanged |
| `Compat.Message` | index.js:52-83 | the text of the Error each check throws; the two derived-state conflicts name `getDerivedStateFromProps()` and the two snapshot errors name `getSnapshotBeforeUpdate()` |
| `Compat.MessagesDistinct` | index.js:52-83 | no two errors throw the same message, so a message identifies the check that threw it |
| `Compat.Polyfill` | index.js:51-103 | the in-place method: the prototype table afterwards is `PolyfillSpec`'s table, it fails with `PolyfillSpec`'s error, and on success returns the same component; no other part of the component changes |
| `Compat.SecondPolyfillFails` | index.js:57-70 | once a first call has installed the derived-state hooks (whether it then succeeded or threw in the snapshot stage), a second call throws the `componentWillMount` error |
| `Compat.SecondSnapshotPolyfillFails` | index.js:74-85 | after a successful call on a component with only `getSnapshotBeforeUpdate`, a second call throws the `componentWillUpdate` error |
| `Compat.PolyfillInstallsMarkedHooks` | index.js:45-49 | every hook `polyfill` adds to the table carries `__suppressDeprecationWarning`; wrapping keeps a `componentDidUpdate` chain well formed |
| `Lifecycle.Instance.SetState` | index.js:17 | the new state is the shallow merge of the old state and the partial; props, snapshot and the call log are unchanged |
| `Lifecycle.Instance.ComponentWillMount` | index.js:13-19 | calls the static of `this.constructor` with the current props and state; a partial result is merged into state; a null or undefined result leaves state unchanged; a throw (or a missing static) propagates with state unchanged; props and snapshot unchanged |
| `Lifecycle.Instance.ComponentWillReceiveProps` | index.js:21-27 | as the mount hook, with `nextProps` in place of the current props |
| `Lifecycle.Instance.ComponentWillUpdate` | index.js:29-43 | props and state on exit equal those on entry whether `getSnapshotBeforeUpdate` returns or throws; it is called once, seeing the next props and state, with the previous props and state as arguments; a returned value is stored as the snapshot; a thrown value propagates and the stored snapshot is kept |
| `Lifecycle.DidUpdateOutcome` | index.js:87-99 | the wrapper runs the author's `componentDidUpdate` exactly once, with `prevProps`, `prevState` and the stored snapshot as arguments; a throw from it propagates; otherwise the wrapper returns undefined |
| `Lifecycle.Instance.ComponentDidUpdatePolyfill` | index.js:89-99 | its result and the calls it makes are `DidUpdateOutcome`'s; props, state and the stored snapshot are unchanged |
| `Scenarios.CounterScenario` | test.js:23-55 | with state `{count: 1}` and `count: state.count + props.incrementBy`, mounting with `incrementBy: 2` gives 3 and receiving `incrementBy: 3` then gives 6 |
| `Scenarios.SubclassScenario` | test.js:92-129 | after polyfilling a base class, a subclass instance derives its state through the subclass's own static and gets both `foo` and `bar` |
| `Scenarios.SnapshotScenario` | index.js:73-99 | the snapshot is computed against the next props, the current props are back afterwards, and the author's `componentDidUpdate` receives `(prevProps, prevState, snapshot)` as its arguments |
| `Scenarios.ThrowingSnapshotScenario` | index.js:29-43 | a throwing `getSnapshotBeforeUpdate` propagates its error, leaves the stored snapshot undefined and the props restored |
| `Scenarios.FunctionComponentScenario` | test.js:131-139 | a function component is refused as not a class component |
| `Scenarios.LegacyHooksScenario` | test.js:141-176 | legacy hooks without `getDerivedStateFromProps` pass unchanged; with it, `componentWillMount` and `componentWillReceiveProps` are each refused |

## Left out

- React itself is not part of this model: rendering, reconciliation, the order in which it calls lifecycle methods, and its update batching. The scenarios call the hooks in React's order and assign the new props themselves.
- `Values.Merge` applies the partial state at once; React defers and batches `setState`, which this model does not capture.
- Bodies written by the component's author are pure functions of `this.props`, `this.state` and their arguments; any side effect they have on the instance is not modelled.
- The prototype chain is flattened: `proto` is the table as property lookup sees it, and a subclass is given a copy of its base's table. Later edits to the base prototype are not visible through the copy, which JavaScript's shared prototypes would show.
- A property that exists but is not a function is modelled as absent, which is how the `typeof` tests in index.js treat it.
- Numbers are integers; `NaN` and floating point are not modelled. `getDerivedStateFromProps` results other than null, undefined or an object are not modelled. `this.state` is always an object, never null.
- `Lifecycle.Instance.ComponentWillUpdate`: requires the `getSnapshotBeforeUpdate` entry to be one the author wrote, because a synthesized hook stored under that name by the caller (possible in JavaScript) would need unbounded mutual recursion.
- `Lifecycle.Instance.ComponentDidUpdatePolyfill`: requires the wrapped entry to be an author-written `componentDidUpdate` under zero or more wrappers, for the same reason; `polyfill` itself keeps this shape (`PolyfillInstallsMarkedHooks`).
- The exact text of thrown errors is kept only in `Compat.Message`; the model reasons about error kinds.
- rollup.config.js, test-runner.js and install.js are build and test orchestration and are not part of this model.
