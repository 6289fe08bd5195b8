# Typed flux-standard-action factory and reducer builder, in Dafny

This project models `src/utils/fsa.ts`, a small layer for a single-state-tree
store. It has three parts:

- **An action-creator factory.** A factory is built from an optional prefix, some
  factory-wide metadata and a default error predicate. It mints creators whose
  full type is the factory's base followed by a local type. The base is the
  prefix plus `/`, or empty when there is no prefix.
- **Duplicate checking.** Each factory keeps a private registry of the full types
  it has minted. Outside production, registering the same full type twice throws.
  In production the check is skipped and nothing is recorded.
- **Building actions.** A creator called with `(payload, meta)` builds an action
  with the creator's type and the payload unchanged. Its `meta` is the
  right-biased merge of factory, common and call metadata. Its `error` is set to
  `true` when the creator's error policy says so, and is never `false`.
- **The async triad.** `async(t)` mints the `t_STARTED`, `t_DONE` and `t_FAILED`
  creators, registered in that order.
- **Type guards.** `isType`, `isTypeOfAny` and `isNamespace` test an action's
  type string.
- **A persistent reducer builder.** `case` returns a new builder with one more
  case. The compiled reducer substitutes the initial value for an undefined
  state, then runs only the first case whose creator has the action's type. If no
  case matches, it returns the state unchanged.

Modules: `Wrappers` (Option, Result), `Actions` (values, actions, metadata
merge, creators, `isType`, `isTypeOfAny`, `reducerFactory`), `Factories` (the
factory class with its registry, the async triad, `isNamespace`), `Reducers`
(the builder and its dispatch loop).

Modelling choices:

- JavaScript values are the datatype `Actions.Value`. States are Values
  (`Undefined` is an omitted state). Metadata and handler results are
  `map<string, Value>`.
- The factory is a class. Its `base`, `factoryMeta` and `defaultIsError` are
  constants, and its `registry` is a `set<string>` that `Create` and `Async`
  update in place.
- `process.env.NODE_ENV !== 'production'` is a `production` parameter of
  `Create` and `Async`, because the source reads it on every creation.
- The default error predicate `p instanceof Error` is the `defaultIsError`
  argument of the factory constructor.
- An omitted `factoryMeta` is `DefaultFactoryMeta`, the empty object. `None`
  stands for an explicit `null`.
- `ErrorPolicy` is either a literal boolean (`Flag`) or a predicate on the
  payload. An omitted `isError` (`None`) falls back to `Predicate(defaultIsError)`.
- The dispatch loop is the method `Reducers.Builder.Dispatch`. It is proved equal
  to `Reduce`, a function defined through `FirstMatch`, the index of the first
  matching case.
- On a match, the next state keeps the exact historical merge of line 232:
  `Object.assign({}, {state}, {...result})`. The prior state sits under the key
  `"state"` and the handler result's keys overlay it. The model does not use
  the "return the handler result" reading. `MatchResult` states that the two
  differ whenever the handler result has no `"state"` key.

Behaviours of the code the model keeps as written:

- The triad's `done` creator is built with the literal `false` (fsa.ts:187),
  not with the default error predicate, so `done` actions never carry `error`.
- The default `factoryMeta` is `{}` (fsa.ts:122), which is truthy in the test at
  fsa.ts:150. Actions therefore always carry `meta` unless the factory was given
  an explicit `null` and neither other layer is present.
- On no match the reducer returns the state after the default parameter has
  substituted the initial value (fsa.ts:228, 235). An undefined input under a
  builder with an initial value therefore yields that initial value.
- The registry is a plain `{}` literal (fsa.ts:125), so the lookup at fsa.ts:138
  also sees keys that every object inherits, such as `constructor`. The model
  has this lookup as `SeenAsWritten` and `Factory.CreateAsWritten`. `Factory.Create`,
  which the rest of the model uses, counts only types the factory registered
  (see Findings).

## Model

| member | source | states |
|---|---|---|
| `Actions.Base` | src/utils/fsa.ts:127 | the base is empty exactly when the prefix is absent or empty; otherwise it ends in `/` and stripping that gives back the prefix |
| `Actions.MergeMeta` | src/utils/fsa.ts:151 | the merged metadata has exactly the keys of the three layers; each key takes its value from the call meta, else the common meta, else the factory meta |
| `Actions.Creator.Build` | src/utils/fsa.ts:144-159 | an action has the creator's full type and the untouched payload; `meta` is present iff some layer is present and then equals the merge; `error` is present iff the policy raises on the payload, and is never `false` |
| `Actions.Creator.Call` | src/utils/fsa.ts:144-159 | building the record first and then assigning `meta` and `error` produces exactly `Build`'s action |
| `Actions.Creator.Reduce` | src/utils/fsa.ts:167-168 | `creator.reduce(r)` runs `r` when the action's type equals the creator's, and otherwise returns the state unchanged |
| `Actions.ReducerFactory` | src/utils/fsa.ts:17-20 | the reducer runs on actions the selector accepts; every other action leaves the state as it is |
| `Actions.Layer` | src/utils/fsa.ts:151 | a `null` or `undefined` metadata argument contributes no keys; an object contributes its own |
| `Actions.Raises` | src/utils/fsa.ts:154 | a literal policy raises exactly when it is `true`; a predicate policy raises exactly when it accepts the payload |
| `Actions.IsType` | src/utils/fsa.ts:32-34 | true exactly when the action's type equals the creator's type |
| `Actions.IsTypeOfAny` | src/utils/fsa.ts:36-38 | true iff some creator in the list has the action's type |
| `Actions.IsTypeAcceptsOwnActions` | src/utils/fsa.ts:32-34 | `isType(c)` and `isTypeOfAny([c])` accept every action `c` builds |
| `Actions.IsTypeSeparatesLocalTypes` | src/utils/fsa.ts:32-34 | two creators under one base with different local types never accept each other's actions |
| `Actions.MergeMetaExample` | src/utils/fsa.ts:151 | layers `{a:1}`, `{b:2}`, `{c:3}` merge to `{a:1, b:2, c:3}` |
| `Factories.ErrorMessage` | src/utils/fsa.ts:139 | the duplicate-type error's message ends with the full type |
| `Factories.Factory.constructor` | src/utils/fsa.ts:120-127 | a new factory has the base computed from its prefix, the given metadata and default predicate, and an empty registry |
| `Factories.Factory.CreatorFor` | src/utils/fsa.ts:129-135 | a creator's type is the base followed by the local type; it keeps the factory and common metadata; its error test is the given policy, or the factory's default predicate when none is given |
| `Factories.Factory.Create` | src/utils/fsa.ts:135-142 | outside production, a full type already registered yields the duplicate error and leaves the registry unchanged; otherwise the creator is returned and exactly its full type is added; in production the registry is never read or written |
| `Factories.Factory.TriadFor` | src/utils/fsa.ts:181-190 | the triad has type base + t, with members typed base + t + `_STARTED`/`_DONE`/`_FAILED`; all three share the common meta; `failed` actions always carry `error`, `started` and `done` actions never do |
| `Factories.Factory.Async` | src/utils/fsa.ts:181-190 | registers the three member types in order; outside production the first one already registered is reported and the ones before it stay registered; on success all three are added |
| `Factories.SeenAsWritten` | src/utils/fsa.ts:125-138 | the as-written lookup finds a type exactly when it is registered or is a key every object inherits |
| `Factories.Factory.CreateAsWritten` | src/utils/fsa.ts:135-142 | as `Create`, but outside production a type the as-written lookup finds, inherited keys included, yields the duplicate error |
| `Factories.PrefixedTypesMissPrototypeKeys` | src/utils/fsa.ts:125-138 | under a non-empty prefix the as-written lookup and the registry lookup agree, because an inherited key holds no `/` |
| `Factories.PrototypeKeyScenario` | src/utils/fsa.ts:120-142 | on a fresh unprefixed factory outside production, `constructor` fails as written and succeeds with the corrected lookup |
| `Factories.IsHasCreatorFactory` | src/utils/fsa.ts:40-41 | true exactly for a `{factory}` holder |
| `Factories.IsNamespace` | src/utils/fsa.ts:43-47 | true exactly when the action's type starts with the base of the factory, taken directly or from the holder; an empty base admits every action |
| `Factories.NamespaceOfFactory` | src/utils/fsa.ts:40-47 | a factory passed directly or inside a `{factory}` holder gives the same namespace test, which is "the type starts with the base"; an empty base admits every action |
| `Factories.OwnActionsInNamespace` | src/utils/fsa.ts:43-47 | every action built by a factory's creator lies in that factory's namespace |
| `Factories.NamespacesDisjoint` | src/utils/fsa.ts:43-47 | factories with different non-empty prefixes (neither containing `/`) have disjoint namespaces |
| `Factories.RegistryScenario` | src/utils/fsa.ts:125-142 | a second `ADD` on the same factory fails with the duplicate error, the same type on a second factory succeeds, and in production a duplicate succeeds |
| `Factories.AsyncTwiceScenario` | src/utils/fsa.ts:181-189 | a second `async("FETCH")` on one factory fails on `api/FETCH_STARTED` |
| `Reducers.FirstMatch` | src/utils/fsa.ts:229-231 | the result is the least index whose creator has the action's type, or none exactly when no case matches |
| `Reducers.MatchResult` | src/utils/fsa.ts:232 | the next state's keys are `"state"` plus the handler result's keys; handler keys win; `"state"` holds the prior state unless the handler overrides it, and the result then differs from the handler result alone |
| `Reducers.Builder.Dispatch` | src/utils/fsa.ts:228-236 | the indexed scan with an early return computes exactly the first-match reduction `Reduce` |
| `Reducers.Builder.AddCase` | src/utils/fsa.ts:238-243 | `case` yields the old cases followed by the new one, with the same initial value; the old prefix is intact |
| `Reducers.WithInitialState` | src/utils/fsa.ts:207-209 | a fresh builder has no cases; it maps an undefined state to the initial value and passes every other state through |
| `Reducers.WithoutInitialState` | src/utils/fsa.ts:211-213 | a fresh builder has no cases and passes every state through |
| `Reducers.Upcasting` | src/utils/fsa.ts:215-217 | the upcasting builder is the builder without an initial state |
| `Reducers.FirstMatchIsUnique` | src/utils/fsa.ts:229-233 | a matching case with no match before it is the case the scan returns on |
| `Reducers.Builder.Start` | src/utils/fsa.ts:228 | an undefined state becomes the initial value when there is one; every other state, and every state of a builder without one, is kept |
| `Reducers.Builder.Reduce` | src/utils/fsa.ts:228-235 | when case i is the first match, the next state is the merge of case i's handler result on the defaulted state; with no match the next state is the defaulted state, and a defined state is returned unchanged |
| `Reducers.AddCaseDispatch` | src/utils/fsa.ts:238-243 | appending a case changes dispatch only for actions that no earlier case matches and the new creator does |
| `Reducers.FirstRegisteredWins` | src/utils/fsa.ts:229-233 | of two appended cases for the same type, the first registered handler decides the next state |
| `Reducers.CreatorReduceIsSingleCase` | src/utils/fsa.ts:167-168 | `creator.reduce` of a merging reducer equals a single-case builder without an initial value |
| `Reducers.TodoExample` | src/utils/fsa.ts:228-233 | for any factory, dispatching its `ADD` creator's action with text `x` to an undefined state under initial value `{}` gives `{state: {}, text: x}` |

## Findings

| source | as written | input that shows it | evidently intended | confidence | as-written member | corrected member |
|---|---|---|---|---|---|---|
| src/utils/fsa.ts:125, 138 | the duplicate check reads `actionTypes[fullType]` on a `{}` literal, which also finds inherited members such as `constructor` or `toString` | outside production, `actionCreatorFactory()("constructor")` on a fresh factory throws `Duplicate action types` on its first call | only full types this factory has registered count as duplicates | not executed; high | `Factories.Factory.CreateAsWritten`, shown by `Factories.PrototypeKeyScenario` | `Factories.Factory.Create` |

## Left out

- The `NODE_ENV` lookup: it becomes the `production` parameter.
- The `instanceof Error` test behind the default error predicate: it is runtime
  reflection, so the predicate is a constructor argument.
- TypeScript-only machinery has no runtime effect and is left out: the overload
  signatures of the factory, `EmptyActionCreator` and the `Empty*` interfaces,
  and the static narrowing of `action is ...`.
- Dead or stub members are left out. These are the first `reduce: f => f`, which
  is overwritten later; the `example` placeholder; and the `handler` stub that
  returns `{}`.
- JavaScript object-model details are left out: `Object.assign` onto function
  objects, and spreading non-object values. Metadata arguments are objects,
  `null` or `undefined`, so a string `meta` spreading into index keys is not
  modelled. Handler results are string-keyed objects, so an array result
  spreading into index keys is not modelled.
- Reference identity: "returns the same state reference" is stated as value
  equality.
- The curried guards and `reducerFactory` take all their arguments at once.
- Payload, meta and state types are one dynamic `Value` type. Numbers are
  integers, because no arithmetic is done on them.
- `isNamespace` on a holder whose `factory` member is falsy is not modelled:
  there the source would coerce `undefined` to a string.
- Concurrent creation of creators on one factory is not modelled. The source is
  single-threaded.
- The store, its dispatch loop, UI binding and persistence are outside this file.
