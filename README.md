# ts-adt runtime, modelled in Dafny

This project models the run-time part of `ts-adt`, a TypeScript library for tagged
unions (sum types). A variant definition is built from a schema that has one case
factory per variant name. It provides case constructors, which copy a data record and
set the reserved property `_type` to the variant name. It also provides a dispatcher
(`match`) that runs the handler keyed by an instance's tag, a filter (`isCase`) that
tests the tag against candidate names, and an exhaustiveness sentinel
(`allCasesCovered`) that always throws.

Files:

- `records.dfy`, module `Records`: JavaScript values, plain records (`map<string, Value>`),
  the reserved tag property `_type`, strict tag comparison and property access.
- `adt.dfy`, module `Adt`: `Case`, `Cases`, `match`, `isCase` and `allCasesCovered`,
  with the lemmas about them.
- `state_example.dfy`, module `StateExample`: the library's `State` union
  (`loading`, `error { msg }`, `loaded { n, msg }`) and the scenarios its test file checks.

How the model represents the source:

- A constructor is a JavaScript closure with a `type` property attached. It is modelled
  as `Adt.Constructor(build, key)`. `key` stands for the `type` property, because `type`
  is a Dafny keyword.
- A case factory is modelled as a function `string -> Constructor`. The schema passed to
  `Cases` is a `map<string, Factory>`.
- `Cases` is a method with a loop. The loop picks any key not yet visited and assigns
  `t[k](k)` into an accumulator map, as the `reduce`/`Object.assign` fold does. The
  model leaves the visiting order open, so the result is shown not to depend on the order
  of `Object.keys`. The same fold over an explicit key list is the function
  `AssignAll`, and `ReduceBuildsTable` shows that any listing of the keys gives the same
  table.
- `Match` requires a handler for the instance's tag, as the TypeScript type of `match`
  does. `TryMatch` models the plain JavaScript lookup: when there is no handler it throws,
  and this is modelled as `Failure(UnresolvedVariant(tag))`.
- A throw is modelled as a `Failure` of `Adt.Result`. `allCasesCovered` returns a
  `Failure` at every result type, which models "never returns normally". `Switch` models
  the usage shown in the test file: a `switch` on `_type` whose `default` branch calls
  `allCasesCovered`. One arm of `Switch` stands for everything run from a case label to
  the first `break`, so cases that fall through are folded into it.
- Handlers are pure functions `Record -> Out`.

## Model

| member | source | states |
|---|---|---|
| `Adt.Tag` | src/index.ts:89 | the constructed record has `_type` equal to the key; its properties are the data's plus `_type`, nothing more; every other data property is carried over unchanged; a `_type` already in the data is overwritten |
| `Adt.Case` | src/index.ts:87-90 | the returned factory is a case factory: bound to any `k`, it exposes `type == k`, and its constructor tags every data record with `k` as `Tag` does |
| `Adt.ConstructorTable` | src/index.ts:73-77 | the constructor table has exactly the key set of the schema, and entry `k` is the schema's factory applied to `k` |
| `Adt.Cases` | src/index.ts:70-85 | the folding loop, visiting keys in any order, builds exactly `ConstructorTable(t)` |
| `Adt.AssignAll` | src/index.ts:73-77 | folding `Object.assign(acc, { [k]: t[k](k) })` over a key list gives the accumulator's keys plus exactly the listed keys |
| `Adt.AssignAllEntries` | src/index.ts:73-77 | after the fold each listed key is bound to `t[k](k)`, and the accumulator's other entries are kept |
| `Adt.ReduceBuildsTable` | src/index.ts:73-77 | the fold from `{}` over any enumeration of the schema's keys, in any order, yields the constructor table |
| `Adt.ConstructorTagFidelity` | src/index.ts:70-90 | when every schema entry is a case factory, the built constructor for `k` has `type == k` and builds a record tagged `k` that has the data's other properties unchanged and no extra ones |
| `Adt.TagThenStrip` | src/index.ts:89 | construction is a copy: removing `_type` from the instance gives back the data without `_type` |
| `Adt.RetagOverwrites` | src/index.ts:89 | tagging an already tagged record replaces only its tag |
| `Adt.Match` | src/index.ts:52-57 | for the key the instance is tagged with, the pattern has a handler, and the result is that handler applied to the instance |
| `Adt.TryMatch` | src/index.ts:52-57 | the lookup throws exactly when the pattern has no handler for the tag (the error names the tag); otherwise the result is `Match`, the handler for the tag applied to the instance |
| `Adt.MatchUsesOnlyTagHandler` | src/index.ts:56 | two patterns that agree on the tag's handler give the same result: no fallback, no dependence on other entries or their order |
| `Adt.MatchConstructed` | src/index.ts:56 | dispatching an instance built for `k` runs the handler for `k` on that instance |
| `Adt.IsCase` | src/index.ts:63-68 | true iff some candidate is strictly equal to `_type`, equivalently iff the record is an instance whose tag is among the candidates; always false with no candidates |
| `Adt.IsCaseNarrows` | src/index.ts:63-68 | on an instance of a schema, a true result narrows the tag to schema ∩ candidates and a false result to schema \ candidates |
| `Adt.MatchOnComplement` | src/index.test.ts:68-80 | after a false `isCase`, a pattern covering only the remaining variants dispatches without error to the tag's handler |
| `Adt.AllCasesCovered` | src/index.ts:59-61 | never returns normally, at any result type; the error carries the offending value |
| `Adt.Switch` | src/index.test.ts:95-105 | the switch reaches an arm iff some arm's key equals the tag, and then it is the first such arm, applied to the instance; otherwise it ends in the sentinel's error |
| `Adt.ExhaustiveSwitch` | src/index.test.ts:95-105 | a switch whose arm keys cover the schema never reaches the sentinel on an instance of the schema; one that misses the instance's tag always does |
| `StateExample.StateSchema` | src/index.test.ts:3-7 | the `State` schema has the keys `loading`, `error`, `loaded`, each with a case factory |
| `StateExample.LoadedState` | src/index.test.ts:17-21 | the `loaded` instance is `{ _type: "loaded", n: 123, msg: "some text" }` |
| `StateExample.LoadedStateIsInstance` | src/index.test.ts:25 | that instance belongs to the `State` schema, with tag `loaded` |
| `StateExample.TableHasSchemaKeys` | src/index.test.ts:3-7 | the built table has exactly the three keys of the schema |
| `StateExample.LoadingBuildsTagOnly` | src/index.test.ts:12 | `cases.loading({})` is `{ _type: "loading" }` |
| `StateExample.ErrorBuildsTagAndMsg` | src/index.test.ts:13-16 | `cases.error({ msg })` is `{ _type: "error", msg }` |
| `StateExample.LoadedBuildsLoadedState` | src/index.test.ts:17-21 | `cases.loaded({ n: 123, msg })` is the `loaded` instance above |
| `StateExample.MatchChoosesBranch` | src/index.test.ts:24-32 | `match` on the `loaded` instance runs the `loaded` handler |
| `StateExample.MatchMapsToAnotherCase` | src/index.test.ts:34-46 | a handler that builds an `error` gives a result tagged `error` that passes `isCase(result, "error")` and keeps the message |
| `StateExample.IsCaseFilters` | src/index.test.ts:48-90 | `isCase` on the `loaded` instance is false for `loading`, for `loading, error` and for no candidates, and true for `loaded` |
| `StateExample.MatchAfterIsCase` | src/index.test.ts:68-80 | after `isCase(state, "loading")` fails, a pattern with only `loaded` and `error` handlers dispatches to `loaded` |
| `StateExample.SwitchReachesLoaded` | src/index.test.ts:92-106 | the test's switch reaches the `loaded` arm, which reads `n == 123` |

## Left out

- The type-level parts of the library are left out: conditional and mapped types,
  `infer`, and the aliases `SelectedRawCases`, `MatchPattern`, `ADT` and `Case<ADT, Case>`
  (src/index.ts:1-50). Dafny has no counterpart for them. Static narrowing and the
  compile-time exhaustiveness check appear only in their run-time form, as the
  `Match` precondition and the `IsCaseNarrows` and `ExhaustiveSwitch` lemmas.
- Variant names and `isCase` candidates are strings, as `Object.keys` produces them.
  Non-string keys are not modelled. With a number key, `Cases({1: Case()})` tags
  instances with the string `"1"`. `isCase(x, 1)` then computes `"1" === 1`, which is
  false, and a `switch` with `case 1` misses the same way. `match` still works, because
  property lookup turns `1` into `"1"`. Symbol keys are skipped by `Object.keys`, so
  there is no constructor for them although the type promises one.
- The error message text of `allCasesCovered` is not modelled, because it depends on how
  JavaScript converts an object to a string. The error carries the value itself.
- Records are values, so the model does not capture that the spread builds a fresh object
  and leaves the input unchanged. Under value semantics this cannot fail, but aliasing and
  identity are not represented.
- Object prototypes are not modelled. This covers handlers inherited from
  `Object.prototype` (a tag such as `toString`), and `Object.assign` treating a key
  `__proto__` as a prototype update. Records hold own properties only.
- Enumeration order of `Object.keys` is not modelled. `Cases` is shown correct for any
  order.
- `match` on a value without a string `_type` is not modelled: the TypeScript type of
  `match` only admits instances. `isCase` does not need a string tag, and that case is
  modelled.
- Side effects of user handlers, numbers' floating-point behaviour, and the Jest harness
  (`expect`, `fail`) are left out.
