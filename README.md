# JUnit code lenses, modelled in Dafny

This project models the code-lens part of a Java test extension for an editor
(`extension/src/junitCodeLensProvider.ts`). Above each JUnit test method the
editor shows lenses: "Run Test", "Debug Test" and, once the test has run, a
"Show Report" lens whose title is an icon for the test's status. The model
covers four parts:

- **Merging cached results.** Tests are fetched afresh for each lens request.
  Each fetched suite that has no result takes one from the tests cached for the
  same document, matched by name. `MergeTestResult` changes the fetched
  `TestSuite` objects in place. Its contract is given by `MergedResult`, which
  is defined through `MapOf`. `MapOf` models the dictionary `new Map(...)`
  builds from the cache: the pairs go in in order, so the last one for a name
  wins. A suite's name and range are `const`, and the fetched list is a value.
  So the merge cannot change the list's length, its order or any name.
- **Rendering.** `GetCodeLens` is a left fold over the tests, like the source's
  `map(...).reduce((a, b) => a.concat(b), [])`. `LensesFor` gives one test's
  lenses, and `StatusIcon` picks the report icon. The platform check is
  passed in as `isMac`.
- **The provider.** `ProvideCodeLenses` models the success path. The fetched
  tests are merged with the tests stored for the document's URI, stored in
  their place, and then rendered. The stored tests live in a
  `TestResourceManager` object, seen as a map from URI to test list.
- **Enabling and disabling.** `JUnitCodeLensContainer` holds the optional
  provider registration. It registers a provider at construction when the
  lens flag is set, and then registers its configuration listener. It reacts
  to configuration changes and finally disposes everything. The container
  owns one `TestResourceManager`. Every `Registration` carries the
  `JUnitCodeLensProvider` it registered, and that provider is built over the
  container's storage. So a provider registered again after the flag goes
  off and on still sees the tests stored before (`ReRegister`). The editor
  calls the container makes are recorded in a ghost log of `HostAction`s.
  `Valid()` says that while the container is listening, at most one
  registration is live, and that one is the registration it holds. It also
  says that a registration is made only while none is live, and that a
  disposal disposes only a live one. The flag half of the handler's guards
  is stated by `OnConfigChange`'s postcondition.

The configuration flag is a `bool` parameter. An unset flag is `false`, since
the source only tests whether the value is truthy. Configuration events come
from the editor's listener, so `OnConfigChange` requires that the listener has
not been disposed.

Files: `protocols.dfy` holds the data (`TestSuite`, `TestResult`,
`TestStatus`, `Range`, `Option`). `codelens.dfy` holds everything else, in
module `JUnitCodeLens`.

## Model

| member | source | states |
|---|---|---|
| `JUnitCodeLens.MapOf` | extension/src/junitCodeLensProvider.ts:85 | the cache dictionary's keys are exactly the names of the cached suites |
| `JUnitCodeLens.MapOfLastWins` | extension/src/junitCodeLensProvider.ts:85 | when the cache has several suites with the same name, the dictionary holds the result of the last one |
| `JUnitCodeLens.MergedResultFromCache` | extension/src/junitCodeLensProvider.ts:85-89 | a fetched suite that has a result keeps it; a suite whose name is not in the cache keeps its result; a suite with no result gets the result of the last cached suite with its name |
| `JUnitCodeLens.JUnitCodeLensProvider.MergeTestResult` | extension/src/junitCodeLensProvider.ts:84-91 | in place, every fetched suite ends with its merged result, computed from the cache as it was before the merge; cached suites that are not also fetched are unchanged |
| `JUnitCodeLens.JUnitCodeLensProvider.constructor` | extension/src/junitCodeLensProvider.ts:63 | the provider keeps the storage object it is given |
| `JUnitCodeLens.JUnitCodeLensProvider.ProvideCodeLenses` | extension/src/junitCodeLensProvider.ts:66-73 | the shared storage maps the document's URI to the fetched list, and other URIs are unchanged; the fetched suites are merged with the tests stored before, if there were any, and otherwise keep their results; the lenses returned are those of the merged list |
| `JUnitCodeLens.StatusIcon` | extension/src/junitCodeLensProvider.ts:94-110 | every status gets one of five icons; decoding the icon gives back Pass, Fail or Skipped, and gives nothing for any other status or a missing one; the two Pass icons are told apart by the platform alone |
| `JUnitCodeLens.LensesFor` | extension/src/junitCodeLensProvider.ts:113-138 | a test gets Run Test, then Debug Test, then Show Report titled with its status icon; Show Report is there exactly when the test has a result; every lens has the test's range and the single argument `[test]` |
| `JUnitCodeLens.GetCodeLens` | extension/src/junitCodeLensProvider.ts:112-140 | the lens count is twice the number of tests plus the number of tests that have a result |
| `JUnitCodeLens.GetCodeLensAppend` | extension/src/junitCodeLensProvider.ts:139 | rendering two lists joined together gives the two renderings joined together |
| `JUnitCodeLens.LensesOfTestAt` | extension/src/junitCodeLensProvider.ts:112-139 | each test's lenses form one block, in input order; the block of test `i` starts after `2i + (results before i)` lenses |
| `JUnitCodeLens.LensBelongsToTest` | extension/src/junitCodeLensProvider.ts:114-136 | every rendered lens has the range of one of the tests and that test as its only argument |
| `JUnitCodeLens.PresentAfter` | extension/src/junitCodeLensProvider.ts:34-44 | after an event that affects the settings, a provider is present exactly when the new flag is set; any other event leaves presence unchanged |
| `JUnitCodeLens.PresentFollowsLastSetting` | extension/src/junitCodeLensProvider.ts:26-45 | after any sequence of events, a provider is present exactly when the flag of the last affecting event is set, or the initial flag is when no event affected the settings |
| `JUnitCodeLens.JUnitCodeLensContainer.constructor` | extension/src/junitCodeLensProvider.ts:22-46 | a fresh provider over the given storage is registered exactly when the initial flag is set; after that the configuration listener is registered, and the container starts listening |
| `JUnitCodeLens.JUnitCodeLensContainer.OnConfigChange` | extension/src/junitCodeLensProvider.ts:33-45 | a fresh provider is registered only when the event affects the settings, the flag is set and none is present; the held one is disposed only when the flag is cleared and one is present; otherwise nothing changes, so repeating a flag is a no-op; the single-live-registration invariant is kept; the stored tests are untouched |
| `JUnitCodeLens.ReRegister` | extension/src/junitCodeLensProvider.ts:37-43 | turning lenses off and on registers a fresh provider over the container's same storage, with the stored tests unchanged |
| `JUnitCodeLens.JUnitCodeLensContainer.Dispose` | extension/src/junitCodeLensProvider.ts:52-59 | the held provider is disposed if present; then the configuration listener, the storage and the emitter are always disposed, in that order; afterwards no registration is live |

## Left out

- The editor calls (`registerCodeLensProvider`, `getConfiguration`, `onDidChangeConfiguration`, `EventEmitter`) are left out because they belong to the editor. They appear as a `bool` flag, an `affects` argument and entries in the ghost `HostAction` log.
- The `onDidChangeCodeLenses` getter is left out. It only returns the emitter's event, which belongs to the editor.
- Test discovery (`FetchTestsUtility.fetchTests`) and the promise plumbing of `provideCodeLenses` are left out. The fetched list is a parameter instead. The rejection branch, with its cancellation check and its `Logger.error` calls, is external I/O and async control flow.
- The `process.platform` test is left out. Its outcome is the parameter `isMac`.
- The test resource manager's own code is not part of this model. `TestResourceManager` is an abstract map from URI to test list: `getTests` reads the map and `storeTests` replaces one entry.
- `JUnitCodeLens.JUnitCodeLensContainer.Dispose`: disposing the storage is only the log entry `DisposeStorage`. The method may change the storage, and its contract says nothing about the stored tests afterwards, because the manager's `dispose` is not part of this model.
- The command identifiers (in `Constants/commands.ts`) and the document language (in `Constants/configs.ts`) are not part of this model. The commands are the enumeration `CommandId`, and the language is not modelled.
- The definitions of `TestSuite`, `TestStatus` and `TestResult` in `Models/protocols.ts` are not available, so the model defines its own. `TestSuite` keeps only `test`, `range` and `result`, and drops its other fields. Its name and range are `const` because nothing in the modelled code writes them. The status is `Pass`, `Fail`, `Skipped`, or `Unrecognized` for any other value that arrives. A result is its optional status plus an opaque `report`.
- Object identity is modelled where the source relies on it. That covers the `TestSuite` objects the merge updates, the `[test]` argument of each lens, the storage shared by the container and its providers, and the provider behind each registration. Results are values, so a merged suite holds a copy of the cached value rather than a shared object.
