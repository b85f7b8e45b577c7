# Run-to-repository matching, asset staleness, asset table rows and retry backoff

This project models four small pieces of the Dagster web dashboard (Dagit) and of
Dagster's Python utilities in Dafny, and proves properties of them:

- **`useRepositoryForRun`** (module `RepositoryForRun`). Given a run and the ordered
  list of loaded repository options, it computes three candidates: the origin match,
  the snapshot matches and the pipeline-name matches. It then ranks them into an
  `origin-and-snapshot`, `origin-only`, `snapshot-only` or `pipeline-name-only`
  answer, or null.
  The helpers `repoContainsPipeline` and `findRepoContainingPipeline` live in a file
  that is not part of this model. They are carried as uninterpreted functions in a
  `PipelineLookup` value, and every property is stated in terms of what they return.
- **`isAssetMissing`, `isAssetStale` and `StaleTag`** (module `StaleTag`). These are
  JavaScript `&&` chains over two nullable logical-version strings. They are modelled
  as functions returning a JavaScript value (module `Js`), and their properties are
  stated on its truthiness.
- **The row model of `VirtualizedAssetTable`** (module `VirtualizedAssetTable`). Each
  group of assets becomes a folder row or an asset row. `rowType`, `repoAddress` and
  `wipeableAssets` are derived from each row.
- **`backoff`** (module `RetryBackoff`). The retry loop is a Dafny method with a `while`
  loop. The wrapped callable is a function from call index to outcome: a value, an
  exception in `retry_on`, or any other exception. The delay generator is a function
  from draw index to delay. The method is proved against the specification
  `IsBackoffRun`, and the lemmas derive the promised behaviour from that
  specification.

JavaScript `null` and `undefined` are both `None`. The tests `!run`, `!origin` and
`??` treat them alike. The one strict test, `currentLogicalVersion === null`, is on a
field typed `string | null`, so `undefined` cannot occur there.
The module `Optional` holds the `Option` type.

## Model

| member | source | states |
|---|---|---|
| RepositoryForRun.FindByAddress | js_modules/dagit/packages/core/src/workspace/useRepositoryForRun.ts:37-39 | `find` by repository name and location name: there is no result exactly when no option has that address. Otherwise the result is the option at the first index with that address. |
| RepositoryForRun.OriginOption | js_modules/dagit/packages/core/src/workspace/useRepositoryForRun.ts:28-39 | Nothing for a run without an origin. Any result is the first option with the origin's address, and there is a result whenever some option has that address. |
| RepositoryForRun.RepoMatchOf | js_modules/dagit/packages/core/src/workspace/useRepositoryForRun.ts:21-43 | An origin match exists only for a run with an origin. It is the first option with the origin's address, and the pipeline lookup says it contains the run's pipeline. When the first such option contains the pipeline, there is a match; when it does not, there is none. |
| RepositoryForRun.SnapshotMatchesOf | js_modules/dagit/packages/core/src/workspace/useRepositoryForRun.ts:45-65 | Snapshot matches exist exactly when the run is present, its pipeline name is non-empty, the effective snapshot id is truthy and the lookup returns a non-empty list. They are that list. |
| RepositoryForRun.PipelineNameMatchesOf | js_modules/dagit/packages/core/src/workspace/useRepositoryForRun.ts:67-77 | Name matches exist exactly when the run is present and the name-only lookup returns a non-empty list. They are that list. The name is not tested for truthiness. |
| RepositoryForRun.UseRepositoryForRun | js_modules/dagit/packages/core/src/workspace/useRepositoryForRun.ts:79-102 | The ranking gives an answer only when a run is present. |
| RepositoryForRun.NoRunNoMatch | js_modules/dagit/packages/core/src/workspace/useRepositoryForRun.ts:22-24 | Without a run, all three candidates and the answer are null. |
| RepositoryForRun.NoOriginNoOriginType | js_modules/dagit/packages/core/src/workspace/useRepositoryForRun.ts:30-32 | A run without an origin never gets an `origin-and-snapshot` or `origin-only` answer. |
| RepositoryForRun.OriginContainingPipelineWins | js_modules/dagit/packages/core/src/workspace/useRepositoryForRun.ts:79-92 | If the first option with the origin's address contains the pipeline, the answer is origin-typed whatever the other candidates are. An `origin-only` answer is that option. |
| RepositoryForRun.OriginAndSnapshotIsConfirmedOrigin | js_modules/dagit/packages/core/src/workspace/useRepositoryForRun.ts:80-91 | An `origin-and-snapshot` answer is the first snapshot match with the origin match's address. An origin match that no snapshot match shares is answered `origin-only` with the origin match itself. An origin match that some snapshot match shares is always answered `origin-and-snapshot`. |
| RepositoryForRun.EffectiveSnapshotId | js_modules/dagit/packages/core/src/workspace/useRepositoryForRun.ts:54 | The effective snapshot id is the parent snapshot id when that is not null, even when it is empty. Otherwise it is the run's own snapshot id. |
| RepositoryForRun.SnapshotLookupNeedsTruthyIds | js_modules/dagit/packages/core/src/workspace/useRepositoryForRun.ts:57 | An empty pipeline name or a falsy effective snapshot id gives no snapshot matches. |
| RepositoryForRun.SnapshotOnlyIsFirstSnapshotMatch | js_modules/dagit/packages/core/src/workspace/useRepositoryForRun.ts:94-96 | The answer is `snapshot-only` exactly when there is no origin match and there are snapshot matches. It is the first snapshot match. |
| RepositoryForRun.PipelineNameOnlyIsFirstNameMatch | js_modules/dagit/packages/core/src/workspace/useRepositoryForRun.ts:98-100 | The answer is `pipeline-name-only` exactly when there is no origin match, no snapshot match and some name match. It is the first name match. |
| RepositoryForRun.NullIffNoCandidate | js_modules/dagit/packages/core/src/workspace/useRepositoryForRun.ts:59-64 | The answer is null exactly when all three candidates are null. |
| RepositoryForRun.AnswerIsLoadedOption | js_modules/dagit/packages/core/src/workspace/useRepositoryForRun.ts:79-102 | If the lookup only returns loaded options, every answer is a loaded option. |
| Js.And | js_modules/dagit/packages/core/src/assets/StaleTag.tsx:16-20 | JavaScript's value-returning `&&`: the result is truthy exactly when both operands are, and it is the left operand itself when that is falsy. |
| StaleTag.IsAssetMissing | js_modules/dagit/packages/core/src/assets/StaleTag.tsx:6-7 | Truthy exactly when live data is present and the current logical version is null. It is `undefined` without live data. |
| StaleTag.IsAssetStale | js_modules/dagit/packages/core/src/assets/StaleTag.tsx:15-20 | Truthy exactly when live data is present, the projected version is a non-empty string, the current version is non-null and not `INITIAL`, and the current version differs from the projected one. |
| StaleTag.StaleTagView | js_modules/dagit/packages/core/src/assets/StaleTag.tsx:22-35 | A tag is rendered exactly when `isAssetStale` is truthy. Its text is "Stale", and it is interactive exactly when an `onClick` is given. |
| StaleTag.NoLiveDataNeitherMissingNorStale | js_modules/dagit/packages/core/src/assets/StaleTag.tsx:6-16 | Without live data, both predicates are falsy. |
| StaleTag.StaleImpliesNotMissing | js_modules/dagit/packages/core/src/assets/StaleTag.tsx:18 | A stale asset is never missing. |
| StaleTag.InitialIsNeverStale | js_modules/dagit/packages/core/src/assets/StaleTag.tsx:19 | A current version of `INITIAL` is never stale. |
| StaleTag.NoProjectionOrSameVersionIsNeverStale | js_modules/dagit/packages/core/src/assets/StaleTag.tsx:17-20 | A null or empty projected version, or a current version equal to the projected one, is never stale. |
| StaleTag.StalenessExamples | js_modules/dagit/packages/core/src/assets/StaleTag.tsx:6-20 | `v2` against `v3` is stale. `INITIAL` against `v3` is not. A null current version is missing and not stale. |
| VirtualizedAssetTable.Join | js_modules/dagit/packages/core/src/workspace/VirtualizedAssetTable.tsx:54 | `join` of one part is that part, and `join` of none is the empty string. |
| VirtualizedAssetTable.BuildRow | js_modules/dagit/packages/core/src/workspace/VirtualizedAssetTable.tsx:51-56 | The row's path is the prefix followed by the key. A group with more than one asset is a folder. The row is an asset row exactly when the group has one asset and its `/`-joined key path equals the joined row path; it then carries that asset. A folder carries all of the group's assets. |
| VirtualizedAssetTable.Rows | js_modules/dagit/packages/core/src/workspace/VirtualizedAssetTable.tsx:50-57 | There is exactly one row per group, in key order, and the row at position i is built from group i. |
| VirtualizedAssetTable.RowTypeOf | js_modules/dagit/packages/core/src/workspace/VirtualizedAssetTable.tsx:68-73 | `folder` exactly for folder rows. `asset` exactly for asset rows whose asset has a definition. `asset_non_sda` otherwise. |
| VirtualizedAssetTable.RepoAddressOf | js_modules/dagit/packages/core/src/workspace/VirtualizedAssetTable.tsx:75-81 | Null exactly for folder rows and for assets without a definition. Otherwise it is the address built from the definition's repository name and location name. |
| VirtualizedAssetTable.WipeableAssets | js_modules/dagit/packages/core/src/workspace/VirtualizedAssetTable.tsx:83 | A folder's assets, or the single asset of an asset row. |
| VirtualizedAssetTable.WipeableAssetsAreTheGroup | js_modules/dagit/packages/core/src/workspace/VirtualizedAssetTable.tsx:53-56 | For folder and asset rows alike, the wipeable assets of a built row are exactly its group's assets. |
| VirtualizedAssetTable.RepoAddressIffDefinedAsset | js_modules/dagit/packages/core/src/workspace/VirtualizedAssetTable.tsx:68-81 | A row has a repository address exactly when its type is `asset`. |
| VirtualizedAssetTable.MatchingSingleAssetIsAssetRow | js_modules/dagit/packages/core/src/workspace/VirtualizedAssetTable.tsx:54-55 | For any prefix and key, a single asset whose key path is the prefix followed by the key gives an asset row with that path, carrying that asset. |
| VirtualizedAssetTable.JoinedComparisonMergesSlashes | js_modules/dagit/packages/core/src/workspace/VirtualizedAssetTable.tsx:54 | The test compares joined strings, not paths: a key `["a/b"]` with an asset keyed `["a", "b"]` gives an asset row. |
| RetryBackoff.Budget | python_modules/dagster/dagster/_utils/backoff.py:53-58 | At least one call is made, and at most `max(max_retries, 0)` retries. |
| RetryBackoff.Backoff | python_modules/dagster/dagster/_utils/backoff.py:19-67 | Meets `IsBackoffRun`. Between 1 and the budget of calls are made. Every call but the last raised a `retry_on` exception. The last call either exhausted the budget or did not raise such an exception. The run returns or raises as the last call did. Before each retry, the next generator value is drawn and slept. `retries` counts the retries that raised a `retry_on` exception. |
| RetryBackoff.BackoffRunIsUnique | python_modules/dagster/dagster/_utils/backoff.py:53-67 | `IsBackoffRun` determines the run completely: result, calls, sleeps and retry counter. |
| RetryBackoff.CallsBounded | python_modules/dagster/dagster/_utils/backoff.py:38 | The callable is called at most `max_retries + 1` times when `max_retries >= 0`, and exactly once when `max_retries <= 0`. |
| RetryBackoff.FirstSuccessReturnsAtOnce | python_modules/dagster/dagster/_utils/backoff.py:53-54 | A successful first call is returned without any sleep or retry. |
| RetryBackoff.ReturnsFirstSuccess | python_modules/dagster/dagster/_utils/backoff.py:54-61 | If the k-th call is within budget, succeeds and follows only `retry_on` failures, then exactly k+1 calls are made and its value is returned. |
| RetryBackoff.ReturnedValueIsFromSuccess | python_modules/dagster/dagster/_utils/backoff.py:54-61 | A returned value is the value of the last call, and no earlier call succeeded. |
| RetryBackoff.OtherErrorPropagates | python_modules/dagster/dagster/_utils/backoff.py:55-62 | An exception outside `retry_on` at call k is raised, and no further call is made. |
| RetryBackoff.ExhaustionRaisesLast | python_modules/dagster/dagster/_utils/backoff.py:56-67 | When every call within the budget raises a `retry_on` exception, the budget is used up. The last exception is raised after one sleep per retry. |
| RetryBackoff.CountAllRetryable | python_modules/dagster/dagster/_utils/backoff.py:63 | Over a range of `retry_on` failures, the counter counts every call. |
| RetryBackoff.RetriesCountFailedRetries | python_modules/dagster/dagster/_utils/backoff.py:49-63 | `retries` is all retries when the budget ran out, and all retries but the last otherwise. It never exceeds `max_retries`. |
| RetryBackoff.DefaultDelay | python_modules/dagster/dagster/_utils/backoff.py:9-13 | Every default delay is at least 0.1. |
| RetryBackoff.DefaultDelayIncreases | python_modules/dagster/dagster/_utils/backoff.py:9-13 | Default delays never decrease from one draw to the next. |

## Left out

- `findRepoContainingPipeline`, `repoContainsPipeline` and `buildRepoAddress` are not part of this model. The `pipelines` field of a repository option only gives it the shape of the workspace data: nothing in the model reads it. They stay uninterpreted: they are passed in as functions. The one assumption about what they compute is the hypothesis of `AnswerIsLoadedOption`: `findRepoContainingPipeline` returns only elements of `options`. No other property assumes anything about them.
- React plumbing (`useMemo`, `useRepositoryOptions`, `useRef`), the virtualizer (`useVirtualizer`, size estimates, overscan) and all JSX rendering are left out. They are UI framework code. `StaleTagView` keeps only the tag's text and whether it is interactive; the colours are left out.
- `JSON.parse` of the group keys is left out: keys are taken as already-parsed `seq<string>`. Also left out are `JSON.stringify` of row paths and the `checkedPaths` lookup at VirtualizedAssetTable.tsx:96; these are foreign code.
- Groups are a sequence in `Object.keys` order. Key uniqueness is not modelled, because the rows do not depend on it.
- BuildRow: an empty group is excluded by a precondition. The source would throw a `TypeError` on `assets[0].key`, and the model does not describe that crash.
- `LaunchpadTransientSessionContainer.tsx` is left out: it is state glue around foreign session helpers. `override_pipeline.py` is left out too: it is a test fixture.
- `backoff`: real sleeping (`time.sleep`) and floating-point delays are left out. A sleep is recorded as the delay drawn for it, and `DefaultDelay` uses exact reals.
- `backoff`: the shared default generator is out of scope. It is evaluated once, when the function is defined, so later calls continue where earlier ones stopped. `delay(k)` is the k-th value drawn during this call.
- `backoff`: a generator that runs out (`StopIteration`) is out of scope, because `delay` is total.
- `backoff`: the `check.*` parameter validation and the `args`/`kwargs` forwarding are left out. Python's matching of exception classes is modelled as a tag on each outcome that says whether the exception is in `retry_on`.
