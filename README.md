# Foxy-Droid application coordinator, modelled in Dafny

This project models the coordinator that Foxy-Droid's `MainApplication` runs
underneath its Android wiring. It has four jobs:

- It keeps the installed-package registry in step with the package
  manager: one batch upsert at startup, then one lookup-and-put-or-delete
  per package broadcast.
- It reacts to preference changes. Proxy keys republish the proxy.
  `AutoSync` and `UpdateUnstable` are debounced against two cached values.
- It maps `AutoSync` to the periodic sync job in the platform's job table.
- It forces a full sync by clearing every repository's conditional-fetch
  tokens (`lastModified`, `entityTag`) and sending one `FORCE` request.

How it is built:

- Pure modules: `Packages`, `Preferences`, `Proxies`, `SyncJobs` and
  `Repositories`.
- `Coordination` holds the whole state as a value (`State`), with one pure
  transition per handler and the lemmas about them.
- `Application.MainApplication` is a class with the same state as mutable
  fields. Each of its methods updates those fields in place, in the order
  the Kotlin code does. Each method is proved to leave `Snapshot()` equal to
  the matching transition applied to the old state.
- `forceSyncAll` is a loop that rewrites the repositories one at a time.

Inputs from the platform are parameters:

- The preference store is a `Store`, passed to each handler as "the values
  read now". A change notification carries only the key.
- The package manager at the time of a lookup is a `PackageTable`. A lookup
  succeeds exactly for the names in that table.
- The startup enumeration is a `seq<PackageInfo>`.
- The SDK level and `JobInfo.getMinFlexMillis()` form a `Platform`.
- The database's "just created or upgraded" flag is a `bool` passed to
  `OnCreate`.

## Behaviour worth noting

- A `PACKAGE_REMOVED` broadcast does not delete the record blindly.
  MainApplication.kt:67-79 handles `PACKAGE_ADDED` and `PACKAGE_REMOVED`
  the same way: look the package up, put it if found, delete it if not
  (see `Packages.AddedAndRemovedAgree` and
  `Packages.RemovedButInstalledIsKept`).
- `InetSocketAddress.createUnresolved` accepts an empty host name and
  rejects only a port outside 0..65535. The host read from the preferences
  is never null, so `CreateUnresolved` fails exactly on the port.

## Model

| member | source | states |
|---|---|---|
| `Packages.ToInstalledItem` | src/main/kotlin/nya/kitsunyan/foxydroid/MainApplication.kt:32-35 | the record keeps the package name and version code; a missing version name or signature hash becomes the empty string, a present one is kept |
| `Packages.EventTarget` | src/main/kotlin/nya/kitsunyan/foxydroid/MainApplication.kt:65-69 | the receiver acts on an intent if and only if it has data with scheme `package`, a non-null scheme-specific part, and action `PACKAGE_ADDED` or `PACKAGE_REMOVED`; it then acts on that scheme-specific part |
| `Packages.ApplyPackageEvent` | src/main/kotlin/nya/kitsunyan/foxydroid/MainApplication.kt:65-80 | an ignored intent leaves the registry unchanged; a handled intent leaves the looked-up item under the name when the lookup succeeds and no entry when it fails, and every other name keeps its entry |
| `Packages.AddedAndRemovedAgree` | src/main/kotlin/nya/kitsunyan/foxydroid/MainApplication.kt:67-79 | `PACKAGE_ADDED` and `PACKAGE_REMOVED` with the same URI give the same registry |
| `Packages.RemovedButInstalledIsKept` | src/main/kotlin/nya/kitsunyan/foxydroid/MainApplication.kt:68-79 | a removal broadcast for a package that the lookup still finds puts its fresh record instead of deleting it |
| `Packages.LastDeliveryFor` | src/main/kotlin/nya/kitsunyan/foxydroid/MainApplication.kt:65-69 | finds the last broadcast in a sequence that the receiver acts on for a name, or reports that there is none |
| `Packages.LastEventWins` | src/main/kotlin/nya/kitsunyan/foxydroid/MainApplication.kt:63-83 | after any sequence of broadcasts, each with its own package-manager state, a name's entry is what the last lookup for that name found; a name with no broadcast keeps its entry |
| `Packages.PutAll` | src/main/kotlin/nya/kitsunyan/foxydroid/MainApplication.kt:91 | the batch upsert's keys are the old keys plus the batch's names, and names outside the batch keep their entries |
| `Packages.PutAllStoresEveryItem` | src/main/kotlin/nya/kitsunyan/foxydroid/MainApplication.kt:89-91 | with distinct names, every item of the batch is stored under its own name |
| `Packages.InstalledItems` | src/main/kotlin/nya/kitsunyan/foxydroid/MainApplication.kt:89-90 | the converted batch has one item per enumerated package, in order, each its `toInstalledItem` image |
| `Packages.RegisterInstalledIsImage` | src/main/kotlin/nya/kitsunyan/foxydroid/MainApplication.kt:89-91 | after the startup enumeration every enumerated package maps to its `toInstalledItem` image, and names not enumerated keep their entries |
| `Proxies.CreateUnresolved` | src/main/kotlin/nya/kitsunyan/foxydroid/MainApplication.kt:157 | the unresolved address exists if and only if the port is in 0..65535, and it carries the given host and port |
| `Proxies.DeriveProxy` | src/main/kotlin/nya/kitsunyan/foxydroid/MainApplication.kt:151-164 | `DIRECT` gives no proxy; `HTTP` or `SOCKS` gives a proxy if and only if the address can be built, and then it is `(type, unresolved(host, port))` |
| `Proxies.DirectIgnoresHostAndPort` | src/main/kotlin/nya/kitsunyan/foxydroid/MainApplication.kt:152-154 | with `DIRECT`, no proxy results whatever host and port the store holds |
| `Proxies.MalformedAddressMeansNoProxy` | src/main/kotlin/nya/kitsunyan/foxydroid/MainApplication.kt:155-162 | under `HTTP` or `SOCKS` an out-of-range port yields no proxy (fails open) |
| `SyncJobs.SyncJobSpec` | src/main/kotlin/nya/kitsunyan/foxydroid/MainApplication.kt:120-141 | `Never` gives no job; `Wifi`/`Always` give the job `JOB_ID_SYNC` with an unmetered network if and only if `Wifi` and a period of 43,200,000 ms; both battery and storage constraints are set if and only if sdk >= 26; the flex is set, to the minimum flex, if and only if sdk >= 24 |
| `SyncJobs.ProgramSyncJob` | src/main/kotlin/nya/kitsunyan/foxydroid/MainApplication.kt:117-145 | the table holds `JOB_ID_SYNC` if and only if AutoSync is not `Never`, and then holds the derived spec; every other job id is untouched |
| `SyncJobs.LastProgrammingWins` | src/main/kotlin/nya/kitsunyan/foxydroid/MainApplication.kt:122-141 | programming twice gives the same table as programming only the second value |
| `SyncJobs.ProgrammingIsIdempotent` | src/main/kotlin/nya/kitsunyan/foxydroid/MainApplication.kt:124-141 | programming the same value twice equals programming it once, and leaves one sync job (none for `Never`) |
| `SyncJobs.NeverAfterWifiCancels` | src/main/kotlin/nya/kitsunyan/foxydroid/MainApplication.kt:121-122 | `Never` after `Wifi` leaves no sync job |
| `Repositories.ClearTokensAt` | src/main/kotlin/nya/kitsunyan/foxydroid/MainApplication.kt:169-173 | after clearing, there are as many repositories as before, each with empty `lastModified` and `entityTag` and all other fields unchanged |
| `Repositories.ClearTokensKeepsTokenless` | src/main/kotlin/nya/kitsunyan/foxydroid/MainApplication.kt:170 | a repository that already had both tokens empty is left as it is |
| `Repositories.TokenRewritesAreTheTokenBearing` | src/main/kotlin/nya/kitsunyan/foxydroid/MainApplication.kt:169-173 | every repository written back has no token; every repository that had a token is written back cleared; there is exactly one write per token-bearing repository, so none for a repository whose tokens were already empty |
| `Repositories.TokenRewritesCount` | src/main/kotlin/nya/kitsunyan/foxydroid/MainApplication.kt:169-172 | the number of repositories written back equals the number that had a token |
| `Repositories.SecondClearingRewritesNothing` | src/main/kotlin/nya/kitsunyan/foxydroid/MainApplication.kt:169-173 | a second clearing pass right after the first writes nothing back |
| `Coordination.ReactionTo` | src/main/kotlin/nya/kitsunyan/foxydroid/MainApplication.kt:98-114 | a proxy key refreshes the proxy; `AutoSync` reprograms the job if and only if the fresh value differs from the cache; `UpdateUnstable` forces a sync if and only if its fresh value differs from its cache |
| `Coordination.ProxyKeyChangesOnlyProxy` | src/main/kotlin/nya/kitsunyan/foxydroid/MainApplication.kt:99-100 | a proxy-key notification changes the proxy slot only; both caches, the job table, the registry, the repositories and the requests are untouched |
| `Coordination.AutoSyncDebounce` | src/main/kotlin/nya/kitsunyan/foxydroid/MainApplication.kt:101-106 | after an `AutoSync` notification the cache equals the fresh value; the state is unchanged when the value equals the cache; otherwise exactly the cache and the job table change |
| `Coordination.AutoSyncTwiceReprogramsOnce` | src/main/kotlin/nya/kitsunyan/foxydroid/MainApplication.kt:101-106 | a second `AutoSync` notification with the same value does nothing, so the job is reprogrammed at most once |
| `Coordination.UpdateUnstableDebounce` | src/main/kotlin/nya/kitsunyan/foxydroid/MainApplication.kt:107-112 | after an `UpdateUnstable` notification the cache equals the fresh value; the state is unchanged when the value equals the cache; otherwise exactly the cache, the repositories (tokens cleared) and the requests (one `FORCE`) change |
| `Coordination.UpdateUnstableTwiceForcesOnce` | src/main/kotlin/nya/kitsunyan/foxydroid/MainApplication.kt:107-112 | the first of two same-value `UpdateUnstable` notifications appends at most one `FORCE` request, and the second leaves the state unchanged |
| `Coordination.UnstableFlipForcesFullSync` | src/main/kotlin/nya/kitsunyan/foxydroid/MainApplication.kt:107-112 | flipping `UpdateUnstable` from false to true empties every repository's tokens, keeps their other fields, appends exactly one `FORCE` request, and leaves the jobs, proxy and registry alone |
| `Coordination.OtherKeysIgnored` | src/main/kotlin/nya/kitsunyan/foxydroid/MainApplication.kt:98-114 | a key outside the five the coordinator watches leaves the state unchanged |
| `Coordination.OnCreateOutcome` | src/main/kotlin/nya/kitsunyan/foxydroid/MainApplication.kt:41-60 | startup appends one `FORCE` request and clears the tokens if and only if the database was updated; the job table ends as programmed from the current `AutoSync`; the proxy and both caches come from the store; the registry holds the enumeration |
| `Coordination.OnCreateProgramsCurrentJob` | src/main/kotlin/nya/kitsunyan/foxydroid/MainApplication.kt:54-59 | after startup the sync job is present if and only if `AutoSync` is not `Never`, and it is the spec derived from the current value |
| `Coordination.FreshInstallForcesOneSync` | src/main/kotlin/nya/kitsunyan/foxydroid/MainApplication.kt:44-56 | starting from empty state with a freshly created database sends exactly one forced sync |
| `Application.MainApplication.constructor` | src/main/kotlin/nya/kitsunyan/foxydroid/MainApplication.kt:31 | the process starts with the stores' prior contents, no proxy published and no sync request sent |
| `Application.MainApplication.OnCreate` | src/main/kotlin/nya/kitsunyan/foxydroid/MainApplication.kt:41-60 | runs the enumeration, then the preference listener, then the forced sync only if the database was updated, then the job programming; the new state is `Coordination.OnCreate` of the old |
| `Application.MainApplication.ListenApplications` | src/main/kotlin/nya/kitsunyan/foxydroid/MainApplication.kt:89-91 | one batch upsert of the enumerated packages; nothing else changes |
| `Application.MainApplication.OnReceive` | src/main/kotlin/nya/kitsunyan/foxydroid/MainApplication.kt:64-83 | the registry is updated in place as `ApplyPackageEvent` states; nothing else changes |
| `Application.MainApplication.ListenPreferences` | src/main/kotlin/nya/kitsunyan/foxydroid/MainApplication.kt:94-97 | publishes the proxy and seeds both caches from the store; nothing else changes |
| `Application.MainApplication.OnPreferenceChanged` | src/main/kotlin/nya/kitsunyan/foxydroid/MainApplication.kt:98-114 | updates the fields as `Coordination.OnPreferenceChanged` states, which gives the debounce and frame properties above |
| `Application.MainApplication.UpdateSyncJob` | src/main/kotlin/nya/kitsunyan/foxydroid/MainApplication.kt:117-145 | cancels or reschedules the sync job in the table as `ProgramSyncJob` states; nothing else changes |
| `Application.MainApplication.UpdateProxy` | src/main/kotlin/nya/kitsunyan/foxydroid/MainApplication.kt:147-166 | writes the derived proxy into the single proxy slot; nothing else changes |
| `Application.MainApplication.ForceSyncAll` | src/main/kotlin/nya/kitsunyan/foxydroid/MainApplication.kt:168-178 | rewrites the repositories in place so that they equal `ClearTokens` of the old ones, appends one `FORCE` request, and returns exactly the repositories it wrote back (`TokenRewrites`) |

## Left out

- Android wiring is not modelled: `registerReceiver` and the intent filter, `getSystemService`, `ComponentName`, `attachBaseContext` and the locale, and the empty `BootReceiver`. Broadcasts and preference notifications are method calls.
- The `init` calls of `Database`, `Preferences`, `ProductPreferences` and `RepositoryUpdater` are left out. Their only input to this core is the `databaseUpdated` flag, which is a parameter.
- The Coil image loader and `Cache.cleanup` are left out. They are library and file-system side effects with no decision logic in this file.
- The service binding in `forceSyncAll` is left out: the asynchronous bind, the `sync` call and the unbind. The model only appends `FORCE` to a request log, so a bind that fails and drops the request is not captured.
- `Utils.calculateHash`, `singleSignature` and `versionCodeCompat` are computed in code that is not part of this model. `PackageInfo` carries their results.
- `Packages.PutAll`: modelled as an upsert of each item in order. `Database.InstalledAdapter` is not part of this model, so the model does not capture whether the database clears old rows first or that the batch is atomic for readers.
- `Packages.PutAllStoresEveryItem`: stated only for distinct package names, which is how the platform enumerates packages. With duplicate names the last item wins, and that case is not stated.
- `Packages.LastEventWins` and `Packages.ApplyPackageEvent`: their per-name statements assume the platform's guarantee that looking up a name returns the package with that name (`Consistent`).
- Repositories are one sequence with the write-back at each repository's position. `RepositoryAdapter.put` keyed by id is not part of this model, and neither are the repository's other stored fields.
- `SyncJobs.SyncJobSpec`: the job's service component (`SyncService.Job`) is not recorded. The scheduler's own clamping of the flex interval is not modelled either.
- `JOB_ID_SYNC` is defined in a file that is not part of this model. Its value here (1) is a placeholder, and no property depends on it.
- `Application.MainApplication.constructor`: the two caches hold placeholder values (`Never`, false) until `ListenPreferences` seeds them. `OnCreate` always seeds them before any notification is handled.
- `updateProxy` prints the stack trace of a failed address construction. Logging is not modelled.
- Concurrency is not modelled. The source takes no lock around the captured caches or the global proxy, and the model handles notifications one at a time with no claim of thread safety.
