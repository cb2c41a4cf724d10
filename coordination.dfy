/** The coordinator's state and the effect of each of its handlers, as pure
    transitions; MainApplication's methods are proved against them. */
module Coordination {
  import opened Wrappers
  import opened Packages
  import opened Preferences
  import opened Proxies
  import opened SyncJobs
  import opened Repositories

  /** The kinds of request the sync worker accepts; this core only sends Force. */
  datatype SyncRequest = Auto | Manual | Force

  /** Everything the coordinator reads or writes: the registry, the two
      debounce caches, the published proxy, the platform's job table, the
      stored repositories and the requests sent to the sync worker. */
  datatype State = State(
    registry: Registry,
    lastAutoSync: AutoSync,
    lastUpdateUnstable: bool,
    proxy: Option<ProxySetting>,
    jobs: JobTable,
    repos: seq<Repository>,
    syncRequests: seq<SyncRequest>)

  function UpdateProxy(s: State, store: Store): State {
    s.(proxy := ProxyFor(store))
  }

  function UpdateSyncJob(s: State, store: Store, platform: Platform): State {
    s.(jobs := ProgramSyncJob(s.jobs, store.autoSync, platform))
  }

  function ForceSyncAll(s: State): State {
    s.(repos := ClearTokens(s.repos), syncRequests := s.syncRequests + [Force])
  }

  function ListenApplications(s: State, installed: seq<PackageInfo>): State {
    s.(registry := RegisterInstalled(s.registry, installed))
  }

  function OnPackageEvent(s: State, intent: Intent, packages: PackageTable): State {
    s.(registry := ApplyPackageEvent(s.registry, intent, packages))
  }

  /** listenPreferences up to its subscription: publish the proxy, then seed
      both caches from the store. */
  function ListenPreferences(s: State, store: Store): State {
    UpdateProxy(s, store).(lastAutoSync := store.autoSync, lastUpdateUnstable := store.updateUnstable)
  }

  /** What a changed-key notification leads to. */
  datatype Reaction = RefreshProxy | ReprogramSyncJob | ForceSync | NoReaction

  /** The dispatch of the subscription: proxy keys always refresh the proxy;
      AutoSync and UpdateUnstable act only when the fresh value differs from
      the cached one; every other key is ignored. */
  function ReactionTo(key: Key, store: Store, lastAutoSync: AutoSync, lastUpdateUnstable: bool): (a: Reaction)
    ensures a == RefreshProxy <==> IsProxyKey(key)
    ensures a == ReprogramSyncJob <==> key == AutoSyncKey && store.autoSync != lastAutoSync
    ensures a == ForceSync <==> key == UpdateUnstableKey && store.updateUnstable != lastUpdateUnstable
  {
    if IsProxyKey(key) then RefreshProxy
    else if key == AutoSyncKey then
      (if lastAutoSync != store.autoSync then ReprogramSyncJob else NoReaction)
    else if key == UpdateUnstableKey then
      (if lastUpdateUnstable != store.updateUnstable then ForceSync else NoReaction)
    else NoReaction
  }

  /** The state after one changed-key notification, the store holding `store`. */
  function OnPreferenceChanged(s: State, key: Key, store: Store, platform: Platform): State {
    match ReactionTo(key, store, s.lastAutoSync, s.lastUpdateUnstable)
    case RefreshProxy => UpdateProxy(s, store)
    case ReprogramSyncJob => UpdateSyncJob(s.(lastAutoSync := store.autoSync), store, platform)
    case ForceSync => ForceSyncAll(s.(lastUpdateUnstable := store.updateUnstable))
    case NoReaction => s
  }

  /** onCreate: wire the package listener (with its enumeration), wire the
      preference listener, force a sync when the database was just created or
      upgraded, and program the sync job last. */
  function OnCreate(s: State, databaseUpdated: bool, installed: seq<PackageInfo>, store: Store, platform: Platform): State {
    var listening := ListenPreferences(ListenApplications(s, installed), store);
    var synced := if databaseUpdated then ForceSyncAll(listening) else listening;
    UpdateSyncJob(synced, store, platform)
  }

  // ---- Properties of the preference reactor ----

  /** A proxy-key notification changes the proxy slot and nothing else. */
  lemma ProxyKeyChangesOnlyProxy(s: State, key: Key, store: Store, platform: Platform)
    requires IsProxyKey(key)
    ensures OnPreferenceChanged(s, key, store, platform) == s.(proxy := ProxyFor(store))
  {
  }

  /** An AutoSync notification reprograms the job exactly when the fresh value
      differs from the cache, leaves the cache equal to the fresh value, and
      touches nothing else. */
  lemma AutoSyncDebounce(s: State, store: Store, platform: Platform)
    ensures var t := OnPreferenceChanged(s, AutoSyncKey, store, platform);
      && t.lastAutoSync == store.autoSync
      && (store.autoSync == s.lastAutoSync ==> t == s)
      && (store.autoSync != s.lastAutoSync ==>
            t == s.(lastAutoSync := store.autoSync, jobs := ProgramSyncJob(s.jobs, store.autoSync, platform)))
  {
  }

  /** Two AutoSync notifications with the same value: the second does nothing,
      so the job is reprogrammed at most once. */
  lemma AutoSyncTwiceReprogramsOnce(s: State, store: Store, platform: Platform)
    ensures var once := OnPreferenceChanged(s, AutoSyncKey, store, platform);
      && ReactionTo(AutoSyncKey, store, once.lastAutoSync, once.lastUpdateUnstable) == NoReaction
      && OnPreferenceChanged(once, AutoSyncKey, store, platform) == once
  {
  }

  /** An UpdateUnstable notification forces a sync exactly when the fresh value
      differs from the cache and leaves the cache equal to the fresh value. */
  lemma UpdateUnstableDebounce(s: State, store: Store, platform: Platform)
    ensures var t := OnPreferenceChanged(s, UpdateUnstableKey, store, platform);
      && t.lastUpdateUnstable == store.updateUnstable
      && (store.updateUnstable == s.lastUpdateUnstable ==> t == s)
      && (store.updateUnstable != s.lastUpdateUnstable ==>
            t == s.(lastUpdateUnstable := store.updateUnstable, repos := ClearTokens(s.repos),
                    syncRequests := s.syncRequests + [Force]))
  {
  }

  /** Two UpdateUnstable notifications with the same value: the first sends at
      most one forced sync and the second does nothing. */
  lemma UpdateUnstableTwiceForcesOnce(s: State, store: Store, platform: Platform)
    ensures var once := OnPreferenceChanged(s, UpdateUnstableKey, store, platform);
      && (once.syncRequests == s.syncRequests || once.syncRequests == s.syncRequests + [Force])
      && ReactionTo(UpdateUnstableKey, store, once.lastAutoSync, once.lastUpdateUnstable) == NoReaction
      && OnPreferenceChanged(once, UpdateUnstableKey, store, platform) == once
  {
  }

  /** Flipping UpdateUnstable from false to true clears every repository's
      tokens, keeps their other fields, and sends exactly one forced sync. */
  lemma UnstableFlipForcesFullSync(s: State, store: Store, platform: Platform)
    requires !s.lastUpdateUnstable && store.updateUnstable
    ensures var t := OnPreferenceChanged(s, UpdateUnstableKey, store, platform);
      && t.syncRequests == s.syncRequests + [Force]
      && |t.repos| == |s.repos|
      && (forall i :: 0 <= i < |s.repos| ==> t.repos[i] == s.repos[i].(lastModified := "", entityTag := ""))
      && t.jobs == s.jobs && t.proxy == s.proxy && t.registry == s.registry
  {
    ClearTokensAt(s.repos);
  }

  /** Keys the coordinator does not react to leave the state alone. */
  lemma OtherKeysIgnored(s: State, name: string, store: Store, platform: Platform)
    ensures OnPreferenceChanged(s, Other(name), store, platform) == s
  {
  }

  // ---- Properties of the bootstrap ----

  /** onCreate sends one forced sync if and only if the database was updated,
      programs the job from the current AutoSync value, publishes the current
      proxy and seeds both caches from the store. */
  lemma {:induction false} OnCreateOutcome(s: State, databaseUpdated: bool, installed: seq<PackageInfo>, store: Store, platform: Platform)
    ensures var t := OnCreate(s, databaseUpdated, installed, store, platform);
      && t.syncRequests == (if databaseUpdated then s.syncRequests + [Force] else s.syncRequests)
      && t.repos == (if databaseUpdated then ClearTokens(s.repos) else s.repos)
      && t.jobs == ProgramSyncJob(s.jobs, store.autoSync, platform)
      && t.proxy == ProxyFor(store)
      && t.lastAutoSync == store.autoSync && t.lastUpdateUnstable == store.updateUnstable
      && t.registry == RegisterInstalled(s.registry, installed)
  {
  }

  /** After startup the job table holds the sync job exactly when AutoSync is
      not Never, and the one it holds is the spec for the current value. */
  lemma OnCreateProgramsCurrentJob(s: State, databaseUpdated: bool, installed: seq<PackageInfo>, store: Store, platform: Platform)
    ensures var t := OnCreate(s, databaseUpdated, installed, store, platform);
      && (JOB_ID_SYNC in t.jobs <==> store.autoSync != Never)
      && (JOB_ID_SYNC in t.jobs ==> Some(t.jobs[JOB_ID_SYNC]) == SyncJobSpec(store.autoSync, platform))
  {
  }

  /** A fresh install (no prior state, database just created) sends exactly one
      forced sync. */
  lemma FreshInstallForcesOneSync(installed: seq<PackageInfo>, store: Store, platform: Platform)
    ensures var t := OnCreate(State(map[], Never, false, None, map[], [], []), true, installed, store, platform);
      t.syncRequests == [Force]
  {
  }
}
