/** MainApplication: the state it and its collaborators hold, updated in place
    by its handlers. */
module Application {
  import opened Wrappers
  import opened Packages
  import opened Preferences
  import opened Proxies
  import opened SyncJobs
  import opened Repositories
  import Coordination

  class MainApplication {
    /** The host the process runs on. */
    const platform: Platform

    /** Database.InstalledAdapter. */
    var registry: Registry
    /** The two values captured by the preference subscription. */
    var lastAutoSync: AutoSync
    var lastUpdateUnstable: bool
    /** Downloader.proxy. */
    var proxy: Option<ProxySetting>
    /** The JobScheduler's table. */
    var jobs: JobTable
    /** Database.RepositoryAdapter. */
    var repos: seq<Repository>
    /** The requests sent to the sync service. */
    var syncRequests: seq<Coordination.SyncRequest>

    /** The abstract state the methods are specified by. */
    function Snapshot(): Coordination.State
      reads this
    {
      Coordination.State(registry, lastAutoSync, lastUpdateUnstable, proxy, jobs, repos, syncRequests)
    }

    /** The process as it starts: the stores hold what they held before, no
        proxy is published and no request has been sent. The caches hold
        placeholders until listenPreferences seeds them. */
    constructor (platform: Platform, registry: Registry, jobs: JobTable, repos: seq<Repository>)
      ensures this.platform == platform
      ensures Snapshot() == Coordination.State(registry, Never, false, None, jobs, repos, [])
    {
      this.platform := platform;
      this.registry := registry;
      this.lastAutoSync := Never;
      this.lastUpdateUnstable := false;
      this.proxy := None;
      this.jobs := jobs;
      this.repos := repos;
      this.syncRequests := [];
    }

    /** onCreate, with the database's "just created or upgraded" flag, the
        enumerated packages and the preference store as inputs. */
    method OnCreate(databaseUpdated: bool, installed: seq<PackageInfo>, store: Store)
      modifies this
      ensures Snapshot() == Coordination.OnCreate(old(Snapshot()), databaseUpdated, installed, store, platform)
    {
      ListenApplications(installed);
      ListenPreferences(store);
      if databaseUpdated {
        var _ := ForceSyncAll();
      }
      UpdateSyncJob(store);
    }

    /** The startup enumeration of listenApplications: one putAll. */
    method ListenApplications(installed: seq<PackageInfo>)
      modifies this
      ensures Snapshot() == Coordination.ListenApplications(old(Snapshot()), installed)
    {
      registry := PutAll(registry, InstalledItems(installed));
    }

    /** The broadcast receiver's onReceive; `packages` is the package manager
        at the moment of the lookup. */
    method OnReceive(intent: Intent, packages: PackageTable)
      modifies this
      ensures Snapshot() == Coordination.OnPackageEvent(old(Snapshot()), intent, packages)
    {
      var packageName := PackageNameOf(intent);
      if packageName.Some? {
        var action := OrEmpty(intent.action);
        if action == ACTION_PACKAGE_ADDED || action == ACTION_PACKAGE_REMOVED {
          var name := packageName.value;
          if name in packages {
            var item := ToInstalledItem(packages[name]);
            registry := registry[item.packageName := item];
          } else {
            registry := registry - {name};
          }
        }
      }
    }

    /** listenPreferences up to its subscription. */
    method ListenPreferences(store: Store)
      modifies this
      ensures Snapshot() == Coordination.ListenPreferences(old(Snapshot()), store)
    {
      UpdateProxy(store);
      lastAutoSync := store.autoSync;
      lastUpdateUnstable := store.updateUnstable;
    }

    /** The body of the preference subscription, for one changed key. */
    method OnPreferenceChanged(key: Key, store: Store)
      modifies this
      ensures Snapshot() == Coordination.OnPreferenceChanged(old(Snapshot()), key, store, platform)
    {
      if IsProxyKey(key) {
        UpdateProxy(store);
      } else if key == AutoSyncKey {
        var autoSync := store.autoSync;
        if lastAutoSync != autoSync {
          lastAutoSync := autoSync;
          UpdateSyncJob(store);
        }
      } else if key == UpdateUnstableKey {
        var updateUnstable := store.updateUnstable;
        if lastUpdateUnstable != updateUnstable {
          lastUpdateUnstable := updateUnstable;
          var _ := ForceSyncAll();
        }
      }
    }

    /** updateSyncJob: cancel or (re)schedule the sync job. */
    method UpdateSyncJob(store: Store)
      modifies this
      ensures Snapshot() == Coordination.UpdateSyncJob(old(Snapshot()), store, platform)
    {
      var spec := SyncJobSpec(store.autoSync, platform);
      if spec.None? {
        jobs := jobs - {JOB_ID_SYNC};
      } else {
        jobs := jobs[spec.value.id := spec.value];
      }
    }

    /** updateProxy: publish the proxy derived from the store. */
    method UpdateProxy(store: Store)
      modifies this
      ensures Snapshot() == Coordination.UpdateProxy(old(Snapshot()), store)
    {
      proxy := DeriveProxy(store.proxyType, store.proxyHost, store.proxyPort);
    }

    /** forceSyncAll: write back every repository that has a token with both
        tokens cleared, then send one Force request. Returns the repositories
        written back. */
    method ForceSyncAll() returns (written: seq<Repository>)
      modifies this
      ensures Snapshot() == Coordination.ForceSyncAll(old(Snapshot()))
      ensures written == TokenRewrites(old(repos))
    {
      var all := repos;
      written := [];
      var i := 0;
      while i < |all|
        modifies this`repos
        invariant 0 <= i <= |all| && |repos| == |all|
        invariant forall k :: 0 <= k < i ==> repos[k] == WithoutTokens(all[k])
        invariant forall k :: i <= k < |all| ==> repos[k] == all[k]
        invariant written == TokenRewrites(all[..i])
      {
        var r := all[i];
        assert all[..i + 1][..i] == all[..i];
        if HasCacheTokens(r) {
          repos := repos[i := WithoutTokens(r)];
          written := written + [WithoutTokens(r)];
        }
        i := i + 1;
      }
      assert all[..i] == all;
      ClearTokensAt(all);
      assert repos == ClearTokens(all);
      syncRequests := syncRequests + [Coordination.Force];
    }
  }
}
