/** The periodic sync job of MainApplication.updateSyncJob and the platform's
    job table, keyed by job id. */
module SyncJobs {
  import opened Wrappers
  import opened Preferences

  /** The id of the sync job (Common.JOB_ID_SYNC); no property depends on its value. */
  const JOB_ID_SYNC: int := 1

  /** Twelve hours in milliseconds. */
  const SYNC_PERIOD_MILLIS: int := 12 * 60 * 60 * 1000

  datatype NetworkType = Unmetered | AnyNetwork

  /** The host: its SDK level and the smallest flex interval its scheduler allows. */
  datatype Platform = Platform(sdk: int, minFlexMillis: int)

  /** A periodic job as built by JobInfo.Builder; `flexMillis` is None when the
      builder was given the period alone. */
  datatype JobSpec = JobSpec(
    id: int,
    network: NetworkType,
    requiresBatteryNotLow: bool,
    requiresStorageNotLow: bool,
    periodMillis: int,
    flexMillis: Option<int>)

  type JobTable = map<int, JobSpec>

  /** The job to schedule for an AutoSync value, or None when the job is to be
      cancelled. */
  function SyncJobSpec(autoSync: AutoSync, platform: Platform): (r: Option<JobSpec>)
    ensures r.None? <==> autoSync == Never
    ensures r.Some? ==>
      && r.value.id == JOB_ID_SYNC
      && (r.value.network == Unmetered <==> autoSync == Wifi)
      && r.value.periodMillis == 43_200_000
      && (r.value.requiresBatteryNotLow <==> platform.sdk >= 26)
      && (r.value.requiresStorageNotLow <==> platform.sdk >= 26)
      && (r.value.flexMillis == Some(platform.minFlexMillis) <==> platform.sdk >= 24)
      && (r.value.flexMillis.Some? <==> platform.sdk >= 24)
  {
    match autoSync
    case Never => None
    case Wifi | Always =>
      var wifiOnly := autoSync == Wifi;
      var constrained := platform.sdk >= 26;
      Some(JobSpec(
        JOB_ID_SYNC,
        if wifiOnly then Unmetered else AnyNetwork,
        constrained,
        constrained,
        SYNC_PERIOD_MILLIS,
        if platform.sdk >= 24 then Some(platform.minFlexMillis) else None))
  }

  /** The job table after updateSyncJob: cancel for Never, otherwise schedule,
      which replaces any job with the same id. */
  function ProgramSyncJob(jobs: JobTable, autoSync: AutoSync, platform: Platform): (r: JobTable)
    ensures JOB_ID_SYNC in r <==> autoSync != Never
    ensures JOB_ID_SYNC in r ==> r[JOB_ID_SYNC] == SyncJobSpec(autoSync, platform).value
    ensures forall id :: id != JOB_ID_SYNC ==> (id in r <==> id in jobs)
    ensures forall id :: id != JOB_ID_SYNC && id in r ==> r[id] == jobs[id]
  {
    match SyncJobSpec(autoSync, platform)
    case None => jobs - {JOB_ID_SYNC}
    case Some(spec) => jobs[spec.id := spec]
  }

  /** Reprogramming overwrites: only the last AutoSync value matters. */
  lemma LastProgrammingWins(jobs: JobTable, first: AutoSync, second: AutoSync, platform: Platform)
    ensures ProgramSyncJob(ProgramSyncJob(jobs, first, platform), second, platform)
         == ProgramSyncJob(jobs, second, platform)
  {
  }

  /** Programming the same value twice leaves one job, the same as programming it once. */
  lemma ProgrammingIsIdempotent(jobs: JobTable, autoSync: AutoSync, platform: Platform)
    ensures ProgramSyncJob(ProgramSyncJob(jobs, autoSync, platform), autoSync, platform)
         == ProgramSyncJob(jobs, autoSync, platform)
    ensures |ProgramSyncJob(jobs, autoSync, platform).Keys * {JOB_ID_SYNC}| == if autoSync == Never then 0 else 1
  {
    LastProgrammingWins(jobs, autoSync, autoSync, platform);
    var r := ProgramSyncJob(jobs, autoSync, platform);
    if autoSync == Never {
      assert r.Keys * {JOB_ID_SYNC} == {};
    } else {
      assert r.Keys * {JOB_ID_SYNC} == {JOB_ID_SYNC};
    }
  }

  /** Never after Wifi cancels the job. */
  lemma NeverAfterWifiCancels(jobs: JobTable, platform: Platform)
    ensures JOB_ID_SYNC !in ProgramSyncJob(ProgramSyncJob(jobs, Wifi, platform), Never, platform)
  {
  }
}
