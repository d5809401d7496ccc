/**
 * The resynchronisation rule of the Permissions plugin: the store is
 * re-initialised from the timer hook once `SyncFrequency` seconds have passed
 * since the last time, and that frequency comes from the configuration with
 * a default of 60 and a floor of 20.
 */
module Sync {
  import opened Wrappers

  const DefaultSyncFrequency := 60
  const MinSyncFrequency := 20

  /** `config.value("ClusterSyncTime", 60)`, raised to 20 when lower. */
  function SyncFrequencyFor(clusterSyncTime: Option<int>): (f: int)
    ensures f >= MinSyncFrequency
    ensures clusterSyncTime.None? ==> f == DefaultSyncFrequency
    ensures clusterSyncTime.Some? && clusterSyncTime.value >= MinSyncFrequency ==> f == clusterSyncTime.value
    ensures clusterSyncTime.Some? && clusterSyncTime.value < MinSyncFrequency ==> f == MinSyncFrequency
  {
    var configured := clusterSyncTime.GetOr(DefaultSyncFrequency);
    if configured < MinSyncFrequency then MinSyncFrequency else configured
  }

  /** Consecutive times at least `freq` apart. */
  ghost predicate Spaced(times: seq<int>, freq: int)
  {
    forall i :: 0 <= i < |times| - 1 ==> times[i + 1] - times[i] >= freq
  }

  /** Any two re-initialisations are at least `freq` apart per step between them. */
  lemma {:induction false} SpacedFar(times: seq<int>, freq: int, i: nat, j: nat)
    requires Spaced(times, freq) && i <= j < |times|
    ensures times[j] - times[i] >= (j - i) * freq
    decreases j - i
  {
    if i < j {
      SpacedFar(times, freq, i, j - 1);
      assert times[j] - times[j - 1] >= freq;
      assert (j - i) * freq == (j - 1 - i) * freq + freq;
    }
  }

  /** So no two re-initialisations fall within one period. */
  lemma OneSyncPerPeriod(times: seq<int>, freq: int, i: nat, j: nat)
    requires freq > 0 && Spaced(times, freq) && i < j < |times|
    ensures times[j] - times[i] >= freq
  {
    SpacedFar(times, freq, i, j);
    var extra: nat := j - i - 1;
    assert extra * freq >= 0;
    assert (j - i) * freq == freq + extra * freq;
  }

  /** The plugin's timing state: the last re-initialisation and its frequency. */
  class SyncTimer {
    var lastDatabaseSyncTime: int
    var syncFrequency: int
    /** The times at which the store was (re-)initialised, the load included. */
    var inits: seq<int>

    ghost predicate Valid()
      reads this
    {
      syncFrequency >= MinSyncFrequency
      && |inits| > 0 && inits[|inits| - 1] == lastDatabaseSyncTime
      && Spaced(inits, syncFrequency)
    }

    /** Load: read the frequency, initialise the store and start the clock. */
    constructor Load(clusterSyncTime: Option<int>, now: int)
      ensures Valid()
      ensures syncFrequency == SyncFrequencyFor(clusterSyncTime)
      ensures lastDatabaseSyncTime == now && inits == [now]
    {
      syncFrequency := SyncFrequencyFor(clusterSyncTime);
      lastDatabaseSyncTime := now;
      inits := [now];
    }

    /** DatabaseSync: re-initialise once enough time has passed, and restart the clock. */
    method DatabaseSync(now: int) returns (synced: bool)
      requires Valid()
      modifies this`lastDatabaseSyncTime, this`inits
      ensures Valid()
      ensures synced <==> now - old(lastDatabaseSyncTime) >= syncFrequency
      ensures synced ==> lastDatabaseSyncTime == now && inits == old(inits) + [now]
      ensures !synced ==> lastDatabaseSyncTime == old(lastDatabaseSyncTime) && inits == old(inits)
    {
      synced := false;
      if now - lastDatabaseSyncTime >= syncFrequency {
        inits := inits + [now];
        lastDatabaseSyncTime := now;
        synced := true;
      }
    }
  }
}
