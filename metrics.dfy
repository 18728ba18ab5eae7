/**
 * The metrics store (`BackupMetrics`): one record per `"{container}_{database}"` key, upserted by
 * `record_backup`, `update_schedule` and `init_container`, and read by the status renderers.
 */
module Metrics {
  import opened Wrappers
  import opened Clock

  /** One entry of the store. `lastSuccess` is 1 (success), 0 (failure) or -1 (never run). */
  datatype MetricsRecord = MetricsRecord(
    container: string,
    dbType: string,
    database: string,
    lastSuccess: int,
    lastTimestamp: Time,
    lastDuration: int,
    lastSize: int,
    nextScheduled: Time,
    totalBackups: nat,
    totalFailures: nat)

  type Store = map<string, MetricsRecord>

  const NeverRun: int := -1

  /** The store key `f"{container_name}_{database}"`. */
  function Key(container: string, database: string): string {
    container + "_" + database
  }

  /** `next_run.timestamp() if next_run else 0`: 0 stands for "nothing scheduled". */
  function Stamp(next: Option<Time>): Time {
    match next
    case Some(t) => t
    case None => 0
  }

  /** `self._metrics.get(key, {}).get('total_backups', 0)` */
  function PriorTotal(m: Store, key: string): nat {
    if key in m then m[key].totalBackups else 0
  }

  /** `self._metrics.get(key, {}).get('total_failures', 0)` */
  function PriorFailures(m: Store, key: string): nat {
    if key in m then m[key].totalFailures else 0
  }

  /** The store after `record_backup`: the key's record is replaced, its counters carried forward. */
  function Recorded(m: Store, container: string, dbType: string, database: string, success: bool,
                    duration: int, size: int, next: Option<Time>, at: Time): (m': Store)
    ensures m'.Keys == m.Keys + {Key(container, database)}
    ensures forall k :: k in m && k != Key(container, database) ==> m'[k] == m[k]
    ensures var key := Key(container, database);
      && m'[key].totalBackups == PriorTotal(m, key) + 1
      && m'[key].totalFailures == PriorFailures(m, key) + (if success then 0 else 1)
      && m'[key].lastSuccess == (if success then 1 else 0)
      && m'[key].nextScheduled == Stamp(next)
      && m'[key].lastTimestamp == at
      && m'[key].lastDuration == duration
      && m'[key].lastSize == size
      && m'[key].container == container && m'[key].dbType == dbType && m'[key].database == database
  {
    var key := Key(container, database);
    m[key := MetricsRecord(container, dbType, database, if success then 1 else 0, at, duration, size,
                           Stamp(next), PriorTotal(m, key) + 1,
                           PriorFailures(m, key) + (if success then 0 else 1))]
  }

  /** A record for a target that has never been backed up. */
  function Fresh(container: string, dbType: string, database: string, next: Option<Time>): (r: MetricsRecord)
    ensures r.lastSuccess == NeverRun && r.totalBackups == 0 && r.totalFailures == 0
    ensures r.lastTimestamp == 0 && r.lastDuration == 0 && r.lastSize == 0
    ensures r.nextScheduled == Stamp(next)
  {
    MetricsRecord(container, dbType, database, NeverRun, 0, 0, 0, Stamp(next), 0, 0)
  }

  /**
   * The store after `init_container`: an absent key gets a never-run record; a present key only has
   * its `dbType` and `nextScheduled` refreshed, its counters and last outcome are kept.
   */
  function Initialized(m: Store, container: string, dbType: string, database: string, next: Option<Time>): (m': Store)
    ensures m'.Keys == m.Keys + {Key(container, database)}
    ensures forall k :: k in m && k != Key(container, database) ==> m'[k] == m[k]
    ensures var key := Key(container, database);
      && (key !in m ==> m'[key] == Fresh(container, dbType, database, next))
      && (key in m ==> m'[key] == m[key].(dbType := dbType, nextScheduled := Stamp(next)))
  {
    var key := Key(container, database);
    if key !in m then m[key := Fresh(container, dbType, database, next)]
    else m[key := m[key].(dbType := dbType, nextScheduled := Stamp(next))]
  }

  /**
   * The store after `update_schedule`: like `Initialized` but an absent key is created with the type
   * `"unknown"`, and a present key only has `nextScheduled` refreshed.
   */
  function Rescheduled(m: Store, container: string, database: string, next: Option<Time>): (m': Store)
    ensures m'.Keys == m.Keys + {Key(container, database)}
    ensures forall k :: k in m && k != Key(container, database) ==> m'[k] == m[k]
    ensures var key := Key(container, database);
      && (key !in m ==> m'[key] == Fresh(container, "unknown", database, next))
      && (key in m ==> m'[key] == m[key].(nextScheduled := Stamp(next)))
  {
    var key := Key(container, database);
    if key !in m then m[key := Fresh(container, "unknown", database, next)]
    else m[key := m[key].(nextScheduled := Stamp(next))]
  }

  /**
   * What every record satisfies: the success gauge is one of the three values, it reads "never run"
   * exactly when no attempt was counted, failures never exceed attempts, and the last outcome agrees
   * with the counters.
   */
  ghost predicate WellFormed(r: MetricsRecord) {
    && (r.lastSuccess == NeverRun || r.lastSuccess == 0 || r.lastSuccess == 1)
    && (r.lastSuccess == NeverRun <==> r.totalBackups == 0)
    && r.totalFailures <= r.totalBackups
    && (r.lastSuccess == 0 ==> r.totalFailures > 0)
    && (r.lastSuccess == 1 ==> r.totalFailures < r.totalBackups)
  }

  /** Every record is well formed and filed under the key of its own container and database. */
  ghost predicate Consistent(m: Store) {
    forall k :: k in m ==> k == Key(m[k].container, m[k].database) && WellFormed(m[k])
  }

  lemma RecordedConsistent(m: Store, container: string, dbType: string, database: string, success: bool,
                           duration: int, size: int, next: Option<Time>, at: Time)
    requires Consistent(m)
    ensures Consistent(Recorded(m, container, dbType, database, success, duration, size, next, at))
  {
  }

  lemma InitializedConsistent(m: Store, container: string, dbType: string, database: string, next: Option<Time>)
    requires Consistent(m)
    ensures Consistent(Initialized(m, container, dbType, database, next))
  {
  }

  lemma RescheduledConsistent(m: Store, container: string, database: string, next: Option<Time>)
    requires Consistent(m)
    ensures Consistent(Rescheduled(m, container, database, next))
  {
  }

  /** Two different (container, database) pairs can share a store key, and then share one record. */
  lemma KeysCollide()
    ensures Key("a_b", "c") == Key("a", "b_c")
  {
  }

  /** `init("db1", "postgres", "all", t)` then a failed `record` gives last_success 0 and counters 1 and 1. */
  lemma InitThenFailure(t: Option<Time>, duration: int, at: Time)
    ensures var m := Recorded(Initialized(map[], "db1", "postgres", "all", t), "db1", "postgres", "all",
                              false, duration, 0, t, at);
      && m[Key("db1", "all")].lastSuccess == 0
      && m[Key("db1", "all")].totalBackups == 1
      && m[Key("db1", "all")].totalFailures == 1
  {
  }

  /** One entry of `get_status_json()["backups"]`. */
  datatype Status = Status(
    container: string,
    dbType: string,
    database: string,
    lastSuccess: Option<bool>,
    lastBackup: Option<Time>,
    nextBackup: Option<Time>,
    lastDuration: int,
    lastSize: int,
    totalBackups: nat,
    totalFailures: nat)

  /** The JSON status of one record: never-run success is null, zero timestamps are null. */
  function StatusOf(r: MetricsRecord): (s: Status)
    ensures s.lastSuccess.None? <==> r.lastSuccess < 0
    ensures s.lastSuccess == Some(true) <==> r.lastSuccess == 1
    ensures s.lastBackup.Some? <==> r.lastTimestamp > 0
    ensures s.nextBackup.Some? <==> r.nextScheduled > 0
    ensures s.totalBackups == r.totalBackups && s.totalFailures == r.totalFailures
  {
    Status(r.container, r.dbType, r.database,
           if r.lastSuccess >= 0 then Some(r.lastSuccess == 1) else None,
           if r.lastTimestamp > 0 then Some(r.lastTimestamp) else None,
           if r.nextScheduled > 0 then Some(r.nextScheduled) else None,
           r.lastDuration, r.lastSize, r.totalBackups, r.totalFailures)
  }

  /** For a well-formed record the JSON success field is null exactly when no attempt was counted. */
  lemma StatusNullIffNeverRun(r: MetricsRecord)
    requires WellFormed(r)
    ensures StatusOf(r).lastSuccess.None? <==> r.totalBackups == 0
    ensures StatusOf(r).lastSuccess == Some(false) <==> r.lastSuccess == 0
  {
  }

  /** The `db_backup_seconds_until_next` gauge: emitted only when something is scheduled, never negative. */
  function SecondsUntilNext(r: MetricsRecord, now: Time): (g: Option<int>)
    ensures g.Some? <==> r.nextScheduled > 0
    ensures g.Some? ==> g.value >= 0 && g.value >= r.nextScheduled - now
    ensures g.Some? && r.nextScheduled >= now ==> g.value == r.nextScheduled - now
    ensures g.Some? && r.nextScheduled < now ==> g.value == 0
  {
    if r.nextScheduled > 0 then Some(if r.nextScheduled - now > 0 then r.nextScheduled - now else 0) else None
  }

  /** The `db_backup_seconds_since_last` gauge: emitted only once an attempt has been recorded. */
  function SecondsSinceLast(r: MetricsRecord, now: Time): (g: Option<int>)
    ensures g.Some? <==> r.lastTimestamp > 0
    ensures g.Some? ==> g.value + r.lastTimestamp == now
  {
    if r.lastTimestamp > 0 then Some(now - r.lastTimestamp) else None
  }

  /** The store object. The lock around every access is not modelled: calls are sequential. */
  class BackupMetrics {
    var records: Store
    var containersMonitored: int
    const startTime: Time

    ghost predicate Valid()
      reads this
    {
      Consistent(records)
    }

    /**
     * In the JSON status of the whole store, an entry's success field is null exactly when its
     * target has never been attempted, and false exactly after a failed attempt.
     */
    lemma StatusesNullIffNeverRun()
      requires Valid()
      ensures forall k :: k in records ==>
        && (StatusOf(records[k]).lastSuccess.None? <==> records[k].totalBackups == 0)
        && (StatusOf(records[k]).lastSuccess == Some(false) <==> records[k].totalFailures > 0 && records[k].lastSuccess == 0)
    {
      forall k | k in records
        ensures StatusOf(records[k]).lastSuccess.None? <==> records[k].totalBackups == 0
      {
        StatusNullIffNeverRun(records[k]);
      }
    }

    constructor (startTime: Time)
      ensures Valid()
      ensures records == map[] && containersMonitored == 0 && this.startTime == startTime
    {
      records := map[];
      containersMonitored := 0;
      this.startTime := startTime;
    }

    method SetContainersCount(count: int)
      modifies this`containersMonitored
      ensures containersMonitored == count
    {
      containersMonitored := count;
    }

    method RecordBackup(container: string, dbType: string, database: string, success: bool,
                        duration: int, size: int, next: Option<Time>, at: Time)
      requires Valid()
      modifies this`records
      ensures Valid()
      ensures records == Recorded(old(records), container, dbType, database, success, duration, size, next, at)
    {
      RecordedConsistent(records, container, dbType, database, success, duration, size, next, at);
      var key := Key(container, database);
      records := records[key := MetricsRecord(container, dbType, database, if success then 1 else 0, at,
                                              duration, size, Stamp(next), PriorTotal(records, key) + 1,
                                              PriorFailures(records, key) + (if success then 0 else 1))];
    }

    method UpdateSchedule(container: string, database: string, next: Option<Time>)
      requires Valid()
      modifies this`records
      ensures Valid()
      ensures records == Rescheduled(old(records), container, database, next)
    {
      RescheduledConsistent(records, container, database, next);
      var key := Key(container, database);
      if key !in records {
        records := records[key := Fresh(container, "unknown", database, next)];
      } else {
        records := records[key := records[key].(nextScheduled := Stamp(next))];
      }
    }

    method InitContainer(container: string, dbType: string, database: string, next: Option<Time>)
      requires Valid()
      modifies this`records
      ensures Valid()
      ensures records == Initialized(old(records), container, dbType, database, next)
    {
      InitializedConsistent(records, container, dbType, database, next);
      var key := Key(container, database);
      if key !in records {
        records := records[key := Fresh(container, dbType, database, next)];
      } else {
        records := records[key := records[key].(dbType := dbType, nextScheduled := Stamp(next))];
      }
    }
  }
}
