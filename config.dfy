/**
 * One backup target's policy (`BackupConfig`): the dataclass fields, the normalisation done by
 * `__post_init__`, the `DEFAULT_PORTS` table and the cron recomputation `_update_next_run`.
 */
module Config {
  import opened Wrappers
  import opened Clock
  import opened Text

  /**
   * The cron library (`croniter(schedule, t).get_next()`): the next firing time after `t`, or
   * `None` when the expression is rejected.
   */
  type Cron = (string, Time) -> Option<Time>

  const DefaultSchedule: string := "0 2 * * *"
  const AllDatabases: string := "all"
  const DefaultRetentionDays: int := 7
  const DefaultCompression: string := "gzip"

  /** Python truthiness of an optional string: present and non-empty. */
  predicate Truthy(s: Option<string>) {
    s.Some? && s.value != ""
  }

  /** `DEFAULT_PORTS`, aliases included. */
  const DefaultPorts: map<string, Option<int>> := map[
    "postgres" := Some(5432),
    "postgresql" := Some(5432),
    "mysql" := Some(3306),
    "mariadb" := Some(3306),
    "mongodb" := Some(27017),
    "mongo" := Some(27017),
    "redis" := Some(6379),
    "sqlite" := None
  ]

  /** `DEFAULT_PORTS.get(kind)`: `None` for sqlite and for a kind the table does not know. */
  function DefaultPort(kind: string): (port: Option<int>)
    ensures port.None? <==> kind == "sqlite" || kind !in DefaultPorts
    ensures port.Some? ==> port.value > 0
  {
    if kind in DefaultPorts then DefaultPorts[kind] else None
  }

  /** The lower-cased database kind with the aliases `postgresql` and `mongo` replaced. */
  function NormalizeKind(spelling: string): (kind: string)
    ensures kind != "postgresql" && kind != "mongo"
    ensures forall i :: 0 <= i < |kind| ==> !IsUpperAscii(kind[i])
    ensures Lower(spelling) == "postgresql" ==> kind == "postgres"
    ensures Lower(spelling) == "mongo" ==> kind == "mongodb"
    ensures Lower(spelling) != "postgresql" && Lower(spelling) != "mongo" ==> kind == Lower(spelling)
  {
    LowerIdempotent(spelling);
    var kind := Lower(spelling);
    if kind == "postgresql" then "postgres"
    else if kind == "mongo" then "mongodb"
    else kind
  }

  lemma LowerOfLower(s: string)
    requires forall i :: 0 <= i < |s| ==> !IsUpperAscii(s[i])
    ensures Lower(s) == s
  {
  }

  /** Normalising a normalised kind changes nothing. */
  lemma NormalizeKindIdempotent(spelling: string)
    ensures NormalizeKind(NormalizeKind(spelling)) == NormalizeKind(spelling)
  {
    var k := NormalizeKind(spelling);
    LowerOfLower(k);
  }

  /**
   * The alias rows of `DEFAULT_PORTS` agree with their canonical rows: every spelling the table
   * lists, normalised, has the port the table gives that spelling.
   */
  lemma DefaultPortAfterNormalization(spelling: string)
    requires spelling in DefaultPorts
    ensures DefaultPort(NormalizeKind(spelling)) == DefaultPorts[spelling]
  {
    LowerOfLower(spelling);
  }

  /** The arguments of the `BackupConfig(...)` call, before `__post_init__`. */
  datatype ConfigArgs = ConfigArgs(
    containerId: string,
    containerName: string,
    dbType: string,
    schedule: string,
    database: string,
    user: Option<string>,
    password: Option<string>,
    host: Option<string>,
    port: Option<int>,
    retentionDays: int,
    compression: string,
    extraArgs: string)

  /** The value of a `BackupConfig` object after construction. */
  datatype Policy = Policy(
    containerId: string,
    containerName: string,
    dbType: string,
    schedule: string,
    database: string,
    user: Option<string>,
    password: Option<string>,
    host: string,
    port: Option<int>,
    retentionDays: int,
    compression: string,
    extraArgs: string,
    lastRun: Option<Time>,
    nextRun: Option<Time>)

  /**
   * `BackupConfig(...)` with its `__post_init__`: the kind is normalised, a missing port becomes the
   * kind's default, a missing host becomes the container name, and `next_run` is the cron time
   * after `now` (`None` when the expression is rejected).
   */
  function Construct(a: ConfigArgs, cron: Cron, now: Time): (p: Policy)
    ensures p.dbType == NormalizeKind(a.dbType)
    ensures a.port.Some? ==> p.port == a.port
    ensures a.port.None? ==> p.port == DefaultPort(p.dbType)
    ensures p.host == (if a.host.Some? then a.host.value else a.containerName)
    ensures p.lastRun.None? && p.nextRun == cron(a.schedule, now)
    ensures p.containerId == a.containerId && p.containerName == a.containerName
    ensures p.schedule == a.schedule && p.database == a.database && p.user == a.user
    ensures p.password == a.password && p.retentionDays == a.retentionDays
    ensures p.compression == a.compression && p.extraArgs == a.extraArgs
  {
    var kind := NormalizeKind(a.dbType);
    Policy(a.containerId, a.containerName, kind, a.schedule, a.database, a.user, a.password,
           a.host.GetOr(a.containerName), if a.port.None? then DefaultPort(kind) else a.port,
           a.retentionDays, a.compression, a.extraArgs, None, cron(a.schedule, now))
  }

  /** With no port given, a server kind (any spelling, any case) gets its standard port. */
  lemma ServerKindsGetDefaultPort(a: ConfigArgs, cron: Cron, now: Time)
    requires a.port.None?
    requires Lower(a.dbType) in {"postgres", "postgresql", "mysql", "mariadb", "mongodb", "mongo", "redis"}
    ensures Construct(a, cron, now).port.Some?
  {
  }

  /** A `BackupConfig` object. Only `last_run` and `next_run` change after construction. */
  class BackupConfig {
    const containerId: string
    const containerName: string
    const dbType: string
    const schedule: string
    const database: string
    const user: Option<string>
    const password: Option<string>
    const host: string
    const port: Option<int>
    const retentionDays: int
    const compression: string
    const extraArgs: string
    var lastRun: Option<Time>
    var nextRun: Option<Time>

    /** The object's current value. */
    function Value(): Policy
      reads this
    {
      Policy(containerId, containerName, dbType, schedule, database, user, password, host, port,
             retentionDays, compression, extraArgs, lastRun, nextRun)
    }

    /** The dataclass constructor followed by `__post_init__`, at the instant `now`. */
    constructor (a: ConfigArgs, cron: Cron, now: Time)
      ensures Value() == Construct(a, cron, now)
    {
      containerId := a.containerId;
      containerName := a.containerName;
      var kind := NormalizeKind(a.dbType);
      dbType := kind;
      schedule := a.schedule;
      database := a.database;
      user := a.user;
      password := a.password;
      host := if a.host.None? then a.containerName else a.host.value;
      port := if a.port.None? then DefaultPort(kind) else a.port;
      retentionDays := a.retentionDays;
      compression := a.compression;
      extraArgs := a.extraArgs;
      lastRun := None;
      nextRun := None;
      new;
      UpdateNextRun(cron, now);
    }

    /** `_update_next_run()` at the instant `now`; a rejected expression leaves no next run. */
    method UpdateNextRun(cron: Cron, now: Time)
      modifies this`nextRun
      ensures nextRun == cron(schedule, now)
    {
      nextRun := cron(schedule, now);
    }
  }
}
