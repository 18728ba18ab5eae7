/**
 * The execution pipeline (`BackupExecutor`): dispatch on the database kind, the dump tools'
 * argument lists and artifact names, compression, the retention prune and `execute`.
 * The dump tools, the zstd codec and the file system are an `Engine` oracle.
 */
module Executor {
  import opened Wrappers
  import opened Clock
  import opened Text
  import opened Paths
  import opened Config

  /** The kinds `_run_backup` dispatches on. */
  datatype Kind = Postgres | MySql | MongoDb | Redis | Sqlite

  /** `_run_backup`'s dispatch on the (already normalised) `db_type`; `None` is "unsupported". */
  function KindOf(dbType: string): (k: Option<Kind>)
    ensures k == Some(Postgres) <==> dbType == "postgres"
    ensures k == Some(MySql) <==> dbType == "mysql" || dbType == "mariadb"
    ensures k == Some(MongoDb) <==> dbType == "mongodb"
    ensures k == Some(Redis) <==> dbType == "redis"
    ensures k == Some(Sqlite) <==> dbType == "sqlite"
  {
    if dbType == "postgres" then Some(Postgres)
    else if dbType == "mysql" || dbType == "mariadb" then Some(MySql)
    else if dbType == "mongodb" then Some(MongoDb)
    else if dbType == "redis" then Some(Redis)
    else if dbType == "sqlite" then Some(Sqlite)
    else None
  }

  /**
   * A kind label, after normalisation, reaches a dump tool exactly when it is one of the eight
   * spellings in any letter case; every other label is kept as a policy but always fails.
   */
  lemma SupportedSpellings(spelling: string)
    ensures KindOf(NormalizeKind(spelling)).Some? <==>
      Lower(spelling) in {"postgres", "postgresql", "mysql", "mariadb", "mongodb", "mongo", "redis", "sqlite"}
  {
  }

  /** Every kind with a server has a default port in `DEFAULT_PORTS`; sqlite has none. */
  lemma DispatchedKindsHavePorts(dbType: string)
    requires KindOf(dbType).Some?
    ensures DefaultPort(dbType).Some? <==> KindOf(dbType) != Some(Sqlite)
  {
  }

  /** The backup directory `BACKUP_DIR / container_name / db_type`. */
  function BackupDir(root: string, c: Policy): string {
    Join(Join(root, c.containerName), c.dbType)
  }

  /** `str(self.config.port)`, which is the text `None` when there is no port. */
  function PortText(port: Option<int>): string {
    match port
    case Some(n) => IntToString(n)
    case None => "None"
  }

  /** The `flag user` pair, present only when a user is set. */
  function UserArgs(flag: string, user: Option<string>): seq<string> {
    if Truthy(user) then [flag, user.value] else []
  }

  /** File name of a postgres or mysql dump: `{database}_{ts}.sql`, or `all_databases_{ts}.sql`. */
  function SqlDumpName(database: string, ts: string): string {
    if database == AllDatabases then "all_databases_" + ts + ".sql" else database + "_" + ts + ".sql"
  }

  /** Where `_backup_*` leaves its artifact, per kind; `None` for an unsupported kind. */
  function ArtifactPath(c: Policy, dir: string, ts: string): (p: Option<string>)
    ensures p.Some? <==> KindOf(c.dbType).Some?
  {
    match KindOf(c.dbType)
    case None => None
    case Some(Postgres) => Some(Join(dir, SqlDumpName(c.database, ts)))
    case Some(MySql) => Some(Join(dir, SqlDumpName(c.database, ts)))
    case Some(MongoDb) => Some(Join(dir, c.database + "_" + ts + ".tar"))
    case Some(Redis) => Some(Join(dir, "dump_" + ts + ".rdb"))
    case Some(Sqlite) => Some(Join(dir, SqliteCopyName(c.database, ts)))
  }

  /** The stem of every artifact name: everything before the timestamp. */
  function NamePrefix(c: Policy, k: Kind): (s: string)
    ensures s != [] && s[|s| - 1] == '_'
  {
    match k
    case Postgres => if c.database == AllDatabases then "all_databases_" else c.database + "_"
    case MySql => if c.database == AllDatabases then "all_databases_" else c.database + "_"
    case MongoDb => c.database + "_"
    case Redis => "dump_"
    case Sqlite => Stem(c.database) + "_"
  }

  /** The extension that follows the timestamp in every artifact name. */
  function NameExtension(k: Kind): string {
    match k
    case Postgres => ".sql"
    case MySql => ".sql"
    case MongoDb => ".tar"
    case Redis => ".rdb"
    case Sqlite => ".db"
  }

  lemma ArtifactPathShape(c: Policy, dir: string, ts: string)
    requires KindOf(c.dbType).Some?
    ensures var k := KindOf(c.dbType).value;
      ArtifactPath(c, dir, ts) == Some(Join(dir, NamePrefix(c, k) + ts + NameExtension(k)))
  {
    var k := KindOf(c.dbType).value;
    match k
    case Postgres =>
      assert SqlDumpName(c.database, ts) == NamePrefix(c, k) + ts + NameExtension(k);
    case MySql =>
      assert SqlDumpName(c.database, ts) == NamePrefix(c, k) + ts + NameExtension(k);
    case MongoDb =>
      assert c.database + "_" + ts + ".tar" == NamePrefix(c, k) + ts + NameExtension(k);
    case Redis =>
      assert "dump_" + ts + ".rdb" == NamePrefix(c, k) + ts + NameExtension(k);
    case Sqlite =>
      assert Stem(c.database) + "_" + ts + ".db" == NamePrefix(c, k) + ts + NameExtension(k);
  }

  /**
   * Two runs of one policy with different timestamps of the same width (`%Y%m%d_%H%M%S`) write
   * different artifacts. Two runs within the same second share a timestamp, and so a file.
   */
  lemma ArtifactPathsDistinct(c: Policy, dir: string, ts1: string, ts2: string)
    requires KindOf(c.dbType).Some?
    requires |ts1| == |ts2| && ts1 != ts2
    ensures ArtifactPath(c, dir, ts1) != ArtifactPath(c, dir, ts2)
  {
    var k := KindOf(c.dbType).value;
    ArtifactPathShape(c, dir, ts1);
    ArtifactPathShape(c, dir, ts2);
    var pre, ext := NamePrefix(c, k), NameExtension(k);
    var n1, n2 := pre + ts1 + ext, pre + ts2 + ext;
    var lead := if pre[0] == '/' then [] else dir + "/";
    assert n1[0] == pre[0] && n2[0] == pre[0];
    assert Join(dir, n1) == lead + n1 && Join(dir, n2) == lead + n2;
    DifferentMiddles(lead, pre, ts1, ts2, ext);
  }

  /** Strings that differ only in a middle part of the same length differ. */
  lemma DifferentMiddles(lead: string, pre: string, m1: string, m2: string, ext: string)
    requires |m1| == |m2| && m1 != m2
    ensures lead + (pre + m1 + ext) != lead + (pre + m2 + ext)
  {
    var i :| 0 <= i < |m1| && m1[i] != m2[i];
    assert (lead + (pre + m1 + ext))[|lead| + |pre| + i] == m1[i];
    assert (lead + (pre + m2 + ext))[|lead| + |pre| + i] == m2[i];
  }

  /**
   * The external world of one execution: the exit status of each argument list, which paths exist
   * when they are checked, file sizes, whether gzip compression and the mongodb archiving raise,
   * and whether the `zstd` program can be started at all.
   */
  datatype Engine = Engine(
    exitOk: seq<string> -> bool,
    present: string -> bool,
    sizeOf: string -> nat,
    gzipOk: bool,
    archiveOk: bool,
    zstdLaunches: bool)

  /** The argument list of `_backup_postgres`: `pg_dump`, or `pg_dumpall` for every database. */
  function PgDumpArgs(c: Policy, dir: string, ts: string): seq<string> {
    [if c.database == AllDatabases then "pg_dumpall" else "pg_dump"]
    + ["-h", c.host, "-p", PortText(c.port)] + UserArgs("-U", c.user)
    + (if c.database == AllDatabases then [] else ["-d", c.database])
    + Split(c.extraArgs) + ["-f", Join(dir, SqlDumpName(c.database, ts))]
  }

  /** The argument list of `_backup_mysql`; the dump goes to standard output. */
  function MySqlDumpArgs(c: Policy): seq<string> {
    ["mysqldump", "-h", c.host, "-P", PortText(c.port)] + UserArgs("-u", c.user)
    + (if Truthy(c.password) then ["-p" + c.password.value] else [])
    + [if c.database == AllDatabases then "--all-databases" else c.database]
    + Split(c.extraArgs)
  }

  /** The argument list of `_backup_mongodb`, dumping into the working directory `dir/{database}_{ts}`. */
  function MongoDumpArgs(c: Policy, dir: string, ts: string): seq<string> {
    ["mongodump", "--host", c.host, "--port", PortText(c.port)] + UserArgs("-u", c.user)
    + (if Truthy(c.password) then ["-p", c.password.value, "--authenticationDatabase=admin"] else [])
    + (if c.database != AllDatabases then ["-d", c.database] else [])
    + ["--out", Join(dir, c.database + "_" + ts)] + Split(c.extraArgs)
  }

  /** The `redis-cli` connection arguments both invocations of `_backup_redis` start with. */
  function RedisBase(c: Policy): seq<string> {
    ["redis-cli", "-h", c.host, "-p", PortText(c.port)]
    + (if Truthy(c.password) then ["-a", c.password.value, "--no-auth-warning"] else [])
  }

  /** The name of `_backup_sqlite`'s copy: the source file's stem, the timestamp and `.db`. */
  function SqliteCopyName(database: string, ts: string): string {
    Stem(database) + "_" + ts + ".db"
  }

  /** The argument list of `_backup_sqlite`: the copy is named after the source file's stem. */
  function SqliteArgs(c: Policy, dir: string, ts: string): seq<string> {
    ["sqlite3", c.database, ".backup " + Join(dir, SqliteCopyName(c.database, ts))]
  }

  /**
   * The external programs `_run_backup` starts for a policy, in order, when none of them fails:
   * one dump, or for redis `BGSAVE` and then the `--rdb` fetch. An unsupported kind starts none.
   */
  function Invocations(c: Policy, dir: string, ts: string): (runs: seq<seq<string>>)
    ensures runs == [] <==> KindOf(c.dbType).None?
  {
    match KindOf(c.dbType)
    case None => []
    case Some(Postgres) => [PgDumpArgs(c, dir, ts)]
    case Some(MySql) => [MySqlDumpArgs(c)]
    case Some(MongoDb) => [MongoDumpArgs(c, dir, ts)]
    case Some(Redis) => [RedisBase(c) + ["BGSAVE"], RedisBase(c) + ["--rdb", Join(dir, "dump_" + ts + ".rdb")]]
    case Some(Sqlite) => [SqliteArgs(c, dir, ts)]
  }

  /** `_backup_postgres`: `pg_dump`, or `pg_dumpall` for every database; the password goes in `PGPASSWORD`. */
  method PostgresCommand(c: Policy, dir: string, ts: string) returns (cmd: seq<string>, pgPassword: Option<string>, file: string)
    ensures file == Join(dir, SqlDumpName(c.database, ts))
    ensures pgPassword == (if Truthy(c.password) then c.password else None)
    ensures cmd == PgDumpArgs(c, dir, ts) && cmd[|cmd| - 2..] == ["-f", file]
  {
    file := Join(dir, c.database + "_" + ts + ".sql");
    pgPassword := None;
    if Truthy(c.password) {
      pgPassword := c.password;
    }
    ghost var tool := if c.database == AllDatabases then "pg_dumpall" else "pg_dump";
    ghost var expected := [tool] + ["-h", c.host, "-p", PortText(c.port)] + UserArgs("-U", c.user);
    if c.database == AllDatabases {
      cmd := ["pg_dumpall"];
      cmd := cmd + ["-h", c.host];
      cmd := cmd + ["-p", PortText(c.port)];
      if Truthy(c.user) {
        cmd := cmd + ["-U", c.user.value];
      }
      assert cmd == expected;
      file := Join(dir, "all_databases_" + ts + ".sql");
    } else {
      cmd := ["pg_dump"];
      cmd := cmd + ["-h", c.host];
      cmd := cmd + ["-p", PortText(c.port)];
      if Truthy(c.user) {
        cmd := cmd + ["-U", c.user.value];
      }
      assert cmd == expected;
      cmd := cmd + ["-d", c.database];
    }
    expected := expected + (if c.database == AllDatabases then [] else ["-d", c.database]);
    assert cmd == expected;
    if c.extraArgs != "" {
      cmd := cmd + Split(c.extraArgs);
    }
    expected := expected + Split(c.extraArgs);
    assert cmd == expected;
    cmd := cmd + ["-f", file];
  }

  /** `_backup_mysql`: `mysqldump` writing to the artifact on standard output. */
  method MySqlCommand(c: Policy, dir: string, ts: string) returns (cmd: seq<string>, file: string)
    ensures file == Join(dir, SqlDumpName(c.database, ts))
    ensures cmd == MySqlDumpArgs(c) && cmd[0] == "mysqldump"
  {
    file := Join(dir, c.database + "_" + ts + ".sql");
    cmd := ["mysqldump"];
    cmd := cmd + ["-h", c.host];
    cmd := cmd + ["-P", PortText(c.port)];
    ghost var expected := ["mysqldump", "-h", c.host, "-P", PortText(c.port)];
    assert cmd == expected;
    if Truthy(c.user) {
      cmd := cmd + ["-u", c.user.value];
    }
    expected := expected + UserArgs("-u", c.user);
    assert cmd == expected;
    if Truthy(c.password) {
      cmd := cmd + ["-p" + c.password.value];
    }
    expected := expected + (if Truthy(c.password) then ["-p" + c.password.value] else []);
    assert cmd == expected;
    if c.database == AllDatabases {
      cmd := cmd + ["--all-databases"];
      file := Join(dir, "all_databases_" + ts + ".sql");
    } else {
      cmd := cmd + [c.database];
    }
    expected := expected + [if c.database == AllDatabases then "--all-databases" else c.database];
    assert cmd == expected;
    if c.extraArgs != "" {
      cmd := cmd + Split(c.extraArgs);
    }
    assert cmd == expected + Split(c.extraArgs);
  }

  /** `_backup_mongodb`: `mongodump` into a working directory that is then archived as a `.tar`. */
  method MongoCommand(c: Policy, dir: string, ts: string) returns (cmd: seq<string>, outDir: string, archive: string)
    ensures outDir == Join(dir, c.database + "_" + ts)
    ensures archive == Join(dir, c.database + "_" + ts + ".tar")
    ensures cmd == MongoDumpArgs(c, dir, ts) && archive == outDir + ".tar"
  {
    outDir := Join(dir, c.database + "_" + ts);
    cmd := ["mongodump"];
    cmd := cmd + ["--host", c.host];
    cmd := cmd + ["--port", PortText(c.port)];
    ghost var expected := ["mongodump", "--host", c.host, "--port", PortText(c.port)];
    assert cmd == expected;
    if Truthy(c.user) {
      cmd := cmd + ["-u", c.user.value];
    }
    expected := expected + UserArgs("-u", c.user);
    assert cmd == expected;
    if Truthy(c.password) {
      cmd := cmd + ["-p", c.password.value];
      cmd := cmd + ["--authenticationDatabase=admin"];
    }
    expected := expected + (if Truthy(c.password) then ["-p", c.password.value, "--authenticationDatabase=admin"] else []);
    assert cmd == expected;
    if c.database != AllDatabases {
      cmd := cmd + ["-d", c.database];
    }
    expected := expected + (if c.database != AllDatabases then ["-d", c.database] else []);
    assert cmd == expected;
    cmd := cmd + ["--out", outDir];
    expected := expected + ["--out", outDir];
    assert cmd == expected;
    if c.extraArgs != "" {
      cmd := cmd + Split(c.extraArgs);
    }
    assert cmd == expected + Split(c.extraArgs);
    archive := Join(dir, c.database + "_" + ts + ".tar");
  }

  /** `_backup_redis`: `BGSAVE`, then fetch the snapshot with `--rdb`; extra arguments are not used. */
  method RedisCommands(c: Policy, dir: string, ts: string) returns (save: seq<string>, fetch: seq<string>, file: string)
    ensures file == Join(dir, "dump_" + ts + ".rdb")
    ensures save == RedisBase(c) + ["BGSAVE"] && fetch == RedisBase(c) + ["--rdb", file]
  {
    file := Join(dir, "dump_" + ts + ".rdb");
    var cmd := ["redis-cli"];
    cmd := cmd + ["-h", c.host];
    cmd := cmd + ["-p", PortText(c.port)];
    if Truthy(c.password) {
      cmd := cmd + ["-a", c.password.value];
      cmd := cmd + ["--no-auth-warning"];
    }
    save := cmd + ["BGSAVE"];
    fetch := cmd + ["--rdb", file];
  }

  /** `_backup_sqlite`: the database label is the source file; the copy is named after its stem. */
  method SqliteCommand(c: Policy, dir: string, ts: string) returns (cmd: seq<string>, file: string)
    ensures file == Join(dir, SqliteCopyName(c.database, ts))
    ensures cmd == SqliteArgs(c, dir, ts) && cmd[2] == ".backup " + file
  {
    file := Join(dir, SqliteCopyName(c.database, ts));
    cmd := ["sqlite3", c.database, ".backup " + file];
  }

  /**
   * `_run_backup`: the artifact the kind's dump produced, or `None` when the kind is unsupported,
   * a tool exits non-zero, the sqlite source is missing, or archiving raises. `ran` lists the
   * programs started, in order: the kind's `Invocations` up to and including the first that fails.
   */
  method RunBackup(c: Policy, dir: string, ts: string, eng: Engine) returns (artifact: Option<string>, ran: seq<seq<string>>)
    ensures ran <= Invocations(c, dir, ts)
    ensures forall i :: 0 <= i < |ran| - 1 ==> eng.exitOk(ran[i])
    ensures 0 < |ran| < |Invocations(c, dir, ts)| ==> !eng.exitOk(ran[|ran| - 1])
    ensures KindOf(c.dbType) == Some(Sqlite) ==> (ran == [] <==> !eng.present(c.database))
    ensures KindOf(c.dbType).Some? && KindOf(c.dbType) != Some(Sqlite) ==> ran != []
    ensures artifact.Some? ==> artifact == ArtifactPath(c, dir, ts) && ran == Invocations(c, dir, ts)
    ensures artifact.Some? <==>
      && KindOf(c.dbType).Some?
      && (forall x :: x in Invocations(c, dir, ts) ==> eng.exitOk(x))
      && (KindOf(c.dbType) == Some(Sqlite) ==> eng.present(c.database))
      && (KindOf(c.dbType) == Some(MongoDb) ==> eng.archiveOk)
  {
    var kind := KindOf(c.dbType);
    match kind
    case None =>
      artifact, ran := None, [];
    case Some(Postgres) =>
      var cmd, pgPassword, file := PostgresCommand(c, dir, ts);
      assert ArtifactPath(c, dir, ts) == Some(file) && Invocations(c, dir, ts) == [cmd];
      ran := [cmd];
      artifact := if eng.exitOk(cmd) then Some(file) else None;
    case Some(MySql) =>
      var cmd, file := MySqlCommand(c, dir, ts);
      assert ArtifactPath(c, dir, ts) == Some(file) && Invocations(c, dir, ts) == [cmd];
      ran := [cmd];
      artifact := if eng.exitOk(cmd) then Some(file) else None;
    case Some(MongoDb) =>
      var cmd, outDir, archive := MongoCommand(c, dir, ts);
      assert ArtifactPath(c, dir, ts) == Some(archive) && Invocations(c, dir, ts) == [cmd];
      ran := [cmd];
      if !eng.exitOk(cmd) || !eng.archiveOk {
        artifact := None;
      } else {
        artifact := Some(archive);
      }
    case Some(Redis) =>
      artifact, ran := RunRedis(c, dir, ts, eng);
    case Some(Sqlite) =>
      artifact, ran := RunSqlite(c, dir, ts, eng);
  }

  /** For a redis policy `BGSAVE` comes first, then the `--rdb` fetch into `dump_<ts>.rdb`. */
  lemma RedisPlan(c: Policy, dir: string, ts: string)
    requires KindOf(c.dbType) == Some(Redis)
    ensures ArtifactPath(c, dir, ts) == Some(Join(dir, "dump_" + ts + ".rdb"))
    ensures Invocations(c, dir, ts) == [RedisBase(c) + ["BGSAVE"], RedisBase(c) + ["--rdb", Join(dir, "dump_" + ts + ".rdb")]]
  {
  }

  /** `_backup_redis`: the fetch runs only after `BGSAVE` succeeded. */
  method RunRedis(c: Policy, dir: string, ts: string, eng: Engine) returns (artifact: Option<string>, ran: seq<seq<string>>)
    requires KindOf(c.dbType) == Some(Redis)
    ensures ran <= Invocations(c, dir, ts) && ran != []
    ensures 0 < |ran| < |Invocations(c, dir, ts)| ==> !eng.exitOk(ran[|ran| - 1])
    ensures forall i :: 0 <= i < |ran| - 1 ==> eng.exitOk(ran[i])
    ensures artifact.Some? ==> artifact == ArtifactPath(c, dir, ts) && ran == Invocations(c, dir, ts)
    ensures artifact.Some? <==> forall x :: x in Invocations(c, dir, ts) ==> eng.exitOk(x)
  {
    var save, fetch, file := RedisCommands(c, dir, ts);
    RedisPlan(c, dir, ts);
    ran := [save];
    if !eng.exitOk(save) {
      artifact := None;
    } else {
      ran := ran + [fetch];
      artifact := if eng.exitOk(fetch) then Some(file) else None;
    }
  }

  /** For a sqlite policy the one invocation is `sqlite3 .backup` onto the stem-named copy. */
  lemma SqlitePlan(c: Policy, dir: string, ts: string)
    requires KindOf(c.dbType) == Some(Sqlite)
    ensures ArtifactPath(c, dir, ts) == Some(Join(dir, SqliteCopyName(c.database, ts)))
    ensures Invocations(c, dir, ts) == [SqliteArgs(c, dir, ts)]
  {
  }

  /** `_backup_sqlite`: nothing runs when the source file is missing. */
  method RunSqlite(c: Policy, dir: string, ts: string, eng: Engine) returns (artifact: Option<string>, ran: seq<seq<string>>)
    requires KindOf(c.dbType) == Some(Sqlite)
    ensures ran <= Invocations(c, dir, ts)
    ensures ran == [] <==> !eng.present(c.database)
    ensures artifact.Some? ==> artifact == ArtifactPath(c, dir, ts) && ran == Invocations(c, dir, ts)
    ensures artifact.Some? <==> eng.present(c.database) && forall x :: x in Invocations(c, dir, ts) ==> eng.exitOk(x)
  {
    if !eng.present(c.database) {
      artifact, ran := None, [];
    } else {
      var cmd, file := SqliteCommand(c, dir, ts);
      SqlitePlan(c, dir, ts);
      ran := [cmd];
      artifact := if eng.exitOk(cmd) then Some(file) else None;
    }
  }

  /**
   * The path `_compress_backup` returns: the `.gz` or `.zst` sibling of the artifact, or the
   * artifact itself for `none` and for an unrecognised setting.
   */
  function CompressedPath(compression: string, artifact: string): (p: string)
    ensures compression == "gzip" ==> p == artifact + ".gz"
    ensures compression == "zstd" ==> p == artifact + ".zst"
    ensures compression != "gzip" && compression != "zstd" ==> p == artifact
  {
    AppendExtension(artifact, ".gz");
    AppendExtension(artifact, ".zst");
    if compression == "none" then artifact
    else if compression == "gzip" then WithSuffix(artifact, Suffix(artifact) + ".gz")
    else if compression == "zstd" then WithSuffix(artifact, Suffix(artifact) + ".zst")
    else artifact
  }

  /**
   * `_compress_backup`: `None` when it raises, that is when gzip raises or the `zstd` program
   * cannot be started. The zstd invocation is returned in `codec`; its exit status is never
   * looked at.
   */
  method Compress(c: Policy, artifact: string, eng: Engine) returns (compressed: Option<string>, codec: seq<string>)
    ensures compressed == (if (c.compression == "gzip" && !eng.gzipOk) || (c.compression == "zstd" && !eng.zstdLaunches)
                           then None
                           else Some(CompressedPath(c.compression, artifact)))
    ensures codec == (if c.compression == "zstd" then ["zstd", "-q", "--rm", artifact, "-o", artifact + ".zst"] else [])
  {
    codec := [];
    if c.compression == "none" {
      compressed := Some(artifact);
    } else if c.compression == "gzip" {
      var target := WithSuffix(artifact, Suffix(artifact) + ".gz");
      compressed := if eng.gzipOk then Some(target) else None;
    } else if c.compression == "zstd" {
      var target := WithSuffix(artifact, Suffix(artifact) + ".zst");
      AppendExtension(artifact, ".zst");
      codec := ["zstd", "-q", "--rm", artifact, "-o", target];
      compressed := if eng.zstdLaunches then Some(target) else None;
    } else {
      compressed := Some(artifact);
    }
  }

  /** One entry of the backup directory. */
  datatype FileEntry = FileEntry(name: string, mtime: Time, isFile: bool)

  /** A regular file modified strictly before `now - days` days. */
  predicate Expired(e: FileEntry, days: int, now: Time) {
    e.isFile && e.mtime < now - days * Day
  }

  /** An entry survives the prune: pruning is off for `days <= 0`, otherwise it is not expired. */
  predicate Survives(e: FileEntry, days: int, now: Time) {
    days <= 0 || !Expired(e, days, now)
  }

  /** The largest day count `timedelta` accepts. */
  const MaxTimedeltaDays: int := 999999999

  /**
   * `datetime.now() - timedelta(days=days)` raises `OverflowError`: the day count is beyond what
   * `timedelta` holds, or the cutoff falls before `datetime.min`.
   */
  predicate CutoffOverflows(days: int, now: Time) {
    days > MaxTimedeltaDays || now - days * Day < MinInstant
  }

  /**
   * `_cleanup_old_backups`: nothing is removed when retention is off; `raised` when computing the
   * cutoff overflows, and then nothing is removed either; otherwise exactly the expired regular
   * files are removed. Directories and files not older than `now` always stay.
   */
  method PruneOldBackups(dir: set<FileEntry>, days: int, now: Time) returns (kept: set<FileEntry>, raised: bool)
    ensures raised <==> days > 0 && CutoffOverflows(days, now)
    ensures raised ==> kept == dir
    ensures !raised ==> forall e :: e in kept <==> e in dir && Survives(e, days, now)
    ensures days <= 0 ==> kept == dir
    ensures forall e :: e in dir && (!e.isFile || e.mtime >= now) ==> e in kept
  {
    if days <= 0 {
      return dir, false;
    }
    if days > MaxTimedeltaDays || now - days * Day < MinInstant {
      return dir, true;
    }
    raised := false;
    kept := dir;
    var pending := dir;
    while pending != {}
      invariant pending <= dir
      invariant forall e :: e in kept <==> e in dir && (e in pending || !Expired(e, days, now))
      decreases pending
    {
      var e :| e in pending;
      if e.isFile && e.mtime < now - days * Day {
        kept := kept - {e};
      }
      pending := pending - {e};
    }
  }

  /** What `execute` returns, and the clock reading after it. */
  datatype Outcome = Outcome(success: bool, duration: int, size: int, finishedAt: Time)

  /** Size of the final file, 0 when it does not exist. */
  function SizeIfPresent(eng: Engine, path: string): nat {
    if eng.present(path) then eng.sizeOf(path) else 0
  }

  /**
   * `execute`: dump, compress, prune, report. Any failure, or an exception, reports no success and
   * size 0 and leaves the directory alone. A success reports the size of the compressed file (0
   * when the codec produced nothing) after pruning the backup directory at `prunedAt`.
   */
  method Execute(c: Policy, root: string, ts: string, eng: Engine, dir: set<FileEntry>,
                 started: Time, prunedAt: Time, finished: Time)
    returns (o: Outcome, kept: set<FileEntry>)
    ensures o.duration == finished - started && o.finishedAt == finished
    ensures !o.success ==> o.size == 0 && kept == dir
    ensures o.success ==> KindOf(c.dbType).Some?
    ensures o.success ==> forall x :: x in Invocations(c, BackupDir(root, c), ts) ==> eng.exitOk(x)
    ensures o.success ==> (KindOf(c.dbType) == Some(Sqlite) ==> eng.present(c.database))
                          && (KindOf(c.dbType) == Some(MongoDb) ==> eng.archiveOk)
    ensures var artifact := ArtifactPath(c, BackupDir(root, c), ts);
      o.success ==> && artifact.Some? && eng.present(artifact.value)
                    && (c.compression == "gzip" ==> eng.gzipOk)
                    && (c.compression == "zstd" ==> eng.zstdLaunches)
                    && !(c.retentionDays > 0 && CutoffOverflows(c.retentionDays, prunedAt))
                    && o.size == SizeIfPresent(eng, CompressedPath(c.compression, artifact.value))
    ensures o.success ==> forall e :: e in kept <==> e in dir && Survives(e, c.retentionDays, prunedAt)
    ensures var artifact := ArtifactPath(c, BackupDir(root, c), ts);
      (&& artifact.Some? && eng.present(artifact.value)
       && (forall x :: x in Invocations(c, BackupDir(root, c), ts) ==> eng.exitOk(x))
       && (KindOf(c.dbType) == Some(Sqlite) ==> eng.present(c.database))
       && (KindOf(c.dbType) == Some(MongoDb) ==> eng.archiveOk)
       && (c.compression == "gzip" ==> eng.gzipOk)
       && (c.compression == "zstd" ==> eng.zstdLaunches)
       && !(c.retentionDays > 0 && CutoffOverflows(c.retentionDays, prunedAt))) ==> o.success
  {
    var backupDir := BackupDir(root, c);
    var artifact, ran := RunBackup(c, backupDir, ts, eng);
    if artifact.Some? && eng.present(artifact.value) {
      var compressed, codec := Compress(c, artifact.value, eng);
      if compressed.None? {
        o := Outcome(false, finished - started, 0, finished);
        kept := dir;
        return;
      }
      var final := compressed.value;
      var size := if eng.present(final) then eng.sizeOf(final) else 0;
      var raised;
      kept, raised := PruneOldBackups(dir, c.retentionDays, prunedAt);
      if raised {
        o := Outcome(false, finished - started, 0, finished);
        return;
      }
      o := Outcome(true, finished - started, size, finished);
    } else {
      o := Outcome(false, finished - started, 0, finished);
      kept := dir;
    }
  }
}
