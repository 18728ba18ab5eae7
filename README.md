# Database backup manager — a Dafny model

This project models the core of `backup_manager.py`, a daemon that backs up the databases of
running Docker containers. Each container opts in through labels such as `db-backup.enable`,
`db-backup.type` and `db-backup.schedule`. The model covers these parts:

- **Metrics** (`metrics.dfy`, class `BackupMetrics`): the store of one record per
  `"{container}_{database}"` key. It covers the upserts `record_backup`, `update_schedule` and
  `init_container`, the container count, and the values the JSON status and the Prometheus
  gauges derive from a record.
- **Config** (`config.dfy`, class `BackupConfig`): one target's policy. It covers the
  `DEFAULT_PORTS` table, kind normalisation, the defaults applied by `__post_init__`, and the
  cron recomputation `_update_next_run`.
- **Executor** (`executor.dfy`): the `BackupExecutor` pipeline. It covers dispatch on the kind,
  the argument list and artifact name of each dump tool, gzip/zstd compression, the retention
  prune, and `execute`.
- **Manager** (`manager.dfy`, class `BackupManager`): these methods:
  - `scan_containers` turns labels into policies, carries `last_run` forward and initialises
    metrics.
  - `check_and_run_backups` runs every due policy, advances its schedule and records the outcome.
  - `run_backup_now` is the manual trigger.
  - `list_configs` summarises the policies.
- **Text** and **Paths** (`text.dfy`, `paths.dfy`): the parts of Python's `str` and `pathlib`
  that the code relies on. These are `strip`, `split()`, `lower`, `int()`, `str(int)`, `name`,
  `suffix`, `stem` and `with_suffix`.

The outside world is a parameter:
- The cron library is a function `Cron = (schedule, instant) -> Option<instant>`. `None` stands
  for a rejected expression.
- The clock is explicit instants.
- A dump run is a function `Policy -> Outcome`.
- The exit statuses of the dump tools, file existence and sizes, gzip and archiving errors, and
  whether the `zstd` program can be started are an `Engine` value.
- The Docker registry is a sequence of `Container` values.
- Readable files are a map from path to content.

Scanning is specified by a function `Scan` over a prefix of the registry. A tick is specified by
`Ticked` and `TickRecords`. The `BackupManager` methods are proved against those functions. The
functions' properties are then proved as lemmas: one policy per container, `last_run` carried,
records never lost, abort semantics, and idempotence of rescanning.

## Model

| member | source | states |
|---|---|---|
| Metrics.Recorded | backup_manager.py:85-102 | `record_backup` replaces only the key's record. It adds one to `total_backups`, and one to `total_failures` exactly on failure. `last_success` is 1 or 0, `next_scheduled` is the run's timestamp or 0, and every other key is untouched. |
| Metrics.Rescheduled | backup_manager.py:104-122 | `update_schedule` creates an `unknown`-typed never-run record for a new key. For an existing key it changes only `next_scheduled`. Other keys are untouched. |
| Metrics.Initialized | backup_manager.py:124-143 | `init_container` creates a never-run record (-1, zero counters) for a new key. For an existing key it refreshes only `db_type` and `next_scheduled`, keeping counters and the last outcome. |
| Metrics.Fresh | backup_manager.py:128-140 | A never-run record has last_success -1, zero counters, zero timestamps and the schedule stamp. |
| Metrics.RecordedConsistent | backup_manager.py:85-102 | `record_backup` preserves the store invariant. Records are filed under their own key, success is -1/0/1, never-run holds iff no attempts, and failures ≤ attempts. |
| Metrics.RescheduledConsistent | backup_manager.py:104-122 | `update_schedule` preserves the store invariant. |
| Metrics.InitializedConsistent | backup_manager.py:124-143 | `init_container` preserves the store invariant. |
| Metrics.KeysCollide | backup_manager.py:90 | Two different (container, database) pairs can map to the same key `"a_b_c"`. |
| Metrics.InitThenFailure | backup_manager.py:85-143 | `init("db1","postgres","all")` followed by a failed record gives last_success 0, one attempt and one failure. |
| Metrics.StatusOf | backup_manager.py:218-239 | A JSON status entry's `last_success` is null iff the gauge is negative and true iff it is 1. `last_backup`/`next_backup` are null iff their timestamps are not positive. Counters are copied. |
| Metrics.StatusNullIffNeverRun | backup_manager.py:228 | For a well-formed record, `last_success` is null exactly when no attempt was counted, and false exactly after a failure. |
| Metrics.BackupMetrics.StatusesNullIffNeverRun | backup_manager.py:218-239 | In a consistent store, every entry of the JSON status has a null `last_success` exactly when its target was never attempted, and false exactly after a failed last attempt. |
| Metrics.SecondsUntilNext | backup_manager.py:203-206 | The seconds-until gauge is emitted iff something is scheduled. It is `max(0, next - now)`: the distance to the scheduled time when that time is not past, and 0 when it is. |
| Metrics.SecondsSinceLast | backup_manager.py:207-210 | The seconds-since gauge is emitted iff an attempt was recorded, and it is `now` minus that attempt's time. |
| Metrics.BackupMetrics.constructor | backup_manager.py:75-79 | A new store is empty, monitors 0 containers, and satisfies the invariant. |
| Metrics.BackupMetrics.SetContainersCount | backup_manager.py:81-83 | Sets the monitored count. |
| Metrics.BackupMetrics.RecordBackup | backup_manager.py:85-102 | The store becomes `Recorded` of the old store, and the invariant is kept. |
| Metrics.BackupMetrics.UpdateSchedule | backup_manager.py:104-122 | The store becomes `Rescheduled` of the old store, and the invariant is kept. |
| Metrics.BackupMetrics.InitContainer | backup_manager.py:124-143 | The store becomes `Initialized` of the old store, and the invariant is kept. |
| Config.DefaultPort | backup_manager.py:56-65 | The table gives no port exactly for sqlite and unknown kinds. Every port it gives is positive. |
| Config.NormalizeKind | backup_manager.py:336-343 | The kind is lower-cased. `postgresql` becomes `postgres` and `mongo` becomes `mongodb`, and every other spelling is kept lower-cased. No alias survives. |
| Config.NormalizeKindIdempotent | backup_manager.py:336-343 | Normalising a normalised kind changes nothing. |
| Config.DefaultPortAfterNormalization | backup_manager.py:56-65 | Every spelling in `DEFAULT_PORTS`, normalised, has the port the table lists for that spelling, so alias rows agree with their canonical rows. |
| Config.Construct | backup_manager.py:336-353 | After `__post_init__`, the kind is normalised and a missing port becomes the kind's default. A missing host becomes the container name, `last_run` is unset, and `next_run` is the cron time after construction (`None` if rejected). All other fields are kept. |
| Config.ServerKindsGetDefaultPort | backup_manager.py:345-347 | Any server kind in any letter case, with no port given, gets a port. |
| Config.BackupConfig.constructor | backup_manager.py:336-353 | The new object's value is `Construct` of its arguments. |
| Config.BackupConfig.UpdateNextRun | backup_manager.py:355-362 | `next_run` becomes the cron time after the given instant, or `None` for a rejected schedule. Nothing else changes. |
| Text.LowerIdempotent | backup_manager.py:338 | Lower-casing is idempotent and leaves no upper-case ASCII letter. |
| Text.Lower | backup_manager.py:338 | `str.lower()` on ASCII, character by character; its properties are `LowerIdempotent`. |
| Text.Strip | backup_manager.py:650 | Trimming by a whitespace predicate: `strip()` with `str.isspace`, and the trimming of `int()` with its narrower set. The result is empty iff the text is all whitespace. Otherwise it is the slice that starts right after the leading whitespace and is followed only by whitespace, and it starts and ends with non-whitespace. Text already stripped is unchanged. |
| Text.Split | backup_manager.py:448 | Every token of `split()` is a non-empty run of non-whitespace. |
| Text.SplitSqueezed | backup_manager.py:448 | The words of `split()`, joined by single spaces, are the text with each whitespace run collapsed to one space and leading and trailing whitespace dropped. With `Split`'s contract, this fixes the words. |
| Text.SqueezedSplit | backup_manager.py:448 | The whitespace-collapsing scan, from the start of the text or after a word, gives the words of `split()` joined by single spaces. |
| Text.SplitUnwords | backup_manager.py:448 | Splitting words joined by spaces gives back the same words. |
| Text.ParseInt | backup_manager.py:662-663 | `int()` succeeds exactly on text that, stripped of the whitespace `int()` skips (`str.isspace` except U+001C..U+001F), is digits with an optional `+` or `-` sign before at least one digit. The value is the digits' decimal value, negated after `-`. |
| Text.ParseIntRoundTrip | backup_manager.py:662 | `int(str(n)) == n` for every integer `n`. |
| Text.IntKeepsSeparators | backup_manager.py:662-663 | A port or retention label `"\x1c5"` makes `int()` raise, although `strip()` would reduce it to `"5"`. |
| Text.IntToString | backup_manager.py:435 | `str(n)`: decimal digits, with `-` before a negative number; `ParseIntRoundTrip` reads it back. |
| Paths.Name | backup_manager.py:570 | `Path.name` is a tail of the path with no `/`. |
| Paths.NameAfterLastSlash | backup_manager.py:570 | `Path.name` is everything after the last `/`: the character before it is `/`, and it is the whole path when the path has no `/`. |
| Paths.Suffix | backup_manager.py:587 | `Path.suffix` is non-empty exactly when the final component has a last `.` that is neither its first nor its last character, and then it is the component from that dot on. It is a tail of the path, starts with its only `.`, and is shorter than the component. |
| Paths.TailFromLastDot | backup_manager.py:587 | The text from the last `.` of a final component is a tail of the whole path with no further `.` or `/`. |
| Paths.Stem | backup_manager.py:570 | Stem followed by suffix is the final component. |
| Paths.AppendExtension | backup_manager.py:587 | `p.with_suffix(p.suffix + ext)` is `p + ext`: the compressed file is the artifact's sibling with the extension appended. |
| Paths.Join | backup_manager.py:374 | `Path(dir) / name`: a relative name goes under `dir` after a `/`, and an absolute one replaces `dir`. |
| Paths.WithSuffix | backup_manager.py:587 | `with_suffix(x)`: the path without its suffix, then `x`; `AppendExtension` is what the compressor relies on. |
| Executor.KindOf | backup_manager.py:406-422 | The dispatch picks each dump routine for exactly its kind names (`mysql` or `mariadb` for MySQL). Every other kind is unsupported. |
| Executor.SupportedSpellings | backup_manager.py:406-422 | A kind label reaches a dump routine exactly when, lower-cased, it is one of the eight listed spellings. |
| Executor.DispatchedKindsHavePorts | backup_manager.py:56-65 | Every dispatched kind except sqlite has a default port. |
| Executor.BackupDir | backup_manager.py:374 | The backup directory is `root/<container name>/<kind>`. |
| Executor.PortText | backup_manager.py:435 | `str(port)`: the port's decimal text, or `None` when no port is set. |
| Executor.ArtifactPath | backup_manager.py:424-579 | An artifact path exists exactly for a supported kind. |
| Executor.ArtifactPathShape | backup_manager.py:424-579 | Each kind's artifact is `prefix + timestamp + extension` in the backup directory. |
| Executor.ArtifactPathsDistinct | backup_manager.py:384 | Two runs of one policy whose timestamps differ (same `%Y%m%d_%H%M%S` width) write different files. Two runs in the same second get the same name. |
| Executor.PgDumpArgs | backup_manager.py:432-450 | The exact `pg_dump`/`pg_dumpall` argument list: host, port text, optional user, `-d` unless `all`, the split extra arguments, then `-f file`. |
| Executor.MySqlDumpArgs | backup_manager.py:464-481 | The exact `mysqldump` argument list, with `-p<password>` glued to the password and `--all-databases` for `all`. |
| Executor.MongoDumpArgs | backup_manager.py:497-514 | The exact `mongodump` argument list, with `--authenticationDatabase=admin` after a password and `--out` the dump directory. |
| Executor.RedisBase | backup_manager.py:533-539 | The `redis-cli` base shared by both invocations, with `--no-auth-warning` after a password. |
| Executor.SqliteCopyName | backup_manager.py:570 | The sqlite copy is named `<stem of the source>_<timestamp>.db`. |
| Executor.SqliteArgs | backup_manager.py:572 | `sqlite3 <source> ".backup <file>"`. |
| Executor.Invocations | backup_manager.py:406-579 | The programs a kind starts when none fails, in order: one dump, or for redis `BGSAVE` then the `--rdb` fetch. None for an unsupported kind. |
| Executor.PostgresCommand | backup_manager.py:424-458 | The argument list is `PgDumpArgs`, ending in `-f file`. `PGPASSWORD` is set only for a non-empty password, and the file name follows the `all_databases_` rule. |
| Executor.MySqlCommand | backup_manager.py:460-491 | The argument list is `MySqlDumpArgs`, and the file follows the `all_databases_` rule. |
| Executor.MongoCommand | backup_manager.py:493-527 | The argument list is `MongoDumpArgs`, and the archive is the dump directory plus `.tar`. |
| Executor.RedisCommands | backup_manager.py:529-560 | The `BGSAVE` and `--rdb file` invocations are `RedisBase` plus their own arguments, so they ignore the extra arguments. |
| Executor.SqliteCommand | backup_manager.py:562-579 | The invocation is `SqliteArgs`: `sqlite3 <source> ".backup <file>"`, with the copy named after the source's stem. |
| Executor.RunBackup | backup_manager.py:406-579 | `ran` is a prefix of the kind's `Invocations`, each one but the last exited zero, and a shorter prefix ends at a non-zero exit. An artifact is produced exactly when the kind is supported, every invocation exits zero, the sqlite source exists and the mongodb archive is made; it is then the kind's `ArtifactPath`. |
| Executor.RedisPlan | backup_manager.py:529-560 | A redis policy's artifact is `dump_<ts>.rdb` and its invocations are `BGSAVE` then the `--rdb` fetch. |
| Executor.RunRedis | backup_manager.py:541-560 | `BGSAVE` runs first, and the fetch only after it exits zero. The artifact is produced exactly when both exit zero. |
| Executor.SqlitePlan | backup_manager.py:562-579 | A sqlite policy's artifact is the stem-named copy, and its one invocation is `SqliteArgs`. |
| Executor.RunSqlite | backup_manager.py:564-579 | Nothing runs when the source file is missing. The artifact is produced exactly when it exists and `sqlite3` exits zero. |
| Executor.CompressedPath | backup_manager.py:581-600 | gzip gives `artifact.gz` and zstd gives `artifact.zst`. `none` and unrecognised settings give the artifact itself. |
| Executor.Compress | backup_manager.py:581-600 | The result is `None` exactly when gzip raises or the `zstd` program cannot be started, and otherwise `CompressedPath`. The zstd invocation is exactly `zstd -q --rm <artifact> -o <artifact>.zst`, and its exit status is not looked at. |
| Executor.PruneOldBackups | backup_manager.py:602-614 | Retention off (`<= 0`) keeps everything. Otherwise it raises exactly when the cutoff overflows, and then removes nothing; if not, an entry is kept iff it is not a regular file older than the cutoff. Directories and files not older than now always stay. |
| Executor.CutoffOverflows | backup_manager.py:607 | `now - timedelta(days=d)` raises when `d` exceeds 999999999 or the result falls before `datetime.min`. |
| Executor.Execute | backup_manager.py:377-404 | A failure reports size 0 and leaves the directory alone. It succeeds exactly when all of these hold: the kind is supported and has an artifact path, every invocation exits zero, the artifact exists, the sqlite source file exists (sqlite), the tar archive of the dump is made (mongodb), gzip does not raise (gzip), the zstd program starts (zstd), and the retention cutoff does not overflow. A success reports the compressed file's size (0 if absent), after pruning. The duration is end minus start. |
| Manager.Label | backup_manager.py:637-648 | A label lookup finds a value iff `prefix.key` is present, and returns that value. |
| Manager.ResolvePassword | backup_manager.py:646-649 | A non-empty `password-file` naming an existing file wins, with its content stripped. Otherwise the result is the `password` label. |
| Manager.PortLabel | backup_manager.py:662 | An absent port label means no port. A label `int` rejects gives an error. A label that parses to 0 means no port, and a label that parses to any other `n` gives port `n`. |
| Manager.RetentionLabel | backup_manager.py:663 | An absent label means 7 days, and otherwise the value is `int` of the label, or an error. |
| Manager.CandidateOf | backup_manager.py:632-665 | A container is skipped iff backup is not enabled or the type is empty. It is malformed iff enabled, typed, and the port or retention label is rejected by `int`. Otherwise every `BackupConfig` argument is its label or that label's default. |
| Manager.PortLabelRoundTrip | backup_manager.py:662 | A port label written as `str(n)` reads back as port `n`, and `"0"` as no port. |
| Manager.IndexOfId | backup_manager.py:669 | Finds the first policy of a container id, and is absent iff the id is not present. |
| Manager.PutById | backup_manager.py:673 | Storing by id keeps every other policy, adds exactly the new id, and keeps ids distinct. |
| Manager.PutByIdPositions | backup_manager.py:673 | Dictionary order is kept: a known container's policy is replaced in its place, a new one goes last, the length grows only for a new id, and every other position is unchanged. |
| Manager.PutConfig | backup_manager.py:673 | The config objects after storing have the values `PutById` gives. |
| Manager.Admit | backup_manager.py:652-670 | A kept policy is the constructed one with the previous `last_run` of the same container, and `next_run` recomputed at the scan. |
| Manager.ScanConfigs | backup_manager.py:628-682 | A scan keeps distinct container ids. Each policy is admitted from an accepted container. Ids are within the accepted ones, and equal to them when the scan did not abort. |
| Manager.ScanCarriesLastRun | backup_manager.py:667-670 | Every kept policy carries its container's previous `last_run` and the cron time after the scan. |
| Manager.ScanStepRecords | backup_manager.py:676 | One scan iteration loses no record, keeps counters and last outcomes, and gives each kept policy a record. |
| Manager.ScanRecords | backup_manager.py:632-678 | After a scan no record is lost, counters and last outcomes are untouched, and every kept policy has a record under its key. |
| Manager.AbortPersists | backup_manager.py:662-663 | Once `int` has raised, the rest of the registry changes nothing. |
| Manager.ScanDependsOnLastRuns | backup_manager.py:628-682 | A scan's policies depend on the previous policies only through the `last_run` carried for accepted ids. |
| Manager.ScanIdempotent | backup_manager.py:628-682 | Rescanning an unchanged registry at the same instant keeps exactly the same policies, `last_run` included. |
| Manager.Scan | backup_manager.py:628-682 | The scan over the first `n` containers of the registry, as a fold of `ScanStep`; its properties are the `Scan*` lemmas. |
| Manager.ScanStep | backup_manager.py:632-678 | One container: skipped, aborting on a label `int` rejects, or admitted, stored by id and its metrics initialised. |
| Manager.Ticked | backup_manager.py:689-696 | A tick changes only `last_run` and `next_run`. A policy that is not due is unchanged. A due one gets `last_run = now` and `next_run` = the cron time after the backup finished. |
| Manager.Due | backup_manager.py:689 | A policy is due when it has a `next_run` and `now` is not before it. |
| Manager.TickRecords | backup_manager.py:688-707 | The store after ticking the first `n` policies in order; its properties are `TickRecordAt` and `TickRecordsElsewhere`. |
| Manager.TickRecordsElsewhere | backup_manager.py:684-712 | A key that belongs to no ticked policy keeps its record. |
| Manager.TickRecordAt | backup_manager.py:684-712 | With distinct keys, a tick adds exactly one attempt per due policy and one failure iff its backup failed, and sets the last outcome and next schedule. A policy that is not due keeps its record. |
| Manager.TickedNotDueAgain | backup_manager.py:689-696 | A ticked policy is not due again at the same instant, given a cron library that answers only later times. |
| Manager.FirstNamed | backup_manager.py:716-717 | Finds the first policy whose container has the name, or reports that none does. |
| Manager.Values | backup_manager.py:626 | The policy values of the config objects, position by position. |
| Manager.BackupManager.constructor | backup_manager.py:624-626 | A new manager has no configs and the given store. |
| Manager.BackupManager.ScanContainers | backup_manager.py:628-682 | On success, configs become `Scan`'s policies and the monitored count becomes their number. When `int` raises, configs and count are untouched and the store keeps the records initialised so far. Ids stay distinct. |
| Manager.BackupManager.Collect | backup_manager.py:632-678 | The loop builds fresh config objects with exactly the values of `Scan`. The store follows `Scan`. It reports the abort. |
| Manager.BackupManager.Visit | backup_manager.py:632-678 | One loop iteration advances the objects and the store by exactly one `ScanStep`. |
| Manager.BackupManager.Accept | backup_manager.py:652-676 | An accepted container's config is stored with `PutById` and its metrics initialised. The monitored count is unchanged. |
| Manager.BackupManager.Admitted | backup_manager.py:652-670 | The new config object's value is `Admit`: constructed, `last_run` carried, `next_run` recomputed. |
| Manager.BackupManager.RunIfDue | backup_manager.py:689-708 | A due config is run, ticked and recorded with its new `next_run`. One that is not due changes nothing. |
| Manager.BackupManager.CheckAndRunBackups | backup_manager.py:684-712 | Every config's value becomes `Ticked` of its old value. The store becomes `TickRecords` over the configs in order. Only the records change in the metrics, so the monitored count stays. |
| Manager.BackupManager.TickAll | backup_manager.py:688-712 | The loop ticks each config's `last_run`/`next_run` and records the due ones in order. The monitored count stays. |
| Manager.BackupManager.TickAt | backup_manager.py:689-708 | One iteration ticks the config at its position and leaves the others' schedules and the monitored count alone. |
| Manager.BackupManager.RunBackupNow | backup_manager.py:714-735 | The first config with that container name is run. Its outcome is recorded with its unchanged `next_run`, and success is returned. No config changes, and neither does the monitored count. An unknown name records nothing and returns false. |
| Manager.BackupManager.ListConfigs | backup_manager.py:737-750 | One summary per config, in order, with container, type, database, schedule, retention days, `next_run` and `last_run`. |

## Behaviour worth noting

- An invalid cron expression is not a construction error. `_update_next_run` (lines 355-362)
  catches it and sets `next_run` to `None`. The policy is kept but is never due.
- An unrecognised kind does not isolate the target. The policy is kept, and every run fails in
  `_run_backup` (lines 420-422) and is recorded as a failure.
- A failed compression does not fall back to the uncompressed file:
  - A gzip exception fails the whole backup through `execute`'s handler (lines 401-404).
  - A `zstd` program that cannot be started raises in the same way and fails the backup.
  - Once `zstd` has started, its exit status is never checked. A backup can then succeed with
    size 0 when the `.zst` file is absent.
- A retention long enough to push the cutoff before year 1, or beyond 999999999 days, makes the
  cutoff computation at line 607 raise. The backup is then reported as failed although its dump
  and compression succeeded, and nothing is pruned.
- A malformed `port` or `retention` label does not isolate the target: `int()` raises out of
  `scan_containers`. The scan ends and the previous configs and count stay. The metrics records
  initialised before the bad container remain.
- Two runs of one policy within the same second name their artifacts alike, and the later one
  overwrites the earlier one.

## Left out

- The HTTP status server and handler, `run_forever`, `main`, argparse and logging are not modelled.
- Sleeping and the scheduler's exception guard are not modelled. Calls are sequential, so the
  metrics lock is not modelled either.
- Floating-point durations and the Prometheus and ISO text rendering are not modelled: instants
  and durations are whole seconds. Uptime is not modelled.
- Directory creation (`mkdir`) is not modelled. Paths are not normalised, and `BACKUP_DIR` and
  `LABEL_PREFIX` are parameters.
- Text.Lower covers ASCII letters only. Python lower-cases all of Unicode.
- Text.ParseInt accepts no underscores and no non-ASCII digits, both of which Python's `int`
  allows.
- Config.BackupConfig.constructor: reads one `now` for the whole scan. The source calls
  `datetime.now()` again inside each `_update_next_run`.
- Metrics.Recorded: stamps the record with the backup's finishing instant. The source reads
  `time.time()` again.
- Executor.Execute: does not model a failing `open`, `unlink` or `stat`, except gzip as a whole.
  A raising `unlink` during the prune is not modelled either, nor is `datetime.fromtimestamp`
  raising on a modification time out of its range.
- Executor.CutoffOverflows: instants are seconds from the epoch in the clock the daemon reads.
  The local time zone that `datetime.now()` applies is not modelled.
- Executor.PostgresCommand: the password's environment variable is an output, not part of what
  decides the tool's exit status.
- Executor.RunBackup: does not model the file that `mysqldump` writes, the dump directory
  removed after archiving, or the paths of the sqlite existence check.
- Manager.ResolvePassword: a `password-file` that names a directory or an unreadable file is not
  modelled. Readable files are a map.
- Manager.TickRecordAt: requires distinct metrics keys. Different targets can share a key
  (`Metrics.KeysCollide`), and then share one record.
- Metrics.BackupMetrics.UpdateSchedule: modelled, but nothing in the core calls it.
- The order of `self._metrics` entries in the status renderers is not modelled: the store is a
  map.
