/**
 * The manager (`BackupManager`): a scan turns the labels of the running containers into backup
 * policies, a tick runs every policy that is due, a manual trigger runs one policy by name, and
 * `list_configs` summarises the policies. The container registry, the clock, the cron library and
 * the executor are parameters.
 */
module Manager {
  import opened Wrappers
  import opened Clock
  import opened Text
  import opened Config
  import opened Metrics
  import opened Executor

  /** One running container as the Docker client lists it. */
  datatype Container = Container(id: string, name: string, labels: map<string, string>)

  /**
   * What a scan reads besides the registry: the label prefix, the readable files (path to
   * content, for `password-file`), the cron library and the instant of the scan.
   */
  datatype ScanInputs = ScanInputs(prefix: string, files: map<string, string>, cron: Cron, now: Time)

  /** `labels.get(f'{prefix}.{key}')` */
  function Label(c: Container, prefix: string, key: string): (v: Option<string>)
    ensures v.Some? <==> prefix + "." + key in c.labels
    ensures v.Some? ==> v.value == c.labels[prefix + "." + key]
  {
    var k := prefix + "." + key;
    if k in c.labels then Some(c.labels[k]) else None
  }

  /** `labels.get(f'{prefix}.enable', 'false').lower() == 'true'` */
  predicate BackupEnabled(c: Container, prefix: string) {
    Lower(Label(c, prefix, "enable").GetOr("false")) == "true"
  }

  /**
   * The password: the stripped content of the `password-file` label's file when that label is
   * non-empty and the file exists, otherwise the `password` label.
   */
  function ResolvePassword(c: Container, prefix: string, files: map<string, string>): (pw: Option<string>)
    ensures var f := Label(c, prefix, "password-file");
      && (Truthy(f) && f.value in files ==> pw == Some(Strip(files[f.value], IsSpace)))
      && (!(Truthy(f) && f.value in files) ==> pw == Label(c, prefix, "password"))
  {
    var f := Label(c, prefix, "password-file");
    if Truthy(f) && f.value in files then Some(Strip(files[f.value], IsSpace))
    else Label(c, prefix, "password")
  }

  /**
   * `int(labels.get(f'{prefix}.port', 0)) or None`. The outer `None` is the `ValueError` that `int`
   * raises on a malformed label; inside, a port of 0 (given or defaulted) means "no port".
   */
  function PortLabel(c: Container, prefix: string): (r: Option<Option<int>>)
    ensures Label(c, prefix, "port").None? ==> r == Some(None)
    ensures Label(c, prefix, "port").Some? ==> (r.None? <==> ParseInt(Label(c, prefix, "port").value).None?)
    ensures Label(c, prefix, "port").Some? && ParseInt(Label(c, prefix, "port").value).Some? ==>
      var n := ParseInt(Label(c, prefix, "port").value).value;
      r == Some(if n == 0 then None else Some(n))
  {
    match Label(c, prefix, "port")
    case None => Some(None)
    case Some(text) =>
      match ParseInt(text)
      case None => None
      case Some(n) => Some(if n == 0 then None else Some(n))
  }

  /** `int(labels.get(f'{prefix}.retention', 7))`; `None` is the `ValueError` of `int`. */
  function RetentionLabel(c: Container, prefix: string): (r: Option<int>)
    ensures Label(c, prefix, "retention").None? ==> r == Some(DefaultRetentionDays)
    ensures Label(c, prefix, "retention").Some? ==> r == ParseInt(Label(c, prefix, "retention").value)
  {
    match Label(c, prefix, "retention")
    case None => Some(DefaultRetentionDays)
    case Some(text) => ParseInt(text)
  }

  /**
   * What the scan makes of one container: skipped (backup not enabled, or no type), malformed (a
   * port or retention label `int` rejects, which ends the scan), or the arguments of its
   * `BackupConfig`.
   */
  datatype Candidate = Skipped | Malformed | Accepted(args: ConfigArgs)

  /**
   * The body of the scan loop for one container, up to the `BackupConfig(...)` call: a container is
   * skipped exactly when backup is not enabled or it has no type, malformed exactly when `int`
   * rejects its port or retention label, and otherwise every argument comes from its label or the
   * label's default.
   */
  function CandidateOf(c: Container, prefix: string, files: map<string, string>): (r: Candidate)
    ensures r.Skipped? <==> !BackupEnabled(c, prefix) || !Truthy(Label(c, prefix, "type"))
    ensures r.Malformed? <==>
      (BackupEnabled(c, prefix) && Truthy(Label(c, prefix, "type"))
       && (PortLabel(c, prefix).None? || RetentionLabel(c, prefix).None?))
    ensures r.Accepted? ==> var a := r.args;
      && a.containerId == c.id && a.containerName == c.name
      && a.dbType == Label(c, prefix, "type").value
      && a.schedule == Label(c, prefix, "schedule").GetOr(DefaultSchedule)
      && a.database == Label(c, prefix, "database").GetOr(AllDatabases)
      && a.user == Label(c, prefix, "user")
      && a.password == ResolvePassword(c, prefix, files)
      && a.host == Label(c, prefix, "host")
      && a.port == PortLabel(c, prefix).value
      && a.retentionDays == RetentionLabel(c, prefix).value
      && a.compression == Label(c, prefix, "compression").GetOr(DefaultCompression)
      && a.extraArgs == Label(c, prefix, "extra-args").GetOr("")
  {
    if !BackupEnabled(c, prefix) then Skipped
    else
      var kind := Label(c, prefix, "type");
      if !Truthy(kind) then Skipped
      else
        match PortLabel(c, prefix)
        case None => Malformed
        case Some(port) =>
          match RetentionLabel(c, prefix)
          case None => Malformed
          case Some(days) =>
            Accepted(ConfigArgs(
              c.id, c.name, kind.value,
              Label(c, prefix, "schedule").GetOr(DefaultSchedule),
              Label(c, prefix, "database").GetOr(AllDatabases),
              Label(c, prefix, "user"),
              ResolvePassword(c, prefix, files),
              Label(c, prefix, "host"),
              port, days,
              Label(c, prefix, "compression").GetOr(DefaultCompression),
              Label(c, prefix, "extra-args").GetOr("")))
  }

  /** A label value that `str(n)` produced is read back as the port `n`, and `"0"` as no port. */
  lemma PortLabelRoundTrip(c: Container, prefix: string, n: int)
    requires Label(c, prefix, "port") == Some(IntToString(n))
    ensures PortLabel(c, prefix) == Some(if n == 0 then None else Some(n))
  {
    ParseIntRoundTrip(n);
  }

  /** The container ids of a policy sequence. */
  function Ids(ps: seq<Policy>): set<string> {
    set q | q in ps :: q.containerId
  }

  /** No two policies of the sequence belong to the same container (the keys of `self.configs`). */
  predicate DistinctIds(ps: seq<Policy>) {
    forall i, j :: 0 <= i < j < |ps| ==> ps[i].containerId != ps[j].containerId
  }

  /** The position of the policy of container `id`, if any. */
  function IndexOfId(ps: seq<Policy>, id: string): (r: Option<nat>)
    ensures r.Some? ==> r.value < |ps| && ps[r.value].containerId == id
    ensures r.Some? ==> forall j :: 0 <= j < r.value ==> ps[j].containerId != id
    ensures r.None? <==> id !in Ids(ps)
  {
    if ps == [] then None
    else if ps[0].containerId == id then Some(0)
    else
      match IndexOfId(ps[1..], id)
      case None =>
        assert forall q :: q in ps ==> q == ps[0] || q in ps[1..];
        None
      case Some(i) => Some(i + 1)
  }

  /**
   * `configs[p.container_id] = p` on an insertion-ordered dict: the policy of the same container is
   * replaced where it stands, a new container's policy goes last.
   */
  function PutById(ps: seq<Policy>, p: Policy): (r: seq<Policy>)
    ensures p in r
    ensures forall q :: q in r ==> q == p || q in ps
    ensures forall q :: q in ps && q.containerId != p.containerId ==> q in r
    ensures Ids(r) == Ids(ps) + {p.containerId}
    ensures DistinctIds(ps) ==> DistinctIds(r)
  {
    match IndexOfId(ps, p.containerId)
    case Some(i) =>
      var r := ps[i := p];
      assert r[i] == p;
      assert forall q :: q in ps && q.containerId != p.containerId ==> q in r by {
        forall q | q in ps && q.containerId != p.containerId ensures q in r {
          var k :| 0 <= k < |ps| && ps[k] == q;
          assert r[k] == q;
        }
      }
      assert forall q :: q in r ==> q == p || q in ps by {
        forall q | q in r ensures q == p || q in ps {
          var k :| 0 <= k < |r| && r[k] == q;
          if k != i { assert ps[k] == q; }
        }
      }
      assert Ids(r) == Ids(ps) + {p.containerId} by {
        forall id | id in Ids(ps) ensures id in Ids(r) {
          var q :| q in ps && q.containerId == id;
          if id != p.containerId { assert q in r; }
        }
      }
      r
    case None =>
      var r := ps + [p];
      assert Ids(r) == Ids(ps) + {p.containerId} by {
        forall id | id in Ids(r) ensures id in Ids(ps) + {p.containerId} {
          var q :| q in r && q.containerId == id;
          if q != p { assert q in ps; }
        }
      }
      r
  }

  /**
   * `PutById` keeps the order of `configs`: a known container's policy is replaced where it
   * stands, a new one goes last, and every other position is unchanged.
   */
  lemma PutByIdPositions(ps: seq<Policy>, p: Policy)
    ensures var r := PutById(ps, p);
      && |r| == |ps| + (if p.containerId in Ids(ps) then 0 else 1)
      && (forall i :: 0 <= i < |ps| && ps[i].containerId != p.containerId ==> r[i] == ps[i])
      && (p.containerId in Ids(ps) ==> r[IndexOfId(ps, p.containerId).value] == p)
      && (p.containerId !in Ids(ps) ==> r[|ps|] == p)
  {
  }

  /** `self.configs[id].last_run` before the scan, when the container was already known. */
  function PriorLastRun(prev: seq<Policy>, id: string): Option<Time> {
    match IndexOfId(prev, id)
    case Some(i) => prev[i].lastRun
    case None => None
  }

  /**
   * The policy a scan keeps for accepted arguments: the constructed config, with the previous
   * `last_run` of the same container carried over and `next_run` recomputed.
   */
  function Admit(a: ConfigArgs, prev: seq<Policy>, cron: Cron, now: Time): (p: Policy)
    ensures p.lastRun == PriorLastRun(prev, a.containerId)
    ensures p.nextRun == cron(a.schedule, now)
    ensures p == Construct(a, cron, now).(lastRun := p.lastRun)
  {
    Construct(a, cron, now).(lastRun := PriorLastRun(prev, a.containerId))
  }

  /** Where a scan stands: the policies so far, the metrics store, and whether `int` has raised. */
  datatype ScanState = ScanState(configs: seq<Policy>, records: Store, aborted: bool)

  /**
   * `scan_containers` over the first `n` containers of the registry `reg`, from the previous
   * policies `prev` and the store `m`. Once a malformed label aborts the loop nothing further
   * happens; the store keeps the records already initialised.
   */
  function Scan(reg: seq<Container>, n: nat, prev: seq<Policy>, m: Store, inp: ScanInputs): ScanState
    requires n <= |reg|
  {
    if n == 0 then ScanState([], m, false)
    else ScanStep(Scan(reg, n - 1, prev, m, inp), reg[n - 1], prev, inp)
  }

  /** One iteration of the scan loop, for the container `c`. */
  function ScanStep(s: ScanState, c: Container, prev: seq<Policy>, inp: ScanInputs): ScanState {
    if s.aborted then s
    else
      match CandidateOf(c, inp.prefix, inp.files)
      case Skipped => s
      case Malformed => s.(aborted := true)
      case Accepted(a) =>
        var p := Admit(a, prev, inp.cron, inp.now);
        ScanState(PutById(s.configs, p), Initialized(s.records, p.containerName, p.dbType, p.database, p.nextRun), false)
  }

  /** The ids of the first `n` containers of `reg` whose labels are accepted. */
  function AcceptedIds(reg: seq<Container>, n: nat, prefix: string, files: map<string, string>): set<string>
    requires n <= |reg|
  {
    if n == 0 then {}
    else
      var c := reg[n - 1];
      AcceptedIds(reg, n - 1, prefix, files) + (if CandidateOf(c, prefix, files).Accepted? then {c.id} else {})
  }

  /** `q` is the policy the scan admits for one of the first `n` containers, whose labels are accepted. */
  ghost predicate Produced(q: Policy, reg: seq<Container>, n: nat, prev: seq<Policy>, inp: ScanInputs)
    requires n <= |reg|
  {
    exists k :: 0 <= k < n && CandidateOf(reg[k], inp.prefix, inp.files).Accepted?
      && q == Admit(CandidateOf(reg[k], inp.prefix, inp.files).args, prev, inp.cron, inp.now)
  }

  /**
   * What a scan keeps: one policy per container id, each admitted from an enabled container with a
   * type, at most the accepted ids and, unless the scan aborted, exactly those.
   */
  lemma {:induction false} ScanConfigs(reg: seq<Container>, n: nat, prev: seq<Policy>, m: Store, inp: ScanInputs)
    requires n <= |reg|
    ensures var s := Scan(reg, n, prev, m, inp);
      && DistinctIds(s.configs)
      && (forall q :: q in s.configs ==> Produced(q, reg, n, prev, inp))
      && Ids(s.configs) <= AcceptedIds(reg, n, inp.prefix, inp.files)
      && (!s.aborted ==> Ids(s.configs) == AcceptedIds(reg, n, inp.prefix, inp.files))
  {
    if n > 0 {
      ScanConfigs(reg, n - 1, prev, m, inp);
      var s := Scan(reg, n - 1, prev, m, inp);
      forall q | q in s.configs ensures Produced(q, reg, n, prev, inp) {
        assert Produced(q, reg, n - 1, prev, inp);
      }
      var cand := CandidateOf(reg[n - 1], inp.prefix, inp.files);
      if !s.aborted && cand.Accepted? {
        var p := Admit(cand.args, prev, inp.cron, inp.now);
        assert Produced(p, reg, n, prev, inp) by {
          assert 0 <= n - 1 < n && p == Admit(cand.args, prev, inp.cron, inp.now);
        }
      }
    }
  }

  /** Every kept policy carries the previous `last_run` of its container and the cron time after the scan. */
  lemma ScanCarriesLastRun(reg: seq<Container>, prev: seq<Policy>, m: Store, inp: ScanInputs)
    ensures forall q :: q in Scan(reg, |reg|, prev, m, inp).configs ==>
      q.lastRun == PriorLastRun(prev, q.containerId) && q.nextRun == inp.cron(q.schedule, inp.now)
  {
    ScanConfigs(reg, |reg|, prev, m, inp);
    forall q | q in Scan(reg, |reg|, prev, m, inp).configs
      ensures q.lastRun == PriorLastRun(prev, q.containerId) && q.nextRun == inp.cron(q.schedule, inp.now)
    {
      assert Produced(q, reg, |reg|, prev, inp);
    }
  }

  /** No record of `m` is lost in `m'`, and its counters and last outcome are unchanged. */
  ghost predicate KeepsOutcomes(m: Store, m': Store) {
    && m.Keys <= m'.Keys
    && forall k :: k in m ==>
         (&& m'[k].totalBackups == m[k].totalBackups
          && m'[k].totalFailures == m[k].totalFailures
          && m'[k].lastSuccess == m[k].lastSuccess
          && m'[k].lastTimestamp == m[k].lastTimestamp)
  }

  /** Every policy of `ps` has a record under its key. */
  ghost predicate Covers(ps: seq<Policy>, m: Store) {
    forall q :: q in ps ==> Key(q.containerName, q.database) in m
  }

  /** One scan iteration keeps every record's outcome and gives a newly kept policy its record. */
  lemma ScanStepRecords(s: ScanState, c: Container, prev: seq<Policy>, inp: ScanInputs)
    ensures KeepsOutcomes(s.records, ScanStep(s, c, prev, inp).records)
    ensures Covers(s.configs, s.records) ==> Covers(ScanStep(s, c, prev, inp).configs, ScanStep(s, c, prev, inp).records)
  {
  }

  /**
   * The store after a scan: no record is lost, counters and last outcomes are untouched, and every
   * kept policy has a record under its key.
   */
  lemma {:induction false} ScanRecords(reg: seq<Container>, n: nat, prev: seq<Policy>, m: Store, inp: ScanInputs)
    requires n <= |reg|
    ensures KeepsOutcomes(m, Scan(reg, n, prev, m, inp).records)
    ensures Covers(Scan(reg, n, prev, m, inp).configs, Scan(reg, n, prev, m, inp).records)
  {
    if n > 0 {
      ScanRecords(reg, n - 1, prev, m, inp);
      var s := Scan(reg, n - 1, prev, m, inp);
      ScanStepRecords(s, reg[n - 1], prev, inp);
    }
  }

  /** Once a malformed label has aborted a scan, the rest of the registry changes nothing. */
  lemma {:induction false} AbortPersists(reg: seq<Container>, n: nat, k: nat, prev: seq<Policy>, m: Store, inp: ScanInputs)
    requires n <= k <= |reg|
    requires Scan(reg, n, prev, m, inp).aborted
    ensures Scan(reg, k, prev, m, inp) == Scan(reg, n, prev, m, inp)
  {
    if n < k {
      AbortPersists(reg, n, k - 1, prev, m, inp);
    }
  }

  /** A scan's policies depend on the previous ones only through the carried `last_run` values. */
  lemma {:induction false} ScanDependsOnLastRuns(reg: seq<Container>, n: nat, prev1: seq<Policy>, prev2: seq<Policy>,
                                                 m1: Store, m2: Store, inp: ScanInputs)
    requires n <= |reg|
    requires forall id :: id in AcceptedIds(reg, n, inp.prefix, inp.files) ==> PriorLastRun(prev1, id) == PriorLastRun(prev2, id)
    ensures Scan(reg, n, prev1, m1, inp).configs == Scan(reg, n, prev2, m2, inp).configs
    ensures Scan(reg, n, prev1, m1, inp).aborted == Scan(reg, n, prev2, m2, inp).aborted
  {
    if n > 0 {
      ScanDependsOnLastRuns(reg, n - 1, prev1, prev2, m1, m2, inp);
      var cand := CandidateOf(reg[n - 1], inp.prefix, inp.files);
      if cand.Accepted? {
        var p1 := Admit(cand.args, prev1, inp.cron, inp.now);
        var p2 := Admit(cand.args, prev2, inp.cron, inp.now);
        assert p1 == p2;
      }
    }
  }

  /** Scanning an unchanged registry again, at the same instant, keeps the same policies. */
  lemma ScanIdempotent(reg: seq<Container>, prev: seq<Policy>, m: Store, inp: ScanInputs)
    requires !Scan(reg, |reg|, prev, m, inp).aborted
    ensures var s := Scan(reg, |reg|, prev, m, inp);
      Scan(reg, |reg|, s.configs, s.records, inp).configs == s.configs
  {
    var s := Scan(reg, |reg|, prev, m, inp);
    ScanConfigs(reg, |reg|, prev, m, inp);
    ScanCarriesLastRun(reg, prev, m, inp);
    forall id | id in AcceptedIds(reg, |reg|, inp.prefix, inp.files)
      ensures PriorLastRun(s.configs, id) == PriorLastRun(prev, id)
    {
      var i := IndexOfId(s.configs, id).value;
      assert s.configs[i] in s.configs;
    }
    ScanDependsOnLastRuns(reg, |reg|, s.configs, prev, s.records, m, inp);
  }

  /** `config.next_run and now >= config.next_run` */
  predicate Due(p: Policy, now: Time) {
    p.nextRun.Some? && now >= p.nextRun.value
  }

  /**
   * A policy after one tick of `check_and_run_backups`: when due, `last_run` becomes the tick's
   * instant and `next_run` the cron time after the backup finished; otherwise nothing changes.
   */
  function Ticked(p: Policy, now: Time, run: Policy -> Outcome, cron: Cron): (q: Policy)
    ensures q == p.(lastRun := q.lastRun, nextRun := q.nextRun)
    ensures !Due(p, now) ==> q == p
    ensures Due(p, now) ==> q.lastRun == Some(now) && q.nextRun == cron(p.schedule, run(p).finishedAt)
  {
    if Due(p, now) then p.(lastRun := Some(now), nextRun := cron(p.schedule, run(p).finishedAt)) else p
  }

  /** The store after a tick over the first `n` policies: one `record_backup` per due policy, in order. */
  function TickRecords(m: Store, ps: seq<Policy>, n: nat, now: Time, run: Policy -> Outcome, cron: Cron): Store
    requires n <= |ps|
  {
    if n == 0 then m
    else
      var m' := TickRecords(m, ps, n - 1, now, run, cron);
      var p := ps[n - 1];
      if Due(p, now) then
        var o := run(p);
        Recorded(m', p.containerName, p.dbType, p.database, o.success, o.duration, o.size,
                 Ticked(p, now, run, cron).nextRun, o.finishedAt)
      else m'
  }

  /** No two policies share a metrics key. */
  predicate DistinctKeys(ps: seq<Policy>) {
    forall i, j :: 0 <= i < j < |ps| ==>
      Key(ps[i].containerName, ps[i].database) != Key(ps[j].containerName, ps[j].database)
  }

  /** A key that belongs to none of the first `n` policies keeps its record through their tick. */
  lemma {:induction false} TickRecordsElsewhere(m: Store, ps: seq<Policy>, n: nat, now: Time, run: Policy -> Outcome,
                                                cron: Cron, k: string)
    requires n <= |ps|
    requires forall j :: 0 <= j < n ==> Key(ps[j].containerName, ps[j].database) != k
    ensures var m' := TickRecords(m, ps, n, now, run, cron);
      (k in m' <==> k in m) && (k in m ==> m'[k] == m[k])
  {
    if n > 0 {
      TickRecordsElsewhere(m, ps, n - 1, now, run, cron, k);
    }
  }

  /**
   * A tick counts one attempt for each due policy, and one failure exactly when its backup failed;
   * the record of a policy that is not due is untouched.
   */
  lemma {:induction false} TickRecordAt(m: Store, ps: seq<Policy>, n: nat, now: Time, run: Policy -> Outcome,
                                        cron: Cron, i: nat)
    requires DistinctKeys(ps)
    requires i < n <= |ps|
    ensures var m' := TickRecords(m, ps, n, now, run, cron);
      var key := Key(ps[i].containerName, ps[i].database);
      && (Due(ps[i], now) ==>
            && key in m'
            && m'[key].totalBackups == PriorTotal(m, key) + 1
            && m'[key].totalFailures == PriorFailures(m, key) + (if run(ps[i]).success then 0 else 1)
            && m'[key].lastSuccess == (if run(ps[i]).success then 1 else 0)
            && m'[key].nextScheduled == Stamp(Ticked(ps[i], now, run, cron).nextRun))
      && (!Due(ps[i], now) ==> (key in m' <==> key in m) && (key in m ==> m'[key] == m[key]))
  {
    if i == n - 1 {
      TickRecordsElsewhere(m, ps, n - 1, now, run, cron, Key(ps[i].containerName, ps[i].database));
    } else {
      TickRecordAt(m, ps, n - 1, now, run, cron, i);
    }
  }

  /**
   * A due policy is not due again at the same instant, provided the cron library only answers
   * times after the one asked about and the backup did not finish before it started.
   */
  lemma TickedNotDueAgain(p: Policy, now: Time, run: Policy -> Outcome, cron: Cron)
    requires Due(p, now)
    requires run(p).finishedAt >= now
    requires forall t :: cron(p.schedule, t).Some? ==> cron(p.schedule, t).value > t
    ensures !Due(Ticked(p, now, run, cron), now)
  {
  }

  /** The position of the first policy of the container called `name`, if any. */
  function FirstNamed(ps: seq<Policy>, name: string): (r: Option<nat>)
    ensures r.Some? ==> r.value < |ps| && ps[r.value].containerName == name
    ensures r.Some? ==> forall j :: 0 <= j < r.value ==> ps[j].containerName != name
    ensures r.None? ==> forall j :: 0 <= j < |ps| ==> ps[j].containerName != name
  {
    if ps == [] then None
    else if ps[0].containerName == name then Some(0)
    else
      match FirstNamed(ps[1..], name)
      case None => None
      case Some(i) => Some(i + 1)
  }

  /** One entry of `list_configs()`. */
  datatype ConfigSummary = ConfigSummary(
    container: string,
    dbType: string,
    database: string,
    schedule: string,
    retentionDays: int,
    nextRun: Option<Time>,
    lastRun: Option<Time>)

  function Summary(p: Policy): ConfigSummary {
    ConfigSummary(p.containerName, p.dbType, p.database, p.schedule, p.retentionDays, p.nextRun, p.lastRun)
  }

  /** The values of a sequence of config objects. */
  function Values(cs: seq<BackupConfig>): (ps: seq<Policy>)
    reads cs
    ensures |ps| == |cs| && forall i :: 0 <= i < |cs| ==> ps[i] == cs[i].Value()
  {
    seq(|cs|, i requires 0 <= i < |cs| reads cs => cs[i].Value())
  }

  /** `PutById` on config objects: the object of the same container is replaced, or the new one goes last. */
  function PutConfig(cs: seq<BackupConfig>, c: BackupConfig): (r: seq<BackupConfig>)
    reads cs, c
    ensures forall x :: x in r ==> x in cs || x == c
    ensures Values(r) == PutById(Values(cs), c.Value())
  {
    match IndexOfId(Values(cs), c.containerId)
    case Some(k) =>
      assert Values(cs[k := c]) == Values(cs)[k := c.Value()];
      cs[k := c]
    case None =>
      assert Values(cs + [c]) == Values(cs) + [c.Value()];
      cs + [c]
  }

  /** The manager object: the policies by container id, in insertion order, and the metrics store. */
  class BackupManager {
    var configs: seq<BackupConfig>
    const metrics: BackupMetrics

    /** The store is consistent and no two configs belong to the same container. */
    ghost predicate Valid()
      reads this, metrics
    {
      && metrics.Valid()
      && forall i, j :: 0 <= i < j < |configs| ==> configs[i].containerId != configs[j].containerId
    }

    constructor (metrics: BackupMetrics)
      requires metrics.Valid()
      ensures Valid()
      ensures configs == [] && this.metrics == metrics
    {
      configs := [];
      this.metrics := metrics;
    }

    /**
     * `scan_containers()` over the listed containers. On success the configs are those of the scan
     * and the monitored count is their number; when `int` rejects a label the configs and the count
     * are left as they were, and the store keeps what the scan had already initialised.
     */
    method ScanContainers(registry: seq<Container>, inputs: ScanInputs) returns (ok: bool)
      requires Valid()
      modifies this, metrics
      ensures Valid()
      ensures var s := Scan(registry, |registry|, old(Values(configs)), old(metrics.records), inputs);
        && ok == !s.aborted
        && metrics.records == s.records
        && (ok ==> Values(configs) == s.configs && metrics.containersMonitored == |configs|)
        && (!ok ==> configs == old(configs) && metrics.containersMonitored == old(metrics.containersMonitored))
    {
      var found;
      found, ok := Collect(registry, inputs);
      if ok {
        ScanConfigs(registry, |registry|, old(Values(configs)), old(metrics.records), inputs);
        assert forall j :: 0 <= j < |found| ==> found[j].containerId == Values(found)[j].containerId;
        configs := found;
        metrics.SetContainersCount(|configs|);
      }
    }

    /** The loop of `scan_containers()`: the new config objects, or `false` when `int` raised. */
    method Collect(registry: seq<Container>, inputs: ScanInputs) returns (found: seq<BackupConfig>, ok: bool)
      requires metrics.Valid()
      modifies metrics`records
      ensures metrics.Valid() && metrics.containersMonitored == old(metrics.containersMonitored)
      ensures forall c :: c in found ==> fresh(c)
      ensures var s := Scan(registry, |registry|, old(Values(configs)), old(metrics.records), inputs);
        && ok == !s.aborted
        && metrics.records == s.records
        && (ok ==> Values(found) == s.configs)
    {
      ghost var prev := Values(configs);
      ghost var m0 := metrics.records;
      found, ok := [], true;
      var i := 0;
      while i < |registry| && ok
        invariant 0 <= i <= |registry|
        invariant Values(configs) == prev
        invariant metrics.Valid() && metrics.containersMonitored == old(metrics.containersMonitored)
        invariant forall c :: c in found ==> fresh(c)
        invariant ok == !Scan(registry, i, prev, m0, inputs).aborted
        invariant ok ==> Values(found) == Scan(registry, i, prev, m0, inputs).configs
        invariant metrics.records == Scan(registry, i, prev, m0, inputs).records
      {
        var malformed;
        found, malformed := Visit(found, registry, i, inputs, prev, m0);
        ok := !malformed;
        i := i + 1;
      }
      if !ok {
        AbortPersists(registry, i, |registry|, prev, m0, inputs);
      }
    }

    /** One iteration of the scan loop, for the container at position `i` of the registry. */
    method Visit(found: seq<BackupConfig>, registry: seq<Container>, i: nat, inputs: ScanInputs,
                 ghost prev: seq<Policy>, ghost m0: Store) returns (found': seq<BackupConfig>, malformed: bool)
      requires i < |registry|
      requires metrics.Valid() && Values(configs) == prev
      requires var s := Scan(registry, i, prev, m0, inputs);
        !s.aborted && metrics.records == s.records && Values(found) == s.configs
      modifies metrics`records
      ensures metrics.Valid() && metrics.containersMonitored == old(metrics.containersMonitored)
      ensures Values(configs) == prev
      ensures forall c :: c in found' ==> c in found || fresh(c)
      ensures var next := Scan(registry, i + 1, prev, m0, inputs);
        && malformed == next.aborted
        && metrics.records == next.records
        && (!malformed ==> Values(found') == next.configs)
    {
      ghost var s := Scan(registry, i, prev, m0, inputs);
      found' := found;
      var candidate := CandidateOf(registry[i], inputs.prefix, inputs.files);
      malformed := candidate.Malformed?;
      if candidate.Accepted? {
        found' := Accept(found, candidate.args, inputs, prev, s.configs, s.records);
      }
    }

    /**
     * The scan's handling of accepted arguments: a new config, with the `last_run` of the current
     * config of the same container carried over, stored under its id, and its metrics initialised.
     */
    method Accept(found: seq<BackupConfig>, a: ConfigArgs, inputs: ScanInputs, ghost prev: seq<Policy>,
                  ghost sofar: seq<Policy>, ghost m: Store) returns (found': seq<BackupConfig>)
      requires metrics.Valid() && metrics.records == m
      requires Values(configs) == prev && Values(found) == sofar
      modifies metrics`records
      ensures metrics.Valid() && metrics.containersMonitored == old(metrics.containersMonitored)
      ensures Values(configs) == prev
      ensures forall c :: c in found' ==> c in found || fresh(c)
      ensures var p := Admit(a, prev, inputs.cron, inputs.now);
        && Values(found') == PutById(sofar, p)
        && metrics.records == Initialized(m, p.containerName, p.dbType, p.database, p.nextRun)
    {
      var config := Admitted(a, inputs, prev);
      found' := PutConfig(found, config);
      ghost var stored := Values(found');
      metrics.InitContainer(config.containerName, config.dbType, config.database, config.nextRun);
      assert Values(found') == stored;
    }

    /** The config object the scan builds for accepted arguments, `last_run` carried over. */
    method Admitted(a: ConfigArgs, inputs: ScanInputs, ghost prev: seq<Policy>) returns (config: BackupConfig)
      requires Values(configs) == prev
      ensures fresh(config)
      ensures config.Value() == Admit(a, prev, inputs.cron, inputs.now)
    {
      var known := IndexOfId(Values(configs), a.containerId);
      var carried := if known.Some? then configs[known.value].lastRun else None;
      config := new BackupConfig(a, inputs.cron, inputs.now);
      if known.Some? {
        config.lastRun := carried;
        config.UpdateNextRun(inputs.cron, inputs.now);
      }
    }

    /** One iteration of the scheduler loop: a due config is run, advanced and recorded. */
    method RunIfDue(config: BackupConfig, now: Time, run: Policy -> Outcome, cron: Cron)
      requires metrics.Valid()
      modifies config, metrics`records
      ensures metrics.Valid() && metrics.containersMonitored == old(metrics.containersMonitored)
      ensures config.Value() == Ticked(old(config.Value()), now, run, cron)
      ensures var p := old(config.Value());
        var o := run(p);
        metrics.records == if Due(p, now)
          then Recorded(old(metrics.records), p.containerName, p.dbType, p.database, o.success, o.duration,
                        o.size, Ticked(p, now, run, cron).nextRun, o.finishedAt)
          else old(metrics.records)
    {
      if config.nextRun.Some? && now >= config.nextRun.value {
        var outcome := run(config.Value());
        config.lastRun := Some(now);
        config.UpdateNextRun(cron, outcome.finishedAt);
        metrics.RecordBackup(config.containerName, config.dbType, config.database, outcome.success,
                             outcome.duration, outcome.size, config.nextRun, outcome.finishedAt);
      }
    }

    /**
     * `check_and_run_backups()` at the instant `now`: every due config is run, in order, its
     * `last_run` and `next_run` advance and one outcome is recorded for it; the rest are untouched.
     */
    method CheckAndRunBackups(now: Time, run: Policy -> Outcome, cron: Cron)
      requires Valid()
      modifies metrics`records, configs
      ensures Valid()
      ensures var before := old(Values(configs));
        && (forall i :: 0 <= i < |configs| ==> configs[i].Value() == Ticked(before[i], now, run, cron))
        && metrics.records == TickRecords(old(metrics.records), before, |configs|, now, run, cron)
    {
      ghost var before := Values(configs);
      TickAll(before, now, run, cron);
      forall j | 0 <= j < |configs|
        ensures configs[j].Value() == Ticked(before[j], now, run, cron)
      {
        assert before[j] == old(configs[j].Value());
        assert TickedAt(j, before[j], now, run, cron);
      }
    }

    /** The loop of `check_and_run_backups()`, stated on the fields a tick changes. */
    method TickAll(ghost before: seq<Policy>, now: Time, run: Policy -> Outcome, cron: Cron)
      requires Valid() && |configs| == |before|
      requires forall j :: 0 <= j < |configs| ==> configs[j].Value() == before[j]
      modifies metrics`records, configs
      ensures metrics.Valid()
      ensures forall j :: 0 <= j < |configs| ==> TickedAt(j, before[j], now, run, cron)
      ensures metrics.records == TickRecords(old(metrics.records), before, |configs|, now, run, cron)
    {
      ghost var m0 := metrics.records;
      var i := 0;
      while i < |configs|
        invariant 0 <= i <= |configs|
        invariant metrics.Valid()
        invariant forall j :: 0 <= j < i ==> TickedAt(j, before[j], now, run, cron)
        invariant forall j :: i <= j < |configs| ==> configs[j].Value() == before[j]
        invariant metrics.records == TickRecords(m0, before, i, now, run, cron)
      {
        TickAt(i, before, m0, now, run, cron);
        i := i + 1;
      }
    }

    /** The mutable fields of the config at position `j` are those of `p` after one tick. */
    ghost predicate TickedAt(j: nat, p: Policy, now: Time, run: Policy -> Outcome, cron: Cron)
      reads this, configs
    {
      j < |configs| && configs[j].lastRun == Ticked(p, now, run, cron).lastRun
        && configs[j].nextRun == Ticked(p, now, run, cron).nextRun
    }

    /** One iteration of the tick loop: the config at position `i` is run if it is due. */
    method TickAt(i: nat, ghost before: seq<Policy>, ghost m0: Store, now: Time, run: Policy -> Outcome, cron: Cron)
      requires metrics.Valid() && i < |configs| == |before|
      requires forall j :: 0 <= j < |configs| && j != i ==> configs[j] != configs[i]
      requires configs[i].Value() == before[i]
      requires metrics.records == TickRecords(m0, before, i, now, run, cron)
      modifies configs[i], metrics`records
      ensures metrics.Valid()
      ensures TickedAt(i, before[i], now, run, cron)
      ensures forall j :: 0 <= j < |configs| && j != i ==> configs[j].lastRun == old(configs[j].lastRun) && configs[j].nextRun == old(configs[j].nextRun)
      ensures metrics.records == TickRecords(m0, before, i + 1, now, run, cron)
    {
      RunIfDue(configs[i], now, run, cron);
    }

    /**
     * `run_backup_now(name)`: the first config of the container called `name` is run and its outcome
     * recorded with its unchanged `next_run`; no config changes. An unknown name records nothing and
     * answers false.
     */
    method RunBackupNow(name: string, run: Policy -> Outcome) returns (success: bool)
      requires Valid()
      modifies metrics`records
      ensures Valid()
      ensures var ps := old(Values(configs));
        match FirstNamed(ps, name)
        case None => !success && metrics.records == old(metrics.records)
        case Some(i) =>
          var o := run(ps[i]);
          && success == o.success
          && metrics.records == Recorded(old(metrics.records), ps[i].containerName, ps[i].dbType, ps[i].database,
                                         o.success, o.duration, o.size, ps[i].nextRun, o.finishedAt)
    {
      ghost var ps := Values(configs);
      var i := 0;
      while i < |configs|
        invariant 0 <= i <= |configs|
        invariant forall j :: 0 <= j < i ==> ps[j].containerName != name
        invariant metrics.records == old(metrics.records)
      {
        var config := configs[i];
        if config.containerName == name {
          var outcome := run(config.Value());
          metrics.RecordBackup(config.containerName, config.dbType, config.database, outcome.success,
                               outcome.duration, outcome.size, config.nextRun, outcome.finishedAt);
          return outcome.success;
        }
        i := i + 1;
      }
      return false;
    }

    /** `list_configs()`: one summary per config, in order. */
    function ListConfigs(): (r: seq<ConfigSummary>)
      reads this, configs
      ensures |r| == |configs|
      ensures forall i :: 0 <= i < |configs| ==>
        && r[i].container == configs[i].containerName && r[i].dbType == configs[i].dbType
        && r[i].database == configs[i].database && r[i].schedule == configs[i].schedule
        && r[i].retentionDays == configs[i].retentionDays
        && r[i].nextRun == configs[i].nextRun && r[i].lastRun == configs[i].lastRun
    {
      var ps := Values(configs);
      seq(|ps|, i requires 0 <= i < |ps| => Summary(ps[i]))
    }
  }
}
