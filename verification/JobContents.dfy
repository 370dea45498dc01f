/**
 What is in the jobs of a restore and of a backup, spelled out: which server they talk to, which
 database and which volume they work on, under which options, and where the backup lies.
 */
module JobContents {
  import opened Wrappers
  import opened ApiTypes
  import opened RestoreJobs
  import BackupText
  import BackupJobs
  import BackupController
  import ClusterModel
  import Naming
  import PostgresConf

  // ------------------------------------------------------------------ hosts

  /** The name under which the Service of an instance is reached. */
  function ServiceHost(cluster: string, namespace: string, instance: string): string {
    cluster + "-" + instance + "." + namespace + ".svc.cluster.local"
  }

  /** It is that of the Service the cluster controller writes for the instance. */
  lemma ServiceIsHost(c: PostgresCluster, instance: string)
    ensures ServiceHost(c.name, c.namespace, instance)
         == ClusterModel.ServiceKey(c.name, instance).name + "." + c.namespace + ".svc.cluster.local"
    ensures ServiceHost(c.name, c.namespace, instance) == InstanceHost(c, instance)
  {
  }

  lemma HostInjective(cluster: string, namespace: string, a: string, b: string)
    ensures ServiceHost(cluster, namespace, a) == ServiceHost(cluster, namespace, b) ==> a == b
  {
    var domain := "." + namespace + ".svc.cluster.local";
    assert ServiceHost(cluster, namespace, a) == Naming.ResourceName(cluster, a) + domain;
    assert ServiceHost(cluster, namespace, b) == Naming.ResourceName(cluster, b) + domain;
    Naming.SameSuffix(Naming.ResourceName(cluster, a), Naming.ResourceName(cluster, b), domain);
    Naming.ResourceNameInjective(cluster, a, b);
  }

  // ------------------------------------------------------------------ the restore job

  ghost predicate Logical(b: PostgresBackup) {
    BackupText.NormalizeBackupType(b.spec.kind) == "logical"
  }

  ghost predicate Physical(b: PostgresBackup) {
    BackupText.NormalizeBackupType(b.spec.kind) == "physical"
  }

  /** The volume an instance keeps its data on: that of its own storage if it has one, else the cluster's. */
  ghost predicate DataVolume(c: PostgresCluster, instance: InstanceSpec, volume: string) {
    match instance.storage
    case Some(own) => volume == own.volumeName
    case None => volume == c.spec.storage.volumeName
  }

  /** The database named by an instance's own settings if it has some, else the cluster's; "postgres" for no name. */
  ghost predicate RestoresDatabase(c: PostgresCluster, instance: InstanceSpec, name: string) {
    var given := match instance.database case Some(own) => own.name case None => c.spec.database.name;
    if given == "" then name == "postgres" else name == given
  }

  ghost predicate ConnectsTo(env: seq<EnvVar>, cluster: string, host: string) {
    && FromSecret("PGPASSWORD", cluster + "-credentials", "postgres-password") in env
    && Plain("POSTGRES_HOST", host) in env
    && Plain("POSTGRES_PORT", "5432") in env && Plain("POSTGRES_USER", "postgres") in env
    && forall v | v in env && v.name == "POSTGRES_HOST" :: v == Plain("POSTGRES_HOST", host)
  }

  /** The flags of pg_restore are there exactly if their option asks for them. */
  ghost predicate FollowsOptions(cmd: seq<Word>, o: RestoreOptions) {
    && (Text("--clean") in cmd <==> o.dropExisting) && (Text("--if-exists") in cmd <==> o.dropExisting)
    && (Text("--data-only") in cmd <==> o.dataOnly)
    && (Text("--schema-only") in cmd <==> o.schemaOnly)
    && (forall flag, n :: Number(flag, n) in cmd <==> flag == "--jobs=" && n == o.parallelRestores > 1)
  }

  ghost predicate RestoresDump(cmd: seq<Word>, database: string, o: RestoreOptions) {
    && [Text("pg_restore"), Text("--host=${POSTGRES_HOST:-localhost}"), Text("--port=${POSTGRES_PORT:-5432}"),
        Text("--username=${POSTGRES_USER:-postgres}"), Text("--dbname=" + database), Text("--format=c"),
        Text("/backup/data.dump")] <= cmd
    && FollowsOptions(cmd, o)
  }

  /** A word is in the command if it is there always, or with an option that is set. */
  lemma WordIn(o: RestoreOptions, d: DatabaseSpec, w: Word)
    ensures w in LogicalCommand(o, d)
       <==> || w in LogicalBase(d)
            || (o.dropExisting && (w == Text("--clean") || w == Text("--if-exists")))
            || (o.dataOnly && w == Text("--data-only"))
            || (o.schemaOnly && w == Text("--schema-only"))
            || (o.parallelRestores > 1 && w == Number("--jobs=", o.parallelRestores))
  {
  }

  lemma BaseFirst(o: RestoreOptions, d: DatabaseSpec)
    ensures LogicalBase(d) <= LogicalCommand(o, d)
  {
    var c1 := When(LogicalBase(d), o.dropExisting, [Text("--clean"), Text("--if-exists")]);
    var c2 := When(c1, o.dataOnly, [Text("--data-only")]);
    var c3 := When(c2, o.schemaOnly, [Text("--schema-only")]);
    assert LogicalBase(d) <= c1 <= c2 <= c3 <= LogicalCommand(o, d);
  }

  lemma DumpRestored(o: RestoreOptions, d: DatabaseSpec)
    ensures RestoresDump(LogicalCommand(o, d), if d.name == "" then "postgres" else d.name, o)
  {
    BaseFirst(o, d);
    BaseHasNoFlags(d);
    FlagsDiffer();
    WordIn(o, d, Text("--clean"));
    WordIn(o, d, Text("--if-exists"));
    WordIn(o, d, Text("--data-only"));
    WordIn(o, d, Text("--schema-only"));
    forall flag, n ensures Number(flag, n) in LogicalCommand(o, d) <==> flag == "--jobs=" && n == o.parallelRestores > 1 {
      WordIn(o, d, Number(flag, n));
    }
  }

  /** No flag of pg_restore's options looks like this. */
  ghost predicate Apart(text: string) {
    |text| > 3 && (text[0] != '-' || text[2] in {'h', 'p', 'u', 'f'} || text[3] == 'b')
  }

  lemma ConnectionApart()
    ensures Apart("pg_restore") && Apart("--host=${POSTGRES_HOST:-localhost}")
    ensures Apart("--port=${POSTGRES_PORT:-5432}") && Apart("--username=${POSTGRES_USER:-postgres}")
  {
  }

  lemma DatabaseApart(name: string)
    ensures Apart("--dbname=" + name) && Apart("--format=c") && Apart("/backup/data.dump")
  {
    assert ("--dbname=" + name)[3] == "--dbname="[3] == 'b';
  }

  lemma BaseApart(d: DatabaseSpec)
    ensures forall w | w in LogicalBase(d) :: w.Text? && Apart(w.text)
  {
    ConnectionApart();
    DatabaseApart(RestoredDatabase(d));
  }

  lemma FlagsNotApart()
    ensures !Apart("--clean") && !Apart("--if-exists") && !Apart("--data-only") && !Apart("--schema-only")
  {
    assert "--clean"[3] == 'l' && "--if-exists"[3] == 'f' && "--data-only"[3] == 'a' && "--schema-only"[3] == 'c';
  }

  lemma BaseHasNoFlags(d: DatabaseSpec)
    ensures forall flag, n :: Number(flag, n) !in LogicalBase(d)
    ensures forall t | t in {"--clean", "--if-exists", "--data-only", "--schema-only"} :: Text(t) !in LogicalBase(d)
  {
    BaseApart(d);
    FlagsNotApart();
  }

  lemma FlagsDiffer()
    ensures "--clean" != "--if-exists" && "--clean" != "--data-only" && "--clean" != "--schema-only"
    ensures "--if-exists" != "--data-only" && "--if-exists" != "--schema-only" && "--data-only" != "--schema-only"
  {
    assert "--clean"[2] != "--if-exists"[2] && "--clean"[2] != "--data-only"[2] && "--clean"[2] != "--schema-only"[2];
    assert "--if-exists"[2] != "--data-only"[2] && "--if-exists"[2] != "--schema-only"[2];
    assert "--data-only"[2] != "--schema-only"[2];
  }

  /** The backup is mounted where the command expects it: from its claim, read-only, or downloaded there. */
  ghost predicate HasBackup(job: RestoreJob, b: PostgresBackup) {
    var config := b.spec.storage.config;
    if b.spec.storage.kind == "local" then
      && "pvcName" in config && config["pvcName"] != ""
      && Claim("backup", config["pvcName"]) in job.volumes && Mount("backup", "/backup", true) in job.mounts
      && job.downloads == []
    else
      && b.spec.storage.kind == "s3"
      && EmptyDir("backup") in job.volumes && Mount("backup", "/backup", false) in job.mounts
      && |job.downloads| == 1
      && var d := job.downloads[0];
         && ("bucket" in config ==> d.bucket == config["bucket"]) && ("path" in config ==> d.path == config["path"])
         && ("secretName" in config ==> d.secret == config["secretName"]) && ("region" in config ==> d.region == config["region"])
  }

  /** A dump goes into the instance's own server, over the network; the job has no data volume. */
  ghost predicate RestoresOverNetwork(job: RestoreJob, o: RestoreOptions, c: PostgresCluster, instance: InstanceSpec) {
    && ConnectsTo(job.env, c.name, ServiceHost(c.name, c.namespace, instance.name))
    && (exists name :: RestoresDatabase(c, instance, name) && RestoresDump(job.command, name, o))
    && forall v | v in job.volumes && v.Claim? :: v.name == "backup"
  }

  /** A base backup goes into the instance's own data volume; the job talks to no server. */
  ghost predicate RestoresVolume(job: RestoreJob, c: PostgresCluster, instance: InstanceSpec) {
    && (forall v | v in job.env :: v.name != "POSTGRES_HOST")
    && Mount("data", "/var/lib/postgresql/data", false) in job.mounts
    && (exists volume ::
          && DataVolume(c, instance, volume) && volume != ""
          && Claim("data", volume) in job.volumes
          && forall v | v in job.volumes && v.name == "data" :: v == Claim("data", volume))
    && job.command == [
         Text("mkdir -p /var/lib/postgresql/data"),
         Text("&& find /var/lib/postgresql/data -mindepth 1 -exec rm -rf {} + 2>/dev/null || true"),
         Text("&& cp -a /backup/. /var/lib/postgresql/data/"),
         Text("&& chown -R 999:999 /var/lib/postgresql/data/")]
  }

  /** What a job for an instance says. */
  ghost predicate Restores(job: RestoreJob, restore: string, o: RestoreOptions, c: PostgresCluster, b: PostgresBackup, instance: InstanceSpec) {
    && job.name == restore + "-" + instance.name + "-restore"
    && (job.restore, job.instance, job.cluster, job.backup) == (restore, instance.name, c.name, b.name)
    && job.postgresVersion == c.spec.postgresVersion
    && HasBackup(job, b)
    && (Logical(b) || Physical(b))
    && (Logical(b) ==> RestoresOverNetwork(job, o, c, instance))
    && (Physical(b) ==> RestoresVolume(job, c, instance))
  }

  ghost predicate Readable(b: PostgresBackup) {
    || b.spec.storage.kind == "s3"
    || (b.spec.storage.kind == "local" && "pvcName" in b.spec.storage.config && b.spec.storage.config["pvcName"] != "")
  }

  lemma KindsDiffer()
    ensures "logical" != "physical" && "local" != "s3"
    ensures "data" != "backup" && "PGPASSWORD" != "POSTGRES_HOST"
    ensures "POSTGRES_USER" != "POSTGRES_HOST" && "POSTGRES_PORT" != "POSTGRES_HOST"
  {
    assert "logical"[0] != "physical"[0] && "data"[0] != "backup"[0] && "PGPASSWORD"[1] != "POSTGRES_HOST"[1];
    assert "POSTGRES_USER"[9] != "POSTGRES_HOST"[9] && "POSTGRES_PORT"[9] != "POSTGRES_HOST"[9];
    assert |"local"| != |"s3"|;
  }

  lemma DatabaseNamed(c: PostgresCluster, instance: InstanceSpec)
    ensures var d := c.spec.DatabaseOf(instance); RestoresDatabase(c, instance, if d.name == "" then "postgres" else d.name)
    ensures DataVolume(c, instance, c.spec.StorageOf(instance).volumeName)
  {
  }

  lemma JobBasics(restore: string, o: RestoreOptions, c: PostgresCluster, b: PostgresBackup, instance: InstanceSpec)
    requires RestoreJobFor(restore, o, c, b, instance).Ok?
    ensures var job := RestoreJobFor(restore, o, c, b, instance).value;
            && job.name == restore + "-" + instance.name + "-restore"
            && (job.restore, job.instance, job.cluster, job.backup) == (restore, instance.name, c.name, b.name)
            && job.postgresVersion == c.spec.postgresVersion
            && (Logical(b) || Physical(b)) && HasBackup(job, b)
  {
    KindsDiffer();
  }

  /** The parts of a job that depend on the kind of the backup. */
  lemma KindDecides(restore: string, o: RestoreOptions, c: PostgresCluster, b: PostgresBackup, instance: InstanceSpec)
    requires RestoreJobFor(restore, o, c, b, instance).Ok?
    ensures var job := RestoreJobFor(restore, o, c, b, instance).value;
            var password := FromSecret("PGPASSWORD", c.name + "-credentials", "postgres-password");
            var volume := c.spec.StorageOf(instance).volumeName;
            && (Logical(b) ==>
                  && job.command == LogicalCommand(o, c.spec.DatabaseOf(instance))
                  && job.env == [password, Plain("POSTGRES_USER", "postgres"), Plain("POSTGRES_PORT", "5432"),
                                 Plain("POSTGRES_HOST", ServiceHost(c.name, c.namespace, instance.name))]
                  && |job.volumes| == 1 && job.volumes[0].name == "backup")
            && (Physical(b) ==>
                  && job.command == PHYSICAL_COMMAND && job.env == [password] && volume != ""
                  && |job.volumes| == 2 && job.volumes[0] == Claim("data", volume) && job.volumes[1].name == "backup"
                  && |job.mounts| == 2 && job.mounts[0] == Mount("data", "/var/lib/postgresql/data", false))
  {
    KindsDiffer();
  }

  lemma DumpConnects(env: seq<EnvVar>, cluster: string, host: string)
    requires env == [FromSecret("PGPASSWORD", cluster + "-credentials", "postgres-password"),
                     Plain("POSTGRES_USER", "postgres"), Plain("POSTGRES_PORT", "5432"), Plain("POSTGRES_HOST", host)]
    ensures ConnectsTo(env, cluster, host)
  {
    KindsDiffer();
  }

  lemma OverNetwork(job: RestoreJob, o: RestoreOptions, c: PostgresCluster, instance: InstanceSpec)
    requires job.command == LogicalCommand(o, c.spec.DatabaseOf(instance))
    requires ConnectsTo(job.env, c.name, ServiceHost(c.name, c.namespace, instance.name))
    requires |job.volumes| == 1 && job.volumes[0].name == "backup"
    ensures RestoresOverNetwork(job, o, c, instance)
  {
    DatabaseNamed(c, instance);
    DumpRestored(o, c.spec.DatabaseOf(instance));
  }

  lemma DumpOverNetwork(restore: string, o: RestoreOptions, c: PostgresCluster, b: PostgresBackup, instance: InstanceSpec)
    requires RestoreJobFor(restore, o, c, b, instance).Ok? && Logical(b)
    ensures RestoresOverNetwork(RestoreJobFor(restore, o, c, b, instance).value, o, c, instance)
  {
    KindDecides(restore, o, c, b, instance);
    var job := RestoreJobFor(restore, o, c, b, instance).value;
    DumpConnects(job.env, c.name, ServiceHost(c.name, c.namespace, instance.name));
    OverNetwork(job, o, c, instance);
  }

  lemma CopyOnVolume(restore: string, o: RestoreOptions, c: PostgresCluster, b: PostgresBackup, instance: InstanceSpec)
    requires RestoreJobFor(restore, o, c, b, instance).Ok? && Physical(b)
    ensures RestoresVolume(RestoreJobFor(restore, o, c, b, instance).value, c, instance)
  {
    KindDecides(restore, o, c, b, instance);
    KindsDiffer();
    DatabaseNamed(c, instance);
    var job, volume := RestoreJobFor(restore, o, c, b, instance).value, c.spec.StorageOf(instance).volumeName;
    assert Claim("data", volume) in job.volumes;
  }

  /** A job that is built restores the instance it is for, and no other. */
  lemma JobRestoresInstance(restore: string, o: RestoreOptions, c: PostgresCluster, b: PostgresBackup, instance: InstanceSpec)
    ensures var r := RestoreJobFor(restore, o, c, b, instance); r.Ok? ==> Restores(r.value, restore, o, c, b, instance)
  {
    if RestoreJobFor(restore, o, c, b, instance).Ok? {
      KindsDiffer();
      JobBasics(restore, o, c, b, instance);
      if Logical(b) {
        DumpOverNetwork(restore, o, c, b, instance);
      } else {
        CopyOnVolume(restore, o, c, b, instance);
      }
    }
  }

  /** It is built exactly if the backup is of a known kind and can be read, and a base backup has a volume to go to. */
  lemma JobBuiltIff(restore: string, o: RestoreOptions, c: PostgresCluster, b: PostgresBackup, instance: InstanceSpec)
    ensures RestoreJobFor(restore, o, c, b, instance).Ok?
       <==> && (Logical(b) || Physical(b)) && Readable(b)
            && (Physical(b) ==> !DataVolume(c, instance, ""))
  {
    KindsDiffer();
    DatabaseNamed(c, instance);
  }

  /** Jobs for instances of different names restore into different servers. */
  lemma JobsApart(job: RestoreJob, job': RestoreJob, restore: string, o: RestoreOptions, c: PostgresCluster, b: PostgresBackup,
                  a: InstanceSpec, a': InstanceSpec)
    requires RestoreJobFor(restore, o, c, b, a) == Ok(job) && RestoreJobFor(restore, o, c, b, a') == Ok(job')
    requires a.name != a'.name && Logical(b)
    ensures exists host, host' :: Plain("POSTGRES_HOST", host) in job.env && Plain("POSTGRES_HOST", host') in job'.env && host != host'
  {
    JobRestoresInstance(restore, o, c, b, a);
    JobRestoresInstance(restore, o, c, b, a');
    HostInjective(c.name, c.namespace, a.name, a'.name);
    var host, host' := ServiceHost(c.name, c.namespace, a.name), ServiceHost(c.name, c.namespace, a'.name);
    assert Plain("POSTGRES_HOST", host) in job.env && Plain("POSTGRES_HOST", host') in job'.env;
  }

  // ------------------------------------------------------------------ the backup job

  /** The server a backup reads: that of the instance chosen, or the recorded primary, or the one called "primary". */
  ghost predicate ReadsFrom(c: PostgresCluster, target: Option<InstanceSpec>, host: string) {
    if target.Some? && target.value.name != "" then host == ServiceHost(c.name, c.namespace, target.value.name)
    else if c.status.currentPrimary != "" then host == c.status.currentPrimary
    else host == ServiceHost(c.name, c.namespace, "primary")
  }

  /** The database dumped: the instance's if its settings name one, else the cluster's. */
  ghost predicate Dumps(c: PostgresCluster, target: Option<InstanceSpec>, name: string) {
    if target.Some? && target.value.database.Some? && target.value.database.value.name != ""
    then name == target.value.database.value.name else name == c.spec.database.name
  }

  /** A setting on the command line: a flag and its value. */
  ghost predicate SettingAt(args: seq<Word>, n: int, key: string, config: map<string, string>) {
    && 0 <= n < |args| - 1 && key in config
    && args[n] == Text("--" + key) && args[n + 1] == Text(config[key])
  }

  /** All settings, in the order in which they are ranged over. */
  ghost predicate SettingsAppended(args: seq<Word>, n: nat, config: map<string, string>, order: seq<string>) {
    |args| == n + 2 * |order| && forall i | 0 <= i < |order| :: SettingAt(args, n + 2 * i, order[i], config)
  }

  function Extra(on: bool, words: seq<Word>): seq<Word> {
    if on then words else []
  }

  ghost predicate DumpArgs(args: seq<Word>, b: PostgresBackup, host: string, database: string, config: map<string, string>, order: seq<string>) {
    var fixed := [Text("-h"), Text(host), Text("-U"), Text("postgres"), Text("-d"), Text(database),
                  Text("-f"), Text("/backup/data.dump"), Text("-F"), Text("c")]
      + Extra(b.spec.compression > 0, [Text("-Z"), Number("", b.spec.compression)])
      + Extra(b.spec.parallelJobs > 1, [Text("-j"), Number("", b.spec.parallelJobs)]);
    fixed <= args && SettingsAppended(args, |fixed|, config, order)
  }

  ghost predicate CopyArgs(args: seq<Word>, b: PostgresBackup, host: string) {
    args == [Text("-D"), Text("/backup"), Text("-h"), Text(host), Text("-U"), Text("postgres"), Text("--checkpoint"), Text("fast")]
      + Extra(b.spec.compression > 0, [Number("--compress=", b.spec.compression)])
      + Extra(b.spec.parallelJobs > 1, [Text("--jobs"), Number("", b.spec.parallelJobs)])
  }

  ghost predicate TakesArgs(args: seq<Word>, b: PostgresBackup, c: PostgresCluster, target: Option<InstanceSpec>, order: seq<string>,
                            host: string, database: string) {
    && ReadsFrom(c, target, host) && Dumps(c, target, database)
    && if Logical(b) then DumpArgs(args, b, host, database, if target.Some? then target.value.config else map[], order)
       else CopyArgs(args, b, host)
  }

  /** The password of the cluster, and the script an instance's own database starts with, for dumps. */
  ghost predicate BackupEnvironment(env: seq<EnvVar>, b: PostgresBackup, c: PostgresCluster, target: Option<InstanceSpec>) {
    var script := if target.Some? && target.value.database.Some? then target.value.database.value.initScript else "";
    && (forall v | v in env :: v == FromSecret("PGPASSWORD", c.name + "-credentials", "postgres-password")
                               || v == Plain("PGINITSCRIPT", script))
    && FromSecret("PGPASSWORD", c.name + "-credentials", "postgres-password") in env
    && (Plain("PGINITSCRIPT", script) in env <==> Logical(b) && script != "")
  }

  ghost predicate BackupLabels(labels: map<string, string>, b: PostgresBackup, kind: string, target: Option<InstanceSpec>) {
    var fixed := map["app.kubernetes.io/name" := "postgres-backup",
                     "app.kubernetes.io/instance" := b.spec.clusterRef.name,
                     "app.kubernetes.io/managed-by" := "postgres-operator",
                     "database.example.com/cluster" := b.spec.clusterRef.name,
                     "database.example.com/type" := kind];
    labels ==
      if target.None? then fixed
      else if target.value.role == "" then fixed["database.example.com/instance" := target.value.name]
      else fixed["database.example.com/instance" := target.value.name]["database.example.com/role" := target.value.role]
  }

  ghost predicate Takes(job: BackupJobs.BackupJob, b: PostgresBackup, c: PostgresCluster, target: Option<InstanceSpec>, order: seq<string>) {
    && job.name == (if |b.name| <= 59 then b.name + "-job" else (b.name + "-job")[..63])
    && (job.namespace, job.cluster, job.postgresVersion) == (b.namespace, c.name, c.spec.postgresVersion)
    && (job.kind, job.command) == (if Logical(b) then ("logical", "pg_dump") else ("physical", "pg_basebackup"))
    && "pvcName" in c.spec.backupStorage && job.claim == c.spec.backupStorage["pvcName"] != ""
    && BackupEnvironment(job.env, b, c, target) && BackupLabels(job.labels, b, job.kind, target)
    && exists host, database :: TakesArgs(job.args, b, c, target, order, host, database)
  }

  lemma {:induction false} ConfigArgsAt(config: map<string, string>, order: seq<string>)
    requires forall k | k in order :: k in config
    ensures var args := BackupJobs.ConfigArgs(config, order);
            |args| == 2 * |order| && forall i | 0 <= i < |order| :: SettingAt(args, 2 * i, order[i], config)
  {
    if order != [] {
      var rest := BackupJobs.ConfigArgs(config, order[1..]);
      ConfigArgsAt(config, order[1..]);
      forall i | 0 <= i < |order| ensures SettingAt(BackupJobs.ConfigArgs(config, order), 2 * i, order[i], config) {
        if i > 0 {
          assert SettingAt(rest, 2 * (i - 1), order[1..][i - 1], config);
        }
      }
    }
  }

  lemma SettingsAfter(fixed: seq<Word>, config: map<string, string>, order: seq<string>)
    requires forall k | k in order :: k in config
    ensures var args := fixed + BackupJobs.ConfigArgs(config, order); fixed <= args && SettingsAppended(args, |fixed|, config, order)
  {
    ConfigArgsAt(config, order);
    forall i | 0 <= i < |order| ensures SettingAt(fixed + BackupJobs.ConfigArgs(config, order), |fixed| + 2 * i, order[i], config) {
      assert SettingAt(BackupJobs.ConfigArgs(config, order), 2 * i, order[i], config);
    }
  }

  lemma HostRead(c: PostgresCluster, target: Option<InstanceSpec>)
    ensures ReadsFrom(c, target, BackupJobs.TargetHost(c, target)) && Dumps(c, target, BackupJobs.DumpedDatabase(c, target))
  {
  }

  lemma DumpArgsHold(b: PostgresBackup, c: PostgresCluster, target: Option<InstanceSpec>, order: seq<string>)
    requires forall k | k in order :: k in BackupJobs.ConfigOf(target)
    ensures DumpArgs(BackupJobs.LogicalArgs(b, c, target, order), b, BackupJobs.TargetHost(c, target),
                     BackupJobs.DumpedDatabase(c, target), BackupJobs.ConfigOf(target), order)
  {
    var base := BackupJobs.LogicalBase(BackupJobs.TargetHost(c, target), BackupJobs.DumpedDatabase(c, target));
    var z, j := [Text("-Z"), Number("", b.spec.compression)], [Text("-j"), Number("", b.spec.parallelJobs)];
    var fixed := base + Extra(b.spec.compression > 0, z) + Extra(b.spec.parallelJobs > 1, j);
    assert When(When(base, b.spec.compression > 0, z), b.spec.parallelJobs > 1, j) == fixed;
    SettingsAfter(fixed, BackupJobs.ConfigOf(target), order);
  }

  lemma CopyArgsHold(b: PostgresBackup, c: PostgresCluster, target: Option<InstanceSpec>)
    ensures CopyArgs(BackupJobs.PhysicalArgs(b, c, target), b, BackupJobs.TargetHost(c, target))
  {
  }

  lemma BackupBasics(b: PostgresBackup, c: PostgresCluster, target: Option<InstanceSpec>, order: seq<string>)
    requires PostgresConf.IsOrder(BackupJobs.ConfigOf(target), order) && BackupJobs.BackupJobFor(b, c, target, order).Ok?
    ensures var job := BackupJobs.BackupJobFor(b, c, target, order).value;
            && job.name == (if |b.name| <= 59 then b.name + "-job" else (b.name + "-job")[..63])
            && (job.namespace, job.cluster, job.postgresVersion) == (b.namespace, c.name, c.spec.postgresVersion)
            && (job.kind, job.command) == (if Logical(b) then ("logical", "pg_dump") else ("physical", "pg_basebackup"))
            && "pvcName" in c.spec.backupStorage && job.claim == c.spec.backupStorage["pvcName"] != ""
            && job.args == if Logical(b) then BackupJobs.LogicalArgs(b, c, target, order) else BackupJobs.PhysicalArgs(b, c, target)
  {
    KindsDiffer();
  }

  lemma EnvironmentHolds(b: PostgresBackup, c: PostgresCluster, target: Option<InstanceSpec>)
    ensures BackupEnvironment(BackupJobs.BackupEnv(c, target, Logical(b)), b, c, target)
  {
  }

  lemma LabelsHold(b: PostgresBackup, kind: string, target: Option<InstanceSpec>)
    ensures BackupLabels(BackupJobs.BaseLabels(b, kind) + BackupJobs.InstanceLabels(target), b, kind, target)
  {
    var base := BackupJobs.BaseLabels(b, kind);
    if target.None? {
      assert base + map[] == base;
    } else if target.value.role == "" {
      assert base + map["database.example.com/instance" := target.value.name] == base["database.example.com/instance" := target.value.name];
    } else {
      AddTwo(base, "database.example.com/instance", target.value.name, "database.example.com/role", target.value.role);
    }
  }

  lemma AddTwo(m: map<string, string>, k: string, v: string, k': string, v': string)
    ensures m + map[k := v, k' := v'] == m[k := v][k' := v']
  {
  }

  lemma BackupSurroundings(b: PostgresBackup, c: PostgresCluster, target: Option<InstanceSpec>, order: seq<string>)
    requires PostgresConf.IsOrder(BackupJobs.ConfigOf(target), order) && BackupJobs.BackupJobFor(b, c, target, order).Ok?
    ensures var job := BackupJobs.BackupJobFor(b, c, target, order).value;
            BackupEnvironment(job.env, b, c, target) && BackupLabels(job.labels, b, job.kind, target)
  {
    KindsDiffer();
    EnvironmentHolds(b, c, target);
    LabelsHold(b, BackupJobs.BackupJobFor(b, c, target, order).value.kind, target);
  }

  lemma BackupArgs(b: PostgresBackup, c: PostgresCluster, target: Option<InstanceSpec>, order: seq<string>)
    requires forall k | k in order :: k in BackupJobs.ConfigOf(target)
    ensures TakesArgs(if Logical(b) then BackupJobs.LogicalArgs(b, c, target, order) else BackupJobs.PhysicalArgs(b, c, target),
                      b, c, target, order, BackupJobs.TargetHost(c, target), BackupJobs.DumpedDatabase(c, target))
  {
    HostRead(c, target);
    if Logical(b) {
      DumpArgsHold(b, c, target, order);
    } else {
      CopyArgsHold(b, c, target);
    }
  }

  /** A backup job that is built reads the instance chosen, and the database reported. */
  lemma BackupReadsInstance(b: PostgresBackup, c: PostgresCluster, target: Option<InstanceSpec>, order: seq<string>)
    requires PostgresConf.IsOrder(BackupJobs.ConfigOf(target), order)
    ensures var r := BackupJobs.BackupJobFor(b, c, target, order); r.Ok? ==> Takes(r.value, b, c, target, order)
  {
    if BackupJobs.BackupJobFor(b, c, target, order).Ok? {
      BackupBasics(b, c, target, order);
      BackupSurroundings(b, c, target, order);
      BackupArgs(b, c, target, order);
    }
  }

  lemma BackupBuiltIff(b: PostgresBackup, c: PostgresCluster, target: Option<InstanceSpec>, order: seq<string>)
    requires PostgresConf.IsOrder(BackupJobs.ConfigOf(target), order)
    ensures BackupJobs.BackupJobFor(b, c, target, order).Ok?
       <==> "pvcName" in c.spec.backupStorage && c.spec.backupStorage["pvcName"] != "" && (Logical(b) || Physical(b))
  {
  }

  /** The word after the first "-h" on a command line. */
  ghost predicate HostNamed(args: seq<Word>, host: string) {
    exists i: nat :: i + 1 < |args| && args[i] == Text("-h") && args[i + 1] == Text(host) && Text("-h") !in args[..i]
  }

  lemma HostOnCommandLine(args: seq<Word>, b: PostgresBackup, c: PostgresCluster, target: Option<InstanceSpec>, order: seq<string>,
                          host: string, database: string)
    requires TakesArgs(args, b, c, target, order, host, database)
    ensures HostNamed(args, host)
  {
    if Logical(b) {
      assert args[0] == Text("-h") && args[1] == Text(host) && args[..0] == [];
    } else {
      assert "-D"[1] != "-h"[1] && "/backup"[0] != "-h"[0];
      assert args[..2] == [Text("-D"), Text("/backup")];
      assert args[2] == Text("-h") && args[3] == Text(host);
    }
  }

  /**
   What a dump reads is what a restore of it into the same instance writes to: the backup's host
   and the restore's are one, whether the backup is a dump or a copy.
   */
  lemma BackupMeetsRestore(b: PostgresBackup, c: PostgresCluster, instance: InstanceSpec, order: seq<string>,
                           restore: string, o: RestoreOptions, later: PostgresBackup)
    requires PostgresConf.IsOrder(instance.config, order) && instance.name != ""
    requires BackupJobs.BackupJobFor(b, c, Some(instance), order).Ok?
    requires Logical(later) && RestoreJobFor(restore, o, c, later, instance).Ok?
    ensures exists host ::
      && HostNamed(BackupJobs.BackupJobFor(b, c, Some(instance), order).value.args, host)
      && ConnectsTo(RestoreJobFor(restore, o, c, later, instance).value.env, c.name, host)
  {
    BackupReadsInstance(b, c, Some(instance), order);
    JobRestoresInstance(restore, o, c, later, instance);
    var args := BackupJobs.BackupJobFor(b, c, Some(instance), order).value.args;
    var host, database :| TakesArgs(args, b, c, Some(instance), order, host, database);
    HostOnCommandLine(args, b, c, Some(instance), order, host, database);
  }

  // ------------------------------------------------------------------ what a backup reports

  ghost predicate PhaseRead(job: BackupController.JobReport, phase: BackupController.BackupPhase) {
    && (phase == BackupController.Completed <==> job.completionTime.Some?)
    && (phase == BackupController.Failed <==> job.completionTime.None? && job.failed > 0)
    && (phase == BackupController.Running <==> job.completionTime.None? && job.failed <= 0 && job.active > 0)
    && (phase == BackupController.Pending <==> job.completionTime.None? && job.failed <= 0 && job.active <= 0)
  }

  /** Times are taken over from the job when it has completed or is seen running first, and kept otherwise. */
  ghost predicate TimesRead(before: BackupController.BackupStatus, job: BackupController.JobReport, after: BackupController.BackupStatus) {
    && (after.phase == BackupController.Completed ==> after.completionTime == job.completionTime)
    && (after.phase != BackupController.Completed ==> after.completionTime == before.completionTime)
    && (after.phase == BackupController.Running && before.startTime.None? ==> after.startTime == job.startTime)
    && (after.phase != BackupController.Running || before.startTime.Some? ==> after.startTime == before.startTime)
  }

  lemma StatusReadsJob(before: BackupController.BackupStatus, spec: BackupSpec, job: BackupController.JobReport, c: PostgresCluster,
                       target: Option<InstanceSpec>)
    ensures var after := BackupController.StatusAfter(before, spec, job, c, target);
            && PhaseRead(job, after.phase) && TimesRead(before, job, after) && after.jobName == job.name
            && Dumps(c, target, after.database.name)
            && (after.database.source == BackupController.FromInstance
                <==> target.Some? && target.value.database.Some? && target.value.database.value.name != "")
            && after.database.config == (if spec.includeInstanceConfig && target.Some? then target.value.config else map[])
  {
  }

  /** The instance a backup reports is the one whose server it reads; with none, the report says "primary". */
  lemma ReportedIsRead(b: PostgresBackup, c: PostgresCluster, target: Option<InstanceSpec>, order: seq<string>,
                       before: BackupController.BackupStatus, report: BackupController.JobReport)
    requires PostgresConf.IsOrder(BackupJobs.ConfigOf(target), order) && BackupJobs.BackupJobFor(b, c, target, order).Ok?
    ensures var args := BackupJobs.BackupJobFor(b, c, target, order).value.args;
            var reported := BackupController.StatusAfter(before, b.spec, report, c, target).targetInstance;
            && (target.Some? && target.value.name != "" ==> HostNamed(args, ServiceHost(c.name, c.namespace, reported)))
            && (target.None? ==> reported == "primary")
            && (target.None? ==> HostNamed(args, if c.status.currentPrimary != "" then c.status.currentPrimary
                                                 else ServiceHost(c.name, c.namespace, reported)))
  {
    BackupReadsInstance(b, c, target, order);
    var args := BackupJobs.BackupJobFor(b, c, target, order).value.args;
    var host, database :| TakesArgs(args, b, c, target, order, host, database);
    HostOnCommandLine(args, b, c, target, order, host, database);
  }

  /** Defaults replace what is not given, and a compression out of range, and nothing else. */
  lemma BackupDefaults(spec: BackupSpec)
    ensures var d := BackupController.Defaulted(spec);
            && d.kind == (if spec.kind == "" then "full" else spec.kind)
            && 0 <= d.compression <= 9 && (0 <= spec.compression <= 9 ==> d.compression == spec.compression)
            && (!(0 <= spec.compression <= 9) ==> d.compression == 1)
            && d.parallelJobs != 0 && (spec.parallelJobs == 0 ==> d.parallelJobs == 1)
            && (spec.parallelJobs != 0 ==> d.parallelJobs == spec.parallelJobs)
            && (d.clusterRef, d.storage, d.instances, d.includeInstanceConfig)
               == (spec.clusterRef, spec.storage, spec.instances, spec.includeInstanceConfig)
  {
    assert "full" != "";
  }
}
