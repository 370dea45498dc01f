/**
 internal/postgres/backup.go: the job a backup runs. Words of the command are kept apart, and
 the order in which Go ranges over an instance's config map is a parameter.
 */
module BackupJobs {
  import opened Wrappers
  import opened ApiTypes
  import RestoreJobs
  import BackupText
  import Naming
  import PostgresConf

  type Word = RestoreJobs.Word

  datatype BackupJob = BackupJob(
    name: string,
    namespace: string,
    kind: string,
    cluster: string,
    postgresVersion: string,
    command: string,
    args: seq<Word>,
    env: seq<RestoreJobs.EnvVar>,
    claim: string,
    labels: map<string, string>)

  function Text(s: string): Word {
    RestoreJobs.Text(s)
  }

  /** Where the dump is taken from: the instance's Service, else the recorded primary, else "-primary". */
  function TargetHost(cluster: PostgresCluster, instance: Option<InstanceSpec>): string {
    if instance.Some? && instance.value.name != "" then RestoreJobs.InstanceHost(cluster, instance.value.name)
    else if cluster.status.currentPrimary != "" then cluster.status.currentPrimary
    else RestoreJobs.InstanceHost(cluster, "primary")
  }

  function OverrideName(instance: Option<InstanceSpec>): string {
    if instance.Some? && instance.value.database.Some? then instance.value.database.value.name else ""
  }

  /** The database a logical backup dumps: a named override, else the cluster's. */
  function DumpedDatabase(cluster: PostgresCluster, instance: Option<InstanceSpec>): string {
    if OverrideName(instance) != "" then OverrideName(instance) else cluster.spec.database.name
  }

  /** The flags an instance's config adds to pg_dump. */
  function ConfigArgs(config: map<string, string>, order: seq<string>): seq<Word>
    requires forall k | k in order :: k in config
  {
    if order == [] then []
    else [Text("--" + order[0]), Text(config[order[0]])] + ConfigArgs(config, order[1..])
  }

  function ConfigOf(instance: Option<InstanceSpec>): map<string, string> {
    if instance.Some? then instance.value.config else map[]
  }

  function LogicalBase(host: string, database: string): seq<Word> {
    [Text("-h"), Text(host), Text("-U"), Text("postgres"), Text("-d"), Text(database),
     Text("-f"), Text("/backup/data.dump"), Text("-F"), Text("c")]
  }

  function LogicalArgs(backup: PostgresBackup, cluster: PostgresCluster, instance: Option<InstanceSpec>, order: seq<string>): seq<Word>
    requires forall k | k in order :: k in ConfigOf(instance)
  {
    RestoreJobs.When(RestoreJobs.When(LogicalBase(TargetHost(cluster, instance), DumpedDatabase(cluster, instance)),
      backup.spec.compression > 0, [Text("-Z"), RestoreJobs.Number("", backup.spec.compression)]),
      backup.spec.parallelJobs > 1, [Text("-j"), RestoreJobs.Number("", backup.spec.parallelJobs)])
    + ConfigArgs(ConfigOf(instance), order)
  }

  function PhysicalArgs(backup: PostgresBackup, cluster: PostgresCluster, instance: Option<InstanceSpec>): seq<Word> {
    RestoreJobs.When(RestoreJobs.When(
      [Text("-D"), Text("/backup"), Text("-h"), Text(TargetHost(cluster, instance)), Text("-U"), Text("postgres"),
       Text("--checkpoint"), Text("fast")],
      backup.spec.compression > 0, [RestoreJobs.Number("--compress=", backup.spec.compression)]),
      backup.spec.parallelJobs > 1, [Text("--jobs"), RestoreJobs.Number("", backup.spec.parallelJobs)])
  }

  function BackupEnv(cluster: PostgresCluster, instance: Option<InstanceSpec>, logical: bool): seq<RestoreJobs.EnvVar> {
    [RestoreJobs.FromSecret("PGPASSWORD", cluster.name + "-credentials", "postgres-password")]
    + if logical && instance.Some? && instance.value.database.Some? && instance.value.database.value.initScript != ""
      then [RestoreJobs.Plain("PGINITSCRIPT", instance.value.database.value.initScript)] else []
  }

  function BaseLabels(backup: PostgresBackup, kind: string): map<string, string> {
    map["app.kubernetes.io/name" := "postgres-backup",
        "app.kubernetes.io/instance" := backup.spec.clusterRef.name,
        "app.kubernetes.io/managed-by" := "postgres-operator",
        "database.example.com/cluster" := backup.spec.clusterRef.name,
        "database.example.com/type" := kind]
  }

  function InstanceLabels(instance: Option<InstanceSpec>): map<string, string> {
    if instance.None? then map[]
    else if instance.value.role == "" then map["database.example.com/instance" := instance.value.name]
    else map["database.example.com/instance" := instance.value.name, "database.example.com/role" := instance.value.role]
  }

  /** CreateBackupJob. */
  function BackupJobFor(backup: PostgresBackup, cluster: PostgresCluster, instance: Option<InstanceSpec>, order: seq<string>): Result<BackupJob>
    requires forall k | k in order :: k in ConfigOf(instance)
  {
    var claim := RestoreJobs.Lookup(cluster.spec.backupStorage, "pvcName");
    var kind := BackupText.NormalizeBackupType(backup.spec.kind);
    if claim == "" || !(kind == "logical" || kind == "physical") then Err
    else
      var logical := kind == "logical";
      Ok(BackupJob(
        Naming.BackupJobName(backup.name), backup.namespace, kind, cluster.name, cluster.spec.postgresVersion,
        if logical then "pg_dump" else "pg_basebackup",
        if logical then LogicalArgs(backup, cluster, instance, order) else PhysicalArgs(backup, cluster, instance),
        BackupEnv(cluster, instance, logical), claim, BaseLabels(backup, kind) + InstanceLabels(instance)))
  }

  // ------------------------------------------------------------------ the builder, step by step

  lemma {:induction false} ConfigArgsSnoc(config: map<string, string>, order: seq<string>, i: nat)
    requires i < |order| && forall k | k in order :: k in config
    ensures ConfigArgs(config, order[..i + 1])
         == ConfigArgs(config, order[..i]) + [Text("--" + order[i]), Text(config[order[i]])]
  {
    if i > 0 {
      ConfigArgsSnoc(config, order[1..], i - 1);
      assert order[..i + 1][1..] == order[1..][..i] && order[..i][1..] == order[1..][..i - 1];
      assert order[..i + 1][0] == order[0] == order[..i][0];
    } else {
      assert order[..1][1..] == [] && order[..0] == [];
    }
  }

  /** The loop over the instance's config appends a flag and its value for each entry. */
  method AppendConfig(args: seq<Word>, config: map<string, string>, order: seq<string>) returns (longer: seq<Word>)
    requires PostgresConf.IsOrder(config, order)
    ensures longer == args + ConfigArgs(config, order)
  {
    longer := args;
    var i := 0;
    while i < |order|
      invariant 0 <= i <= |order|
      invariant longer == args + ConfigArgs(config, order[..i])
    {
      ConfigArgsSnoc(config, order, i);
      longer := longer + [Text("--" + order[i]), Text(config[order[i]])];
      i := i + 1;
    }
    assert order[..i] == order;
  }

  /** The arguments of pg_dump grow by appending. */
  method BuildLogicalArgs(backup: PostgresBackup, cluster: PostgresCluster, instance: Option<InstanceSpec>, order: seq<string>)
    returns (args: seq<Word>)
    requires PostgresConf.IsOrder(ConfigOf(instance), order)
    ensures args == LogicalArgs(backup, cluster, instance, order)
  {
    var dbName := cluster.spec.database.name;
    if instance.Some? && instance.value.database.Some? && instance.value.database.value.name != "" {
      dbName := instance.value.database.value.name;
    }
    var host := BuildHost(cluster, instance);
    args := LogicalBase(host, dbName);
    if backup.spec.compression > 0 {
      args := args + [Text("-Z"), RestoreJobs.Number("", backup.spec.compression)];
    }
    if backup.spec.parallelJobs > 1 {
      args := args + [Text("-j"), RestoreJobs.Number("", backup.spec.parallelJobs)];
    }
    if instance.Some? {
      args := AppendConfig(args, instance.value.config, order);
    } else {
      PostgresConf.SomeElement(order);
    }
  }

  method BuildPhysicalArgs(backup: PostgresBackup, cluster: PostgresCluster, instance: Option<InstanceSpec>) returns (args: seq<Word>)
    ensures args == PhysicalArgs(backup, cluster, instance)
  {
    var host := BuildHost(cluster, instance);
    args := [Text("-D"), Text("/backup"), Text("-h"), Text(host), Text("-U"), Text("postgres"),
             Text("--checkpoint"), Text("fast")];
    if backup.spec.compression > 0 {
      args := args + [RestoreJobs.Number("--compress=", backup.spec.compression)];
    }
    if backup.spec.parallelJobs > 1 {
      args := args + [Text("--jobs"), RestoreJobs.Number("", backup.spec.parallelJobs)];
    }
  }

  method BuildHost(cluster: PostgresCluster, instance: Option<InstanceSpec>) returns (host: string)
    ensures host == TargetHost(cluster, instance)
  {
    host := cluster.status.currentPrimary;
    if host == "" { host := RestoreJobs.InstanceHost(cluster, "primary"); }
    if instance.Some? && instance.value.name != "" { host := RestoreJobs.InstanceHost(cluster, instance.value.name); }
  }

  method BuildLabels(backup: PostgresBackup, kind: string, instance: Option<InstanceSpec>) returns (labels: map<string, string>)
    ensures labels == BaseLabels(backup, kind) + InstanceLabels(instance)
  {
    labels := BaseLabels(backup, kind);
    if instance.Some? {
      labels := labels["database.example.com/instance" := instance.value.name];
      if instance.value.role != "" { labels := labels["database.example.com/role" := instance.value.role]; }
    }
  }

  /** CreateBackupJob in its own form. */
  method CreateBackupJob(backup: PostgresBackup, cluster: PostgresCluster, instance: Option<InstanceSpec>, order: seq<string>)
    returns (r: Result<BackupJob>)
    requires PostgresConf.IsOrder(ConfigOf(instance), order)
    ensures r == BackupJobFor(backup, cluster, instance, order)
  {
    var claim := RestoreJobs.Lookup(cluster.spec.backupStorage, "pvcName");
    if claim == "" { return Err; }
    var kind := BackupText.NormalizeBackupType(backup.spec.kind);
    var command := "";
    var args: seq<Word> := [];
    if kind == "logical" {
      command := "pg_dump";
      args := BuildLogicalArgs(backup, cluster, instance, order);
    } else if kind == "physical" {
      command := "pg_basebackup";
      args := BuildPhysicalArgs(backup, cluster, instance);
    } else {
      return Err;
    }
    var env := [RestoreJobs.FromSecret("PGPASSWORD", cluster.name + "-credentials", "postgres-password")];
    if kind == "logical" && instance.Some? && instance.value.database.Some? && instance.value.database.value.initScript != "" {
      env := env + [RestoreJobs.Plain("PGINITSCRIPT", instance.value.database.value.initScript)];
    }
    assert env == BackupEnv(cluster, instance, kind == "logical");
    var labels := BuildLabels(backup, kind, instance);
    return Ok(BackupJob(
      Naming.BackupJobName(backup.name), backup.namespace, kind, cluster.name, cluster.spec.postgresVersion,
      command, args, env, claim, labels));
  }
}
