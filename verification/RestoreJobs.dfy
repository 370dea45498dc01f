/**
 The job a restore runs for one instance: internal/postgres/restore.go and
 createRestoreJob of controllers/postgresrestore_controller.go.
 */
module RestoreJobs {
  import opened Wrappers
  import opened ApiTypes
  import BackupText
  import Naming

  /** A piece of a command line: fixed text, or a flag with a number. */
  datatype Word = Text(text: string) | Number(flag: string, value: int)

  datatype EnvVar = Plain(name: string, value: string) | FromSecret(name: string, secret: string, key: string)

  datatype Volume = Claim(name: string, claim: string) | EmptyDir(name: string)

  datatype Mount = Mount(name: string, path: string, readOnly: bool)

  /** The init container that fetches a backup from S3. */
  datatype Download = Download(bucket: string, path: string, secret: string, region: string)

  datatype RestoreJob = RestoreJob(
    name: string,
    restore: string,
    instance: string,
    cluster: string,
    backup: string,
    postgresVersion: string,
    command: seq<Word>,
    env: seq<EnvVar>,
    volumes: seq<Volume>,
    mounts: seq<Mount>,
    downloads: seq<Download>)

  /** Go's `m[k]` on a map of strings. */
  function Lookup(m: map<string, string>, k: string): string {
    if k in m then m[k] else ""
  }

  function When(cmd: seq<Word>, on: bool, words: seq<Word>): seq<Word> {
    if on then cmd + words else cmd
  }

  /** The database a logical restore writes into. */
  function RestoredDatabase(database: DatabaseSpec): string {
    if database.name == "" then "postgres" else database.name
  }

  function LogicalBase(database: DatabaseSpec): seq<Word> {
    [Text("pg_restore"), Text("--host=${POSTGRES_HOST:-localhost}"), Text("--port=${POSTGRES_PORT:-5432}"),
     Text("--username=${POSTGRES_USER:-postgres}"), Text("--dbname=" + RestoredDatabase(database)),
     Text("--format=c"), Text("/backup/data.dump")]
  }

  function LogicalCommand(options: RestoreOptions, database: DatabaseSpec): seq<Word> {
    When(When(When(When(LogicalBase(database),
      options.dropExisting, [Text("--clean"), Text("--if-exists")]),
      options.dataOnly, [Text("--data-only")]),
      options.schemaOnly, [Text("--schema-only")]),
      options.parallelRestores > 1, [Number("--jobs=", options.parallelRestores)])
  }

  const PHYSICAL_COMMAND := [
    Text("mkdir -p /var/lib/postgresql/data"),
    Text("&& find /var/lib/postgresql/data -mindepth 1 -exec rm -rf {} + 2>/dev/null || true"),
    Text("&& cp -a /backup/. /var/lib/postgresql/data/"),
    Text("&& chown -R 999:999 /var/lib/postgresql/data/")]

  function RestoreCommand(backup: PostgresBackup, options: RestoreOptions, database: DatabaseSpec): Result<seq<Word>> {
    var kind := BackupText.NormalizeBackupType(backup.spec.kind);
    if kind == "logical" then Ok(LogicalCommand(options, database))
    else if kind == "physical" then Ok(PHYSICAL_COMMAND)
    else Err
  }

  /** BuildRestoreCommand, growing the command step by step. */
  method BuildRestoreCommand(backup: PostgresBackup, options: RestoreOptions, database: DatabaseSpec)
    returns (r: Result<seq<Word>>)
    ensures r == RestoreCommand(backup, options, database)
  {
    var kind := BackupText.NormalizeBackupType(backup.spec.kind);
    if kind == "logical" {
      var dbName := database.name;
      if dbName == "" { dbName := "postgres"; }
      var cmd := [Text("pg_restore")];
      cmd := cmd + [Text("--host=${POSTGRES_HOST:-localhost}")];
      cmd := cmd + [Text("--port=${POSTGRES_PORT:-5432}")];
      cmd := cmd + [Text("--username=${POSTGRES_USER:-postgres}")];
      cmd := cmd + [Text("--dbname=" + dbName)];
      cmd := cmd + [Text("--format=c"), Text("/backup/data.dump")];
      assert cmd == LogicalBase(database);
      if options.dropExisting { cmd := cmd + [Text("--clean"), Text("--if-exists")]; }
      if options.dataOnly { cmd := cmd + [Text("--data-only")]; }
      if options.schemaOnly { cmd := cmd + [Text("--schema-only")]; }
      if options.parallelRestores > 1 { cmd := cmd + [Number("--jobs=", options.parallelRestores)]; }
      return Ok(cmd);
    } else if kind == "physical" {
      var cmd := [Text("mkdir -p /var/lib/postgresql/data")];
      cmd := cmd + [Text("&& find /var/lib/postgresql/data -mindepth 1 -exec rm -rf {} + 2>/dev/null || true")];
      cmd := cmd + [Text("&& cp -a /backup/. /var/lib/postgresql/data/")];
      cmd := cmd + [Text("&& chown -R 999:999 /var/lib/postgresql/data/")];
      assert cmd == PHYSICAL_COMMAND;
      return Ok(cmd);
    } else {
      return Err;
    }
  }

  /** Where the backup is read from: a claim mounted read-only, or a download into scratch space. */
  function WithBackupVolume(job: RestoreJob, backup: PostgresBackup): Result<RestoreJob> {
    var config := backup.spec.storage.config;
    if backup.spec.storage.kind == "local" then
      if Lookup(config, "pvcName") == "" then Err
      else Ok(job.(volumes := job.volumes + [Claim("backup", Lookup(config, "pvcName"))],
                   mounts := job.mounts + [Mount("backup", "/backup", true)]))
    else if backup.spec.storage.kind == "s3" then
      Ok(job.(volumes := job.volumes + [EmptyDir("backup")],
              mounts := job.mounts + [Mount("backup", "/backup", false)],
              downloads := job.downloads
                + [Download(Lookup(config, "bucket"), Lookup(config, "path"),
                            Lookup(config, "secretName"), Lookup(config, "region"))]))
    else Err
  }

  function InstanceHost(cluster: PostgresCluster, instance: string): string {
    Naming.ResourceName(cluster.name, instance) + "." + cluster.namespace + ".svc.cluster.local"
  }

  /** createRestoreJob. */
  function RestoreJobFor(restore: string, options: RestoreOptions, cluster: PostgresCluster,
                         backup: PostgresBackup, instance: InstanceSpec): (r: Result<RestoreJob>)
    ensures r.Ok? ==> r.value.name == Naming.RestoreJobName(restore, instance.name)
  {
    var kind := BackupText.NormalizeBackupType(backup.spec.kind);
    var storage := cluster.spec.StorageOf(instance);
    var command := RestoreCommand(backup, options, cluster.spec.DatabaseOf(instance));
    if command.Err? || (kind == "physical" && storage.volumeName == "") then Err
    else
      var physical := kind == "physical";
      var password := FromSecret("PGPASSWORD", cluster.name + "-credentials", "postgres-password");
      WithBackupVolume(
        RestoreJob(
          Naming.RestoreJobName(restore, instance.name), restore, instance.name, cluster.name, backup.name,
          cluster.spec.postgresVersion, command.value,
          if physical then [password]
          else [password, Plain("POSTGRES_USER", "postgres"), Plain("POSTGRES_PORT", "5432"),
                Plain("POSTGRES_HOST", InstanceHost(cluster, instance.name))],
          if physical then [Claim("data", storage.volumeName)] else [],
          if physical then [Mount("data", "/var/lib/postgresql/data", false)] else [],
          []),
        backup)
  }

  /** createRestoreJob in its own form: env, mounts and volumes grow with the restore's kind. */
  method CreateRestoreJob(restore: string, options: RestoreOptions, cluster: PostgresCluster,
                          backup: PostgresBackup, instance: InstanceSpec) returns (r: Result<RestoreJob>)
    ensures r == RestoreJobFor(restore, options, cluster, backup, instance)
  {
    var storage := cluster.spec.storage;
    if instance.storage.Some? { storage := instance.storage.value; }
    var database := cluster.spec.database;
    if instance.database.Some? { database := instance.database.value; }
    var kind := BackupText.NormalizeBackupType(backup.spec.kind);
    if kind != "logical" && kind != "physical" { return Err; }
    var command := BuildRestoreCommand(backup, options, database);
    if command.Err? { return Err; }
    var mounts: seq<Mount> := [];
    var volumes: seq<Volume> := [];
    var env := [FromSecret("PGPASSWORD", cluster.name + "-credentials", "postgres-password")];
    if kind == "physical" {
      if storage.volumeName == "" { return Err; }
      mounts := mounts + [Mount("data", "/var/lib/postgresql/data", false)];
      volumes := volumes + [Claim("data", storage.volumeName)];
    } else {
      env := env + [Plain("POSTGRES_USER", "postgres"), Plain("POSTGRES_PORT", "5432"),
                    Plain("POSTGRES_HOST", InstanceHost(cluster, instance.name))];
      assert env == [env[0], env[1], env[2], env[3]];
    }
    assert kind == "physical" ==> mounts == [mounts[0]] && volumes == [volumes[0]];
    r := WithBackupVolume(
      RestoreJob(Naming.RestoreJobName(restore, instance.name), restore, instance.name, cluster.name, backup.name,
                 cluster.spec.postgresVersion, command.value, env, volumes, mounts, []),
      backup);
  }
}
