/**
 controllers/postgresbackup_controller.go: which instance a backup takes, its defaults, and
 what its status says of the database and the job.
 */
module BackupController {
  import opened Wrappers
  import opened ApiTypes
  import opened BackupJobs
  import Selectors

  // ------------------------------------------------------------------ the instance

  /** The first of these names that the cluster knows. */
  function FirstKnown(instances: seq<InstanceSpec>, names: seq<string>): Option<InstanceSpec> {
    if names == [] then None
    else if Selectors.Find(instances, names[0]).Some? then Selectors.Find(instances, names[0])
    else FirstKnown(instances, names[1..])
  }

  /** getTargetInstance: none at all for a cluster without instances, "primary" where none is named. */
  function BackupTarget(instances: seq<InstanceSpec>, selector: Option<InstanceSelector>): Result<Option<InstanceSpec>> {
    if instances == [] then Ok(None)
    else
      var names := if selector.None? || selector.value.names == [] then ["primary"] else selector.value.names;
      var found := FirstKnown(instances, names);
      if found.Some? then Ok(found) else Err
  }

  method GetTargetInstance(instances: seq<InstanceSpec>, selector: Option<InstanceSelector>)
    returns (target: Result<Option<InstanceSpec>>)
    ensures target == BackupTarget(instances, selector)
  {
    if |instances| == 0 { return Ok(None); }
    if selector.None? || |selector.value.names| == 0 {
      var primary := Selectors.FindByName(instances, "primary");
      assert ["primary"][1..] == [] && FirstKnown(instances, []) == None;
      return if primary.Some? then Ok(primary) else Err;
    }
    var names := selector.value.names;
    var i := 0;
    assert names[0..] == names;
    while i < |names|
      invariant 0 <= i <= |names|
      invariant FirstKnown(instances, names[i..]) == FirstKnown(instances, names)
    {
      var instance := Selectors.FindByName(instances, names[i]);
      if instance.Some? { return Ok(instance); }
      assert names[i..][1..] == names[i + 1..];
      i := i + 1;
    }
    return Err;
  }

  // ------------------------------------------------------------------ defaults and status

  function Defaulted(spec: BackupSpec): BackupSpec {
    spec.(
      kind := if spec.kind == "" then "full" else spec.kind,
      compression := if spec.compression > 9 || spec.compression < 0 then 1 else spec.compression,
      parallelJobs := if spec.parallelJobs == 0 then 1 else spec.parallelJobs)
  }

  datatype Source = FromCluster | FromInstance

  datatype BackupPhase = Unset | Pending | Running | Failed | Completed

  datatype DatabaseStatus = DatabaseStatus(name: string, source: Source, config: map<string, string>)

  datatype BackupStatus = BackupStatus(
    phase: BackupPhase,
    targetInstance: string,
    database: DatabaseStatus,
    jobName: string,
    startTime: Option<int>,
    completionTime: Option<int>)

  /** What the API server says of the backup's job. */
  datatype JobReport =
    JobReport(name: string, active: int, failed: int, startTime: Option<int>, completionTime: Option<int>)

  function PhaseOf(job: JobReport): BackupPhase {
    if job.completionTime.Some? then Completed
    else if job.failed > 0 then Failed
    else if job.active > 0 then Running
    else Pending
  }

  function DatabaseReport(cluster: PostgresCluster, target: Option<InstanceSpec>, withConfig: bool): DatabaseStatus {
    DatabaseStatus(
      DumpedDatabase(cluster, target),
      if OverrideName(target) != "" then FromInstance else FromCluster,
      if withConfig then ConfigOf(target) else map[])
  }

  /** The status that updateBackupStatus sends. */
  function StatusAfter(before: BackupStatus, spec: BackupSpec, job: JobReport, cluster: PostgresCluster, target: Option<InstanceSpec>): BackupStatus {
    var phase := PhaseOf(job);
    BackupStatus(
      phase,
      if target.Some? then target.value.name else "primary",
      DatabaseReport(cluster, target, spec.includeInstanceConfig),
      job.name,
      if phase == Running && before.startTime.None? then job.startTime else before.startTime,
      if phase == Completed then job.completionTime else before.completionTime)
  }

  /** The PostgresBackup the reconciler holds in memory. */
  class BackupObject {
    var spec: BackupSpec
    var phase: BackupPhase
    var targetInstance: string
    var database: DatabaseStatus
    var jobName: string
    var startTime: Option<int>
    var completionTime: Option<int>

    ghost function Status(): BackupStatus
      reads this
    {
      BackupStatus(phase, targetInstance, database, jobName, startTime, completionTime)
    }

    constructor (spec: BackupSpec, status: BackupStatus)
      ensures this.spec == spec && Status() == status
    {
      this.spec, phase, targetInstance := spec, status.phase, status.targetInstance;
      database, jobName := status.database, status.jobName;
      startTime, completionTime := status.startTime, status.completionTime;
    }

    method SetDefaults()
      modifies this`spec
      ensures spec == Defaulted(old(spec))
    {
      if spec.kind == "" { spec := spec.(kind := "full"); }
      if spec.compression > 9 || spec.compression < 0 { spec := spec.(compression := 1); }
      if spec.parallelJobs == 0 { spec := spec.(parallelJobs := 1); }
    }

    /** The part of updateBackupStatus between its two calls of the API server. */
    method UpdateBackupStatus(job: JobReport, cluster: PostgresCluster, target: Option<InstanceSpec>)
      modifies this
      ensures spec == old(spec) && Status() == StatusAfter(old(Status()), spec, job, cluster, target)
    {
      targetInstance := "primary";
      database := DatabaseStatus(cluster.spec.database.name, FromCluster, map[]);
      if target.Some? {
        targetInstance := target.value.name;
        if target.value.database.Some? && target.value.database.value.name != "" {
          database := database.(name := target.value.database.value.name, source := FromInstance);
        }
        if spec.includeInstanceConfig { database := database.(config := target.value.config); }
      }
      if job.completionTime.Some? {
        phase := Completed;
        completionTime := job.completionTime;
      } else if job.failed > 0 {
        phase := Failed;
      } else if job.active > 0 {
        phase := Running;
        if startTime.None? { startTime := job.startTime; }
      } else {
        phase := Pending;
      }
      jobName := job.name;
    }
  }
}
