/**
 controllers/postgresrestore_controller.go as functions of the API server's session: what
 each part of a reconcile pass does to the server and to the PostgresRestore in memory.
 RestoreController.dfy has the same code in its imperative form, proved equal to these.
 */
module RestoreModel {
  import opened Wrappers
  import opened ApiServer
  import opened ApiTypes
  import opened RestoreJobs
  import Naming
  import Selectors

  // ------------------------------------------------------------------ state

  datatype Phase = Unset | Pending | Running | Failed | Completed

  datatype Entry = Entry(
    name: string,
    phase: Phase,
    jobName: string,
    startTime: Option<int>,
    completionTime: Option<int>)

  datatype RestoreStatus = RestoreStatus(phase: Phase, completionTime: Option<int>, entries: seq<Entry>)

  type Restore = Resource<RestoreSpec, RestoreStatus>

  /** A job in the restore's namespace; `owned` when this restore's controller created it. */
  datatype Job = Job(
    spec: RestoreJob,
    owned: bool,
    active: int,
    failed: int,
    startTime: Option<int>,
    completionTime: Option<int>)

  /**
   What has happened to jobs so far, by job name: created or deleted by the operator,
   created or removed by someone else, reported with a completion time.
   */
  datatype Event =
    | Created(job: string)
    | Deleted(job: string)
    | Appeared(job: string)
    | Removed(job: string)
    | Finished(job: string)

  datatype World = World(
    restore: Option<Restore>,
    clusters: map<Key, PostgresCluster>,
    backups: map<Key, PostgresBackup>,
    jobs: map<string, Job>,
    now: int,
    log: multiset<Event>)

  // ------------------------------------------------------------------ the outside world

  datatype EnvStep =
    | JobReports(job: string, active: int, failed: int, startTime: Option<int>, completionTime: Option<int>)
    | JobRemoved(job: string)
    | JobAppears(job: string, spec: RestoreJob)
    | ClusterSet(key: Key, cluster: PostgresCluster)
    | ClusterGone(key: Key)
    | BackupSet(key: Key, backup: PostgresBackup)
    | BackupGone(key: Key)
    | SpecEdited(restoreSpec: RestoreSpec)
    | DeletionRequested
    | ClockTicks(seconds: nat)

  function Move(w: World, e: EnvStep): World {
    match e
    case JobReports(n, active, failed, start, completion) =>
      if n !in w.jobs then w
      else
        w.(jobs := w.jobs[n := w.jobs[n].(active := active, failed := failed, startTime := start, completionTime := completion)],
           log := if completion.Some? then w.log + multiset{Finished(n)} else w.log)
    case JobRemoved(n) =>
      if n !in w.jobs then w
      else w.(jobs := w.jobs - {n}, log := w.log + multiset{Removed(n)})
    case JobAppears(n, spec) =>
      if n in w.jobs then w
      else w.(jobs := w.jobs[n := Job(spec, false, 0, 0, None, None)], log := w.log + multiset{Appeared(n)})
    case ClusterSet(key, c) => w.(clusters := w.clusters[key := c])
    case ClusterGone(key) => w.(clusters := w.clusters - {key})
    case BackupSet(key, b) => w.(backups := w.backups[key := b])
    case BackupGone(key) => w.(backups := w.backups - {key})
    case SpecEdited(spec) =>
      if w.restore.None? then w
      else w.(restore := Some(Touched(w.restore.value.(spec := spec))))
    case DeletionRequested =>
      if w.restore.None? then w
      else if !w.restore.value.finalizer then w.(restore := None)
      else w.(restore := Some(Touched(w.restore.value.(deleting := true))))
    case ClockTicks(seconds) => w.(now := w.now + seconds)
  }

  // ------------------------------------------------------------------ the server

  datatype Request =
    | GetRestore
    | UpdateRestore(sent: Restore)
    | UpdateStatus(sent: Restore)
    | GetCluster(key: Key)
    | GetBackup(key: Key)
    | GetJob(job: string)
    | CreateJob(spec: RestoreJob)
    | DeleteJob(job: string)

  datatype Answer =
    | RestoreIs(restore: Restore)
    | ClusterIs(cluster: PostgresCluster)
    | BackupIs(backup: PostgresBackup)
    | JobIs(found: Job)
    | Done
    | NotFound
    | AlreadyExists
    | Conflict
    | Unreachable

  function Serve(w: World, q: Request): (World, Answer) {
    match q
    case GetRestore =>
      (w, if w.restore.Some? then RestoreIs(w.restore.value) else NotFound)
    case UpdateRestore(sent) =>
      if w.restore.None? then (w, NotFound)
      else if w.restore.value.version != sent.version then (w, Conflict)
      else
        var r := Updated(w.restore.value, sent);
        (w.(restore := if r.deleting && !r.finalizer then None else Some(r)), RestoreIs(r))
    case UpdateStatus(sent) =>
      if w.restore.None? then (w, NotFound)
      else if w.restore.value.version != sent.version then (w, Conflict)
      else
        var r := StatusUpdated(w.restore.value, sent);
        (w.(restore := Some(r)), RestoreIs(r))
    case GetCluster(key) =>
      (w, if key in w.clusters then ClusterIs(w.clusters[key]) else NotFound)
    case GetBackup(key) =>
      (w, if key in w.backups then BackupIs(w.backups[key]) else NotFound)
    case GetJob(n) =>
      (w, if n in w.jobs then JobIs(w.jobs[n]) else NotFound)
    case CreateJob(spec) =>
      if spec.name in w.jobs then (w, AlreadyExists)
      else
        (w.(jobs := w.jobs[spec.name := Job(spec, true, 0, 0, None, None)], log := w.log + multiset{Created(spec.name)}),
         Done)
    case DeleteJob(n) =>
      if n !in w.jobs then (w, NotFound)
      else (w.(jobs := w.jobs - {n}, log := w.log + multiset{Deleted(n)}), Done)
  }

  type Sys = Session<World, EnvStep>

  const API: Protocol<World, EnvStep, Request, Answer> := Protocol(Move, Serve, Unreachable)

  function Call(s: Sys, q: Request): (Sys, Answer) {
    Exchange(API, s, q)
  }

  // ------------------------------------------------------------------ one pass

  const FINALIZER := "database.example.com/postgres-restore"

  datatype Outcome = Settled | RequeueNow | RequeueLater | Failing

  /** The server, the restore in memory and whether the Go function returned no error. */
  datatype Pass = Pass(s: Sys, m: Restore, ok: bool)

  function SetEntry(m: Restore, i: nat, e: Entry): Restore
    requires i < |m.status.entries|
  {
    m.(status := m.status.(entries := m.status.entries[i := e]))
  }

  function HandleError(s: Sys, m: Restore): Sys {
    Call(s, UpdateStatus(m.(status := m.status.(phase := Failed)))).0
  }

  function SetDefaults(m: Restore): Restore {
    var o := m.spec.options;
    m.(spec := m.spec.(options :=
      o.(timeout := if o.timeout == "" then "1h" else o.timeout,
         parallelRestores := if o.parallelRestores == 0 then 1 else o.parallelRestores)))
  }

  function FreshEntries(restore: string, targets: seq<InstanceSpec>): (entries: seq<Entry>)
    ensures |entries| == |targets|
    ensures forall i :: 0 <= i < |targets| ==>
      entries[i] == Entry(targets[i].name, Pending, Naming.RestoreJobName(restore, targets[i].name), None, None)
  {
    seq(|targets|, i requires 0 <= i < |targets| =>
      Entry(targets[i].name, Pending, Naming.RestoreJobName(restore, targets[i].name), None, None))
  }

  /** Lines 138-150: size the status to the targets and persist it before any job exists. */
  function InitEntries(s: Sys, m: Restore, targets: seq<InstanceSpec>): (p: Pass)
    ensures p.ok ==> |p.m.status.entries| == |targets|
  {
    if |m.status.entries| == |targets| then Pass(s, m, true)
    else
      var m' := m.(status := m.status.(entries := FreshEntries(m.name, targets)));
      var (s', a) := Call(s, UpdateStatus(m'));
      if a.RestoreIs? then Pass(s', a.restore, true) else Pass(s', m', false)
  }

  /** How a job's status moves an instance's entry. */
  function Observed(job: Job, e: Entry): Entry {
    if job.completionTime.Some? then e.(phase := Completed, completionTime := job.completionTime)
    else if job.failed > 0 then e.(phase := Failed)
    else if job.active > 0 then
      e.(phase := Running, startTime := if e.startTime.None? then job.startTime else e.startTime)
    else e
  }

  function UpdateJobStatus(s: Sys, m: Restore, i: nat, jobName: string): Pass
    requires i < |m.status.entries|
  {
    if jobName == "" then Pass(s, m, true)
    else
      var (s', a) := Call(s, GetJob(jobName));
      if a.JobIs? then Pass(s', SetEntry(m, i, Observed(a.found, m.status.entries[i])), true)
      else Pass(s', m, a.NotFound?)
  }

  /** Lines 165-186, with the outcome of building the job's spec given. */
  function CreateMissing(s: Sys, m: Restore, i: nat, job: Result<RestoreJob>): Pass
    requires i < |m.status.entries|
  {
    if job.Err? then Pass(s, m, false)
    else
      var (s', created) := Call(s, CreateJob(job.value));
      if !created.Done? then Pass(s', m, false)
      else
        var e := m.status.entries[i].(phase := Running, startTime := Some(s'.world.now));
        UpdateJobStatus(s', SetEntry(m, i, e), i, job.value.name)
  }

  /** One turn of the loop at lines 152-187; `job` is the spec built if the job is missing. */
  function Visit(s: Sys, m: Restore, job: Result<RestoreJob>, i: nat): Pass
    requires i < |m.status.entries|
  {
    var e := m.status.entries[i];
    if e.phase == Completed then Pass(s, m, true)
    else
      var (s', a) := Call(s, GetJob(e.jobName));
      if a.JobIs? then UpdateJobStatus(s', m, i, e.jobName)
      else if !a.NotFound? then Pass(s', m, false)
      else CreateMissing(s', m, i, job)
  }

  function VisitFrom(s: Sys, m: Restore, jobs: seq<Result<RestoreJob>>, i: nat): Pass
    requires i <= |jobs| == |m.status.entries|
    decreases |jobs| - i
  {
    if i == |jobs| then Pass(s, m, true)
    else
      var p := Visit(s, m, jobs[i], i);
      if p.ok then VisitFrom(p.s, p.m, jobs, i + 1) else p
  }

  /** The job specs of the targets. Nothing they are built from changes during the loop. */
  function JobsFor(m: Restore, c: PostgresCluster, b: PostgresBackup, targets: seq<InstanceSpec>)
    : (jobs: seq<Result<RestoreJob>>)
    ensures |jobs| == |targets|
    ensures forall i | 0 <= i < |targets| :: jobs[i] == RestoreJobFor(m.name, m.spec.options, c, b, targets[i])
  {
    seq(|targets|, i requires 0 <= i < |targets| => RestoreJobFor(m.name, m.spec.options, c, b, targets[i]))
  }

  function Tally(entries: seq<Entry>, phase: Phase): nat {
    if entries == [] then 0
    else Tally(entries[..|entries| - 1], phase) + (if entries[|entries| - 1].phase == phase then 1 else 0)
  }

  function Aggregate(entries: seq<Entry>): Phase {
    if Tally(entries, Failed) > 0 then Failed
    else if Tally(entries, Completed) == |entries| then Completed
    else if Tally(entries, Running) > 0 then Running
    else Pending
  }

  function WithAggregate(m: Restore, now: int): Restore {
    var phase := Aggregate(m.status.entries);
    m.(status := m.status.(phase := phase,
                           completionTime := if phase == Completed then Some(now) else m.status.completionTime))
  }

  function UpdateRestoreStatus(s: Sys, m: Restore): Pass {
    var m' := WithAggregate(m, s.world.now);
    var (s', a) := Call(s, UpdateStatus(m'));
    if a.RestoreIs? then Pass(s', a.restore, true) else Pass(s', m', false)
  }

  function ReconcileTargets(s: Sys, m: Restore, c: PostgresCluster, b: PostgresBackup, targets: seq<InstanceSpec>): Pass {
    var p := InitEntries(s, m, targets);
    if !p.ok then p
    else
      var v := VisitFrom(p.s, p.m, JobsFor(p.m, c, b, targets), 0);
      if v.ok then UpdateRestoreStatus(v.s, v.m) else v
  }

  function ReconcileRestore(s: Sys, m: Restore, c: PostgresCluster, b: PostgresBackup): Pass {
    var targets := Selectors.RestoreTargets(c.spec.instances, m.spec.instances);
    if targets.Err? then Pass(s, m, false) else ReconcileTargets(s, m, c, b, targets.value)
  }

  function DeleteJobsFrom(s: Sys, m: Restore, i: nat): (Sys, bool)
    requires i <= |m.status.entries|
    decreases |m.status.entries| - i
  {
    if i == |m.status.entries| then (s, true)
    else if m.status.entries[i].jobName == "" then DeleteJobsFrom(s, m, i + 1)
    else
      var (s', a) := Call(s, DeleteJob(m.status.entries[i].jobName));
      if a.Done? || a.NotFound? then DeleteJobsFrom(s', m, i + 1) else (s', false)
  }

  function HandleDeletion(s: Sys, m: Restore): (Sys, Outcome) {
    var (s', deleted) := DeleteJobsFrom(s, m, 0);
    if !deleted then (s', Failing)
    else
      var (s'', a) := Call(s', UpdateRestore(m.(finalizer := false)));
      (s'', if a.RestoreIs? then Settled else Failing)
  }

  /** The first half of Reconcile: it ends the pass, or has the three objects in hand. */
  datatype Fetched =
    | Ended(outcome: Outcome)
    | Ready(m: Restore, cluster: PostgresCluster, backup: PostgresBackup)

  function Fetch(s: Sys): (Sys, Fetched) {
    var (s1, got) := Call(s, GetRestore);
    if !got.RestoreIs? then (s1, Ended(if got.NotFound? then Settled else Failing))
    else
      var m := got.restore;
      if m.deleting then
        var (s2, outcome) := HandleDeletion(s1, m);
        (s2, Ended(outcome))
      else if !m.finalizer then
        var (s2, a) := Call(s1, UpdateRestore(m.(finalizer := true)));
        (s2, Ended(if a.RestoreIs? then RequeueNow else Failing))
      else if m.status.phase == Completed then (s1, Ended(Settled))
      else
        var (s2, cluster) := Call(s1, GetCluster(m.spec.targetCluster.In(m.namespace)));
        if !cluster.ClusterIs? then (HandleError(s2, m), Ended(Failing))
        else
          var (s3, backup) := Call(s2, GetBackup(m.spec.backupRef.In(m.namespace)));
          if !backup.BackupIs? then (HandleError(s3, m), Ended(Failing))
          else (s3, Ready(SetDefaults(m), cluster.cluster, backup.backup))
  }

  function Reconcile(s: Sys): (Sys, Outcome) {
    var (s', f) := Fetch(s);
    match f
    case Ended(outcome) => (s', outcome)
    case Ready(m, c, b) =>
      var p := ReconcileRestore(s', m, c, b);
      if p.ok then (p.s, RequeueLater) else (HandleError(p.s, p.m), Failing)
  }

  /** Passes one after another, each with its own script; the environment moves inside scripts. */
  function Run(s: Sys, scripts: seq<seq<Turn<EnvStep>>>): Sys
    decreases |scripts|
  {
    if scripts == [] then s
    else Run(Reconcile(s.(script := scripts[0])).0, scripts[1..])
  }
}
