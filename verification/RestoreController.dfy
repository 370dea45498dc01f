/**
 controllers/postgresrestore_controller.go in its own form: methods that update the
 PostgresRestore in memory and call the API server. Each is proved to do to both exactly
 what the function of the same name in RestoreModel says.
 */
module RestoreController {
  import opened Wrappers
  import opened ApiServer
  import opened ApiTypes
  import opened RestoreModel
  import opened RestoreJobs
  import Model = RestoreModel
  import Naming
  import Selectors

  /** The PostgresRestore the reconciler holds in memory. */
  class RestoreObject {
    var name: string
    var namespace: string
    var spec: RestoreSpec
    var phase: Phase
    var completionTime: Option<int>
    var entries: seq<Entry>
    var version: nat
    var finalizer: bool
    var deleting: bool

    ghost function Value(): Restore
      reads this
    {
      Resource(name, namespace, spec, RestoreStatus(phase, completionTime, entries), version, finalizer, deleting)
    }

    constructor (r: Restore)
      ensures Value() == r
    {
      name, namespace, spec := r.name, r.namespace, r.spec;
      phase, completionTime, entries := r.status.phase, r.status.completionTime, r.status.entries;
      version, finalizer, deleting := r.version, r.finalizer, r.deleting;
    }

    /** What a successful write does: the server's version replaces the one in memory. */
    method Overwrite(r: Restore)
      modifies this
      ensures Value() == r
    {
      name, namespace, spec := r.name, r.namespace, r.spec;
      phase, completionTime, entries := r.status.phase, r.status.completionTime, r.status.entries;
      version, finalizer, deleting := r.version, r.finalizer, r.deleting;
    }

    method Snapshot() returns (r: Restore)
      ensures r == Value()
    {
      r := Resource(name, namespace, spec, RestoreStatus(phase, completionTime, entries), version, finalizer, deleting);
    }
  }

  class RestoreReconciler {
    const api: Server<World, EnvStep, Request, Answer>

    constructor (api: Server<World, EnvStep, Request, Answer>)
      ensures this.api == api
    {
      this.api := api;
    }

    method UpdateStatus(restore: RestoreObject) returns (ok: bool)
      requires api.p == API
      modifies api, restore
      ensures var (s, a) := Call(old(api.State()), Request.UpdateStatus(old(restore.Value())));
              && api.State() == s && ok == a.RestoreIs?
              && restore.Value() == if a.RestoreIs? then a.restore else old(restore.Value())
    {
      var sent := restore.Snapshot();
      var a := api.Call(Request.UpdateStatus(sent));
      if a.RestoreIs? { restore.Overwrite(a.restore); }
      ok := a.RestoreIs?;
    }

    method HandleError(restore: RestoreObject)
      requires api.p == API
      modifies api, restore
      ensures api.State() == Model.HandleError(old(api.State()), old(restore.Value()))
    {
      restore.phase := Failed;
      var _ := UpdateStatus(restore);
    }

    method SetDefaults(restore: RestoreObject)
      modifies restore
      ensures restore.Value() == Model.SetDefaults(old(restore.Value()))
    {
      var o := restore.spec.options;
      if o.timeout == "" { o := o.(timeout := "1h"); }
      if o.parallelRestores == 0 { o := o.(parallelRestores := 1); }
      restore.spec := restore.spec.(options := o);
    }

    /** Lines 139-146: a new slice, filled slot by slot. */
    method FillEntries(restore: RestoreObject, targets: seq<InstanceSpec>)
      modifies restore`entries
      ensures restore.entries == FreshEntries(restore.name, targets)
    {
      restore.entries := seq(|targets|, _ => Entry("", Unset, "", None, None));
      var i := 0;
      while i < |targets|
        invariant 0 <= i <= |targets| == |restore.entries|
        invariant forall j | 0 <= j < i :: restore.entries[j] == FreshEntries(restore.name, targets)[j]
      {
        restore.entries := restore.entries[i :=
          Entry(targets[i].name, Pending, Naming.RestoreJobName(restore.name, targets[i].name), None, None)];
        i := i + 1;
      }
    }

    method InitEntries(restore: RestoreObject, targets: seq<InstanceSpec>) returns (ok: bool)
      requires api.p == API
      modifies api, restore
      ensures Model.InitEntries(old(api.State()), old(restore.Value()), targets)
           == Pass(api.State(), restore.Value(), ok)
    {
      ghost var m := restore.Value();
      if |restore.entries| == |targets| { return true; }
      FillEntries(restore, targets);
      assert restore.Value() == m.(status := m.status.(entries := FreshEntries(m.name, targets)));
      ok := UpdateStatus(restore);
    }

    method UpdateJobStatus(restore: RestoreObject, i: nat, jobName: string) returns (ok: bool)
      requires api.p == API && i < |restore.entries|
      modifies api, restore`entries
      ensures Model.UpdateJobStatus(old(api.State()), old(restore.Value()), i, jobName)
           == Pass(api.State(), restore.Value(), ok)
    {
      if jobName == "" { return true; }
      var a := api.Call(GetJob(jobName));
      if !a.JobIs? { return a.NotFound?; }
      var job := a.found;
      if job.completionTime.Some? {
        restore.entries := restore.entries[i :=
          restore.entries[i].(phase := Completed, completionTime := job.completionTime)];
      } else if job.failed > 0 {
        restore.entries := restore.entries[i := restore.entries[i].(phase := Failed)];
      } else if job.active > 0 {
        restore.entries := restore.entries[i := restore.entries[i].(phase := Running)];
        if restore.entries[i].startTime.None? {
          restore.entries := restore.entries[i := restore.entries[i].(startTime := job.startTime)];
        }
      }
      assert restore.entries == old(restore.entries)[i := Observed(job, old(restore.entries)[i])];
      return true;
    }

    /** One turn of the loop over the targets. */
    method Visit(restore: RestoreObject, c: PostgresCluster, b: PostgresBackup, target: InstanceSpec, i: nat)
      returns (ok: bool)
      requires api.p == API && i < |restore.entries|
      modifies api, restore`entries
      ensures Model.Visit(old(api.State()), old(restore.Value()),
                          RestoreJobFor(restore.name, restore.spec.options, c, b, target), i)
           == Pass(api.State(), restore.Value(), ok)
      ensures |restore.entries| == old(|restore.entries|)
    {
      if restore.entries[i].phase == Completed { return true; }
      var jobName := restore.entries[i].jobName;
      var a := api.Call(GetJob(jobName));
      if !a.JobIs? && !a.NotFound? { return false; }
      if a.NotFound? {
        var job := CreateRestoreJob(restore.name, restore.spec.options, c, b, target);
        if job.Err? { return false; }
        var created := api.Call(CreateJob(job.value));
        if created != Done { return false; }
        restore.entries := restore.entries[i :=
          restore.entries[i].(phase := Running, startTime := Some(api.world.now))];
        jobName := job.value.name;
      }
      ok := UpdateJobStatus(restore, i, jobName);
    }

    method UpdateRestoreStatus(restore: RestoreObject) returns (ok: bool)
      requires api.p == API
      modifies api, restore
      ensures Model.UpdateRestoreStatus(old(api.State()), old(restore.Value())) == Pass(api.State(), restore.Value(), ok)
    {
      var completed, failed, running := 0, 0, 0;
      var i := 0;
      while i < |restore.entries|
        invariant 0 <= i <= |restore.entries|
        invariant completed == Tally(restore.entries[..i], Completed)
        invariant failed == Tally(restore.entries[..i], Failed)
        invariant running == Tally(restore.entries[..i], Running)
      {
        assert restore.entries[..i + 1][..i] == restore.entries[..i];
        match restore.entries[i].phase {
          case Completed => completed := completed + 1;
          case Failed => failed := failed + 1;
          case Running => running := running + 1;
          case _ =>
        }
        i := i + 1;
      }
      assert restore.entries[..i] == restore.entries;
      if failed > 0 {
        restore.phase := Failed;
      } else if completed == |restore.entries| {
        restore.phase := Completed;
        restore.completionTime := Some(api.world.now);
      } else if running > 0 {
        restore.phase := Running;
      } else {
        restore.phase := Pending;
      }
      ok := UpdateStatus(restore);
    }

    method ReconcileRestore(restore: RestoreObject, c: PostgresCluster, b: PostgresBackup) returns (ok: bool)
      requires api.p == API
      modifies api, restore
      ensures Model.ReconcileRestore(old(api.State()), old(restore.Value()), c, b)
           == Pass(api.State(), restore.Value(), ok)
    {
      var resolved := Selectors.GetTargetInstances(c.spec.instances, restore.spec.instances);
      if resolved.Err? { return false; }
      var targets := resolved.value;
      ok := InitEntries(restore, targets);
      if !ok { return; }
      ghost var start, m := api.State(), restore.Value();
      ghost var jobs := JobsFor(m, c, b, targets);
      var i := 0;
      while i < |targets|
        invariant 0 <= i <= |targets| == |restore.entries|
        invariant restore.name == m.name && restore.spec == m.spec
        invariant VisitFrom(api.State(), restore.Value(), jobs, i) == VisitFrom(start, m, jobs, 0)
      {
        ok := Visit(restore, c, b, targets[i], i);
        if !ok { return; }
        i := i + 1;
      }
      ok := UpdateRestoreStatus(restore);
    }

    method HandleDeletion(restore: RestoreObject) returns (outcome: Outcome)
      requires api.p == API
      modifies api, restore
      ensures Model.HandleDeletion(old(api.State()), old(restore.Value())) == (api.State(), outcome)
    {
      ghost var start, m := api.State(), restore.Value();
      var i := 0;
      while i < |restore.entries|
        invariant 0 <= i <= |restore.entries| && restore.Value() == m
        invariant DeleteJobsFrom(api.State(), m, i) == DeleteJobsFrom(start, m, 0)
      {
        if restore.entries[i].jobName != "" {
          var a := api.Call(DeleteJob(restore.entries[i].jobName));
          if a != Done && a != NotFound { return Failing; }
        }
        i := i + 1;
      }
      restore.finalizer := false;
      var sent := restore.Snapshot();
      var a := api.Call(UpdateRestore(sent));
      if !a.RestoreIs? { return Failing; }
      return Settled;
    }

    method Reconcile() returns (outcome: Outcome)
      requires api.p == API
      modifies api
      ensures Model.Reconcile(old(api.State())) == (api.State(), outcome)
    {
      var got := api.Call(GetRestore);
      if !got.RestoreIs? {
        return if got == NotFound then Settled else Failing;
      }
      var restore := new RestoreObject(got.restore);
      if restore.deleting {
        outcome := HandleDeletion(restore);
        return;
      }
      if !restore.finalizer {
        restore.finalizer := true;
        var sent := restore.Snapshot();
        var a := api.Call(UpdateRestore(sent));
        return if a.RestoreIs? then RequeueNow else Failing;
      }
      if restore.phase == Completed { return Settled; }
      var cluster := api.Call(GetCluster(restore.spec.targetCluster.In(restore.namespace)));
      if !cluster.ClusterIs? {
        HandleError(restore);
        return Failing;
      }
      var backup := api.Call(GetBackup(restore.spec.backupRef.In(restore.namespace)));
      if !backup.BackupIs? {
        HandleError(restore);
        return Failing;
      }
      SetDefaults(restore);
      var ok := ReconcileRestore(restore, cluster.cluster, backup.backup);
      if !ok {
        HandleError(restore);
        return Failing;
      }
      return RequeueLater;
    }
  }
}
