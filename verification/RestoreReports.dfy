/**
 What a restore's status says: the phase of the whole in terms of its slots, and the phase of a
 slot in terms of its job.
 */
module RestoreReports {
  import opened Wrappers
  import opened ApiServer
  import opened ApiTypes
  import opened RestoreModel
  import opened RestoreJobs
  import opened RestoreProgress
  import RestoreSafety
  import Selectors

  // ------------------------------------------------------------------ the whole

  ghost predicate AnyIn(entries: seq<Entry>, phase: Phase) {
    exists i :: 0 <= i < |entries| && entries[i].phase == phase
  }

  ghost predicate AllIn(entries: seq<Entry>, phase: Phase) {
    forall i | 0 <= i < |entries| :: entries[i].phase == phase
  }

  /** One failed instance makes the restore Failed; else it is Completed if all are, Running if one is, and Pending. */
  ghost predicate Sums(entries: seq<Entry>, phase: Phase) {
    && (phase == Failed <==> AnyIn(entries, Failed))
    && (phase == Completed <==> AllIn(entries, Completed))
    && (phase == Running <==> !AnyIn(entries, Failed) && !AllIn(entries, Completed) && AnyIn(entries, Running))
    && (phase == Pending <==> !AnyIn(entries, Failed) && !AllIn(entries, Completed) && !AnyIn(entries, Running))
  }

  lemma AggregateSums(entries: seq<Entry>)
    ensures Sums(entries, Aggregate(entries))
  {
    RestoreSafety.TallyBounds(entries, Failed);
    RestoreSafety.TallyBounds(entries, Completed);
    RestoreSafety.TallyBounds(entries, Running);
    if AnyIn(entries, Failed) {
      var i :| 0 <= i < |entries| && entries[i].phase == Failed;
      assert !AllIn(entries, Completed);
    }
  }

  /**
   Once updateRestoreStatus has been accepted, the persisted phase sums up the persisted entries,
   which are those in memory; a restore that is Completed has completed at that time.
   */
  lemma ReportSums(s: Sys, m: Restore)
    requires UpdateRestoreStatus(s, m).ok
    ensures var p := UpdateRestoreStatus(s, m);
            && p.s.world.restore == Some(p.m)
            && p.m.status.entries == m.status.entries && Sums(p.m.status.entries, p.m.status.phase)
            && p.m.status.completionTime == (if p.m.status.phase == Completed then Some(s.world.now) else m.status.completionTime)
  {
    AggregateSums(m.status.entries);
  }

  // ------------------------------------------------------------------ a slot

  /** How an entry follows what its job reports. */
  ghost predicate Follows(e: Entry, job: Job, e': Entry) {
    && (e'.name, e'.jobName) == (e.name, e.jobName)
    && if job.completionTime.Some? then e'.phase == Completed && e'.completionTime == job.completionTime && e'.startTime == e.startTime
       else
         && e'.completionTime == e.completionTime
         && if job.failed > 0 then e'.phase == Failed && e'.startTime == e.startTime
            else if job.active > 0 then e'.phase == Running && e'.startTime == (if e.startTime.None? then job.startTime else e.startTime)
            else e' == e
  }

  lemma ObservedFollows(job: Job, e: Entry)
    ensures Follows(e, job, Observed(job, e))
  {
  }

  /**
   A look at a slot: a Completed one stays, and one whose job is there follows it. Where the job
   is missing it is created and the slot is Running, unless another slot has just created it.
   */
  ghost predicate Looked(w: World, e: Entry, e': Entry) {
    && (e.phase == Completed ==> e' == e)
    && (e.phase != Completed && e.jobName in w.jobs ==> Follows(e, w.jobs[e.jobName], e'))
    && (e.phase != Completed && e.jobName !in w.jobs ==>
          (e'.name, e'.jobName) == (e.name, e.jobName) && ((e'.phase == Running && e'.startTime.Some?) || e' == e))
  }

  lemma QuietLook(s: Sys, m: Restore, jobs: seq<Result<RestoreJob>>, i: nat, n: int)
    requires Quiet(s, n) && n > 2 && Matched(m, jobs) && i < |jobs|
    ensures var p := Visit(s, m, jobs[i], i); p.ok ==> Looked(s.world, m.status.entries[i], p.m.status.entries[i])
  {
    var e := m.status.entries[i];
    if e.phase != Completed {
      QuietCall(s, GetJob(e.jobName), n);
      var s' := Call(s, GetJob(e.jobName)).0;
      if e.jobName in s.world.jobs {
        ObservedFollows(s.world.jobs[e.jobName], e);
        QuietUpdateJobStatus(s', m, i, e.jobName, n - 1);
      } else if jobs[i].Ok? {
        QuietLookCreated(s', m, i, jobs[i].value, n - 1);
      }
    }
  }

  lemma QuietLookCreated(s: Sys, m: Restore, i: nat, job: RestoreJob, n: int)
    requires Quiet(s, n) && n > 1 && i < |m.status.entries| && job.name != ""
    requires m.status.entries[i].jobName == job.name && job.name !in s.world.jobs
    ensures var p := CreateMissing(s, m, i, Ok(job));
            var e, e' := m.status.entries[i], p.m.status.entries[i];
            e' == e.(phase := Running, startTime := Some(Call(s, CreateJob(job)).0.world.now))
  {
    QuietCall(s, CreateJob(job), n);
    var s' := Call(s, CreateJob(job)).0;
    var e := m.status.entries[i].(phase := Running, startTime := Some(s'.world.now));
    QuietUpdateJobStatus(s', SetEntry(m, i, e), i, job.name, n - 1);
  }

  /** The world has its jobs from an earlier one, and perhaps new ones that are idle. */
  ghost predicate IdleMore(w: World, w': World) {
    && JobsKept(w, w')
    && forall n | n in w'.jobs && n !in w.jobs :: w'.jobs[n].completionTime.None? && w'.jobs[n].failed == 0 && w'.jobs[n].active == 0
  }

  lemma LookedEarlier(w: World, w': World, e: Entry, e': Entry)
    requires IdleMore(w, w') && Looked(w', e, e')
    ensures Looked(w, e, e')
  {
  }

  lemma QuietIdle(s: Sys, m: Restore, jobs: seq<Result<RestoreJob>>, i: nat, n: int)
    requires Quiet(s, n) && n > 2 && Matched(m, jobs) && i < |jobs|
    ensures IdleMore(s.world, Visit(s, m, jobs[i], i).s.world)
  {
    var e := m.status.entries[i];
    if e.phase != Completed {
      QuietCall(s, GetJob(e.jobName), n);
      var s' := Call(s, GetJob(e.jobName)).0;
      if e.jobName in s.world.jobs {
        QuietUpdateJobStatus(s', m, i, e.jobName, n - 1);
      } else if jobs[i].Ok? {
        QuietCall(s', CreateJob(jobs[i].value), n - 1);
        var s'' := Call(s', CreateJob(jobs[i].value)).0;
        QuietUpdateJobStatus(s'', SetEntry(m, i, e.(phase := Running, startTime := Some(s''.world.now))), i, e.jobName, n - 2);
      }
    }
  }

  /** The first `i` slots have been looked at, the others are as they were. */
  ghost predicate LookedUpTo(w: World, before: seq<Entry>, after: seq<Entry>, i: nat) {
    && |after| == |before| && i <= |before|
    && (forall j | 0 <= j < i :: Looked(w, before[j], after[j]))
    && (forall j | i <= j < |before| :: after[j] == before[j])
  }

  lemma LookedOneMore(w: World, before: seq<Entry>, m: Restore, m': Restore, w0: World, w1: World, i: nat)
    requires LookedUpTo(w, before, m.status.entries, i) && Turned(w0, m, w1, m', i) && Looked(w, before[i], m'.status.entries[i])
    ensures LookedUpTo(w, before, m'.status.entries, i + 1)
  {
  }

  lemma {:induction false} QuietLooks(s: Sys, m: Restore, jobs: seq<Result<RestoreJob>>, i: nat, n: int, w: World, before: seq<Entry>)
    requires Quiet(s, n) && n >= 3 * (|jobs| - i) && Matched(m, jobs) && i <= |jobs|
    requires IdleMore(w, s.world) && LookedUpTo(w, before, m.status.entries, i)
    ensures var p := VisitFrom(s, m, jobs, i); p.ok ==> LookedUpTo(w, before, p.m.status.entries, |jobs|)
    decreases |jobs| - i
  {
    if i < |jobs| {
      QuietVisit(s, m, jobs, i, n);
      QuietIdle(s, m, jobs, i, n);
      QuietLook(s, m, jobs, i, n);
      var p := Visit(s, m, jobs[i], i);
      if p.ok {
        LookedEarlier(w, s.world, m.status.entries[i], p.m.status.entries[i]);
        LookedOneMore(w, before, m, p.m, s.world, p.s.world, i);
        QuietLooks(p.s, p.m, jobs, i + 1, n - 3, w, before);
      }
    }
  }

  // ------------------------------------------------------------------ a whole pass

  ghost predicate SomeUnbuilt(jobs: seq<Result<RestoreJob>>) {
    exists k :: 0 <= k < |jobs| && jobs[k].Err?
  }

  /** Failed, because some job cannot be built, or the sum of what the slots' jobs report. */
  ghost predicate Reports(w: World, before: seq<Entry>, jobs: seq<Result<RestoreJob>>, r: Restore) {
    || (r.status.phase == Failed && SomeUnbuilt(jobs))
    || (LookedUpTo(w, before, r.status.entries, |before|) && Sums(r.status.entries, r.status.phase))
  }

  lemma QuietLoopReports(s: Sys, m: Restore, jobs: seq<Result<RestoreJob>>, n: int, w: World)
    requires Quiet(s, n) && n > 3 * |jobs| && InStep(m, s.world) && Matched(m, jobs) && IdleMore(w, s.world)
    ensures var v := VisitFrom(s, m, jobs, 0);
            var w' := After(if v.ok then UpdateRestoreStatus(v.s, v.m) else v).world;
            && w'.restore.Some? && (!v.ok ==> w'.restore.value.status.phase == Failed && SomeUnbuilt(jobs))
            && (v.ok ==> LookedUpTo(w, m.status.entries, w'.restore.value.status.entries, |jobs|)
                         && Sums(w'.restore.value.status.entries, w'.restore.value.status.phase))
  {
    QuietLooks(s, m, jobs, 0, n, w, m.status.entries);
    var k := QuietVisitFrom(s, m, jobs, 0, n);
    var v := VisitFrom(s, m, jobs, 0);
    if v.ok {
      QuietStatus(v.s, WithAggregate(v.m, v.s.world.now), n - 3 * |jobs|);
      ReportSums(v.s, v.m);
    } else {
      QuietHandleError(v.s, v.m, n - 3 * |jobs|);
    }
  }

  /** An undisturbed pass over a restore whose targets can be resolved reports what the slots' jobs say. */
  lemma QuietPassReports(s: Sys)
    requires Quiet(s, Calls(s.world)) && AlignedWorld(s.world) && RefsPresent(s.world) && TargetsIn(s.world).Ok?
    ensures var w, w' := s.world, Reconcile(s).0.world;
            w'.restore.Some? && Reports(w, WorkingEntries(w.restore.value, TargetsIn(w).value), JobsOf(w), w'.restore.value)
  {
    var w, targets := s.world, TargetsIn(s.world).value;
    QuietPassIs(s);
    var s', m := Fetch(s).0, SetDefaults(w.restore.value);
    var c, b := w.clusters[ClusterKey(w)], w.backups[BackupKey(w)];
    QuietInit(s', m, targets, Calls(w) - 3);
    var p := InitEntries(s', m, targets);
    InitWorks(s', m, targets);
    AlignedMatched(p.m, c, b, targets);
    QuietLoopReports(p.s, p.m, JobsFor(p.m, c, b, targets), Calls(w) - 4, w);
    UnbuiltAlike(m, p.m, c, b, targets);
  }

  lemma UnbuiltAlike(m: Restore, m': Restore, c: PostgresCluster, b: PostgresBackup, targets: seq<InstanceSpec>)
    requires m.name == m'.name
    ensures SomeUnbuilt(JobsFor(m, c, b, targets)) <==> SomeUnbuilt(JobsFor(m', c, b, targets))
  {
    JobsAlike(m, m', c, b, targets);
  }

  lemma InitWorks(s: Sys, m: Restore, targets: seq<InstanceSpec>)
    requires InitEntries(s, m, targets).ok
    ensures InitEntries(s, m, targets).m.status.entries == WorkingEntries(m, targets)
  {
  }

  lemma FailedIsSummed(w: World, before: seq<Entry>, jobs: seq<Result<RestoreJob>>, r: Restore, i: nat)
    requires Reports(w, before, jobs, r) && i < |before| && before[i].phase != Completed && before[i].jobName in w.jobs
    requires w.jobs[before[i].jobName].failed > 0 && w.jobs[before[i].jobName].completionTime.None?
    ensures r.status.phase == Failed
  {
    if LookedUpTo(w, before, r.status.entries, |before|) {
      assert Looked(w, before[i], r.status.entries[i]);
    }
  }

  /** So an instance whose restore has failed is never passed over. */
  lemma FailedJobReported(s: Sys, i: nat)
    requires Quiet(s, Calls(s.world)) && AlignedWorld(s.world) && RefsPresent(s.world) && TargetsIn(s.world).Ok?
    requires var w := s.world;
             var entries := WorkingEntries(w.restore.value, TargetsIn(w).value);
             && i < |entries| && entries[i].phase != Completed && entries[i].jobName in w.jobs
             && w.jobs[entries[i].jobName].failed > 0 && w.jobs[entries[i].jobName].completionTime.None?
    ensures var w' := Reconcile(s).0.world; w'.restore.Some? && w'.restore.value.status.phase == Failed
  {
    QuietPassReports(s);
    var w := s.world;
    FailedIsSummed(w, WorkingEntries(w.restore.value, TargetsIn(w).value), JobsOf(w), Reconcile(s).0.world.restore.value, i);
  }

  // ------------------------------------------------------------------ deletion

  /** The status names this job, from the i-th slot on. */
  ghost predicate Names(entries: seq<Entry>, i: nat, job: string) {
    exists j :: i <= j < |entries| && entries[j].jobName == job != ""
  }

  /** Exactly the jobs named have gone. */
  ghost predicate Without(w: World, w': World, entries: seq<Entry>, i: nat) {
    && w'.restore == w.restore
    && forall n :: if Names(entries, i, n) then n !in w'.jobs else (n in w'.jobs <==> n in w.jobs) && (n in w.jobs ==> w'.jobs[n] == w.jobs[n])
  }

  lemma NamesFirst(entries: seq<Entry>, i: nat, n: string)
    requires i < |entries|
    ensures Names(entries, i, n) <==> (entries[i].jobName == n != "") || Names(entries, i + 1, n)
  {
  }

  lemma WithoutOne(w: World, w1: World, w': World, entries: seq<Entry>, i: nat)
    requires i < |entries| && Without(w1, w', entries, i + 1)
    requires w1.restore == w.restore && w1.jobs == if entries[i].jobName == "" then w.jobs else w.jobs - {entries[i].jobName}
    ensures Without(w, w', entries, i)
  {
    forall n ensures Names(entries, i, n) <==> (entries[i].jobName == n != "") || Names(entries, i + 1, n) {
      NamesFirst(entries, i, n);
    }
  }

  lemma {:induction false} QuietDeletes(s: Sys, m: Restore, i: nat, n: int)
    requires Quiet(s, n) && i <= |m.status.entries| && n >= |m.status.entries| - i
    ensures var (s', deleted) := DeleteJobsFrom(s, m, i);
            deleted && Without(s.world, s'.world, m.status.entries, i) && Quiet(s', n - (|m.status.entries| - i))
    decreases |m.status.entries| - i
  {
    if i < |m.status.entries| {
      var job := m.status.entries[i].jobName;
      var s1 := s;
      if job != "" {
        QuietCall(s, DeleteJob(job), n);
        s1 := Call(s, DeleteJob(job)).0;
      }
      QuietDeletes(s1, m, i + 1, if job == "" then n else n - 1);
      WithoutOne(s.world, s1.world, DeleteJobsFrom(s1, m, i + 1).0.world, m.status.entries, i);
    }
  }

  /** An undisturbed pass over a deleted restore removes every job its status names, no other, and lets the restore go. */
  lemma DeletionSettles(s: Sys)
    requires s.world.restore.Some? && s.world.restore.value.deleting
    requires Quiet(s, 2 + |s.world.restore.value.status.entries|)
    ensures var (s', outcome) := Reconcile(s);
            && outcome == Settled && s'.world.restore.None?
            && Without(s.world, s'.world.(restore := s.world.restore), s.world.restore.value.status.entries, 0)
  {
    var r, n := s.world.restore.value, |s.world.restore.value.status.entries|;
    QuietCall(s, GetRestore, n + 2);
    var s1 := Call(s, GetRestore).0;
    QuietDeletes(s1, r, 0, n + 1);
    var s2 := DeleteJobsFrom(s1, r, 0).0;
    QuietCall(s2, UpdateRestore(r.(finalizer := false)), 1);
  }

  // ------------------------------------------------------------------ errors

  lemma CallHeard(s: Sys, q: Request)
    ensures var (s', a) := Call(s, q); a != Unreachable ==> AllHeard(s, s')
  {
    if Call(s, q).1 != Unreachable {
      ExchangeHeard(API, s, q);
    }
  }

  lemma LookHeard(s: Sys, m: Restore, i: nat, jobName: string)
    requires i < |m.status.entries|
    ensures var p := UpdateJobStatus(s, m, i, jobName); p.ok ==> AllHeard(s, p.s)
  {
    if jobName != "" {
      CallHeard(s, GetJob(jobName));
    }
  }

  lemma CreateHeard(s: Sys, m: Restore, i: nat, job: Result<RestoreJob>)
    requires i < |m.status.entries|
    ensures var p := CreateMissing(s, m, i, job); p.ok ==> AllHeard(s, p.s)
  {
    if job.Ok? {
      var q := CreateJob(job.value);
      CallHeard(s, q);
      var s' := Call(s, q).0;
      var m' := SetEntry(m, i, m.status.entries[i].(phase := Running, startTime := Some(s'.world.now)));
      LookHeard(s', m', i, job.value.name);
      if CreateMissing(s, m, i, job).ok {
        HeardThen(s, s', UpdateJobStatus(s', m', i, job.value.name).s);
      }
    }
  }

  lemma VisitHeard(s: Sys, m: Restore, job: Result<RestoreJob>, i: nat)
    requires i < |m.status.entries|
    ensures var p := Visit(s, m, job, i); p.ok ==> AllHeard(s, p.s)
  {
    var e := m.status.entries[i];
    if e.phase != Completed && Visit(s, m, job, i).ok {
      CallHeard(s, GetJob(e.jobName));
      var s' := Call(s, GetJob(e.jobName)).0;
      LookHeard(s', m, i, e.jobName);
      CreateHeard(s', m, i, job);
      HeardThen(s, s', Visit(s, m, job, i).s);
    }
  }

  lemma {:induction false} LoopHeard(s: Sys, m: Restore, jobs: seq<Result<RestoreJob>>, i: nat)
    requires i <= |jobs| == |m.status.entries|
    ensures var p := VisitFrom(s, m, jobs, i); p.ok ==> AllHeard(s, p.s)
    decreases |jobs| - i
  {
    if i < |jobs| {
      VisitHeard(s, m, jobs[i], i);
      var p := Visit(s, m, jobs[i], i);
      if VisitFrom(s, m, jobs, i).ok {
        LoopHeard(p.s, p.m, jobs, i + 1);
        HeardThen(s, p.s, VisitFrom(p.s, p.m, jobs, i + 1).s);
      }
    }
  }

  lemma TargetsHeard(s: Sys, m: Restore, c: PostgresCluster, b: PostgresBackup, targets: seq<InstanceSpec>)
    ensures var p := ReconcileTargets(s, m, c, b, targets); p.ok ==> AllHeard(s, p.s)
  {
    if ReconcileTargets(s, m, c, b, targets).ok {
      CallHeard(s, UpdateStatus(m.(status := m.status.(entries := FreshEntries(m.name, targets)))));
      var p := InitEntries(s, m, targets);
      LoopHeard(p.s, p.m, JobsFor(p.m, c, b, targets), 0);
      var v := VisitFrom(p.s, p.m, JobsFor(p.m, c, b, targets), 0);
      CallHeard(v.s, UpdateStatus(WithAggregate(v.m, v.s.world.now)));
      HeardThen(s, p.s, v.s);
      HeardThen(s, v.s, UpdateRestoreStatus(v.s, v.m).s);
    }
  }

  lemma {:induction false} DeletesHeard(s: Sys, m: Restore, i: nat)
    requires i <= |m.status.entries|
    ensures var (s', deleted) := DeleteJobsFrom(s, m, i); deleted ==> AllHeard(s, s')
    decreases |m.status.entries| - i
  {
    if i < |m.status.entries| {
      var job := m.status.entries[i].jobName;
      if job == "" {
        DeletesHeard(s, m, i + 1);
      } else if DeleteJobsFrom(s, m, i).1 {
        CallHeard(s, DeleteJob(job));
        var s' := Call(s, DeleteJob(job)).0;
        DeletesHeard(s', m, i + 1);
        HeardThen(s, s', DeleteJobsFrom(s', m, i + 1).0);
      }
    }
  }

  lemma DeletionHeard(s: Sys, m: Restore)
    ensures var (s', outcome) := HandleDeletion(s, m); outcome != Failing ==> AllHeard(s, s')
  {
    if HandleDeletion(s, m).1 != Failing {
      DeletesHeard(s, m, 0);
      var s' := DeleteJobsFrom(s, m, 0).0;
      CallHeard(s', UpdateRestore(m.(finalizer := false)));
      HeardThen(s, s', HandleDeletion(s, m).0);
    }
  }

  lemma RefsHeard(s: Sys, m: Restore)
    ensures var (s2, cluster) := Call(s, GetCluster(m.spec.targetCluster.In(m.namespace)));
            var (s3, backup) := Call(s2, GetBackup(m.spec.backupRef.In(m.namespace)));
            cluster.ClusterIs? && backup.BackupIs? ==> AllHeard(s, s3)
  {
    var q2, q3 := GetCluster(m.spec.targetCluster.In(m.namespace)), GetBackup(m.spec.backupRef.In(m.namespace));
    CallHeard(s, q2);
    var (s2, cluster) := Call(s, q2);
    CallHeard(s2, q3);
    var (s3, backup) := Call(s2, q3);
    if cluster.ClusterIs? && backup.BackupIs? {
      HeardThen(s, s2, s3);
    }
  }

  lemma FetchHeard(s: Sys)
    ensures var (s', f) := Fetch(s); f != Ended(Failing) ==> AllHeard(s, s')
  {
    CallHeard(s, GetRestore);
    var (s1, got) := Call(s, GetRestore);
    if got.RestoreIs? && Fetch(s).1 != Ended(Failing) {
      var m := got.restore;
      DeletionHeard(s1, m);
      CallHeard(s1, UpdateRestore(m.(finalizer := true)));
      RefsHeard(s1, m);
      HeardThen(s, s1, Fetch(s).0);
    }
  }

  /** No error is swallowed: a pass that does not fail has heard the reply to each of its requests. */
  lemma ErrorsAreReported(s: Sys)
    ensures var (s', outcome) := Reconcile(s); outcome != Failing ==> AllHeard(s, s')
  {
    FetchHeard(s);
    var (s', f) := Fetch(s);
    if f.Ready? && Reconcile(s).1 != Failing {
      var targets := Selectors.RestoreTargets(f.cluster.spec.instances, f.m.spec.instances).value;
      TargetsHeard(s', f.m, f.cluster, f.backup, targets);
      HeardThen(s, s', Reconcile(s).0);
    }
  }

  // ------------------------------------------------------------------ the pass itself

  /** The options a pass fills in where none are given. */
  lemma OptionsDefaulted(m: Restore)
    ensures var o, d := m.spec.options, SetDefaults(m).spec.options;
            && d.timeout == (if o.timeout == "" then "1h" else o.timeout)
            && d.parallelRestores == (if o.parallelRestores == 0 then 1 else o.parallelRestores)
            && (d.dropExisting, d.dataOnly, d.schemaOnly) == (o.dropExisting, o.dataOnly, o.schemaOnly)
            && SetDefaults(m) == m.(spec := m.spec.(options := d))
  {
  }

  /**
   What a pass says of itself: it comes back later once its report has been accepted, at once when
   it has put its finalizer there, and not at all when the restore is gone, Completed or released.
   */
  lemma OutcomeSays(s: Sys)
    ensures var (s', outcome) := Reconcile(s);
            var r := s'.world.restore;
            && (outcome == RequeueLater ==> r.Some? && Sums(r.value.status.entries, r.value.status.phase))
            && (outcome == RequeueNow ==> r.Some? && r.value.finalizer)
            && (outcome == Settled ==> r.None? || r.value.status.phase == Completed || !r.value.finalizer)
  {
    var (s', f) := Fetch(s);
    if f.Ready? {
      var targets := Selectors.RestoreTargets(f.cluster.spec.instances, f.m.spec.instances);
      if targets.Ok? && ReconcileTargets(s', f.m, f.cluster, f.backup, targets.value).ok {
        var p := InitEntries(s', f.m, targets.value);
        var v := VisitFrom(p.s, p.m, JobsFor(p.m, f.cluster, f.backup, targets.value), 0);
        ReportSums(v.s, v.m);
      }
    } else {
      FetchEnds(s);
    }
  }

  lemma FetchEnds(s: Sys)
    requires Fetch(s).1.Ended?
    ensures var (s', f) := Fetch(s);
            var r := s'.world.restore;
            && f.outcome != RequeueLater
            && (f.outcome == RequeueNow ==> r.Some? && r.value.finalizer)
            && (f.outcome == Settled ==> r.None? || r.value.status.phase == Completed || !r.value.finalizer)
  {
  }
}
