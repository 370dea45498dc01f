/**
 Undisturbed passes of the restore controller: nothing happens on the way but that time passes.

 A second such pass finds everything as the first has left it, at whatever time it comes, also
 when the first one stopped at a job that cannot be built. And once the job of every slot has
 completed, one such pass persists that the restore is Completed, whatever failures of jobs had
 been recorded before.
 */
module RestoreProgress {
  import opened Wrappers
  import opened ApiServer
  import opened ApiTypes
  import opened RestoreModel
  import opened RestoreJobs
  import Naming
  import RestoreSafety
  import Selectors

  /** Nothing fails, and nothing moves but the clock. */
  ghost predicate Ticking(script: seq<Turn<EnvStep>>) {
    forall i | 0 <= i < |script| :: script[i].reply == Served && OnlyTicks(script[i].env)
  }

  ghost predicate OnlyTicks(env: seq<EnvStep>) {
    forall i | 0 <= i < |env| :: env[i].ClockTicks?
  }

  /** A session with at least `n` undisturbed requests ahead of it. */
  ghost predicate Quiet(s: Sys, n: int) {
    Ticking(s.script) && |s.script| >= n
  }

  /** The two differ in the time of day. */
  ghost predicate Same(w: World, w': World) {
    w' == w.(now := w'.now)
  }

  lemma {:induction false} DriftTicks(s: Sys, env: seq<EnvStep>)
    requires OnlyTicks(env)
    ensures var s' := Drift(API, s, env); Same(s.world, s'.world) && s'.script == s.script
    decreases |env|
  {
    if env != [] {
      DriftTicks(s.Become(Move(s.world, env[0])), env[1..]);
    }
  }

  /** What a request does and answers does not depend on the time. */
  lemma ServedAnytime(w: World, w': World, q: Request)
    requires Same(w, w')
    ensures Same(Serve(w, q).0, Serve(w', q).0) && Serve(w', q).1 == Serve(w, q).1
  {
  }

  lemma QuietCall(s: Sys, q: Request, n: int)
    requires Quiet(s, n) && n > 0
    ensures var (s', a) := Call(s, q);
            Same(Serve(s.world, q).0, s'.world) && a == Serve(s.world, q).1 && Quiet(s', n - 1)
  {
    var s0 := s.(script := s.script[1..]);
    assert s.script[0].reply == Served && OnlyTicks(s.script[0].env);
    DriftTicks(s0, s.script[0].env);
    ServedAnytime(s.world, Drift(API, s0, s.script[0].env).world, q);
    assert forall i | 0 <= i < |s.script| - 1 :: s.script[1..][i] == s.script[i + 1];
  }

  /** A world with another restore status. */
  ghost predicate JobsOnly(w: World, w': World) {
    w' == w.(jobs := w'.jobs, log := w'.log, now := w'.now)
  }

  /** Jobs already there are left alone. */
  ghost predicate JobsKept(w: World, w': World) {
    forall n | n in w.jobs :: n in w'.jobs && w'.jobs[n] == w.jobs[n]
  }

  ghost predicate WithEntries(m: Restore, m': Restore) {
    && m' == m.(status := m.status.(entries := m'.status.entries))
    && |m'.status.entries| == |m.status.entries|
  }

  /** The recorded job names are proper and those of the jobs that can be built. */
  ghost predicate Matched(m: Restore, jobs: seq<Result<RestoreJob>>) {
    && |m.status.entries| == |jobs|
    && forall i | 0 <= i < |jobs| ::
      && m.status.entries[i].jobName != ""
      && (jobs[i].Ok? ==> jobs[i].value.name == m.status.entries[i].jobName)
  }

  /** Looking at the entry's job again would not move it. */
  ghost predicate Settled(w: World, e: Entry) {
    e.phase == Completed || (e.jobName in w.jobs && Observed(w.jobs[e.jobName], e) == e)
  }

  ghost predicate SettledUpTo(w: World, m: Restore, k: nat) {
    k <= |m.status.entries| && forall i | 0 <= i < k :: Settled(w, m.status.entries[i])
  }

  /** The loop cannot get past slot `k`: its job is missing and cannot be built. */
  ghost predicate StuckAt(w: World, m: Restore, jobs: seq<Result<RestoreJob>>, k: nat) {
    && k < |jobs| == |m.status.entries|
    && m.status.entries[k].phase != Completed
    && m.status.entries[k].jobName !in w.jobs
    && jobs[k].Err?
  }

  /** Where a quiet loop ends: behind the last slot, or stuck. */
  ghost predicate Rests(w: World, m: Restore, jobs: seq<Result<RestoreJob>>, k: nat, ok: bool) {
    && SettledUpTo(w, m, k)
    && (if ok then k == |jobs| == |m.status.entries| else StuckAt(w, m, jobs, k))
  }

  // ------------------------------------------------------------------ the loop, quietly

  lemma ObservedTwice(job: Job, e: Entry)
    ensures Observed(job, Observed(job, e)) == Observed(job, e)
    ensures Observed(job, e).jobName == e.jobName
  {
  }

  lemma QuietUpdateJobStatus(s: Sys, m: Restore, i: nat, jobName: string, n: int)
    requires Quiet(s, n) && n > 0 && i < |m.status.entries| && jobName in s.world.jobs && jobName != ""
    ensures var p := UpdateJobStatus(s, m, i, jobName);
            && p.ok && Same(s.world, p.s.world) && Quiet(p.s, n - 1)
            && p.m == SetEntry(m, i, Observed(s.world.jobs[jobName], m.status.entries[i]))
  {
    QuietCall(s, GetJob(jobName), n);
  }

  /** What a turn of the loop may change: slot `i`, and the jobs there are. */
  ghost predicate Turned(w: World, m: Restore, w': World, m': Restore, i: nat) {
    && JobsOnly(w, w') && JobsKept(w, w')
    && WithEntries(m, m') && i < |m.status.entries|
    && m'.status.entries == m.status.entries[i := m'.status.entries[i]]
    && m'.status.entries[i].jobName == m.status.entries[i].jobName
  }

  lemma QuietCreate(s: Sys, m: Restore, i: nat, job: Result<RestoreJob>, n: int)
    requires Quiet(s, n) && n > 1 && i < |m.status.entries| && m.status.entries[i].jobName !in s.world.jobs
    requires job.Ok? ==> job.value.name != "" && m.status.entries[i].jobName == job.value.name
    ensures var p := CreateMissing(s, m, i, job);
            && p.ok == job.Ok? && Turned(s.world, m, p.s.world, p.m, i) && Quiet(p.s, n - 2)
            && (p.ok ==> Settled(p.s.world, p.m.status.entries[i]))
            && (!p.ok ==> p.m == m && p.s == s)
  {
    if job.Ok? {
      QuietCall(s, CreateJob(job.value), n);
      var s' := Call(s, CreateJob(job.value)).0;
      var e := m.status.entries[i].(phase := Running, startTime := Some(s'.world.now));
      QuietUpdateJobStatus(s', SetEntry(m, i, e), i, job.value.name, n - 1);
    }
  }

  lemma QuietVisit(s: Sys, m: Restore, jobs: seq<Result<RestoreJob>>, i: nat, n: int)
    requires Quiet(s, n) && n > 2 && Matched(m, jobs) && i < |jobs|
    ensures var p := Visit(s, m, jobs[i], i);
            && Turned(s.world, m, p.s.world, p.m, i) && Quiet(p.s, n - 3)
            && (p.ok ==> Settled(p.s.world, p.m.status.entries[i]))
            && (!p.ok ==> p.m == m && StuckAt(p.s.world, m, jobs, i))
  {
    var e := m.status.entries[i];
    if e.phase != Completed {
      QuietCall(s, GetJob(e.jobName), n);
      var s' := Call(s, GetJob(e.jobName)).0;
      if e.jobName in s.world.jobs {
        ObservedTwice(s.world.jobs[e.jobName], e);
        QuietUpdateJobStatus(s', m, i, e.jobName, n - 1);
      } else {
        QuietCreate(s', m, i, jobs[i], n - 1);
      }
    }
  }

  lemma TurnedSettles(w: World, m: Restore, w': World, m': Restore, jobs: seq<Result<RestoreJob>>, i: nat)
    requires Turned(w, m, w', m', i) && Matched(m, jobs) && SettledUpTo(w, m, i) && Settled(w', m'.status.entries[i])
    ensures Matched(m', jobs) && SettledUpTo(w', m', i + 1)
  {
    forall j | 0 <= j < i ensures Settled(w', m'.status.entries[j]) {
      assert m'.status.entries[j] == m.status.entries[j];
    }
  }

  lemma {:induction false} QuietVisitFrom(
      s: Sys, m: Restore, jobs: seq<Result<RestoreJob>>, i: nat, n: int)
      returns (k: nat)
    requires Matched(m, jobs) && i <= |jobs| && SettledUpTo(s.world, m, i)
    requires Quiet(s, n) && n >= 3 * (|jobs| - i)
    ensures var p := VisitFrom(s, m, jobs, i);
            && JobsOnly(s.world, p.s.world) && WithEntries(m, p.m) && Matched(p.m, jobs)
            && Quiet(p.s, n - 3 * (|jobs| - i)) && Rests(p.s.world, p.m, jobs, k, p.ok)
    decreases |jobs| - i
  {
    k := i;
    if i < |jobs| {
      QuietVisit(s, m, jobs, i, n);
      var p := Visit(s, m, jobs[i], i);
      if p.ok {
        TurnedSettles(s.world, m, p.s.world, p.m, jobs, i);
        k := QuietVisitFrom(p.s, p.m, jobs, i + 1, n - 3);
      }
    }
  }

  lemma RestingVisit(s: Sys, m: Restore, jobs: seq<Result<RestoreJob>>, i: nat, k: nat, ok: bool, n: int)
    requires Matched(m, jobs) && i <= k && i < |jobs| && Rests(s.world, m, jobs, k, ok)
    requires Quiet(s, n) && n > 2
    ensures var p := Visit(s, m, jobs[i], i);
            Same(s.world, p.s.world) && p.m == m && p.ok == (i < k) && Quiet(p.s, n - 3)
  {
    var e := m.status.entries[i];
    if e.phase != Completed {
      QuietCall(s, GetJob(e.jobName), n);
      var s' := Call(s, GetJob(e.jobName)).0;
      if i < k {
        QuietUpdateJobStatus(s', m, i, e.jobName, n - 1);
        assert m.status.entries[i := e] == m.status.entries;
      }
    }
  }

  /** A loop that already rests does nothing. */
  lemma {:induction false} RestingVisitFrom(
      s: Sys, m: Restore, jobs: seq<Result<RestoreJob>>, i: nat, k: nat, ok: bool, n: int)
    requires Matched(m, jobs) && i <= k && Rests(s.world, m, jobs, k, ok)
    requires Quiet(s, n) && n >= 3 * (|jobs| - i)
    ensures var p := VisitFrom(s, m, jobs, i);
            Same(s.world, p.s.world) && p.m == m && p.ok == ok && Quiet(p.s, n - 3 * (|jobs| - i))
    decreases |jobs| - i
  {
    if i < |jobs| {
      RestingVisit(s, m, jobs, i, k, ok, n);
      if i < k {
        var p := Visit(s, m, jobs[i], i);
        RestingVisitFrom(p.s, p.m, jobs, i + 1, k, ok, n - 3);
      }
    }
  }

  // ------------------------------------------------------------------ a pass, quietly

  lemma QuietStatus(s: Sys, m: Restore, n: int)
    requires Quiet(s, n) && n > 0 && s.world.restore.Some? && s.world.restore.value.version == m.version
    ensures var (s', a) := Call(s, UpdateStatus(m));
            var r := StatusUpdated(s.world.restore.value, m);
            a == RestoreIs(r) && Same(s.world.(restore := Some(r)), s'.world) && Quiet(s', n - 1)
  {
    QuietCall(s, UpdateStatus(m), n);
  }

  /** A restore the controller still works on. */
  ghost predicate Active(w: World) {
    && w.restore.Some?
    && var r := w.restore.value;
       r.finalizer && !r.deleting && r.status.phase != Completed
  }

  ghost function ClusterKey(w: World): Key
    requires w.restore.Some?
  {
    w.restore.value.spec.targetCluster.In(w.restore.value.namespace)
  }

  ghost function BackupKey(w: World): Key
    requires w.restore.Some?
  {
    w.restore.value.spec.backupRef.In(w.restore.value.namespace)
  }

  ghost predicate RefsPresent(w: World) {
    w.restore.Some? && ClusterKey(w) in w.clusters && BackupKey(w) in w.backups
  }

  /** The instances the restore's selector picks in its cluster. */
  ghost function TargetsIn(w: World): Result<seq<InstanceSpec>>
    requires RefsPresent(w)
  {
    Selectors.RestoreTargets(w.clusters[ClusterKey(w)].spec.instances, w.restore.value.spec.instances)
  }

  /** Enough requests for any pass from this world. */
  ghost function Calls(w: World): nat {
    6 + if RefsPresent(w) && TargetsIn(w).Ok? then 3 * |TargetsIn(w).value| else 0
  }

  lemma QuietFetch(s: Sys, n: int)
    requires Quiet(s, n) && n > 3 && Active(s.world)
    ensures var r := s.world.restore.value;
            var (s', f) := Fetch(s);
            if RefsPresent(s.world)
            then Same(s.world, s'.world) && Quiet(s', n - 3)
                 && f == Ready(SetDefaults(r), s.world.clusters[ClusterKey(s.world)], s.world.backups[BackupKey(s.world)])
            else f.Ended?
                 && Same(s.world.(restore := Some(StatusUpdated(r, r.(status := r.status.(phase := Failed))))), s'.world)
  {
    var m := s.world.restore.value;
    QuietCall(s, GetRestore, n);
    var s1 := Call(s, GetRestore).0;
    var failed := m.(status := m.status.(phase := Failed));
    var q2 := GetCluster(ClusterKey(s.world));
    QuietCall(s1, q2, n - 1);
    var s2 := Call(s1, q2).0;
    QuietStatus(s2, failed, n - 2);
    var q3 := GetBackup(BackupKey(s.world));
    QuietCall(s2, q3, n - 2);
    QuietStatus(Call(s2, q3).0, failed, n - 3);
  }

  /** The restore in memory is the persisted one, up to its options. */
  ghost predicate InStep(m: Restore, w: World) {
    && w.restore.Some?
    && m == w.restore.value.(spec := w.restore.value.spec.(options := m.spec.options))
  }

  /** Slots that are as many as the targets are those of the targets. */
  ghost predicate Aligned(m: Restore, targets: seq<InstanceSpec>) {
    |m.status.entries| == |targets| ==>
      forall i | 0 <= i < |targets| ::
        m.status.entries[i].jobName == Naming.RestoreJobName(m.name, targets[i].name)
  }

  lemma AlignedMatched(m: Restore, c: PostgresCluster, b: PostgresBackup, targets: seq<InstanceSpec>)
    requires Aligned(m, targets) && |m.status.entries| == |targets|
    ensures Matched(m, JobsFor(m, c, b, targets))
  {
  }

  /** A write of the status in memory, `sent`, over the persisted one. */
  ghost function WithStatus(w: World, sent: RestoreStatus): World
    requires w.restore.Some?
  {
    var r := w.restore.value;
    w.(restore := Some(Written(r, r.(status := sent))))
  }

  lemma QuietInit(s: Sys, m: Restore, targets: seq<InstanceSpec>, n: int)
    requires Quiet(s, n) && n > 0 && InStep(m, s.world) && Aligned(m, targets)
    ensures var p := InitEntries(s, m, targets);
            && p.ok && Quiet(p.s, n - 1) && InStep(p.m, p.s.world)
            && Aligned(p.m, targets) && |p.m.status.entries| == |targets|
            && p.m.status == m.status.(entries := p.m.status.entries)
            && p.m.name == m.name
            && Same(WithStatus(s.world, p.m.status), p.s.world)
  {
    if |m.status.entries| != |targets| {
      var m' := m.(status := m.status.(entries := FreshEntries(m.name, targets)));
      QuietStatus(s, m', n);
    } else {
      assert m.status.(entries := m.status.entries) == m.status;
    }
  }

  /** A pass stops moving things: the phase says what the entries, or the failure, imply. */
  ghost predicate Resting(w: World) {
    && Active(w)
    && var r := w.restore.value;
       if !RefsPresent(w) || TargetsIn(w).Err? then r.status.phase == Failed
       else
         var jobs := JobsOf(w);
         Matched(r, jobs) && exists k: nat, ok: bool :: RestsWith(w, r, jobs, k, ok)
  }

  ghost predicate RestsWith(w: World, r: Restore, jobs: seq<Result<RestoreJob>>, k: nat, ok: bool) {
    && Rests(w, r, jobs, k, ok)
    && r.status.phase == if ok then Aggregate(r.status.entries) else Failed
  }

  ghost function JobsOf(w: World): seq<Result<RestoreJob>>
    requires RefsPresent(w) && TargetsIn(w).Ok?
  {
    JobsFor(SetDefaults(w.restore.value), w.clusters[ClusterKey(w)], w.backups[BackupKey(w)], TargetsIn(w).value)
  }

  lemma QuietHandleError(s: Sys, m: Restore, n: int)
    requires Quiet(s, n) && n > 0 && s.world.restore.Some? && s.world.restore.value.version == m.version
    ensures Same(WithStatus(s.world, m.status.(phase := Failed)), HandleError(s, m).world)
  {
    QuietStatus(s, m.(status := m.status.(phase := Failed)), n);
  }

  /** How Reconcile ends: an error is recorded in the status. */
  ghost function After(p: Pass): Sys {
    if p.ok then p.s else HandleError(p.s, p.m)
  }

  lemma RestingTargets(s: Sys, m: Restore, c: PostgresCluster, b: PostgresBackup, targets: seq<InstanceSpec>, k: nat, ok: bool, n: int)
    requires Quiet(s, n) && n > 3 * |targets| && InStep(m, s.world) && m.status.phase != Completed
    requires var jobs := JobsFor(m, c, b, targets); Matched(m, jobs) && RestsWith(s.world, m, jobs, k, ok)
    ensures var p := ReconcileTargets(s, m, c, b, targets);
            Same(s.world, (if p.ok then p.s else HandleError(p.s, p.m)).world)
  {
    var jobs := JobsFor(m, c, b, targets);
    RestingVisitFrom(s, m, jobs, 0, k, ok, n);
    var v := VisitFrom(s, m, jobs, 0);
    if ok {
      QuietStatus(v.s, WithAggregate(m, v.s.world.now), n - 3 * |targets|);
    } else {
      QuietHandleError(v.s, m, n - 3 * |targets|);
    }
  }

  /** A quiet pass over a resting world changes nothing. */
  lemma RestingPass(s: Sys)
    requires Quiet(s, Calls(s.world)) && Resting(s.world)
    ensures Same(s.world, Reconcile(s).0.world)
  {
    var w, n, r := s.world, Calls(s.world), s.world.restore.value;
    QuietFetch(s, n);
    var (s', f) := Fetch(s);
    if !RefsPresent(w) {
      assert r.(status := r.status.(phase := Failed)) == r;
    } else {
      var m := SetDefaults(r);
      var c, b := w.clusters[ClusterKey(w)], w.backups[BackupKey(w)];
      if TargetsIn(w).Err? {
        QuietHandleError(s', m, n - 3);
      } else {
        var jobs := JobsOf(w);
        var k: nat, ok: bool :| RestsWith(w, r, jobs, k, ok);
        assert RestsWith(w, m, jobs, k, ok);
        RestingTargets(s', m, c, b, TargetsIn(w).value, k, ok, n - 3);
      }
    }
  }

  /** The two differ in the restore's status, and in jobs. */
  ghost predicate StatusAndJobs(w: World, w': World) {
    && w.restore.Some? && w'.restore.Some?
    && w' == w.(jobs := w'.jobs, log := w'.log, restore := w'.restore, now := w'.now)
    && w'.restore.value == w.restore.value.(status := w'.restore.value.status, version := w'.restore.value.version)
  }

  ghost predicate SameErrors(jobs: seq<Result<RestoreJob>>, jobs': seq<Result<RestoreJob>>) {
    && |jobs| == |jobs'|
    && forall i | 0 <= i < |jobs| ::
      jobs[i].Err? == jobs'[i].Err? && (jobs[i].Ok? ==> jobs[i].value.name == jobs'[i].value.name)
  }

  /** Whether a job's spec can be built, and its name, do not depend on the restore's options. */
  lemma OptionsBuildAlike(restore: string, o: RestoreOptions, o': RestoreOptions, c: PostgresCluster,
                          b: PostgresBackup, target: InstanceSpec)
    ensures RestoreJobFor(restore, o, c, b, target).Err? == RestoreJobFor(restore, o', c, b, target).Err?
  {
  }

  lemma JobsAlike(m: Restore, m': Restore, c: PostgresCluster, b: PostgresBackup, targets: seq<InstanceSpec>)
    requires m.name == m'.name
    ensures SameErrors(JobsFor(m, c, b, targets), JobsFor(m', c, b, targets))
  {
    forall i | 0 <= i < |targets|
      ensures JobsFor(m, c, b, targets)[i].Err? == JobsFor(m', c, b, targets)[i].Err?
    {
      OptionsBuildAlike(m.name, m.spec.options, m'.spec.options, c, b, targets[i]);
    }
  }

  lemma RestsAlike(w: World, r: Restore, jobs: seq<Result<RestoreJob>>, jobs': seq<Result<RestoreJob>>, k: nat, ok: bool)
    requires SameErrors(jobs, jobs') && Matched(r, jobs) && RestsWith(w, r, jobs, k, ok)
    ensures Matched(r, jobs') && RestsWith(w, r, jobs', k, ok)
  {
  }

  /** The last write of the pass puts the entries in memory, and their aggregate, on the server. */
  lemma RestsOnceWritten(w: World, m: Restore, jobs: seq<Result<RestoreJob>>, k: nat, ok: bool, status: RestoreStatus)
    requires w.restore.Some? && Matched(m, jobs) && Rests(w, m, jobs, k, ok)
    requires status.entries == m.status.entries && status.phase == if ok then Aggregate(m.status.entries) else Failed
    ensures var w' := WithStatus(w, status);
            && StatusAndJobs(w, w')
            && Matched(w'.restore.value, jobs) && RestsWith(w', w'.restore.value, jobs, k, ok)
  {
    assert WithStatus(w, status).restore.value.status == status;
  }

  lemma QuietLoop(s: Sys, m: Restore, jobs: seq<Result<RestoreJob>>, n: int) returns (k: nat)
    requires Quiet(s, n) && n > 3 * |jobs| && InStep(m, s.world) && Matched(m, jobs) && m.status.phase != Completed
    ensures var v := VisitFrom(s, m, jobs, 0);
            var w := After(if v.ok then UpdateRestoreStatus(v.s, v.m) else v).world;
            && StatusAndJobs(s.world, w)
            && Matched(w.restore.value, jobs) && RestsWith(w, w.restore.value, jobs, k, v.ok)
  {
    k := QuietVisitFrom(s, m, jobs, 0, n);
    var v := VisitFrom(s, m, jobs, 0);
    var n' := n - 3 * |jobs|;
    if v.ok {
      var m' := WithAggregate(v.m, v.s.world.now);
      QuietStatus(v.s, m', n');
      RestsOnceWritten(v.s.world, v.m, jobs, k, true, m'.status);
    } else {
      QuietHandleError(v.s, v.m, n');
      RestsOnceWritten(v.s.world, v.m, jobs, k, false, v.m.status.(phase := Failed));
    }
  }

  lemma QuietTargets(s: Sys, m: Restore, c: PostgresCluster, b: PostgresBackup, targets: seq<InstanceSpec>, n: int)
      returns (k: nat, ok: bool)
    requires Quiet(s, n) && n > 3 * |targets| + 1 && InStep(m, s.world) && Aligned(m, targets) && m.status.phase != Completed
    ensures var w := After(ReconcileTargets(s, m, c, b, targets)).world;
            var jobs := JobsFor(m, c, b, targets);
            && StatusAndJobs(s.world, w)
            && Matched(w.restore.value, jobs) && RestsWith(w, w.restore.value, jobs, k, ok)
  {
    QuietInit(s, m, targets, n);
    var p := InitEntries(s, m, targets);
    var jobs := JobsFor(p.m, c, b, targets);
    AlignedMatched(p.m, c, b, targets);
    k := QuietLoop(p.s, p.m, jobs, n - 1);
    ok := VisitFrom(p.s, p.m, jobs, 0).ok;
    var w := After(ReconcileTargets(s, m, c, b, targets)).world;
    JobsAlike(p.m, m, c, b, targets);
    RestsAlike(w, w.restore.value, jobs, JobsFor(m, c, b, targets), k, ok);
  }

  // ------------------------------------------------------------------ the theorems

  ghost predicate Restored(w: World) {
    && w.restore.Some?
    && var r := w.restore.value;
       r.finalizer && !r.deleting && r.status.phase == Completed
  }

  /** When a quiet pass resolves targets, the slots they find are theirs or are made afresh. */
  ghost predicate AlignedWorld(w: World) {
    Active(w) && (RefsPresent(w) && TargetsIn(w).Ok? ==> Aligned(w.restore.value, TargetsIn(w).value))
  }

  lemma SameRefs(w: World, w': World)
    requires StatusAndJobs(w, w')
    ensures RefsPresent(w') == RefsPresent(w) && Calls(w') == Calls(w)
    ensures RefsPresent(w) ==> TargetsIn(w') == TargetsIn(w)
  {
  }

  lemma RestingAfter(w: World, w': World, k: nat, ok: bool)
    requires Active(w) && RefsPresent(w) && TargetsIn(w).Ok? && StatusAndJobs(w, w')
    requires Matched(w'.restore.value, JobsOf(w)) && RestsWith(w', w'.restore.value, JobsOf(w), k, ok)
    ensures Resting(w') || Restored(w')
  {
    var r' := w'.restore.value;
    SameRefs(w, w');
    JobsAlike(SetDefaults(w.restore.value), SetDefaults(r'), w.clusters[ClusterKey(w)], w.backups[BackupKey(w)], TargetsIn(w).value);
    RestsAlike(w', r', JobsOf(w), JobsOf(w'), k, ok);
  }

  /** A quiet pass that has all it needs is the work on its targets. */
  lemma QuietPassIs(s: Sys)
    requires Quiet(s, Calls(s.world)) && Active(s.world) && RefsPresent(s.world) && TargetsIn(s.world).Ok?
    ensures var w, s', m := s.world, Fetch(s).0, SetDefaults(s.world.restore.value);
            && Quiet(s', Calls(w) - 3) && Same(w, s'.world) && InStep(m, w)
            && Reconcile(s).0
               == After(ReconcileTargets(s', m, w.clusters[ClusterKey(w)], w.backups[BackupKey(w)], TargetsIn(w).value))
  {
    QuietFetch(s, Calls(s.world));
  }

  lemma QuietWorkRests(s: Sys)
    requires Quiet(s, Calls(s.world)) && AlignedWorld(s.world) && RefsPresent(s.world) && TargetsIn(s.world).Ok?
    ensures var w := Reconcile(s).0.world;
            (Resting(w) || Restored(w)) && StatusAndJobs(s.world, w)
  {
    var w := s.world;
    QuietPassIs(s);
    var s', m := Fetch(s).0, SetDefaults(w.restore.value);
    var c, b := w.clusters[ClusterKey(w)], w.backups[BackupKey(w)];
    var k, ok := QuietTargets(s', m, c, b, TargetsIn(w).value, Calls(w) - 3);
    RestingAfter(w, Reconcile(s).0.world, k, ok);
  }

  lemma QuietPassRests(s: Sys)
    requires Quiet(s, Calls(s.world)) && AlignedWorld(s.world)
    ensures var w := Reconcile(s).0.world;
            (Resting(w) || Restored(w)) && Calls(w) == Calls(s.world)
  {
    var w := s.world;
    if RefsPresent(w) && TargetsIn(w).Ok? {
      QuietWorkRests(s);
    } else {
      QuietFetch(s, Calls(w));
      if RefsPresent(w) {
        QuietHandleError(Fetch(s).0, SetDefaults(w.restore.value), Calls(w) - 3);
      }
    }
    SameRefs(w, Reconcile(s).0.world);
  }

  /**
   Reconciling is a fixpoint: once a quiet pass has run, a second one, however much later, leaves
   jobs, entries and phase as they are, whether the first completed, found jobs still running or
   failed, or stopped at an instance whose job it cannot build.
   */
  lemma SecondPassChangesNothing(s: Sys, script: seq<Turn<EnvStep>>)
    requires Quiet(s, Calls(s.world)) && AlignedWorld(s.world)
    requires Ticking(script) && |script| >= Calls(s.world)
    ensures var w := Reconcile(s).0.world;
            var w' := Reconcile(Reconcile(s).0.(script := script)).0.world;
            && w.restore.Some? && w'.restore.Some? && w'.jobs == w.jobs && w'.log == w.log
            && w'.restore.value.status == w.restore.value.status
  {
    QuietPassRests(s);
    var s1 := Reconcile(s).0;
    var s2 := s1.(script := script);
    if Resting(s1.world) {
      RestingPass(s2);
    } else {
      QuietCall(s2, GetRestore, Calls(s.world));
    }
  }

  /** The slot is Completed already, or its job is there and has a completion time. */
  ghost predicate Done(w: World, e: Entry) {
    || e.phase == Completed
    || (e.jobName != "" && e.jobName in w.jobs && w.jobs[e.jobName].completionTime.Some?)
  }

  ghost predicate AllDone(w: World, entries: seq<Entry>) {
    forall i | 0 <= i < |entries| :: Done(w, entries[i])
  }

  lemma {:induction false} DoneVisitFrom(s: Sys, m: Restore, jobs: seq<Result<RestoreJob>>, i: nat, n: int)
    requires |jobs| == |m.status.entries| && i <= |jobs| && Quiet(s, n) && n >= 2 * (|jobs| - i)
    requires forall j | 0 <= j < i :: m.status.entries[j].phase == Completed
    requires forall j | i <= j < |jobs| :: Done(s.world, m.status.entries[j])
    ensures var p := VisitFrom(s, m, jobs, i);
            && p.ok && Same(s.world, p.s.world) && Quiet(p.s, n - 2 * (|jobs| - i)) && WithEntries(m, p.m)
            && forall j | 0 <= j < |jobs| :: p.m.status.entries[j].phase == Completed
    decreases |jobs| - i
  {
    if i < |jobs| {
      var e := m.status.entries[i];
      if e.phase != Completed {
        QuietCall(s, GetJob(e.jobName), n);
        QuietUpdateJobStatus(Call(s, GetJob(e.jobName)).0, m, i, e.jobName, n - 1);
      }
      var p := Visit(s, m, jobs[i], i);
      DoneVisitFrom(p.s, p.m, jobs, i + 1, n - 2);
    }
  }

  /** The slots a pass works on: those recorded when they are as many as the targets. */
  ghost function WorkingEntries(m: Restore, targets: seq<InstanceSpec>): (entries: seq<Entry>)
    ensures |entries| == |targets|
  {
    if |m.status.entries| == |targets| then m.status.entries else FreshEntries(m.name, targets)
  }

  lemma AllCompletedAggregate(entries: seq<Entry>)
    requires forall i | 0 <= i < |entries| :: entries[i].phase == Completed
    ensures Aggregate(entries) == Completed
  {
    RestoreSafety.TallyBounds(entries, Failed);
    RestoreSafety.TallyBounds(entries, Completed);
  }

  /**
   Progress: once every slot's job has completed, one quiet pass persists Completed, whatever
   phases were recorded before.
   */
  lemma DoneJobsComplete(s: Sys)
    requires Quiet(s, Calls(s.world)) && Active(s.world) && RefsPresent(s.world) && TargetsIn(s.world).Ok?
    requires AllDone(s.world, WorkingEntries(s.world.restore.value, TargetsIn(s.world).value))
    ensures var w := Reconcile(s).0.world;
            Restored(w) && w.jobs == s.world.jobs && w.log == s.world.log
  {
    var w, n, r := s.world, Calls(s.world), s.world.restore.value;
    var targets := TargetsIn(w).value;
    QuietFetch(s, n);
    var s' := Fetch(s).0;
    var m := SetDefaults(r);
    var c, b := w.clusters[ClusterKey(w)], w.backups[BackupKey(w)];
    assert WorkingEntries(m, targets) == WorkingEntries(r, targets);
    QuietInitDone(s', m, targets, n - 3);
    var p := InitEntries(s', m, targets);
    var jobs := JobsFor(p.m, c, b, targets);
    DoneVisitFrom(p.s, p.m, jobs, 0, n - 4);
    var v := VisitFrom(p.s, p.m, jobs, 0);
    AllCompletedAggregate(v.m.status.entries);
    QuietStatus(v.s, WithAggregate(v.m, v.s.world.now), n - 4 - 2 * |targets|);
  }

  lemma QuietInitDone(s: Sys, m: Restore, targets: seq<InstanceSpec>, n: int)
    requires Quiet(s, n) && n > 0 && InStep(m, s.world)
    requires AllDone(s.world, WorkingEntries(m, targets))
    ensures var p := InitEntries(s, m, targets);
            && p.ok && Quiet(p.s, n - 1) && InStep(p.m, p.s.world)
            && Same(WithStatus(s.world, p.m.status), p.s.world)
            && |p.m.status.entries| == |targets| && AllDone(p.s.world, p.m.status.entries)
  {
    if |m.status.entries| != |targets| {
      QuietStatus(s, m.(status := m.status.(entries := FreshEntries(m.name, targets))), n);
    }
    assert InitEntries(s, m, targets).m.status.entries == WorkingEntries(m, targets);
  }
}
