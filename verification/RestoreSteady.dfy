/**
 When the premise of the run theorems holds: as long as nobody changes which instances a restore
 is for, every pass finds its targets as recorded. And such runs do reach Completed.

 What counts is the target reference and the selector of the restore, and the names and roles of
 the instances of the cluster they refer to; the rest of both specs, other clusters, backups and
 all jobs may change, and any request may fail.
 */
module RestoreSteady {
  import opened Wrappers
  import opened ApiServer
  import opened ApiTypes
  import opened RestoreModel
  import opened RestoreJobs
  import RestoreSafety
  import RestoreTheorems
  import opened RestoreProgress
  import opened RestoreScripts
  import Selectors

  // ------------------------------------------------------------------ what the restore aims at

  /** Which cluster a restore in this namespace is for, its selector, and the names and roles of the cluster's instances. */
  datatype Aim = Aim(namespace: string, cluster: Key, selector: Option<InstanceSelector>, instances: seq<InstanceSpec>)
  {
    ghost predicate Fits(spec: RestoreSpec) {
      spec.targetCluster.In(namespace) == cluster && spec.instances == selector
    }

    function Targets(): Result<seq<InstanceSpec>> {
      Selectors.RestoreTargets(instances, selector)
    }

    /** The slots are those of the targets, or there are none. */
    ghost predicate Matches(entries: seq<Entry>) {
      Targets().Ok? ==> RestoreSafety.Recorded(entries, Targets().value)
    }

    ghost predicate Holds(r: Restore) {
      r.namespace == namespace && Fits(r.spec) && Matches(r.status.entries)
    }

    /** An edit leaves the target reference, the selector, and the names and roles of the cluster's instances alone. */
    ghost predicate Spares(e: EnvStep) {
      && (e.SpecEdited? ==> Fits(e.restoreSpec))
      && (e.ClusterSet? && e.key == cluster ==> Selectors.SameRoster(e.cluster.spec.instances, instances))
    }

    ghost predicate SparesAll(env: seq<EnvStep>) {
      forall i | 0 <= i < |env| :: Spares(env[i])
    }

    ghost predicate Steady(script: seq<Turn<EnvStep>>) {
      forall i | 0 <= i < |script| :: SparesAll(script[i].env)
    }

    ghost predicate In(w: World) {
      && (w.restore.Some? ==> Holds(w.restore.value))
      && (cluster in w.clusters ==> Selectors.SameRoster(w.clusters[cluster].spec.instances, instances))
    }

    ghost predicate At(s: Sys) {
      In(s.world) && Steady(s.script)
    }
  }

  // ------------------------------------------------------------------ requests keep it

  lemma {:induction false} DriftAims(s: Sys, env: seq<EnvStep>, aim: Aim)
    requires aim.In(s.world) && aim.SparesAll(env)
    ensures var s' := Drift(API, s, env); aim.In(s'.world) && s'.script == s.script
    decreases |env|
  {
    if env != [] {
      assert aim.Spares(env[0]);
      assert forall i | 0 <= i < |env| - 1 :: env[1..][i] == env[i + 1];
      DriftAims(s.Become(Move(s.world, env[0])), env[1..], aim);
    }
  }

  /** What the pass sends is for the same instances. */
  ghost predicate Faithful(q: Request, aim: Aim) {
    (q.UpdateRestore? || q.UpdateStatus?) ==> aim.Holds(q.sent)
  }

  /** What the pass hears is, too. */
  ghost predicate Told(q: Request, a: Answer, aim: Aim) {
    && (a.RestoreIs? ==> aim.Holds(a.restore))
    && (q == GetCluster(aim.cluster) && a.ClusterIs? ==> Selectors.SameRoster(a.cluster.spec.instances, aim.instances))
  }

  lemma ServeAims(w: World, q: Request, aim: Aim)
    requires aim.In(w) && Faithful(q, aim)
    ensures var (w', a) := Serve(w, q); aim.In(w') && Told(q, a, aim)
  {
  }

  lemma CallAims(s: Sys, q: Request, aim: Aim)
    requires aim.At(s) && Faithful(q, aim)
    ensures var (s', a) := Call(s, q); aim.At(s') && Told(q, a, aim)
  {
    if s.script != [] {
      var s0 := s.(script := s.script[1..]);
      assert aim.SparesAll(s.script[0].env);
      DriftAims(s0, s.script[0].env, aim);
      ServeAims(Drift(API, s0, s.script[0].env).world, q, aim);
      assert forall i | 0 <= i < |s.script| - 1 :: s.script[1..][i] == s.script[i + 1];
    }
  }

  // ------------------------------------------------------------------ the parts of a pass

  lemma HandleErrorAims(s: Sys, m: Restore, aim: Aim)
    requires aim.At(s) && aim.Holds(m)
    ensures aim.At(HandleError(s, m))
  {
    CallAims(s, UpdateStatus(m.(status := m.status.(phase := Failed))), aim);
  }

  lemma {:induction false} DeleteJobsAim(s: Sys, m: Restore, i: nat, aim: Aim)
    requires aim.At(s) && i <= |m.status.entries|
    ensures aim.At(DeleteJobsFrom(s, m, i).0)
    decreases |m.status.entries| - i
  {
    if i < |m.status.entries| {
      var q := DeleteJob(m.status.entries[i].jobName);
      CallAims(s, q, aim);
      var (s', a) := Call(s, q);
      if m.status.entries[i].jobName == "" {
        DeleteJobsAim(s, m, i + 1, aim);
      } else if a.Done? || a.NotFound? {
        DeleteJobsAim(s', m, i + 1, aim);
      }
    }
  }

  /** A slot's turn leaves the names alone. */
  ghost predicate SameNames(m: Restore, m': Restore) {
    && m' == m.(status := m.status.(entries := m'.status.entries))
    && |m'.status.entries| == |m.status.entries|
    && forall i | 0 <= i < |m.status.entries| :: m'.status.entries[i].name == m.status.entries[i].name
  }

  lemma UpdateJobStatusAims(s: Sys, m: Restore, i: nat, jobName: string, aim: Aim)
    requires aim.At(s) && i < |m.status.entries|
    ensures var p := UpdateJobStatus(s, m, i, jobName); aim.At(p.s) && SameNames(m, p.m)
  {
    CallAims(s, GetJob(jobName), aim);
  }

  lemma VisitAims(s: Sys, m: Restore, job: Result<RestoreJob>, i: nat, aim: Aim)
    requires aim.At(s) && i < |m.status.entries|
    ensures var p := Visit(s, m, job, i); aim.At(p.s) && SameNames(m, p.m)
  {
    var e := m.status.entries[i];
    CallAims(s, GetJob(e.jobName), aim);
    var (s', a) := Call(s, GetJob(e.jobName));
    if a.JobIs? {
      UpdateJobStatusAims(s', m, i, e.jobName, aim);
    } else {
      CreateMissingAims(s', m, i, job, aim);
    }
  }

  lemma CreateMissingAims(s: Sys, m: Restore, i: nat, job: Result<RestoreJob>, aim: Aim)
    requires aim.At(s) && i < |m.status.entries|
    ensures var p := CreateMissing(s, m, i, job); aim.At(p.s) && SameNames(m, p.m)
  {
    if job.Ok? {
      CallAims(s, CreateJob(job.value), aim);
      var s' := Call(s, CreateJob(job.value)).0;
      var m' := SetEntry(m, i, m.status.entries[i].(phase := Running, startTime := Some(s'.world.now)));
      UpdateJobStatusAims(s', m', i, job.value.name, aim);
    }
  }

  lemma {:induction false} VisitFromAims(s: Sys, m: Restore, jobs: seq<Result<RestoreJob>>, i: nat, aim: Aim)
    requires aim.At(s) && i <= |jobs| == |m.status.entries|
    ensures var p := VisitFrom(s, m, jobs, i); aim.At(p.s) && SameNames(m, p.m)
    decreases |jobs| - i
  {
    if i < |jobs| {
      VisitAims(s, m, jobs[i], i, aim);
      var p := Visit(s, m, jobs[i], i);
      if p.ok {
        VisitFromAims(p.s, p.m, jobs, i + 1, aim);
      }
    }
  }

  lemma SameNamesHold(m: Restore, m': Restore, aim: Aim)
    requires aim.Holds(m) && SameNames(m, m')
    ensures aim.Holds(m')
  {
  }

  lemma TargetsAim(s: Sys, m: Restore, c: PostgresCluster, b: PostgresBackup, targets: seq<InstanceSpec>, aim: Aim)
    requires aim.At(s) && aim.Holds(m) && aim.Targets().Ok? && Selectors.SameRoster(targets, aim.Targets().value)
    ensures var p := ReconcileTargets(s, m, c, b, targets); aim.At(p.s) && aim.Holds(p.m)
  {
    var sized := m.(status := m.status.(entries := FreshEntries(m.name, targets)));
    assert aim.Holds(sized);
    CallAims(s, UpdateStatus(sized), aim);
    var p := InitEntries(s, m, targets);
    assert aim.At(p.s) && aim.Holds(p.m);
    if p.ok {
      var jobs := JobsFor(p.m, c, b, targets);
      VisitFromAims(p.s, p.m, jobs, 0, aim);
      var v := VisitFrom(p.s, p.m, jobs, 0);
      SameNamesHold(p.m, v.m, aim);
      CallAims(v.s, UpdateStatus(WithAggregate(v.m, v.s.world.now)), aim);
    }
  }

  lemma FetchAims(s: Sys, aim: Aim)
    requires aim.At(s)
    ensures var (s', f) := Fetch(s);
            aim.At(s') && (f.Ready? ==> aim.Holds(f.m) && Selectors.SameRoster(f.cluster.spec.instances, aim.instances))
  {
    CallAims(s, GetRestore, aim);
    var (s1, got) := Call(s, GetRestore);
    if got.RestoreIs? {
      var m := got.restore;
      if m.deleting {
        DeleteJobsAim(s1, m, 0, aim);
        CallAims(DeleteJobsFrom(s1, m, 0).0, UpdateRestore(m.(finalizer := false)), aim);
      } else if !m.finalizer {
        CallAims(s1, UpdateRestore(m.(finalizer := true)), aim);
      } else {
        FetchRefsAim(s1, m, aim);
      }
    }
  }

  lemma FetchRefsAim(s: Sys, m: Restore, aim: Aim)
    requires aim.At(s) && aim.Holds(m)
    ensures var (s2, cluster) := Call(s, GetCluster(m.spec.targetCluster.In(m.namespace)));
            && aim.At(HandleError(s2, m))
            && (cluster.ClusterIs? ==> Selectors.SameRoster(cluster.cluster.spec.instances, aim.instances))
            && var s3 := Call(s2, GetBackup(m.spec.backupRef.In(m.namespace))).0;
               aim.At(s3) && aim.At(HandleError(s3, m))
  {
    var q2, q3 := GetCluster(m.spec.targetCluster.In(m.namespace)), GetBackup(m.spec.backupRef.In(m.namespace));
    CallAims(s, q2, aim);
    var s2 := Call(s, q2).0;
    HandleErrorAims(s2, m, aim);
    CallAims(s2, q3, aim);
    HandleErrorAims(Call(s2, q3).0, m, aim);
  }

  lemma PassAims(s: Sys, aim: Aim)
    requires aim.At(s)
    ensures RestoreSafety.TargetsRecorded(s) && aim.At(Reconcile(s).0)
  {
    FetchAims(s, aim);
    var (s', f) := Fetch(s);
    if f.Ready? {
      var targets := Selectors.RestoreTargets(f.cluster.spec.instances, f.m.spec.instances);
      Selectors.TargetsAlike(f.cluster.spec.instances, aim.instances, aim.selector);
      if targets.Ok? {
        TargetsAim(s', f.m, f.cluster, f.backup, targets.value, aim);
      }
      var p := ReconcileRestore(s', f.m, f.cluster, f.backup);
      HandleErrorAims(p.s, p.m, aim);
    }
  }

  lemma {:induction false} RunAims(s: Sys, scripts: seq<seq<Turn<EnvStep>>>, aim: Aim)
    requires aim.In(s.world) && forall i | 0 <= i < |scripts| :: aim.Steady(scripts[i])
    ensures RestoreTheorems.RunRecorded(s, scripts)
    decreases |scripts|
  {
    if scripts != [] {
      var first := s.(script := scripts[0]);
      PassAims(first, aim);
      assert forall i | 0 <= i < |scripts| - 1 :: scripts[1..][i] == scripts[i + 1];
      RunAims(Reconcile(first).0, scripts[1..], aim);
    }
  }

  /**
   From a fresh restore on, every run is kept in which nobody edits the restore's selector or
   target reference, or which instances of which roles its cluster lists. Anything else may be
   edited, the instances' replicas and settings included, refused, lost, or go away.
   */
  lemma SteadyRunsAreKept(s: Sys, scripts: seq<seq<Turn<EnvStep>>>, aim: Aim)
    requires RestoreTheorems.Fresh(s) && s.world.restore.value.namespace == aim.namespace && aim.Fits(s.world.restore.value.spec)
    requires aim.cluster in s.world.clusters ==> Selectors.SameRoster(s.world.clusters[aim.cluster].spec.instances, aim.instances)
    requires forall i | 0 <= i < |scripts| :: aim.Steady(scripts[i])
    ensures RestoreTheorems.RunRecorded(s, scripts) && RestoreTheorems.RunKept(s, scripts)
  {
    RunAims(s, scripts, aim);
    RestoreTheorems.RecordedIsKept(s, scripts);
  }

  // ------------------------------------------------------------------ such runs complete

  lemma SlotTurnsSpare(e: Entry, made: string, fate: Fate, aim: Aim)
    ensures aim.Steady(SlotTurns(e, made, fate))
  {
    var script := SlotTurns(e, made, fate);
    forall i, j | 0 <= i < |script| && 0 <= j < |script[i].env| ensures aim.Spares(script[i].env[j]) {
    }
  }

  lemma SteadyAppend(a: Script, b: Script, aim: Aim)
    requires aim.Steady(a) && aim.Steady(b)
    ensures aim.Steady(a + b)
  {
  }

  lemma {:induction false} TurnsSpare(entries: seq<Entry>, made: seq<string>, fates: seq<Fate>, aim: Aim)
    requires |entries| == |made| == |fates|
    ensures aim.Steady(Turns(entries, made, fates))
  {
    if entries != [] {
      TurnsSpare(entries[1..], made[1..], fates[1..], aim);
      SlotTurnsSpare(entries[0], made[0], fates[0], aim);
      SteadyAppend(if entries[0].phase == Completed then [] else SlotTurns(entries[0], made[0], fates[0]),
                   Turns(entries[1..], made[1..], fates[1..]), aim);
    }
  }

  function AllMade(n: nat): (fates: seq<Fate>)
    ensures |fates| == n && forall i | 0 <= i < n :: fates[i] == Made
  {
    seq(n, _ => Made)
  }

  /** The script under which every target's job is created and completes at once. */
  function AllComplete(restore: string, targets: seq<InstanceSpec>): Script {
    if targets == [] then FETCH + [Turn([], Served)] else SizingScript(restore, targets, AllMade(|targets|), [])
  }

  lemma AllCompleteSteady(restore: string, targets: seq<InstanceSpec>, aim: Aim)
    ensures aim.Steady(AllComplete(restore, targets)) && aim.Steady([QUIET, QUIET])
  {
    var entries, made := FreshEntries(restore, targets), TargetJobs(restore, targets);
    var turns := Turns(entries, made, AllMade(|targets|));
    TurnsSpare(entries, made, AllMade(|targets|), aim);
    SteadyAppend(turns, [Turn([], Served)], aim);
    SteadyAppend([QUIET], turns + [Turn([], Served)], aim);
    SteadyAppend(FETCH, [QUIET] + (turns + [Turn([], Served)]), aim);
    SteadyAppend(FETCH, [Turn([], Served)], aim);
  }

  lemma WentComplete(w: World, w': World, targets: seq<InstanceSpec>, fates: seq<Fate>, names: set<string>)
    requires Active(w) && |fates| == |targets| && forall i | 0 <= i < |fates| :: fates[i] == Made
    requires PassWent(w, w', FreshEntries(w.restore.value.name, targets), fates, [], names)
    ensures Restored(w') && RestoreSafety.Slots(w'.restore.value.status.entries, targets)
  {
    var entries, entries' := FreshEntries(w.restore.value.name, targets), w'.restore.value.status.entries;
    forall j | 0 <= j < |targets| ensures entries'[j].phase == Completed && entries'[j].name == targets[j].name {
      assert SlotAfter(entries[j], entries'[j], fates[j]);
    }
    AllCompletedAggregate(entries');
  }

  lemma SomeComplete(s: Sys, targets: seq<InstanceSpec>)
    requires Active(s.world) && RefsPresent(s.world) && TargetsIn(s.world) == Ok(targets) && AllBuild(s.world) && targets != []
    requires s.world.restore.value.status.entries == []
    requires s.script == SizingScript(s.world.restore.value.name, targets, AllMade(|targets|), [])
    ensures var w := Reconcile(s).0.world; Restored(w) && RestoreSafety.Slots(w.restore.value.status.entries, targets)
  {
    var fates, made := AllMade(|targets|), TargetJobs(s.world.restore.value.name, targets);
    FirstPassGoes(s, targets, fates, []);
    WentComplete(s.world, Reconcile(s).0.world, targets, fates, NameSet(made));
  }

  lemma NoneComplete(s: Sys)
    requires Active(s.world) && RefsPresent(s.world) && TargetsIn(s.world) == Ok([])
    requires s.world.restore.value.status.entries == [] && s.script == FETCH + [Turn([], Served)]
    ensures var w := Reconcile(s).0.world; Restored(w) && RestoreSafety.Slots(w.restore.value.status.entries, [])
  {
    assert Turns([], [], []) + [Turn([], Served)] == [Turn([], Served)];
    PassGoes(s, [], [], [], {});
    AllCompletedAggregate(Reconcile(s).0.world.restore.value.status.entries);
  }

  /** A pass under that script completes a restore without slots. */
  lemma AllCompletes(s: Sys, targets: seq<InstanceSpec>)
    requires Active(s.world) && RefsPresent(s.world) && TargetsIn(s.world) == Ok(targets) && AllBuild(s.world)
    requires s.world.restore.value.status.entries == [] && s.script == AllComplete(s.world.restore.value.name, targets)
    ensures var w := Reconcile(s).0.world; Restored(w) && RestoreSafety.Slots(w.restore.value.status.entries, targets)
  {
    if targets == [] {
      NoneComplete(s);
    } else {
      SomeComplete(s, targets);
    }
  }

  /** The run: one pass for the finalizer, one in which all jobs complete. */
  function CompletingRun(restore: string, targets: seq<InstanceSpec>): seq<Script> {
    [[QUIET, QUIET], AllComplete(restore, targets)]
  }

  lemma TwoPasses(s: Sys, a: Script, b: Script)
    ensures Run(s, [a, b]) == Reconcile(Reconcile(s.(script := a)).0.(script := b)).0
  {
    assert [a, b][1..] == [b] && [b][1..] == [];
    var s1 := Reconcile(s.(script := a)).0;
    assert Run(s1, [b]) == Run(Reconcile(s1.(script := b)).0, []);
  }

  lemma FreshThenActive(s: Sys)
    requires RestoreTheorems.Fresh(s) && RefsPresent(s.world) && TargetsIn(s.world).Ok?
    ensures var w, w' := s.world, Reconcile(s.(script := [QUIET, QUIET])).0.world;
            && Active(w') && RefsPresent(w') && TargetsIn(w') == TargetsIn(w) && JobsOf(w') == JobsOf(w)
            && w' == w.(restore := w'.restore)
            && w'.restore.value == w.restore.value.(finalizer := true, version := w'.restore.value.version)
  {
    FinalizerGoes(s.(script := [QUIET, QUIET]));
  }

  /** From every fresh restore whose jobs can all be built, a kept run reaches Completed, for its targets. */
  lemma KeptRunCompletes(s: Sys, targets: seq<InstanceSpec>)
    requires RestoreTheorems.Fresh(s) && RefsPresent(s.world) && TargetsIn(s.world) == Ok(targets) && AllBuild(s.world)
    ensures var scripts := CompletingRun(s.world.restore.value.name, targets);
            var w := Run(s, scripts).world;
            && RestoreTheorems.RunRecorded(s, scripts) && RestoreTheorems.RunKept(s, scripts) && Restored(w)
            && RestoreSafety.Slots(w.restore.value.status.entries, targets)
  {
    var w, r := s.world, s.world.restore.value;
    var aim := Aim(r.namespace, ClusterKey(w), r.spec.instances, w.clusters[ClusterKey(w)].spec.instances);
    var a, b := [QUIET, QUIET], AllComplete(r.name, targets);
    AllCompleteSteady(r.name, targets, aim);
    SteadyRunsAreKept(s, [a, b], aim);
    TwoPasses(s, a, b);
    FreshThenActive(s);
    AllCompletes(Reconcile(s.(script := a)).0.(script := b), targets);
  }
}
