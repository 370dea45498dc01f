/**
 Where the jobs of a restore come from: in every world of every run, each job the operator has
 created restores an instance of the target cluster as the operator has read it before.

 A pass reads the restore, its cluster and its backup, and builds jobs from these alone. The
 invariant names, for each owned job in each world, the earlier worlds in which they were read; a
 trace that grows keeps it, and a pass adds only jobs built from what it has just read.
 */
module RestoreOrigins {
  import opened Wrappers
  import opened ApiServer
  import opened ApiTypes
  import opened RestoreModel
  import opened RestoreJobs
  import RestoreSafety
  import RestoreTheorems
  import JobContents
  import Naming
  import Selectors

  // ------------------------------------------------------------------ what a job is built from

  /** The object a reference names; without a namespace it is in the referrer's own. */
  function Referred(ref: Ref, own: string): Key {
    if ref.namespace == "" then Key(own, ref.name) else Key(ref.namespace, ref.name)
  }

  /** The options the operator goes by are those of the restore as it was in some world. */
  ghost predicate Asked(t: seq<World>, g: nat, o: RestoreOptions) {
    g < |t| && t[g].restore.Some? && t[g].restore.value.spec.options == o
  }

  /** Instance `k` of the target cluster, with restore, cluster and backup as they were in worlds `h`, `i` and `j`. */
  ghost predicate BuiltFrom(t: seq<World>, name: string, job: RestoreJob, o: RestoreOptions, h: nat, i: nat, j: nat, k: nat) {
    && h <= i <= j < |t| && t[h].restore.Some?
    && var r := t[h].restore.value;
       var cluster, backup := Referred(r.spec.targetCluster, r.namespace), Referred(r.spec.backupRef, r.namespace);
       && cluster in t[i].clusters && backup in t[j].backups
       && k < |t[i].clusters[cluster].spec.instances|
       && JobContents.Restores(job, name, o, t[i].clusters[cluster], t[j].backups[backup],
                               t[i].clusters[cluster].spec.instances[k])
  }

  /** The options asked for, and the worlds in which they, the restore, its cluster and its backup were read. */
  datatype Origin = Origin(options: RestoreOptions, asked: nat, restore: nat, cluster: nat, backup: nat, instance: nat)

  ghost predicate Originates(t: seq<World>, name: string, job: RestoreJob, at: Origin) {
    Asked(t, at.asked, at.options) && BuiltFrom(t, name, job, at.options, at.restore, at.cluster, at.backup, at.instance)
  }

  /** The job restores an instance of the target cluster that the operator has read. */
  ghost predicate Built(t: seq<World>, name: string, job: RestoreJob) {
    exists at :: Originates(t, name, job, at)
  }

  lemma BuiltLonger(t: seq<World>, t': seq<World>, name: string, job: RestoreJob)
    requires Built(t, name, job) && t <= t'
    ensures Built(t', name, job)
  {
    var at :| Originates(t, name, job, at);
    OriginLonger(t, t', name, job, at);
  }

  lemma OriginLonger(t: seq<World>, t': seq<World>, name: string, job: RestoreJob, at: Origin)
    requires Originates(t, name, job, at) && t <= t'
    ensures Originates(t', name, job, at)
  {
    assert t'[at.asked] == t[at.asked] && t'[at.restore] == t[at.restore];
    assert t'[at.cluster] == t[at.cluster] && t'[at.backup] == t[at.backup];
  }

  /** Every job of the operator in this world is under its own name, and built from what was read before. */
  ghost predicate JobsBuilt(t: seq<World>, name: string, w: World) {
    && (w.restore.Some? ==> w.restore.value.name == name)
    && forall n | n in w.jobs && w.jobs[n].owned :: w.jobs[n].spec.name == n && Built(t, name, w.jobs[n].spec)
  }

  ghost predicate Founded(s: Sys, name: string) {
    forall i | 0 <= i < |s.Trace()| :: JobsBuilt(s.Trace()[..i + 1], name, s.Trace()[i])
  }

  // ------------------------------------------------------------------ one step

  /** The operator's jobs are those of before, and perhaps these; the restore keeps its name. */
  ghost predicate NoMoreThan(w: World, w': World, more: set<RestoreJob>) {
    && (w'.restore.Some? ==> w.restore.Some? && w'.restore.value.name == w.restore.value.name)
    && forall n | n in w'.jobs && w'.jobs[n].owned ::
         || (n in w.jobs && w.jobs[n].owned && w'.jobs[n].spec == w.jobs[n].spec)
         || (w'.jobs[n].spec in more && w'.jobs[n].spec.name == n)
  }

  lemma MoveAddsNone(w: World, e: EnvStep)
    ensures NoMoreThan(w, Move(w, e), {})
  {
  }

  ghost function Created(q: Request): set<RestoreJob> {
    if q.CreateJob? then {q.spec} else {}
  }

  lemma ServeAdds(w: World, q: Request)
    ensures NoMoreThan(w, Serve(w, q).0, Created(q))
  {
  }

  lemma JobsStayBuilt(t: seq<World>, w: World, w': World, name: string, more: set<RestoreJob>)
    requires JobsBuilt(t, name, w) && NoMoreThan(w, w', more) && forall job | job in more :: Built(t, name, job)
    ensures JobsBuilt(t + [w'], name, w')
  {
    forall n | n in w'.jobs && w'.jobs[n].owned ensures w'.jobs[n].spec.name == n && Built(t + [w'], name, w'.jobs[n].spec) {
      BuiltLonger(t, t + [w'], name, w'.jobs[n].spec);
    }
  }

  lemma Extend(s: Sys, w: World, name: string, more: set<RestoreJob>)
    requires Founded(s, name) && NoMoreThan(s.world, w, more) && forall job | job in more :: Built(s.Trace(), name, job)
    ensures Founded(s.Become(w), name) && s.Trace() <= s.Become(w).Trace()
  {
    var t, t' := s.Trace(), s.Become(w).Trace();
    assert t' == t + [w];
    assert t[..|t|] == t && JobsBuilt(t[..|t|], name, t[|t| - 1]);
    JobsStayBuilt(t, s.world, w, name, more);
    forall i | 0 <= i < |t'| ensures JobsBuilt(t'[..i + 1], name, t'[i]) {
      if i < |t| {
        assert t'[..i + 1] == t[..i + 1];
      } else {
        assert t'[..i + 1] == t';
      }
    }
  }

  lemma {:induction false} DriftFounded(s: Sys, env: seq<EnvStep>, name: string)
    requires Founded(s, name)
    ensures var s' := Drift(API, s, env); Founded(s', name) && s.Trace() <= s'.Trace() && s'.script == s.script
    decreases |env|
  {
    if env != [] {
      var w := Move(s.world, env[0]);
      MoveAddsNone(s.world, env[0]);
      Extend(s, w, name, {});
      DriftFounded(s.Become(w), env[1..], name);
    }
  }

  lemma ServeFounded(s: Sys, q: Request, name: string)
    requires Founded(s, name) && forall job | job in Created(q) :: Built(s.Trace(), name, job)
    ensures var s' := s.Become(Serve(s.world, q).0); Founded(s', name) && s.Trace() <= s'.Trace()
  {
    ServeAdds(s.world, q);
    Extend(s, Serve(s.world, q).0, name, Created(q));
  }

  lemma CallFounded(s: Sys, q: Request, name: string)
    requires Founded(s, name) && forall job | job in Created(q) :: Built(s.Trace(), name, job)
    ensures var s' := Call(s, q).0; Founded(s', name) && s.Trace() <= s'.Trace()
  {
    if s.script != [] {
      var s0 := s.(script := s.script[1..]);
      assert s0.Trace() == s.Trace();
      DriftFounded(s0, s.script[0].env, name);
      var d := Drift(API, s0, s.script[0].env);
      forall job | job in Created(q) ensures Built(d.Trace(), name, job) {
        BuiltLonger(s.Trace(), d.Trace(), name, job);
      }
      ServeFounded(d, q, name);
    }
  }

  // ------------------------------------------------------------------ the parts of a pass

  /** Requests that create these jobs at most. */
  ghost function Creating(jobs: set<RestoreJob>): Request -> bool {
    (q: Request) => q.CreateJob? ==> q.spec in jobs
  }

  lemma {:induction false} IssuedFounded(s: Sys, qs: seq<Request>, name: string, jobs: set<RestoreJob>)
    requires Founded(s, name) && AllOf(qs, Creating(jobs)) && forall job | job in jobs :: Built(s.Trace(), name, job)
    ensures var s' := Issued(API, s, qs); Founded(s', name) && s.Trace() <= s'.Trace()
    decreases |qs|
  {
    if qs != [] {
      assert Creating(jobs)(qs[0]);
      CallFounded(s, qs[0], name);
      var s1 := Call(s, qs[0]).0;
      forall job | job in jobs ensures Built(s1.Trace(), name, job) {
        BuiltLonger(s.Trace(), s1.Trace(), name, job);
      }
      assert forall i | 0 <= i < |qs| - 1 :: qs[1..][i] == qs[i + 1];
      IssuedFounded(s1, qs[1..], name, jobs);
    }
  }

  lemma IssuesFounded(s: Sys, s': Sys, name: string, jobs: set<RestoreJob>)
    requires Founded(s, name) && Issues(API, s, s', Creating(jobs)) && forall job | job in jobs :: Built(s.Trace(), name, job)
    ensures Founded(s', name) && s.Trace() <= s'.Trace()
  {
    var qs :| AllOf(qs, Creating(jobs)) && Issued(API, s, qs) == s';
    IssuedFounded(s, qs, name, jobs);
  }

  lemma One(s: Sys, q: Request, jobs: set<RestoreJob>)
    requires q.CreateJob? ==> q.spec in jobs
    ensures Issues(API, s, Call(s, q).0, Creating(jobs))
  {
    OneIssued(API, s, q, Creating(jobs));
  }

  lemma OneMore(s: Sys, s1: Sys, q: Request, jobs: set<RestoreJob>)
    requires Issues(API, s, s1, Creating(jobs)) && (q.CreateJob? ==> q.spec in jobs)
    ensures Issues(API, s, Call(s1, q).0, Creating(jobs))
  {
    One(s1, q, jobs);
    IssuedThen(API, s, s1, Call(s1, q).0, Creating(jobs));
  }

  lemma UpdateJobStatusIssues(s: Sys, m: Restore, i: nat, jobName: string, jobs: set<RestoreJob>)
    requires i < |m.status.entries|
    ensures Issues(API, s, UpdateJobStatus(s, m, i, jobName).s, Creating(jobs))
  {
    NothingIssued(API, s, Creating(jobs));
    One(s, GetJob(jobName), jobs);
  }

  lemma VisitIssues(s: Sys, m: Restore, job: Result<RestoreJob>, i: nat, jobs: set<RestoreJob>)
    requires i < |m.status.entries| && (job.Ok? ==> job.value in jobs)
    ensures Issues(API, s, Visit(s, m, job, i).s, Creating(jobs))
  {
    var e := m.status.entries[i];
    NothingIssued(API, s, Creating(jobs));
    One(s, GetJob(e.jobName), jobs);
    var (s1, a) := Call(s, GetJob(e.jobName));
    if a.JobIs? {
      UpdateJobStatusIssues(s1, m, i, e.jobName, jobs);
      IssuedThen(API, s, s1, UpdateJobStatus(s1, m, i, e.jobName).s, Creating(jobs));
    } else if job.Ok? {
      OneMore(s, s1, CreateJob(job.value), jobs);
      var s2 := Call(s1, CreateJob(job.value)).0;
      var m' := SetEntry(m, i, e.(phase := Running, startTime := Some(s2.world.now)));
      UpdateJobStatusIssues(s2, m', i, job.value.name, jobs);
      IssuedThen(API, s, s2, UpdateJobStatus(s2, m', i, job.value.name).s, Creating(jobs));
    }
  }

  lemma {:induction false} VisitFromIssues(s: Sys, m: Restore, jobs: seq<Result<RestoreJob>>, i: nat, may: set<RestoreJob>)
    requires i <= |jobs| == |m.status.entries| && forall j | 0 <= j < |jobs| && jobs[j].Ok? :: jobs[j].value in may
    ensures Issues(API, s, VisitFrom(s, m, jobs, i).s, Creating(may))
    decreases |jobs| - i
  {
    if i == |jobs| {
      NothingIssued(API, s, Creating(may));
    } else {
      VisitIssues(s, m, jobs[i], i, may);
      var p := Visit(s, m, jobs[i], i);
      if p.ok {
        VisitFromIssues(p.s, p.m, jobs, i + 1, may);
        IssuedThen(API, s, p.s, VisitFrom(p.s, p.m, jobs, i + 1).s, Creating(may));
      }
    }
  }

  lemma {:induction false} DeleteJobsIssue(s: Sys, m: Restore, i: nat)
    requires i <= |m.status.entries|
    ensures Issues(API, s, DeleteJobsFrom(s, m, i).0, Creating({}))
    decreases |m.status.entries| - i
  {
    if i == |m.status.entries| {
      NothingIssued(API, s, Creating({}));
    } else if m.status.entries[i].jobName == "" {
      DeleteJobsIssue(s, m, i + 1);
    } else {
      var q := DeleteJob(m.status.entries[i].jobName);
      One(s, q, {});
      var (s1, a) := Call(s, q);
      if a.Done? || a.NotFound? {
        DeleteJobsIssue(s1, m, i + 1);
        IssuedThen(API, s, s1, DeleteJobsFrom(s1, m, i + 1).0, Creating({}));
      }
    }
  }

  // ------------------------------------------------------------------ what a pass has read

  lemma Looked(s: Sys, q: Request)
    requires q.GetRestore? || q.GetCluster? || q.GetBackup?
    ensures var (s', a) := Call(s, q); a == Unreachable || a == Serve(s'.world, q).1
  {
  }

  /** A pass that goes on has read the restore, then its cluster, then its backup. */
  ghost predicate HasRead(t: seq<World>, f: Fetched, h: nat, i: nat, j: nat) {
    && f.Ready? && h <= i <= j < |t| && t[h].restore.Some?
    && var r := t[h].restore.value;
       var cluster, backup := Referred(r.spec.targetCluster, r.namespace), Referred(r.spec.backupRef, r.namespace);
       && cluster in t[i].clusters && t[i].clusters[cluster] == f.cluster
       && backup in t[j].backups && t[j].backups[backup] == f.backup
       && f.m.name == r.name && f.m.spec.instances == r.spec.instances && SameOptions(f.m.spec.options, r.spec.options)
  }

  /** As far as a job goes: one worker at a time is what no number asks for. */
  ghost predicate SameOptions(o: RestoreOptions, o': RestoreOptions) {
    && (o.dropExisting, o.dataOnly, o.schemaOnly) == (o'.dropExisting, o'.dataOnly, o'.schemaOnly)
    && (o.parallelRestores == o'.parallelRestores || (o.parallelRestores <= 1 && o'.parallelRestores <= 1))
  }

  lemma RefsFounded(s: Sys, m: Restore, name: string)
    requires Founded(s, name)
    ensures var (s2, a) := Call(s, GetCluster(m.spec.targetCluster.In(m.namespace)));
            var s3 := Call(s2, GetBackup(m.spec.backupRef.In(m.namespace))).0;
            && Founded(s2, name) && s.Trace() <= s2.Trace() && Founded(HandleError(s2, m), name)
            && Founded(s3, name) && s2.Trace() <= s3.Trace() && Founded(HandleError(s3, m), name)
  {
    var q2, q3 := GetCluster(m.spec.targetCluster.In(m.namespace)), GetBackup(m.spec.backupRef.In(m.namespace));
    var failed := UpdateStatus(m.(status := m.status.(phase := Failed)));
    CallFounded(s, q2, name);
    var s2 := Call(s, q2).0;
    CallFounded(s2, failed, name);
    CallFounded(s2, q3, name);
    CallFounded(Call(s2, q3).0, failed, name);
  }

  lemma DeletionFounded(s: Sys, m: Restore, name: string)
    requires Founded(s, name)
    ensures Founded(HandleDeletion(s, m).0, name)
  {
    DeleteJobsIssue(s, m, 0);
    var s' := DeleteJobsFrom(s, m, 0).0;
    IssuesFounded(s, s', name, {});
    CallFounded(s', UpdateRestore(m.(finalizer := false)), name);
  }

  lemma FetchFounded(s: Sys, name: string)
    requires Founded(s, name)
    ensures Founded(Fetch(s).0, name)
  {
    CallFounded(s, GetRestore, name);
    var (s1, got) := Call(s, GetRestore);
    if got.RestoreIs? {
      var m := got.restore;
      DeletionFounded(s1, m, name);
      CallFounded(s1, UpdateRestore(m.(finalizer := true)), name);
      RefsFounded(s1, m, name);
    }
  }

  /** Three reads, in the worlds in which they were served. */
  ghost predicate ThreeReads(w1: World, w2: World, w3: World, m: Restore, c: PostgresCluster, b: PostgresBackup) {
    && w1.restore == Some(m)
    && var cluster, backup := Referred(m.spec.targetCluster, m.namespace), Referred(m.spec.backupRef, m.namespace);
       && cluster in w2.clusters && w2.clusters[cluster] == c
       && backup in w3.backups && w3.backups[backup] == b
  }

  lemma FetchIs(s: Sys) returns (s1: Sys, s2: Sys, s3: Sys, m: Restore)
    requires Fetch(s).1.Ready?
    ensures s1 == Call(s, GetRestore).0
    ensures s2 == Call(s1, GetCluster(m.spec.targetCluster.In(m.namespace))).0
    ensures s3 == Call(s2, GetBackup(m.spec.backupRef.In(m.namespace))).0
    ensures var f := Fetch(s).1;
            Fetch(s).0 == s3 && f.m == SetDefaults(m) && ThreeReads(s1.world, s2.world, s3.world, m, f.cluster, f.backup)
  {
    Looked(s, GetRestore);
    var got := Call(s, GetRestore).1;
    s1, m := Call(s, GetRestore).0, got.restore;
    var q2, q3 := GetCluster(m.spec.targetCluster.In(m.namespace)), GetBackup(m.spec.backupRef.In(m.namespace));
    Looked(s1, q2);
    s2 := Call(s1, q2).0;
    Looked(s2, q3);
    s3 := Call(s2, q3).0;
  }

  lemma FetchReads(s: Sys, name: string) returns (h: nat, i: nat, j: nat)
    requires Founded(s, name) && Fetch(s).1.Ready?
    ensures HasRead(Fetch(s).0.Trace(), Fetch(s).1, h, i, j)
  {
    var s1, s2, s3, m := FetchIs(s);
    CallFounded(s, GetRestore, name);
    RefsFounded(s1, m, name);
    h, i, j := |s1.past|, |s2.past|, |s3.past|;
    LastRead(s1, s2, s3);
    ReadInTrace(s3.Trace(), Fetch(s).1, m, h, i, j);
  }

  lemma ReadInTrace(t: seq<World>, f: Fetched, m: Restore, h: nat, i: nat, j: nat)
    requires f.Ready? && h <= i <= j < |t| && f.m == SetDefaults(m) && ThreeReads(t[h], t[i], t[j], m, f.cluster, f.backup)
    ensures HasRead(t, f, h, i, j)
  {
  }

  lemma LastRead(s1: Sys, s2: Sys, s3: Sys)
    requires s1.Trace() <= s2.Trace() <= s3.Trace()
    ensures |s1.past| <= |s2.past| <= |s3.past|
    ensures var t := s3.Trace(); t[|s1.past|] == s1.world && t[|s2.past|] == s2.world && t[|s3.past|] == s3.world
  {
  }

  // ------------------------------------------------------------------ the jobs of a pass

  lemma {:induction false} WithRoleListed(instances: seq<InstanceSpec>, role: string, s: LabelSelector)
    ensures forall x | x in Selectors.WithRole(instances, role) :: x in instances
    ensures forall x | x in Selectors.WithLabels(instances, s) :: x in instances
  {
    if instances != [] {
      WithRoleListed(instances[1..], role, s);
    }
  }

  lemma {:induction false} FindListed(instances: seq<InstanceSpec>, name: string)
    ensures Selectors.Find(instances, name).Some? ==> Selectors.Find(instances, name).value in instances
  {
    if instances != [] {
      FindListed(instances[1..], name);
    }
  }

  lemma {:induction false} FindAllListed(instances: seq<InstanceSpec>, names: seq<string>)
    ensures var r := Selectors.FindAll(instances, names); r.Ok? ==> forall x | x in r.value :: x in instances
  {
    if names != [] {
      FindListed(instances, names[0]);
      FindAllListed(instances, names[1..]);
    }
  }

  lemma TargetsListed(instances: seq<InstanceSpec>, selector: Option<InstanceSelector>)
    ensures var r := Selectors.RestoreTargets(instances, selector); r.Ok? ==> forall x | x in r.value :: x in instances
  {
    if selector.Some? {
      FindAllListed(instances, selector.value.names);
      WithRoleListed(instances, selector.value.role,
                     if selector.value.labelSelector.Some? then selector.value.labelSelector.value else LabelSelector(map[], []));
    }
  }

  lemma RestoresAlike(job: RestoreJob, name: string, o: RestoreOptions, o': RestoreOptions, c: PostgresCluster, b: PostgresBackup, x: InstanceSpec)
    requires JobContents.Restores(job, name, o, c, b, x) && SameOptions(o, o')
    ensures JobContents.Restores(job, name, o', c, b, x)
  {
    if JobContents.Logical(b) {
      var database :| JobContents.RestoresDatabase(c, x, database) && JobContents.RestoresDump(job.command, database, o);
      assert JobContents.RestoresDump(job.command, database, o');
    }
  }

  lemma ReadAndAsked(t: seq<World>, f: Fetched, h: nat, i: nat, j: nat, name: string, g: nat, o: RestoreOptions, k: nat, job: RestoreJob)
    requires HasRead(t, f, h, i, j) && Asked(t, g, o) && k < |f.cluster.spec.instances|
    requires JobContents.Restores(job, name, o, f.cluster, f.backup, f.cluster.spec.instances[k])
    ensures Built(t, name, job)
  {
    assert Originates(t, name, job, Origin(o, g, h, i, j, k));
  }

  /** A job for a target, under options that were asked for. */
  lemma TargetBuilt(t: seq<World>, f: Fetched, h: nat, i: nat, j: nat, name: string, g: nat, o: RestoreOptions, o': RestoreOptions, x: InstanceSpec)
    requires HasRead(t, f, h, i, j) && Asked(t, g, o') && SameOptions(o, o') && x in f.cluster.spec.instances
    ensures var r := RestoreJobFor(name, o, f.cluster, f.backup, x); r.Ok? ==> Built(t, name, r.value)
  {
    var r := RestoreJobFor(name, o, f.cluster, f.backup, x);
    if r.Ok? {
      JobContents.JobRestoresInstance(name, o, f.cluster, f.backup, x);
      RestoresAlike(r.value, name, o, o', f.cluster, f.backup, x);
      var k: nat :| k < |f.cluster.spec.instances| && f.cluster.spec.instances[k] == x;
      ReadAndAsked(t, f, h, i, j, name, g, o', k, r.value);
    }
  }

  /** The loop and what follows it, over jobs that are built from what was read. */
  lemma LoopFounded(s: Sys, m: Restore, jobs: seq<Result<RestoreJob>>, name: string)
    requires Founded(s, name) && |jobs| == |m.status.entries|
    requires forall k | 0 <= k < |jobs| && jobs[k].Ok? :: Built(s.Trace(), name, jobs[k].value)
    ensures var v := VisitFrom(s, m, jobs, 0);
            var p := if v.ok then UpdateRestoreStatus(v.s, v.m) else v;
            Founded(if p.ok then p.s else HandleError(p.s, p.m), name)
  {
    var may := set k | 0 <= k < |jobs| && jobs[k].Ok? :: jobs[k].value;
    VisitFromIssues(s, m, jobs, 0, may);
    var v := VisitFrom(s, m, jobs, 0);
    IssuesFounded(s, v.s, name, may);
    CallFounded(v.s, UpdateStatus(v.m.(status := v.m.status.(phase := Failed))), name);
    var m' := WithAggregate(v.m, v.s.world.now);
    CallFounded(v.s, UpdateStatus(m'), name);
    CallFounded(Call(v.s, UpdateStatus(m')).0, UpdateStatus(m'.(status := m'.status.(phase := Failed))), name);
  }

  lemma NameRead(s: Sys, name: string, i: nat)
    requires Founded(s, name) && i < |s.Trace()| && s.Trace()[i].restore.Some?
    ensures s.Trace()[i].restore.value.name == name
  {
    assert JobsBuilt(s.Trace()[..i + 1], name, s.Trace()[i]);
  }

  lemma HasReadLonger(t: seq<World>, t': seq<World>, f: Fetched, h: nat, i: nat, j: nat)
    requires HasRead(t, f, h, i, j) && t <= t'
    ensures HasRead(t', f, h, i, j)
  {
  }

  lemma JobsAreBuilt(t: seq<World>, f: Fetched, h: nat, i: nat, j: nat, m: Restore, targets: seq<InstanceSpec>, g: nat, o': RestoreOptions)
    requires HasRead(t, f, h, i, j) && Asked(t, g, o') && SameOptions(m.spec.options, o')
    requires forall x | x in targets :: x in f.cluster.spec.instances
    ensures var jobs := JobsFor(m, f.cluster, f.backup, targets);
            forall k | 0 <= k < |jobs| && jobs[k].Ok? :: Built(t, m.name, jobs[k].value)
  {
    var jobs := JobsFor(m, f.cluster, f.backup, targets);
    forall k | 0 <= k < |jobs| && jobs[k].Ok? ensures Built(t, m.name, jobs[k].value) {
      TargetBuilt(t, f, h, i, j, m.name, g, m.spec.options, o', targets[k]);
    }
  }

  /** As many slots as targets: the restore in memory is the one read, with its defaults. */
  lemma SlotsFounded(s: Sys, f: Fetched, h: nat, i: nat, j: nat, targets: seq<InstanceSpec>, name: string)
    requires Founded(s, name) && HasRead(s.Trace(), f, h, i, j) && |f.m.status.entries| == |targets|
    requires forall x | x in targets :: x in f.cluster.spec.instances
    ensures var p := ReconcileTargets(s, f.m, f.cluster, f.backup, targets);
            Founded(if p.ok then p.s else HandleError(p.s, p.m), name)
  {
    var t := s.Trace();
    NameRead(s, name, h);
    assert Asked(t, h, t[h].restore.value.spec.options);
    JobsAreBuilt(t, f, h, i, j, f.m, targets, h, t[h].restore.value.spec.options);
    LoopFounded(s, f.m, JobsFor(f.m, f.cluster, f.backup, targets), name);
  }

  lemma SentBack(s: Sys, sent: Restore)
    ensures var (s', a) := Call(s, UpdateStatus(sent)); a.RestoreIs? ==> s'.world.restore == Some(a.restore)
  {
  }

  /** The slots are sized first: from then on it is the one the server has sent back. */
  lemma SizedFounded(s: Sys, f: Fetched, h: nat, i: nat, j: nat, targets: seq<InstanceSpec>, name: string)
    requires Founded(s, name) && HasRead(s.Trace(), f, h, i, j) && |f.m.status.entries| != |targets|
    requires forall x | x in targets :: x in f.cluster.spec.instances
    ensures var p := ReconcileTargets(s, f.m, f.cluster, f.backup, targets);
            Founded(if p.ok then p.s else HandleError(p.s, p.m), name)
  {
    var sized := f.m.(status := f.m.status.(entries := FreshEntries(f.m.name, targets)));
    CallFounded(s, UpdateStatus(sized), name);
    SentBack(s, sized);
    var (s', a) := Call(s, UpdateStatus(sized));
    if a.RestoreIs? {
      var t, m := s'.Trace(), a.restore;
      assert t[|s'.past|] == s'.world;
      NameRead(s', name, |s'.past|);
      assert Asked(t, |s'.past|, m.spec.options);
      HasReadLonger(s.Trace(), t, f, h, i, j);
      JobsAreBuilt(t, f, h, i, j, m, targets, |s'.past|, m.spec.options);
      LoopFounded(s', m, JobsFor(m, f.cluster, f.backup, targets), name);
    } else {
      CallFounded(s', UpdateStatus(sized.(status := sized.status.(phase := Failed))), name);
    }
  }

  lemma PassFounded(s: Sys, name: string)
    requires Founded(s, name)
    ensures Founded(Reconcile(s).0, name)
  {
    FetchFounded(s, name);
    var (s', f) := Fetch(s);
    if f.Ready? {
      var h, i, j := FetchReads(s, name);
      TargetsListed(f.cluster.spec.instances, f.m.spec.instances);
      var targets := Selectors.RestoreTargets(f.cluster.spec.instances, f.m.spec.instances);
      if targets.Err? {
        CallFounded(s', UpdateStatus(f.m.(status := f.m.status.(phase := Failed))), name);
      } else if |f.m.status.entries| == |targets.value| {
        SlotsFounded(s', f, h, i, j, targets.value, name);
      } else {
        SizedFounded(s', f, h, i, j, targets.value, name);
      }
    }
  }

  lemma {:induction false} RunFounded(s: Sys, scripts: seq<seq<Turn<EnvStep>>>, name: string)
    requires Founded(s, name)
    ensures Founded(Run(s, scripts), name)
    decreases |scripts|
  {
    if scripts != [] {
      var first := s.(script := scripts[0]);
      assert first.Trace() == s.Trace();
      PassFounded(first, name);
      RunFounded(Reconcile(first).0, scripts[1..], name);
    }
  }

  /**
   In every world of every run, kept or not, each job of the operator restores an instance of the
   target cluster, all of them as the operator had read them by then: its own server or volume,
   its own database, under the options asked for, from the backup referred to.
   */
  lemma JobsHaveOrigin(s: Sys, scripts: seq<seq<Turn<EnvStep>>>, i: nat, n: string)
    requires RestoreTheorems.Fresh(s) && i < |Run(s, scripts).Trace()|
    requires var w := Run(s, scripts).Trace()[i]; n in w.jobs && w.jobs[n].owned
    ensures var t := Run(s, scripts).Trace();
            t[i].jobs[n].spec.name == n && Built(t[..i + 1], s.world.restore.value.name, t[i].jobs[n].spec)
  {
    var name := s.world.restore.value.name;
    assert s.Trace() == [s.world];
    RunFounded(s, scripts, name);
    var t := Run(s, scripts).Trace();
    assert JobsBuilt(t[..i + 1], name, t[i]);
  }

  lemma BuiltNamed(t: seq<World>, name: string, job: RestoreJob)
    requires Built(t, name, job)
    ensures job.name == Naming.RestoreJobName(name, job.instance)
  {
    var at :| Originates(t, name, job, at);
  }

  lemma EntryNamed(w: World, e: Entry)
    requires RestoreSafety.Inv(w) && w.restore.Some? && e in w.restore.value.status.entries
    ensures e.jobName == Naming.RestoreJobName(w.restore.value.name, e.name)
  {
  }

  /** The job a slot names, if it is the operator's, restores the instance recorded there. */
  lemma SlotJobRestoresIt(t: seq<World>, w: World, name: string, n: string, e: Entry)
    requires RestoreSafety.Inv(w) && JobsBuilt(t, name, w) && w.restore.Some?
    requires n in w.jobs && w.jobs[n].owned && e in w.restore.value.status.entries && e.jobName == n
    ensures w.jobs[n].spec.instance == e.name
  {
    EntryNamed(w, e);
    BuiltNamed(t, name, w.jobs[n].spec);
    Naming.RestoreJobNameInjective(name, e.name, w.jobs[n].spec.instance);
  }

  /** In a kept run that instance is the one recorded in each slot that names the job, and there is one. */
  lemma SlotsJobsRestoreThem(s: Sys, scripts: seq<seq<Turn<EnvStep>>>, i: nat, n: string)
    requires RestoreTheorems.Fresh(s) && RestoreTheorems.RunKept(s, scripts) && i < |Run(s, scripts).Trace()|
    requires var w := Run(s, scripts).Trace()[i]; w.restore.Some? && n in w.jobs && w.jobs[n].owned
    ensures var w := Run(s, scripts).Trace()[i];
            && (exists e :: e in w.restore.value.status.entries && e.jobName == n)
            && Built(Run(s, scripts).Trace()[..i + 1], s.world.restore.value.name, w.jobs[n].spec)
            && forall e | e in w.restore.value.status.entries && e.jobName == n :: w.jobs[n].spec.instance == e.name
  {
    var t, name := Run(s, scripts).Trace(), s.world.restore.value.name;
    assert s.Trace() == [s.world];
    RunFounded(s, scripts, name);
    assert JobsBuilt(t[..i + 1], name, t[i]);
    RestoreTheorems.JobsCovered(s, scripts, i);
    RestoreTheorems.FreshRun(s, scripts);
    forall e | e in t[i].restore.value.status.entries && e.jobName == n ensures t[i].jobs[n].spec.instance == e.name {
      SlotJobRestoresIt(t[..i + 1], t[i], name, n, e);
    }
  }
}
