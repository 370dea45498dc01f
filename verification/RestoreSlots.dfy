/**
 When a pass may find other targets than its slots record, by the position of a slot: the condition
 under which it can neither complete a restore it has not done nor create a job that no slot records,
 and the proof that under it no script does.

 The proof follows a pass from call to call, as that of RestoreSafety does, but without supposing
 that a slot and its target have the same name: a slot may be worked on by the job it records, or
 by the job made for the target now at its place.
 */
module RestoreSlots {
  import opened Wrappers
  import opened ApiServer
  import opened ApiTypes
  import opened RestoreModel
  import opened RestoreJobs
  import RestoreSafety
  import opened RestoreProgress
  import opened RestoreScripts

  // ------------------------------------------------------------------ what should hold

  /** Every job of the operator is recorded, and Completed means that all targets' jobs have finished. */
  ghost predicate Sound(w: World, made: seq<string>) {
    && w.restore.Some?
    && var status := w.restore.value.status;
       && RestoreSafety.Covered(w, status.entries)
       && (status.phase == Completed ==> forall i | 0 <= i < |made| :: Finished(made[i]) in w.log)
  }

  ghost predicate JobOrTime(e: EnvStep) {
    e.JobReports? || e.JobRemoved? || e.JobAppears? || e.ClockTicks?
  }

  /** While the pass runs, jobs fare as they like and time passes; nobody edits the objects it reads. */
  ghost predicate JobsAndTime(env: seq<EnvStep>) {
    forall i | 0 <= i < |env| :: JobOrTime(env[i])
  }

  ghost predicate OnlyJobs(script: Script) {
    forall i | 0 <= i < |script| :: JobsAndTime(script[i].env)
  }

  /** In every world of the pass. */
  ghost predicate PassSound(w: World, script: Script, made: seq<string>) {
    var t := Reconcile(Session([], w, script)).0.Trace();
    forall i | 0 <= i < |t| :: Sound(t[i], made)
  }

  // ------------------------------------------------------------------ what goes wrong

  /** Slot `k` is worked on for a target whose job can be built and that no slot records. */
  ghost predicate Strays(entries: seq<Entry>, made: seq<string>, jobs: seq<Result<RestoreJob>>, k: nat) {
    && k < |entries| == |made| == |jobs|
    && entries[k].phase != Completed && jobs[k].Ok? && !RestoreSafety.Names(entries, made[k])
  }

  /**
   The job of target `i` has not finished, and no slot has to wait for it: each open slot that
   records it is worked on for another target, whose job can be built.
   */
  ghost predicate Skips(entries: seq<Entry>, made: seq<string>, jobs: seq<Result<RestoreJob>>, log: multiset<Event>, i: nat) {
    && i < |entries| == |made| == |jobs|
    && Finished(made[i]) !in log
    && forall k | 0 <= k < |entries| && entries[k].phase != Completed && entries[k].jobName == made[i] ::
         made[k] != made[i] && jobs[k].Ok?
  }

  /** Sizing the slots anew forgets a job of the operator. */
  ghost predicate Forgets(w: World, made: seq<string>) {
    exists n :: n in w.jobs && w.jobs[n].owned && n !in made
  }

  ghost predicate Breaks(w: World, targets: seq<InstanceSpec>)
    requires RefsPresent(w) && TargetsIn(w) == Ok(targets)
  {
    var entries, made := w.restore.value.status.entries, TargetJobs(w.restore.value.name, targets);
    if |entries| != |targets| then Forgets(w, made)
    else (exists k: nat :: Strays(entries, made, JobsOf(w), k)) || (exists i: nat :: Skips(entries, made, JobsOf(w), w.log, i))
  }

  // ------------------------------------------------------------------ what every call keeps

  /** A job seen with a completion time is on record. */
  ghost predicate JobsLogged(w: World) {
    forall n | n in w.jobs && w.jobs[n].completionTime.Some? :: Finished(n) in w.log
  }

  ghost predicate Fine(w: World, made: seq<string>) {
    Sound(w, made) && JobsLogged(w)
  }

  ghost predicate Kept(s: Sys, made: seq<string>) {
    forall i | 0 <= i < |s.Trace()| :: Fine(s.Trace()[i], made)
  }

  lemma Extend(s: Sys, w: World, made: seq<string>)
    requires Kept(s, made) && Fine(w, made)
    ensures Kept(s.Become(w), made)
  {
    var t, t' := s.Trace(), s.Become(w).Trace();
    assert t' == t + [w];
  }

  /** Restore and references are the same, history has grown, and the operator has no new job. */
  ghost predicate Drifted(w: World, w': World) {
    && w' == w.(jobs := w'.jobs, log := w'.log, now := w'.now)
    && w.log <= w'.log
    && forall n | n in w'.jobs && w'.jobs[n].owned :: n in w.jobs && w.jobs[n].owned
  }

  lemma MoveAside(w: World, e: EnvStep)
    requires JobOrTime(e)
    ensures Drifted(w, Move(w, e))
  {
  }

  lemma MoveLogs(w: World, e: EnvStep)
    requires JobOrTime(e) && JobsLogged(w)
    ensures JobsLogged(Move(w, e))
  {
  }

  lemma DriftedSound(w: World, w': World, made: seq<string>)
    requires Drifted(w, w') && Sound(w, made)
    ensures Sound(w', made)
  {
  }

  lemma MoveDrifts(w: World, e: EnvStep, made: seq<string>)
    requires JobOrTime(e) && Fine(w, made)
    ensures Drifted(w, Move(w, e)) && Fine(Move(w, e), made)
  {
    MoveAside(w, e);
    MoveLogs(w, e);
    DriftedSound(w, Move(w, e), made);
  }

  lemma {:induction false} DriftKept(s: Sys, env: seq<EnvStep>, made: seq<string>)
    requires Kept(s, made) && JobsAndTime(env)
    ensures var s' := Drift(API, s, env); Kept(s', made) && Drifted(s.world, s'.world) && s'.script == s.script
    decreases |env|
  {
    if env != [] {
      assert s.Trace()[|s.past|] == s.world;
      var w := Move(s.world, env[0]);
      MoveDrifts(s.world, env[0], made);
      Extend(s, w, made);
      DriftKept(s.Become(w), env[1..], made);
    }
  }

  /** A request is served, if at all, in a world `d` the environment has brought about. */
  lemma Arrive(s: Sys, q: Request, made: seq<string>) returns (d: Sys)
    requires Kept(s, made) && OnlyJobs(s.script)
    ensures Kept(d, made) && Drifted(s.world, d.world) && Fine(d.world, made) && OnlyJobs(Call(s, q).0.script)
    ensures var (s', a) := Call(s, q);
            var (w, b) := Serve(d.world, q);
            (s' == d && a == Unreachable) || (s' == d.Become(w) && (a == b || a == Unreachable))
  {
    d := s;
    if s.script != [] {
      var s0 := s.(script := s.script[1..]);
      assert s0.Trace() == s.Trace();
      DriftKept(s0, s.script[0].env, made);
      d := Drift(API, s0, s.script[0].env);
      assert forall i | 0 <= i < |s.script| - 1 :: s.script[1..][i] == s.script[i + 1];
    }
    assert d.Trace()[|d.past|] == d.world;
  }

  ghost predicate Reads(q: Request) {
    q.GetRestore? || q.GetCluster? || q.GetBackup? || q.GetJob?
  }

  /** Between two requests of a pass over the persisted restore `r`. */
  ghost predicate Here(s: Sys, r: Restore, made: seq<string>) {
    Kept(s, made) && OnlyJobs(s.script) && s.world.restore == Some(r)
  }

  lemma CallReads(s: Sys, q: Request, r: Restore, made: seq<string>)
    requires Here(s, r, made) && Reads(q)
    ensures var (s', a) := Call(s, q);
            && Here(s', r, made) && Drifted(s.world, s'.world) && JobsLogged(s'.world)
            && (a == Unreachable || a == Serve(s'.world, q).1)
  {
    var d := Arrive(s, q, made);
    Extend(d, d.world, made);
  }

  /** The entries record the same jobs in the same slots. */
  ghost predicate SameJobs(a: seq<Entry>, b: seq<Entry>) {
    |a| == |b| && forall i | 0 <= i < |a| :: a[i].jobName == b[i].jobName
  }

  /** The entries record all jobs of the operator. */
  lemma CoveredAlike(w: World, a: seq<Entry>, b: seq<Entry>)
    requires RestoreSafety.Covered(w, a) && SameJobs(a, b)
    ensures RestoreSafety.Covered(w, b)
  {
    forall n | n in w.jobs && w.jobs[n].owned ensures RestoreSafety.Names(b, n) {
      var i :| 0 <= i < |a| && a[i].jobName == n;
      assert b[i].jobName == n;
    }
  }

  lemma CallCreates(s: Sys, spec: RestoreJob, r: Restore, made: seq<string>)
    requires Here(s, r, made) && RestoreSafety.Names(r.status.entries, spec.name)
    ensures var s' := Call(s, CreateJob(spec)).0; Here(s', r, made) && s.world.log <= s'.world.log
  {
    var d := Arrive(s, CreateJob(spec), made);
    var w := Serve(d.world, CreateJob(spec)).0;
    assert RestoreSafety.Covered(w, r.status.entries);
    Extend(d, w, made);
  }

  /** A status may be sent that records all jobs and claims completion only where it is true. */
  ghost predicate MaySend(w: World, status: RestoreStatus, made: seq<string>) {
    && RestoreSafety.Covered(w, status.entries)
    && (status.phase == Completed ==> forall i | 0 <= i < |made| :: Finished(made[i]) in w.log)
  }

  /** What a status write leaves persisted: the old restore, or the one sent. */
  ghost predicate WroteStatus(s': Sys, a: Answer, r: Restore, m: Restore, made: seq<string>) {
    && Kept(s', made) && OnlyJobs(s'.script)
    && (s'.world.restore == Some(r) || s'.world.restore == Some(StatusUpdated(r, m)))
    && (a.RestoreIs? ==> s'.world.restore == Some(a.restore) && a.restore == StatusUpdated(r, m))
  }

  lemma CallStatus(s: Sys, m: Restore, r: Restore, made: seq<string>)
    requires Here(s, r, made) && MaySend(s.world, m.status, made)
    ensures var (s', a) := Call(s, UpdateStatus(m));
            && WroteStatus(s', a, r, m, made) && s.world.log <= s'.world.log
            && (forall n | n in s'.world.jobs && s'.world.jobs[n].owned :: n in s.world.jobs && s.world.jobs[n].owned)
  {
    var d := Arrive(s, UpdateStatus(m), made);
    var w := Serve(d.world, UpdateStatus(m)).0;
    assert StatusUpdated(r, m).status == m.status;
    assert RestoreSafety.Covered(d.world, m.status.entries);
    Extend(d, w, made);
  }

  // ------------------------------------------------------------------ the loop

  /** A slot found Completed now: its recorded job, or the one made for its target, has finished. */
  ghost predicate Seen(e: Entry, e': Entry, made: string, job: Result<RestoreJob>, log: multiset<Event>) {
    e.phase != Completed && e'.phase == Completed ==>
      Finished(e.jobName) in log || (job.Ok? && Finished(made) in log)
  }

  /** The slots and the jobs that can be built for them fit together, and no slot strays. */
  ghost predicate Orderly(entries: seq<Entry>, jobs: seq<Result<RestoreJob>>, made: seq<string>) {
    && |entries| == |jobs| == |made|
    && (forall j | 0 <= j < |jobs| && jobs[j].Ok? :: jobs[j].value.name == made[j])
    && (forall k: nat :: !Strays(entries, made, jobs, k))
  }

  ghost predicate Working(s: Sys, m: Restore, r: Restore, jobs: seq<Result<RestoreJob>>, made: seq<string>, i: nat) {
    var entries := r.status.entries;
    && Here(s, r, made) && Orderly(entries, jobs, made) && SameJobs(entries, m.status.entries)
    && (forall j | i <= j < |entries| :: m.status.entries[j] == entries[j])
    && (forall j | 0 <= j < |entries| :: Seen(entries[j], m.status.entries[j], made[j], jobs[j], s.world.log))
  }

  /** What one more request leaves of that. */
  lemma WorkingLater(s: Sys, s': Sys, m: Restore, r: Restore, jobs: seq<Result<RestoreJob>>, made: seq<string>, i: nat)
    requires Working(s, m, r, jobs, made, i) && Here(s', r, made) && s.world.log <= s'.world.log
    ensures Working(s', m, r, jobs, made, i)
  {
    forall j | 0 <= j < |jobs| ensures Seen(r.status.entries[j], m.status.entries[j], made[j], jobs[j], s'.world.log) {
      assert Seen(r.status.entries[j], m.status.entries[j], made[j], jobs[j], s.world.log);
    }
  }

  /** Slot `i` has been looked at. */
  lemma WorkingSet(s: Sys, m: Restore, r: Restore, jobs: seq<Result<RestoreJob>>, made: seq<string>, i: nat, e: Entry)
    requires Working(s, m, r, jobs, made, i) && i < |jobs|
    requires e.jobName == m.status.entries[i].jobName && Seen(r.status.entries[i], e, made[i], jobs[i], s.world.log)
    ensures Working(s, SetEntry(m, i, e), r, jobs, made, i + 1)
  {
  }

  lemma UpdateJobStatusKept(s: Sys, m: Restore, r: Restore, jobs: seq<Result<RestoreJob>>, made: seq<string>, i: nat, e: Entry, jobName: string)
    requires Working(s, m, r, jobs, made, i) && i < |jobs| && r.status.entries[i].phase != Completed
    requires e.jobName == m.status.entries[i].jobName && e.phase != Completed
    requires jobName == r.status.entries[i].jobName || (jobs[i].Ok? && jobName == made[i])
    ensures var p := UpdateJobStatus(s, SetEntry(m, i, e), i, jobName);
            Working(p.s, p.m, r, jobs, made, i + 1) && s.world.log <= p.s.world.log
  {
    WorkingSet(s, m, r, jobs, made, i, e);
    if jobName != "" {
      CallReads(s, GetJob(jobName), r, made);
      var (s', a) := Call(s, GetJob(jobName));
      WorkingLater(s, s', m, r, jobs, made, i);
      WorkingSet(s', m, r, jobs, made, i, e);
      if a.JobIs? {
        var e' := Observed(a.found, e);
        WorkingSet(s', m, r, jobs, made, i, e');
        SetTwice(m, i, e, e');
      }
    }
  }

  lemma CreateMissingKept(s: Sys, m: Restore, r: Restore, jobs: seq<Result<RestoreJob>>, made: seq<string>, i: nat)
    requires Working(s, m, r, jobs, made, i) && i < |jobs| && r.status.entries[i].phase != Completed
    ensures var p := CreateMissing(s, m, i, jobs[i]);
            && Here(p.s, r, made) && SameJobs(r.status.entries, p.m.status.entries) && s.world.log <= p.s.world.log
            && (p.ok ==> Working(p.s, p.m, r, jobs, made, i + 1))
  {
    if jobs[i].Ok? {
      assert !Strays(r.status.entries, made, jobs, i);
      CallCreates(s, jobs[i].value, r, made);
      var (s', created) := Call(s, CreateJob(jobs[i].value));
      if created.Done? {
        WorkingLater(s, s', m, r, jobs, made, i);
        var e := m.status.entries[i].(phase := Running, startTime := Some(s'.world.now));
        UpdateJobStatusKept(s', m, r, jobs, made, i, e, jobs[i].value.name);
      }
    }
  }

  lemma VisitKept(s: Sys, m: Restore, r: Restore, jobs: seq<Result<RestoreJob>>, made: seq<string>, i: nat)
    requires Working(s, m, r, jobs, made, i) && i < |jobs|
    ensures var p := Visit(s, m, jobs[i], i);
            && Here(p.s, r, made) && SameJobs(r.status.entries, p.m.status.entries) && s.world.log <= p.s.world.log
            && (p.ok ==> Working(p.s, p.m, r, jobs, made, i + 1))
  {
    var e := m.status.entries[i];
    assert e == r.status.entries[i];
    if e.phase != Completed {
      CallReads(s, GetJob(e.jobName), r, made);
      var (s', a) := Call(s, GetJob(e.jobName));
      WorkingLater(s, s', m, r, jobs, made, i);
      if a.JobIs? {
        assert m.status.entries[i := e] == m.status.entries;
        UpdateJobStatusKept(s', m, r, jobs, made, i, e, e.jobName);
      } else if a.NotFound? {
        CreateMissingKept(s', m, r, jobs, made, i);
      }
    }
  }

  lemma {:induction false} VisitFromKept(s: Sys, m: Restore, r: Restore, jobs: seq<Result<RestoreJob>>, made: seq<string>, i: nat)
    requires Working(s, m, r, jobs, made, i) && i <= |jobs|
    ensures var p := VisitFrom(s, m, jobs, i);
            && Here(p.s, r, made) && SameJobs(r.status.entries, p.m.status.entries) && s.world.log <= p.s.world.log
            && (p.ok ==> Working(p.s, p.m, r, jobs, made, |jobs|))
    decreases |jobs| - i
  {
    if i < |jobs| {
      VisitKept(s, m, r, jobs, made, i);
      var p := Visit(s, m, jobs[i], i);
      if p.ok {
        VisitFromKept(p.s, p.m, r, jobs, made, i + 1);
      }
    }
  }

  // ------------------------------------------------------------------ the status and the whole pass

  ghost predicate NoSkips(entries: seq<Entry>, made: seq<string>, jobs: seq<Result<RestoreJob>>, log: multiset<Event>) {
    forall i: nat :: !Skips(entries, made, jobs, log, i)
  }

  /** All slots have been found Completed and none was skipped: all targets' jobs have finished. */
  lemma AllFinished(entries: seq<Entry>, entries': seq<Entry>, made: seq<string>, jobs: seq<Result<RestoreJob>>,
                    log: multiset<Event>, log': multiset<Event>)
    requires |entries| == |entries'| == |made| == |jobs| && log <= log'
    requires NoSkips(entries, made, jobs, log)
    requires forall j | 0 <= j < |entries| :: entries'[j].phase == Completed && Seen(entries[j], entries'[j], made[j], jobs[j], log')
    ensures forall i | 0 <= i < |made| :: Finished(made[i]) in log'
  {
    forall i | 0 <= i < |made| ensures Finished(made[i]) in log' {
      assert !Skips(entries, made, jobs, log, i);
      if Finished(made[i]) !in log {
        var k :| 0 <= k < |entries| && entries[k].phase != Completed && entries[k].jobName == made[i]
          && !(made[k] != made[i] && jobs[k].Ok?);
        assert Seen(entries[k], entries'[k], made[k], jobs[k], log');
      }
    }
  }

  lemma HandleErrorKept(s: Sys, m: Restore, r: Restore, made: seq<string>)
    requires Here(s, r, made) && RestoreSafety.Covered(s.world, m.status.entries)
    ensures Kept(HandleError(s, m), made)
  {
    CallStatus(s, m.(status := m.status.(phase := Failed)), r, made);
  }

  lemma HereCovered(s: Sys, r: Restore, made: seq<string>)
    requires Here(s, r, made)
    ensures RestoreSafety.Covered(s.world, r.status.entries) && JobsLogged(s.world)
  {
    assert s.Trace()[|s.past|] == s.world;
  }

  /** The end of a pass that has got through its slots. */
  lemma FinishKept(s: Sys, m: Restore, r: Restore, jobs: seq<Result<RestoreJob>>, made: seq<string>, log: multiset<Event>)
    requires Working(s, m, r, jobs, made, |jobs|) && NoSkips(r.status.entries, made, jobs, log) && log <= s.world.log
    ensures Kept(After(UpdateRestoreStatus(s, m)), made)
  {
    var m' := WithAggregate(m, s.world.now);
    HereCovered(s, r, made);
    CoveredAlike(s.world, r.status.entries, m.status.entries);
    if m'.status.phase == Completed {
      RestoreSafety.TallyBounds(m.status.entries, Completed);
      AllFinished(r.status.entries, m.status.entries, made, jobs, log, s.world.log);
    }
    CallStatus(s, m', r, made);
    var (s', a) := Call(s, UpdateStatus(m'));
    if !a.RestoreIs? {
      var r' := s'.world.restore.value;
      HereCovered(s', r', made);
      CoveredAlike(s'.world, r'.status.entries, m'.status.entries);
      HandleErrorKept(s', m', r', made);
    }
  }

  lemma LoopKept(s: Sys, m: Restore, r: Restore, jobs: seq<Result<RestoreJob>>, made: seq<string>)
    requires Working(s, m, r, jobs, made, 0) && NoSkips(r.status.entries, made, jobs, s.world.log)
    ensures var v := VisitFrom(s, m, jobs, 0); Kept(After(if v.ok then UpdateRestoreStatus(v.s, v.m) else v), made)
  {
    VisitFromKept(s, m, r, jobs, made, 0);
    var v := VisitFrom(s, m, jobs, 0);
    if v.ok {
      FinishKept(v.s, v.m, r, jobs, made, s.world.log);
    } else {
      HereCovered(v.s, r, made);
      CoveredAlike(v.s.world, r.status.entries, v.m.status.entries);
      HandleErrorKept(v.s, v.m, r, made);
    }
  }

  lemma NoSkipsLater(entries: seq<Entry>, made: seq<string>, jobs: seq<Result<RestoreJob>>, log: multiset<Event>, log': multiset<Event>)
    requires NoSkips(entries, made, jobs, log) && log <= log'
    ensures NoSkips(entries, made, jobs, log')
  {
    forall i: nat ensures !Skips(entries, made, jobs, log', i) {
      assert !Skips(entries, made, jobs, log, i);
    }
  }

  /** Fresh slots are those of their targets: nothing strays, nothing is skipped. */
  lemma FreshOrderly(m: Restore, c: PostgresCluster, b: PostgresBackup, targets: seq<InstanceSpec>, log: multiset<Event>)
    ensures var entries, made, jobs := FreshEntries(m.name, targets), TargetJobs(m.name, targets), JobsFor(m, c, b, targets);
            Orderly(entries, jobs, made) && NoSkips(entries, made, jobs, log)
  {
    var entries, made, jobs := FreshEntries(m.name, targets), TargetJobs(m.name, targets), JobsFor(m, c, b, targets);
    forall k: nat ensures !Strays(entries, made, jobs, k) {
      if k < |entries| {
        assert entries[k].jobName == made[k];
      }
    }
    forall i: nat ensures !Skips(entries, made, jobs, log, i) {
      if i < |entries| {
        assert entries[i].phase != Completed && entries[i].jobName == made[i];
      }
    }
  }

  lemma RememberedCovered(w: World, restore: string, targets: seq<InstanceSpec>)
    requires !Forgets(w, TargetJobs(restore, targets))
    ensures RestoreSafety.Covered(w, FreshEntries(restore, targets))
  {
    var made, entries := TargetJobs(restore, targets), FreshEntries(restore, targets);
    forall n | n in w.jobs && w.jobs[n].owned ensures RestoreSafety.Names(entries, n) {
      var i :| 0 <= i < |made| && made[i] == n;
      assert entries[i].jobName == n;
    }
  }

  /** Sizing the slots anew, where that forgets no job. */
  lemma SizedKept(s: Sys, m: Restore, r: Restore, c: PostgresCluster, b: PostgresBackup, targets: seq<InstanceSpec>)
    requires var made := TargetJobs(r.name, targets); Here(s, r, made) && !Forgets(s.world, made)
    requires m == r.(spec := m.spec) && |r.status.entries| != |targets| && r.status.phase != Completed
    ensures Kept(After(ReconcileTargets(s, m, c, b, targets)), TargetJobs(r.name, targets))
  {
    var made := TargetJobs(r.name, targets);
    var sized := m.(status := m.status.(entries := FreshEntries(m.name, targets)));
    RememberedCovered(s.world, r.name, targets);
    CallStatus(s, sized, r, made);
    var (s', a) := Call(s, UpdateStatus(sized));
    if a.RestoreIs? {
      var p := a.restore;
      assert p.status == sized.status && p.name == r.name;
      FreshOrderly(p, c, b, targets, s'.world.log);
      LoopKept(s', p, p, JobsFor(p, c, b, targets), made);
    } else {
      RememberedCovered(s'.world, r.name, targets);
      HandleErrorKept(s', sized, s'.world.restore.value, made);
    }
  }

  /** As many slots as targets, in order. */
  lemma SlotsKept(s: Sys, m: Restore, r: Restore, c: PostgresCluster, b: PostgresBackup, targets: seq<InstanceSpec>)
    requires var made, jobs := TargetJobs(r.name, targets), JobsFor(m, c, b, targets);
             && Here(s, r, made) && Orderly(r.status.entries, jobs, made)
             && NoSkips(r.status.entries, made, jobs, s.world.log)
    requires m == r.(spec := m.spec) && |r.status.entries| == |targets|
    ensures Kept(After(ReconcileTargets(s, m, c, b, targets)), TargetJobs(r.name, targets))
  {
    LoopKept(s, m, r, JobsFor(m, c, b, targets), TargetJobs(r.name, targets));
  }

  lemma FetchKept(s: Sys, made: seq<string>)
    requires Active(s.world) && RefsPresent(s.world) && Here(s, s.world.restore.value, made)
    ensures var (s', f) := Fetch(s);
            var r := s.world.restore.value;
            && Kept(s', made)
            && (f.Ready? ==>
                  && Here(s', r, made) && Drifted(s.world, s'.world)
                  && f == Ready(SetDefaults(r), s.world.clusters[ClusterKey(s.world)], s.world.backups[BackupKey(s.world)]))
  {
    var r := s.world.restore.value;
    var q2, q3 := GetCluster(ClusterKey(s.world)), GetBackup(BackupKey(s.world));
    CallReads(s, GetRestore, r, made);
    var (s1, got) := Call(s, GetRestore);
    if got.RestoreIs? {
      assert got.restore == r;
      CallReads(s1, q2, r, made);
      var (s2, cluster) := Call(s1, q2);
      HereCovered(s2, r, made);
      HandleErrorKept(s2, r, r, made);
      CallReads(s2, q3, r, made);
      var s3 := Call(s2, q3).0;
      HereCovered(s3, r, made);
      HandleErrorKept(s3, r, r, made);
    }
  }

  lemma BuiltJobsNamed(w: World, targets: seq<InstanceSpec>)
    requires RefsPresent(w) && TargetsIn(w) == Ok(targets)
    ensures var jobs, made := JobsOf(w), TargetJobs(w.restore.value.name, targets);
            |jobs| == |made| && forall j | 0 <= j < |jobs| && jobs[j].Ok? :: jobs[j].value.name == made[j]
  {
  }

  /** A pass that may find other targets than recorded, where that breaks nothing. */
  lemma PassKept(s: Sys, targets: seq<InstanceSpec>)
    requires Active(s.world) && RefsPresent(s.world) && TargetsIn(s.world) == Ok(targets) && !Breaks(s.world, targets)
    requires Here(s, s.world.restore.value, TargetJobs(s.world.restore.value.name, targets))
    ensures Kept(Reconcile(s).0, TargetJobs(s.world.restore.value.name, targets))
  {
    var w, r := s.world, s.world.restore.value;
    var made := TargetJobs(r.name, targets);
    FetchKept(s, made);
    var (s', f) := Fetch(s);
    if f.Ready? {
      BuiltJobsNamed(w, targets);
      assert JobsOf(w) == JobsFor(f.m, f.cluster, f.backup, targets);
      if |r.status.entries| == |targets| {
        NoSkipsLater(r.status.entries, made, JobsOf(w), w.log, s'.world.log);
        SlotsKept(s', f.m, r, f.cluster, f.backup, targets);
      } else {
        SizedKept(s', f.m, r, f.cluster, f.backup, targets);
      }
      AfterFetch(s, s', f.m, f.cluster, f.backup, targets);
    }
  }

  lemma WholeSound(w: World, targets: seq<InstanceSpec>, script: Script)
    requires RestoreSafety.Inv(w) && Active(w) && RefsPresent(w) && TargetsIn(w) == Ok(targets) && !Breaks(w, targets)
    requires OnlyJobs(script)
    ensures PassSound(w, script, TargetJobs(w.restore.value.name, targets))
  {
    var s := Session([], w, script);
    assert s.Trace() == [w];
    PassKept(s, targets);
  }
}
