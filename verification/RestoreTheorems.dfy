/**
 What a whole run of the restore controller guarantees, from the creation of the restore to
 any API call after it. A run is a sequence of passes; `t` below is every world it goes through.
 */
module RestoreTheorems {
  import opened Wrappers
  import opened ApiServer
  import opened ApiTypes
  import opened RestoreModel
  import opened RestoreSafety
  import Naming
  import Selectors

  /** A restore just created by its user, in a namespace without jobs. */
  ghost predicate Fresh(s: Sys) {
    && s.past == []
    && s.world.jobs == map[] && s.world.log == multiset{}
    && s.world.restore.Some?
    && var r := s.world.restore.value;
       !r.finalizer && !r.deleting && r.status == RestoreStatus(Unset, None, [])
  }

  /** Every pass of the run finds in each open slot the target it records. */
  ghost predicate RunKept(s: Sys, scripts: seq<seq<Turn<EnvStep>>>)
    decreases |scripts|
  {
    scripts != [] ==>
      var first := s.(script := scripts[0]);
      TargetsKept(first) && RunKept(Reconcile(first).0, scripts[1..])
  }

  /** Every pass of the run finds its targets as recorded, in all slots. */
  ghost predicate RunRecorded(s: Sys, scripts: seq<seq<Turn<EnvStep>>>)
    decreases |scripts|
  {
    scripts != [] ==>
      var first := s.(script := scripts[0]);
      TargetsRecorded(first) && RunRecorded(Reconcile(first).0, scripts[1..])
  }

  lemma {:induction false} RecordedIsKept(s: Sys, scripts: seq<seq<Turn<EnvStep>>>)
    requires RunRecorded(s, scripts)
    ensures RunKept(s, scripts)
    decreases |scripts|
  {
    if scripts != [] {
      RecordedIsKept(Reconcile(s.(script := scripts[0])).0, scripts[1..]);
    }
  }

  lemma {:induction false} RunSafe(s: Sys, scripts: seq<seq<Turn<EnvStep>>>)
    requires Good(s) && RunKept(s, scripts)
    ensures Good(Run(s, scripts))
    decreases |scripts|
  {
    if scripts != [] {
      var first := s.(script := scripts[0]);
      assert first.Trace() == s.Trace();
      ReconcileSafe(first);
      RunSafe(Reconcile(first).0, scripts[1..]);
    }
  }

  lemma FreshGood(s: Sys)
    requires Fresh(s)
    ensures Good(s)
  {
    assert s.Trace() == [s.world];
    assert RestoreInv(s.world, s.world.restore.value);
  }

  lemma FreshRun(s: Sys, scripts: seq<seq<Turn<EnvStep>>>)
    requires Fresh(s) && RunKept(s, scripts)
    ensures Lawful(Run(s, scripts).Trace())
  {
    FreshGood(s);
    RunSafe(s, scripts);
  }

  /** Next, over any number of steps, for the parts of it that compose. */
  ghost predicate Later(w: World, w': World) {
    && w.log <= w'.log
    && (w.restore.None? ==> w'.restore.None?)
    && (w.restore.Some? && w'.restore.Some? ==>
          && w'.restore.value.name == w.restore.value.name
          && StatusNext(w.restore.value.status, w'.restore.value.status))
  }

  lemma LaterThenNext(w: World, w1: World, w2: World)
    requires Later(w, w1) && Next(w1, w2)
    ensures Later(w, w2)
  {
  }

  lemma {:induction false} LawfulLater(t: seq<World>, i: nat, j: nat)
    requires Lawful(t) && i <= j < |t|
    ensures Later(t[i], t[j])
    decreases j - i
  {
    if i < j {
      LawfulLater(t, i, j - 1);
      assert Next(t[j - 1], t[j]);
      LaterThenNext(t[i], t[j - 1], t[j]);
    }
  }

  /**
   Completion is sound: when the persisted phase is Completed, a job of every recorded
   instance, under the name derived from it, has been seen with a completion time; unless someone
   else put a job of that name there, it is one the operator has created. From then on the status
   never changes, as long as the restore exists.
   */
  lemma CompletionSound(s: Sys, scripts: seq<seq<Turn<EnvStep>>>, i: nat, j: nat)
    requires Fresh(s) && RunKept(s, scripts)
    requires var t := Run(s, scripts).Trace();
             i <= j < |t| && t[i].restore.Some? && t[i].restore.value.status.phase == Completed
    ensures var t := Run(s, scripts).Trace();
            var r := t[i].restore.value;
            && (forall e | e in r.status.entries ::
                  var job := Naming.RestoreJobName(r.name, e.name);
                  && e.phase == Completed && Finished(job) in t[i].log
                  && (Appeared(job) !in t[i].log ==> Created(job) in t[i].log))
            && (t[j].restore.Some? ==> t[j].restore.value.status == r.status)
  {
    FreshRun(s, scripts);
    LawfulLater(Run(s, scripts).Trace(), i, j);
  }

  /**
   Write-ahead coverage: in every world the persisted status names every job the operator has
   created and not lost; so once the restore is gone none of its jobs is left.
   */
  lemma JobsCovered(s: Sys, scripts: seq<seq<Turn<EnvStep>>>, i: nat)
    requires Fresh(s) && RunKept(s, scripts) && i < |Run(s, scripts).Trace()|
    ensures var w := Run(s, scripts).Trace()[i];
            && (w.restore.Some? ==> forall n | n in w.jobs && w.jobs[n].owned ::
                  exists e :: e in w.restore.value.status.entries && e.jobName == n)
            && (w.restore.None? ==> forall n | n in w.jobs :: !w.jobs[n].owned)
  {
    FreshRun(s, scripts);
    var w := Run(s, scripts).Trace()[i];
    assert Inv(w);
    if w.restore.Some? {
      var entries := w.restore.value.status.entries;
      forall n | n in w.jobs && w.jobs[n].owned ensures exists e :: e in entries && e.jobName == n {
        var k :| 0 <= k < |entries| && entries[k].jobName == n;
        assert entries[k] in entries;
      }
    }
  }

  /**
   Conservation: of each job name, creations equal removals plus one if it is there. The
   operator creates at most one more than others remove.
   */
  lemma JobsConserved(s: Sys, scripts: seq<seq<Turn<EnvStep>>>, i: nat, n: string)
    requires Fresh(s) && RunKept(s, scripts) && i < |Run(s, scripts).Trace()|
    ensures var w := Run(s, scripts).Trace()[i];
            && w.log[Created(n)] + w.log[Appeared(n)]
               == w.log[Deleted(n)] + w.log[Removed(n)] + (if n in w.jobs then 1 else 0)
            && (Removed(n) !in w.log ==> w.log[Created(n)] <= 1)
  {
    FreshRun(s, scripts);
    assert Inv(Run(s, scripts).Trace()[i]);
  }

  ghost predicate DistinctNames(entries: seq<Entry>) {
    forall i, j | 0 <= i < j < |entries| :: entries[i].name != entries[j].name
  }

  lemma OneSlotPerJob(r: Restore, k: nat, n: string)
    requires WellNamed(r) && DistinctNames(r.status.entries)
    requires k < |r.status.entries| && r.status.entries[k].jobName == n && r.status.entries[k].phase != Completed
    ensures forall e | e in r.status.entries && e.jobName == n :: e.phase != Completed
  {
    forall e | e in r.status.entries && e.jobName == n ensures e.phase != Completed {
      var i :| 0 <= i < |r.status.entries| && r.status.entries[i] == e;
      Naming.RestoreJobNameInjective(r.name, r.status.entries[i].name, r.status.entries[k].name);
    }
  }

  /**
   A job is created only for a slot that is not persisted as Completed; with no instance listed
   twice, never for an instance that is.
   */
  lemma CompletedNotRestarted(s: Sys, scripts: seq<seq<Turn<EnvStep>>>, i: nat, n: string)
    requires Fresh(s) && RunKept(s, scripts)
    requires var t := Run(s, scripts).Trace();
             i + 1 < |t| && t[i + 1].log[Created(n)] > t[i].log[Created(n)]
    ensures var w := Run(s, scripts).Trace()[i];
            && w.restore.Some?
            && var entries := w.restore.value.status.entries;
               && (exists e :: e in entries && e.jobName == n && e.phase != Completed)
               && (DistinctNames(entries) ==> forall e | e in entries && e.jobName == n :: e.phase != Completed)
  {
    FreshRun(s, scripts);
    var w := Run(s, scripts).Trace()[i];
    assert Inv(w) && Next(w, Run(s, scripts).Trace()[i + 1]);
    assert MayCreate(w, n);
    var entries := w.restore.value.status.entries;
    var k :| 0 <= k < |entries| && entries[k].jobName == n && entries[k].phase != Completed;
    assert entries[k] in entries;
    if DistinctNames(entries) {
      OneSlotPerJob(w.restore.value, k, n);
    }
  }

  lemma {:induction false} TallyMonotone(before: seq<Entry>, after: seq<Entry>)
    requires SameSlots(before, after)
    ensures Tally(before, Completed) <= Tally(after, Completed)
  {
    if before != [] {
      TallyMonotone(before[..|before| - 1], after[..|after| - 1]);
    }
  }

  /** Progress is never undone: the number of persisted Completed instances never decreases. */
  lemma ProgressKept(s: Sys, scripts: seq<seq<Turn<EnvStep>>>, i: nat, j: nat)
    requires Fresh(s) && RunKept(s, scripts)
    requires var t := Run(s, scripts).Trace(); i <= j < |t| && t[j].restore.Some?
    ensures var t := Run(s, scripts).Trace();
            && t[i].restore.Some?
            && Tally(t[i].restore.value.status.entries, Completed) <= Tally(t[j].restore.value.status.entries, Completed)
  {
    FreshRun(s, scripts);
    var t := Run(s, scripts).Trace();
    LawfulLater(t, i, j);
    var before := t[i].restore.value.status.entries;
    if before != [] {
      TallyMonotone(before, t[j].restore.value.status.entries);
    }
  }

  // ------------------------------------------------------------------ whose completion it is

  /** The persisted status is the same, or gone with the restore. */
  ghost predicate SameStatus(w: World, w': World) {
    StatusOf(w').None? || StatusOf(w') == StatusOf(w)
  }

  lemma {:induction false} DriftKeepsStatus(s: Sys, env: seq<EnvStep>)
    ensures SameStatus(s.world, Drift(API, s, env).world)
    decreases |env|
  {
    if env != [] {
      DriftKeepsStatus(s.Become(Move(s.world, env[0])), env[1..]);
    }
  }

  lemma CallKeepsStatus(s: Sys, q: Request)
    requires !q.UpdateStatus?
    ensures SameStatus(s.world, Call(s, q).0.world)
  {
    if s.script != [] {
      DriftKeepsStatus(s.(script := s.script[1..]), s.script[0].env);
    }
  }

  /** A status write leaves the status as it was or makes it the one sent. */
  lemma StatusWrites(s: Sys, m: Restore)
    ensures var w' := Call(s, UpdateStatus(m)).0.world;
            SameStatus(s.world, w') || StatusOf(w') == Some(m.status)
  {
    if s.script != [] {
      DriftKeepsStatus(s.(script := s.script[1..]), s.script[0].env);
    }
  }

  lemma {:induction false} DeleteJobsKeepStatus(s: Sys, m: Restore, i: nat)
    requires i <= |m.status.entries|
    ensures SameStatus(s.world, DeleteJobsFrom(s, m, i).0.world)
    decreases |m.status.entries| - i
  {
    if i < |m.status.entries| {
      if m.status.entries[i].jobName == "" {
        DeleteJobsKeepStatus(s, m, i + 1);
      } else {
        var q := DeleteJob(m.status.entries[i].jobName);
        CallKeepsStatus(s, q);
        var (s', a) := Call(s, q);
        if a.Done? || a.NotFound? {
          DeleteJobsKeepStatus(s', m, i + 1);
        }
      }
    }
  }

  ghost predicate IsCompleted(w: World) {
    w.restore.Some? && w.restore.value.status.phase == Completed
  }

  /** If Completed is persisted, then for exactly these targets. */
  ghost predicate CompletedOnlyFor(w: World, targets: seq<InstanceSpec>) {
    IsCompleted(w) ==> Slots(w.restore.value.status.entries, targets)
  }

  lemma HandleErrorNotCompleted(s: Sys, m: Restore)
    ensures IsCompleted(HandleError(s, m).world) ==> SameStatus(s.world, HandleError(s, m).world)
  {
    StatusWrites(s, m.(status := m.status.(phase := Failed)));
  }

  lemma HandleDeletionKeepsStatus(s: Sys, m: Restore)
    ensures SameStatus(s.world, HandleDeletion(s, m).0.world)
  {
    DeleteJobsKeepStatus(s, m, 0);
    CallKeepsStatus(DeleteJobsFrom(s, m, 0).0, UpdateRestore(m.(finalizer := false)));
  }

  /** Fetch completes nothing, and gets past a Completed restore never. */
  lemma FetchKeepsCompleted(s: Sys)
    ensures var (s', f) := Fetch(s);
            && (IsCompleted(s'.world) || f.Ready? ==> SameStatus(s.world, s'.world))
            && (IsCompleted(s.world) ==> SameStatus(s.world, s'.world) && !f.Ready?)
  {
    var (s1, got) := Call(s, GetRestore);
    CallKeepsStatus(s, GetRestore);
    if got.RestoreIs? {
      var m := got.restore;
      assert s1.world.restore == Some(m);
      if m.deleting {
        HandleDeletionKeepsStatus(s1, m);
      } else if !m.finalizer {
        CallKeepsStatus(s1, UpdateRestore(m.(finalizer := true)));
      } else if m.status.phase != Completed {
        var q2, q3 := GetCluster(m.spec.targetCluster.In(m.namespace)), GetBackup(m.spec.backupRef.In(m.namespace));
        CallKeepsStatus(s1, q2);
        var s2 := Call(s1, q2).0;
        HandleErrorNotCompleted(s2, m);
        CallKeepsStatus(s2, q3);
        HandleErrorNotCompleted(Call(s2, q3).0, m);
      }
    }
  }

  lemma InitCompletesNothing(s: Sys, m: Restore, targets: seq<InstanceSpec>)
    requires m.status.phase != Completed && !IsCompleted(s.world)
    ensures !IsCompleted(InitEntries(s, m, targets).s.world)
  {
    StatusWrites(s, m.(status := m.status.(entries := FreshEntries(m.name, targets))));
  }

  lemma FinishCompletes(s: Sys, m: Restore, targets: seq<InstanceSpec>)
    requires Slots(m.status.entries, targets) && !IsCompleted(s.world)
    ensures CompletedOnlyFor(UpdateRestoreStatus(s, m).s.world, targets)
  {
    StatusWrites(s, WithAggregate(m, s.world.now));
  }

  lemma LoopCompletes(s: Sys, m: Restore, c: PostgresCluster, b: PostgresBackup, targets: seq<InstanceSpec>)
    requires Good(s) && Tracks(m, s.world) && SyncedFrom(m, s.world, 0)
    requires m.status.phase != Completed && Slots(m.status.entries, targets) && !IsCompleted(s.world)
    ensures var v := VisitFrom(s, m, JobsFor(m, c, b, targets), 0);
            CompletedOnlyFor((if v.ok then UpdateRestoreStatus(v.s, v.m) else v).s.world, targets)
  {
    var jobs := JobsFor(m, c, b, targets);
    SlotsFit(m, c, b, targets);
    VisitFromSafe(s, m, jobs, 0);
    var v := VisitFrom(s, m, jobs, 0);
    FinishCompletes(v.s, v.m, targets);
  }

  lemma ReconcileTargetsCompletes(s: Sys, m: Restore, c: PostgresCluster, b: PostgresBackup, targets: seq<InstanceSpec>)
    requires Good(s) && Tracks(m, s.world) && SyncedFrom(m, s.world, 0)
    requires m.status.phase != Completed && Recorded(m.status.entries, targets) && !IsCompleted(s.world)
    ensures CompletedOnlyFor(ReconcileTargets(s, m, c, b, targets).s.world, targets)
  {
    InitSafe(s, m, targets);
    InitCompletesNothing(s, m, targets);
    var p := InitEntries(s, m, targets);
    if p.ok {
      LoopCompletes(p.s, p.m, c, b, targets);
    }
  }

  /** The pass resolves its targets to the recorded instances. */
  ghost predicate PassTargets(s: Sys, entries: seq<Entry>) {
    var f := Fetch(s).1;
    && f.Ready?
    && var targets := Selectors.RestoreTargets(f.cluster.spec.instances, f.m.spec.instances);
       targets.Ok? && Slots(entries, targets.value)
  }

  lemma PassCompletes(s: Sys)
    requires Good(s) && TargetsRecorded(s)
    ensures var w' := Reconcile(s).0.world;
            IsCompleted(w') ==>
              if IsCompleted(s.world) then SameStatus(s.world, w') else PassTargets(s, w'.restore.value.status.entries)
  {
    FetchSafe(s);
    FetchKeepsCompleted(s);
    var (s', f) := Fetch(s);
    if f.Ready? {
      var targets := Selectors.RestoreTargets(f.cluster.spec.instances, f.m.spec.instances);
      if targets.Ok? {
        ReconcileTargetsCompletes(s', f.m, f.cluster, f.backup, targets.value);
      }
      var p := ReconcileRestore(s', f.m, f.cluster, f.backup);
      HandleErrorNotCompleted(p.s, p.m);
    }
  }

  ghost predicate SomePassTargets(s: Sys, scripts: seq<seq<Turn<EnvStep>>>, entries: seq<Entry>)
    decreases |scripts|
  {
    && scripts != []
    && var first := s.(script := scripts[0]);
       PassTargets(first, entries) || SomePassTargets(Reconcile(first).0, scripts[1..], entries)
  }

  lemma {:induction false} RunCompletes(s: Sys, scripts: seq<seq<Turn<EnvStep>>>)
    requires Good(s) && RunRecorded(s, scripts) && IsCompleted(Run(s, scripts).world)
    ensures var entries := Run(s, scripts).world.restore.value.status.entries;
            SomePassTargets(s, scripts, entries) || SameStatus(s.world, Run(s, scripts).world)
    decreases |scripts|
  {
    if scripts != [] {
      var first := s.(script := scripts[0]);
      assert first.Trace() == s.Trace();
      ReconcileSafe(first);
      var next := Reconcile(first).0;
      RunCompletes(next, scripts[1..]);
      PassCompletes(first);
    }
  }

  /**
   A Completed restore has restored its targets: some pass of the run resolved its targets to
   exactly the recorded instances, in order, and the job of each of them has completed.
   */
  lemma CompletedTargets(s: Sys, scripts: seq<seq<Turn<EnvStep>>>)
    requires Fresh(s) && RunRecorded(s, scripts) && IsCompleted(Run(s, scripts).world)
    ensures var w := Run(s, scripts).world;
            && SomePassTargets(s, scripts, w.restore.value.status.entries)
            && forall e | e in w.restore.value.status.entries ::
                 Finished(Naming.RestoreJobName(w.restore.value.name, e.name)) in w.log
  {
    FreshGood(s);
    RecordedIsKept(s, scripts);
    RunCompletes(s, scripts);
    RunSafe(s, scripts);
    var t := Run(s, scripts).Trace();
    assert Inv(t[|t| - 1]);
  }
}
