/**
 When passes may find other targets than their slots record: wherever the condition of RestoreSlots
 fails, some script does break the pass, so that the condition is exact; and what it says in
 terms of the instances' names.
 */
module RestoreExact {
  import opened Wrappers
  import opened ApiServer
  import opened ApiTypes
  import opened RestoreModel
  import opened RestoreJobs
  import RestoreSafety
  import RestoreTheorems
  import opened RestoreProgress
  import opened RestoreScripts
  import opened RestoreSlots
  import Naming
  import Selectors

  // ------------------------------------------------------------------ how it goes wrong

  lemma EnvOfSlot(e: Entry, made: string, fate: Fate)
    ensures OnlyJobs(SlotTurns(e, made, fate))
  {
    var script := SlotTurns(e, made, fate);
    forall i, j | 0 <= i < |script| && 0 <= j < |script[i].env|
      ensures script[i].env[j].JobReports? || script[i].env[j].JobRemoved? || script[i].env[j].JobAppears?
    {
    }
  }

  lemma {:induction false} EnvOfTurns(entries: seq<Entry>, made: seq<string>, fates: seq<Fate>)
    requires |entries| == |made| == |fates|
    ensures OnlyJobs(Turns(entries, made, fates))
  {
    if entries != [] {
      EnvOfTurns(entries[1..], made[1..], fates[1..]);
      EnvOfSlot(entries[0], made[0], fates[0]);
    }
  }

  /** After the script's end no request reaches the server. */
  lemma Dead(s: Sys, q: Request)
    requires s.script == []
    ensures Call(s, q) == (s, Unreachable)
  {
  }

  /** Nothing happens after the write that sizes the slots, if the process dies there. */
  lemma DeadTargets(s: Sys, m: Restore, c: PostgresCluster, b: PostgresBackup, targets: seq<InstanceSpec>)
    requires var p := InitEntries(s, m, targets); p.ok && p.s.script == [] && p.m.status.entries == FreshEntries(m.name, targets)
    ensures After(ReconcileTargets(s, m, c, b, targets)) == InitEntries(s, m, targets).s
  {
    var p := InitEntries(s, m, targets);
    if targets == [] {
      Dead(p.s, UpdateStatus(WithAggregate(p.m, p.s.world.now)));
    } else {
      Dead(p.s, GetJob(p.m.status.entries[0].jobName));
    }
    var v := VisitFrom(p.s, p.m, JobsFor(p.m, c, b, targets), 0);
    assert v.s == p.s;
    Dead(p.s, UpdateStatus(v.m.(status := v.m.status.(phase := Failed))));
    var m' := WithAggregate(v.m, v.s.world.now);
    Dead(p.s, UpdateStatus(m'.(status := m'.status.(phase := Failed))));
  }

  lemma FreshForgets(w: World, w': World, restore: string, targets: seq<InstanceSpec>)
    requires Forgets(w, TargetJobs(restore, targets)) && w'.jobs == w.jobs && w'.restore.Some?
    requires w'.restore.value.status.entries == FreshEntries(restore, targets)
    ensures !Sound(w', TargetJobs(restore, targets))
  {
    var made := TargetJobs(restore, targets);
    var n :| n in w.jobs && w.jobs[n].owned && n !in made;
    forall i | 0 <= i < |targets| ensures FreshEntries(restore, targets)[i].jobName != n {
      assert made[i] in made;
    }
    assert !RestoreSafety.Names(w'.restore.value.status.entries, n);
  }

  lemma ForgetsOnce(s: Sys, m: Restore, c: PostgresCluster, b: PostgresBackup, targets: seq<InstanceSpec>)
    requires s.script == [QUIET] && InStep(m, s.world) && |m.status.entries| != |targets|
    requires Forgets(s.world, TargetJobs(m.name, targets))
    ensures !Sound(After(ReconcileTargets(s, m, c, b, targets)).world, TargetJobs(m.name, targets))
  {
    assert [QUIET] == [QUIET] + [];
    SizesGo(s, m, targets, []);
    DeadTargets(s, m, c, b, targets);
    FreshForgets(s.world, InitEntries(s, m, targets).s.world, m.name, targets);
  }

  lemma ForgetsPass(s: Sys, s': Sys, f: Fetched, targets: seq<InstanceSpec>)
    requires Fetch(s) == (s', f) && f.Ready?
    requires Selectors.RestoreTargets(f.cluster.spec.instances, f.m.spec.instances) == Ok(targets)
    requires s'.script == [QUIET] && InStep(f.m, s'.world) && |f.m.status.entries| != |targets|
    requires Forgets(s'.world, TargetJobs(f.m.name, targets))
    ensures !Sound(Reconcile(s).0.world, TargetJobs(f.m.name, targets))
  {
    AfterFetch(s, s', f.m, f.cluster, f.backup, targets);
    ForgetsOnce(s', f.m, f.cluster, f.backup, targets);
  }

  /** Sizing the slots anew lands, and the process dies: the job forgotten is there. */
  lemma ForgetsBreaks(w: World, targets: seq<InstanceSpec>)
    requires Active(w) && RefsPresent(w) && TargetsIn(w) == Ok(targets) && |w.restore.value.status.entries| != |targets|
    requires Forgets(w, TargetJobs(w.restore.value.name, targets))
    ensures OnlyJobs(FETCH + [QUIET])
    ensures !Sound(Reconcile(Session([], w, FETCH + [QUIET])).0.world, TargetJobs(w.restore.value.name, targets))
  {
    var s := Session([], w, FETCH + [QUIET]);
    FetchGoes(s, [QUIET]);
    ForgetsPass(s, Fetch(s).0, Fetch(s).1, targets);
  }

  /** The last world of a pass is one of its worlds. */
  lemma LastWorld(s: Sys, made: seq<string>)
    requires s.past == [] && !Sound(Reconcile(s).0.world, made)
    ensures !PassSound(s.world, s.script, made)
  {
    var t := Reconcile(s).0.Trace();
    assert Session([], s.world, s.script) == s;
    assert t[|t| - 1] == Reconcile(s).0.world;
  }

  // ------------------------------------------------------------------ a target is skipped

  /** Each open slot that records the job waits for another one; the others for their own. */
  function SkippingFates(entries: seq<Entry>, skipped: string): (fates: seq<Fate>)
    ensures |fates| == |entries|
    ensures forall k | 0 <= k < |entries| :: fates[k] == if entries[k].jobName == skipped then Made else Own
  {
    seq(|entries|, k requires 0 <= k < |entries| => if entries[k].jobName == skipped then Made else Own)
  }

  ghost function OpenFares(entries: seq<Entry>, made: seq<string>, fates: seq<Fate>): set<string>
    requires |entries| == |made| == |fates|
  {
    set k | 0 <= k < |entries| && entries[k].phase != Completed :: Fares(entries[k], made[k], fates[k])
  }

  ghost predicate JobsNamed(r: Restore) {
    forall k | 0 <= k < |r.status.entries| :: r.status.entries[k].jobName != ""
  }

  lemma TargetJobsNamed(restore: string, targets: seq<InstanceSpec>)
    ensures forall i | 0 <= i < |targets| :: TargetJobs(restore, targets)[i] != ""
  {
    forall i | 0 <= i < |targets| ensures |TargetJobs(restore, targets)[i]| > 0 {
    }
  }

  lemma SkippingPossible(entries: seq<Entry>, made: seq<string>, jobs: seq<Result<RestoreJob>>, log: multiset<Event>, i: nat)
    requires Skips(entries, made, jobs, log, i)
    requires forall k | 0 <= k < |entries| :: entries[k].jobName != "" && made[k] != ""
    requires forall k | 0 <= k < |jobs| && jobs[k].Ok? :: jobs[k].value.name == made[k]
    ensures var fates := SkippingFates(entries, made[i]);
            && AllPossible(entries, jobs, made, fates)
            && FareBy(entries, made, fates, OpenFares(entries, made, fates))
            && made[i] !in OpenFares(entries, made, fates)
  {
  }

  function SkippingScript(entries: seq<Entry>, made: seq<string>, job: string): Script
    requires |entries| == |made|
  {
    FETCH + (Turns(entries, made, SkippingFates(entries, job)) + [Turn([], Served)])
  }

  /** A target not finished has been skipped by a restore that is Completed. */
  ghost predicate Skipped(w: World, w': World, job: string) {
    Restored(w') && Finished(job) !in w'.log && (Created(job) !in w.log ==> Created(job) !in w'.log)
  }

  lemma SkippingPass(s: Sys, targets: seq<InstanceSpec>, i: nat)
    requires Active(s.world) && RefsPresent(s.world) && TargetsIn(s.world) == Ok(targets) && JobsNamed(s.world.restore.value)
    requires var r := s.world.restore.value;
             var made := TargetJobs(r.name, targets);
             && Skips(r.status.entries, made, JobsOf(s.world), s.world.log, i)
             && s.script == SkippingScript(r.status.entries, made, made[i])
    ensures var r := s.world.restore.value;
            var fates := SkippingFates(r.status.entries, TargetJobs(r.name, targets)[i]);
            var names := OpenFares(r.status.entries, TargetJobs(r.name, targets), fates);
            && PassWent(s.world, Reconcile(s).0.world, r.status.entries, fates, [], names)
            && TargetJobs(r.name, targets)[i] !in names
  {
    var r := s.world.restore.value;
    var entries, made := r.status.entries, TargetJobs(r.name, targets);
    BuiltJobsNamed(s.world, targets);
    TargetJobsNamed(r.name, targets);
    SkippingPossible(entries, made, JobsOf(s.world), s.world.log, i);
    var fates := SkippingFates(entries, made[i]);
    PassGoes(s, targets, fates, [], OpenFares(entries, made, fates));
  }

  /**
   Each other slot's job completes, the slots that record the job of the target are served by
   jobs made for others, and the pass persists Completed.
   */
  lemma SkipsBreaks(s: Sys, targets: seq<InstanceSpec>, i: nat)
    requires Active(s.world) && RefsPresent(s.world) && TargetsIn(s.world) == Ok(targets) && JobsNamed(s.world.restore.value)
    requires var r := s.world.restore.value;
             var made := TargetJobs(r.name, targets);
             && Skips(r.status.entries, made, JobsOf(s.world), s.world.log, i)
             && s.script == SkippingScript(r.status.entries, made, made[i])
    ensures Skipped(s.world, Reconcile(s).0.world, TargetJobs(s.world.restore.value.name, targets)[i])
  {
    var r := s.world.restore.value;
    var entries, made := r.status.entries, TargetJobs(r.name, targets);
    var fates := SkippingFates(entries, made[i]);
    SkippingPass(s, targets, i);
    SkippedStays(s.world, Reconcile(s).0.world, entries, fates, OpenFares(entries, made, fates), made[i]);
  }

  lemma EnvAppend(a: Script, b: Script)
    requires OnlyJobs(a) && OnlyJobs(b)
    ensures OnlyJobs(a + b)
  {
  }

  lemma SkippingEnv(entries: seq<Entry>, made: seq<string>, job: string)
    requires |entries| == |made|
    ensures OnlyJobs(SkippingScript(entries, made, job))
  {
    var turns := Turns(entries, made, SkippingFates(entries, job));
    EnvOfTurns(entries, made, SkippingFates(entries, job));
    EnvAppend(turns, [Turn([], Served)]);
    EnvAppend(FETCH, turns + [Turn([], Served)]);
  }

  lemma SkippedStays(w: World, w': World, entries: seq<Entry>, fates: seq<Fate>, names: set<string>, job: string)
    requires Active(w) && PassWent(w, w', entries, fates, [], names) && job !in names && Finished(job) !in w.log
    requires forall k | 0 <= k < |fates| :: fates[k] != Started
    ensures Skipped(w, w', job)
  {
    var entries' := w'.restore.value.status.entries;
    forall j | 0 <= j < |fates| ensures entries'[j].phase == Completed {
      assert SlotAfter(entries[j], entries'[j], fates[j]);
    }
    AllCompletedAggregate(entries');
    var v: World :| Touches(w.(restore := v.restore), v, names) && w' == Moved(v, []).(restore := w'.restore);
    assert w'.log == v.log;
  }

  // ------------------------------------------------------------------ a slot strays

  /** The turns in which the slots from `i` up to `k` complete by their own jobs. */
  function OwnTurns(entries: seq<Entry>, made: seq<string>, i: nat, k: nat): Script
    requires i <= k <= |entries| == |made|
    decreases k - i
  {
    if i == k then []
    else
      (if entries[i].phase == Completed then [] else SlotTurns(entries[i], made[i], Own)) + OwnTurns(entries, made, i + 1, k)
  }

  lemma {:induction false} OwnTurnsAlike(entries: seq<Entry>, entries': seq<Entry>, made: seq<string>, i: nat, k: nat)
    requires i <= k <= |entries| == |entries'| == |made| && forall j | i <= j < k :: entries'[j] == entries[j]
    ensures OwnTurns(entries', made, i, k) == OwnTurns(entries, made, i, k)
    decreases k - i
  {
    if i < k {
      OwnTurnsAlike(entries, entries', made, i + 1, k);
    }
  }

  lemma {:induction false} EnvOfOwnTurns(entries: seq<Entry>, made: seq<string>, i: nat, k: nat)
    requires i <= k <= |entries| == |made|
    ensures OnlyJobs(OwnTurns(entries, made, i, k))
    decreases k - i
  {
    if i < k {
      EnvOfOwnTurns(entries, made, i + 1, k);
      EnvOfSlot(entries[i], made[i], Own);
    }
  }

  /** One slot completes by its own job, or is Completed already. */
  lemma PrefixSlot(s: Sys, m: Restore, job: Result<RestoreJob>, i: nat, made: string, rest: Script)
    requires i < |m.status.entries| && m.status.entries[i].jobName != ""
    requires s.script == (if m.status.entries[i].phase == Completed then [] else SlotTurns(m.status.entries[i], made, Own)) + rest
    ensures var p := Visit(s, m, job, i);
            && p.ok && p.s.script == rest && p.s.world.restore == s.world.restore
            && |p.m.status.entries| == |m.status.entries|
            && forall j | 0 <= j < |m.status.entries| ::
                 p.m.status.entries[j].jobName == m.status.entries[j].jobName
                 && (j != i ==> p.m.status.entries[j] == m.status.entries[j])
  {
    if m.status.entries[i].phase == Completed {
      assert s.script == rest;
    } else {
      OwnGoes(s, m, job, i, made, rest);
    }
  }

  ghost predicate AllNamed(entries: seq<Entry>) {
    forall j | 0 <= j < |entries| :: entries[j].jobName != ""
  }

  /** What a prefix of slots has left: names, the slots from `i` on, and the persisted restore. */
  ghost predicate Ahead(s: Sys, m: Restore, s': Sys, m': Restore, i: nat) {
    && s'.world.restore == s.world.restore && |m'.status.entries| == |m.status.entries| && AllNamed(m'.status.entries)
    && forall j | i <= j < |m.status.entries| :: m'.status.entries[j] == m.status.entries[j]
  }

  lemma PrefixStep(s: Sys, m: Restore, job: Result<RestoreJob>, made: seq<string>, i: nat, k: nat, tail: Script)
    requires i < k <= |m.status.entries| == |made| && AllNamed(m.status.entries)
    requires s.script == OwnTurns(m.status.entries, made, i, k) + tail
    ensures var p := Visit(s, m, job, i);
            p.ok && Ahead(s, m, p.s, p.m, i + 1) && p.s.script == OwnTurns(p.m.status.entries, made, i + 1, k) + tail
  {
    var head := if m.status.entries[i].phase == Completed then [] else SlotTurns(m.status.entries[i], made[i], Own);
    var later := OwnTurns(m.status.entries, made, i + 1, k);
    Associate(head, later, tail);
    PrefixSlot(s, m, job, i, made[i], later + tail);
    OwnTurnsAlike(m.status.entries, Visit(s, m, job, i).m.status.entries, made, i + 1, k);
  }

  /** The slots before `k` complete by their own jobs; then what remains of the script is left. */
  lemma {:induction false} PrefixGoes(s: Sys, m: Restore, jobs: seq<Result<RestoreJob>>, made: seq<string>, i: nat, k: nat, tail: Script)
    returns (s': Sys, m': Restore)
    requires |jobs| == |made| == |m.status.entries| && i <= k < |jobs| && AllNamed(m.status.entries)
    requires s.script == OwnTurns(m.status.entries, made, i, k) + tail
    ensures |m'.status.entries| == |jobs| && VisitFrom(s, m, jobs, i) == VisitFrom(s', m', jobs, k)
    ensures Ahead(s, m, s', m', k) && s'.script == tail
    decreases k - i
  {
    if i == k {
      assert s.script == tail;
      s', m' := s, m;
    } else {
      PrefixStep(s, m, jobs[i], made, i, k, tail);
      var p := Visit(s, m, jobs[i], i);
      s', m' := PrefixGoes(p.s, p.m, jobs, made, i + 1, k, tail);
    }
  }

  function StrayTail(e: Entry, made: string): Script {
    [Turn([JobRemoved(e.jobName), JobRemoved(made)], Served), QUIET]
  }

  function StrayingScript(entries: seq<Entry>, made: seq<string>, k: nat): Script
    requires k < |entries| == |made|
  {
    FETCH + (OwnTurns(entries, made, 0, k) + StrayTail(entries[k], made[k]))
  }

  /** The loop creates the job of slot `k`'s target, and the process dies. */
  lemma StrayingLoop(s: Sys, m: Restore, jobs: seq<Result<RestoreJob>>, made: seq<string>, k: nat)
    requires k < |jobs| == |made| == |m.status.entries| && jobs[k].Ok? && jobs[k].value.name == made[k]
    requires m.status.entries[k].phase != Completed
    requires AllNamed(m.status.entries) && made[k] != ""
    requires s.script == OwnTurns(m.status.entries, made, 0, k) + StrayTail(m.status.entries[k], made[k])
    ensures var v := VisitFrom(s, m, jobs, 0);
            && !v.ok && v.s.script == [] && v.s.world.restore == s.world.restore
            && made[k] in v.s.world.jobs && v.s.world.jobs[made[k]].owned
  {
    var tail := StrayTail(m.status.entries[k], made[k]);
    var s1, m1 := PrefixGoes(s, m, jobs, made, 0, k, tail);
    assert tail == tail + [];
    var s2 := Creates(s1, m1, jobs[k].value, k, []);
    Dead(s2, GetJob(made[k]));
  }

  lemma StrayingEnv(entries: seq<Entry>, made: seq<string>, k: nat)
    requires k < |entries| == |made|
    ensures OnlyJobs(StrayingScript(entries, made, k))
  {
    var turns := OwnTurns(entries, made, 0, k);
    EnvOfOwnTurns(entries, made, 0, k);
    EnvOfSlot(entries[k], made[k], Started);
    EnvAppend(turns, StrayTail(entries[k], made[k]));
    EnvAppend(FETCH, turns + StrayTail(entries[k], made[k]));
  }

  /** So the persisted slots do not record a job the operator has created. */
  lemma StraysBreaks(s: Sys, targets: seq<InstanceSpec>, k: nat)
    requires Active(s.world) && RefsPresent(s.world) && TargetsIn(s.world) == Ok(targets) && JobsNamed(s.world.restore.value)
    requires var r := s.world.restore.value;
             var made := TargetJobs(r.name, targets);
             && Strays(r.status.entries, made, JobsOf(s.world), k)
             && s.script == StrayingScript(r.status.entries, made, k)
    ensures var w := Reconcile(s).0.world;
            var job := TargetJobs(s.world.restore.value.name, targets)[k];
            w.restore == s.world.restore && job in w.jobs && w.jobs[job].owned
  {
    var w, r := s.world, s.world.restore.value;
    var entries, made := r.status.entries, TargetJobs(r.name, targets);
    var rest := OwnTurns(entries, made, 0, k) + StrayTail(entries[k], made[k]);
    FetchGoes(s, rest);
    var s', m := Fetch(s).0, SetDefaults(r);
    BuiltJobsNamed(w, targets);
    TargetJobsNamed(r.name, targets);
    StrayingLoop(s', m, JobsOf(w), made, k);
    StrayedPass(s, s', m, w.clusters[ClusterKey(w)], w.backups[BackupKey(w)], targets);
  }

  /** A pass whose loop ends with the process. */
  lemma StrayedPass(s: Sys, s': Sys, m: Restore, c: PostgresCluster, b: PostgresBackup, targets: seq<InstanceSpec>)
    requires Fetch(s) == (s', Ready(m, c, b)) && Selectors.RestoreTargets(c.spec.instances, m.spec.instances) == Ok(targets)
    requires |m.status.entries| == |targets|
    requires var v := VisitFrom(s', m, JobsFor(m, c, b, targets), 0); !v.ok && v.s.script == []
    ensures Reconcile(s).0 == VisitFrom(s', m, JobsFor(m, c, b, targets), 0).s
  {
    var v := VisitFrom(s', m, JobsFor(m, c, b, targets), 0);
    AfterFetch(s, s', m, c, b, targets);
    Dead(v.s, UpdateStatus(v.m.(status := v.m.status.(phase := Failed))));
  }

  // ------------------------------------------------------------------ exactly then

  lemma WellNamedJobs(r: Restore)
    requires RestoreSafety.WellNamed(r)
    ensures JobsNamed(r)
  {
    forall k | 0 <= k < |r.status.entries| ensures |r.status.entries[k].jobName| > 0 {
    }
  }

  /** Where the condition fails, some script breaks the pass. */
  lemma SomeScriptBreaks(w: World, targets: seq<InstanceSpec>) returns (script: Script)
    requires RestoreSafety.Inv(w) && Active(w) && RefsPresent(w) && TargetsIn(w) == Ok(targets) && Breaks(w, targets)
    ensures OnlyJobs(script) && !PassSound(w, script, TargetJobs(w.restore.value.name, targets))
  {
    var r := w.restore.value;
    var entries, made := r.status.entries, TargetJobs(r.name, targets);
    WellNamedJobs(r);
    if |entries| != |targets| {
      script := FETCH + [QUIET];
      ForgetsBreaks(w, targets);
      LastWorld(Session([], w, script), made);
    } else if k: nat :| Strays(entries, made, JobsOf(w), k) {
      script := StrayingScript(entries, made, k);
      StrayingEnv(entries, made, k);
      StraysBreaks(Session([], w, script), targets, k);
      LastWorld(Session([], w, script), made);
    } else {
      var i: nat :| Skips(entries, made, JobsOf(w), w.log, i);
      script := SkippingScript(entries, made, made[i]);
      SkippingEnv(entries, made, made[i]);
      SkipsBreaks(Session([], w, script), targets, i);
      LastWorld(Session([], w, script), made);
    }
  }

  /**
   The exact condition. In every world that keeps the invariant, so in every one a kept run can
   reach, and for whatever targets the pass then finds,
   all scripts keep the bookkeeping right if and only if: the slots are as many as the targets,
   every open slot's target is recorded by some slot (or its job cannot be built), and each
   target has finished or waits for its own slot; or, where the slots are sized anew, no job of
   the operator is left out.
   */
  lemma SlotsExact(w: World, targets: seq<InstanceSpec>)
    requires RestoreSafety.Inv(w) && Active(w) && RefsPresent(w) && TargetsIn(w) == Ok(targets)
    ensures (forall script | OnlyJobs(script) :: PassSound(w, script, TargetJobs(w.restore.value.name, targets)))
       <==> !Breaks(w, targets)
  {
    if Breaks(w, targets) {
      var script := SomeScriptBreaks(w, targets);
    } else {
      forall script | OnlyJobs(script) ensures PassSound(w, script, TargetJobs(w.restore.value.name, targets)) {
        WholeSound(w, targets, script);
      }
    }
  }

  // ------------------------------------------------------------------ the condition by names

  ghost predicate Listed(entries: seq<Entry>, name: string) {
    exists j :: 0 <= j < |entries| && entries[j].name == name
  }

  lemma ListedIsRecorded(r: Restore, targets: seq<InstanceSpec>, k: nat)
    requires RestoreSafety.WellNamed(r) && k < |targets|
    ensures Listed(r.status.entries, targets[k].name)
       <==> RestoreSafety.Names(r.status.entries, TargetJobs(r.name, targets)[k])
  {
    var entries, made := r.status.entries, TargetJobs(r.name, targets);
    if RestoreSafety.Names(entries, made[k]) {
      var j :| 0 <= j < |entries| && entries[j].jobName == made[k];
      Naming.RestoreJobNameInjective(r.name, entries[j].name, targets[k].name);
    }
    if Listed(entries, targets[k].name) {
      var j :| 0 <= j < |entries| && entries[j].name == targets[k].name;
      assert entries[j].jobName == made[k];
    }
  }

  /** A target that no slot lists breaks the pass, unless its job has finished and cannot be made. */
  lemma UnlistedBreaks(w: World, targets: seq<InstanceSpec>, k: nat)
    requires RestoreSafety.Inv(w) && Active(w) && RefsPresent(w) && TargetsIn(w) == Ok(targets)
    requires var r := w.restore.value;
             && |r.status.entries| == |targets| && k < |targets| && !Listed(r.status.entries, targets[k].name)
             && (Finished(TargetJobs(r.name, targets)[k]) !in w.log
                 || (r.status.entries[k].phase != Completed && JobsOf(w)[k].Ok?))
    ensures Breaks(w, targets)
  {
    var r := w.restore.value;
    var entries, made := r.status.entries, TargetJobs(r.name, targets);
    ListedIsRecorded(r, targets, k);
    if Finished(made[k]) !in w.log {
      assert Skips(entries, made, JobsOf(w), w.log, k);
    } else {
      assert Strays(entries, made, JobsOf(w), k);
    }
  }

  /** So does an open slot that is worked on for another target while its own has not finished. */
  lemma MisplacedBreaks(w: World, targets: seq<InstanceSpec>, k: nat, i: nat)
    requires RestoreSafety.Inv(w) && Active(w) && RefsPresent(w) && TargetsIn(w) == Ok(targets)
    requires var r := w.restore.value;
             && |r.status.entries| == |targets| && k < |targets| && i < |targets| && RestoreTheorems.DistinctNames(r.status.entries)
             && r.status.entries[k].phase != Completed && JobsOf(w)[k].Ok?
             && r.status.entries[k].name == targets[i].name != targets[k].name
             && Finished(TargetJobs(r.name, targets)[i]) !in w.log
    ensures Breaks(w, targets)
  {
    var r := w.restore.value;
    var entries, made := r.status.entries, TargetJobs(r.name, targets);
    forall j | 0 <= j < |entries| && entries[j].jobName == made[i] ensures j == k {
      Naming.RestoreJobNameInjective(r.name, entries[j].name, targets[i].name);
    }
    Naming.RestoreJobNameInjective(r.name, targets[k].name, targets[i].name);
    assert Skips(entries, made, JobsOf(w), w.log, i);
  }

  /**
   But a mismatch as such does not: if each target is in its own slot or listed by a Completed
   one, in whatever order, no script breaks the pass.
   */
  lemma SettledMismatchIsSound(w: World, targets: seq<InstanceSpec>)
    requires RestoreSafety.Inv(w) && Active(w) && RefsPresent(w) && TargetsIn(w) == Ok(targets)
    requires var entries := w.restore.value.status.entries;
             && |entries| == |targets|
             && forall i | 0 <= i < |targets| ::
                  || entries[i].name == targets[i].name
                  || exists j :: 0 <= j < |entries| && entries[j].phase == Completed && entries[j].name == targets[i].name
    ensures !Breaks(w, targets)
  {
    var r := w.restore.value;
    var entries, made := r.status.entries, TargetJobs(r.name, targets);
    forall k: nat ensures !Strays(entries, made, JobsOf(w), k) {
      if k < |targets| {
        ListedIsRecorded(r, targets, k);
      }
    }
    forall i: nat ensures !Skips(entries, made, JobsOf(w), w.log, i) {
      if i < |targets| && entries[i].name != targets[i].name {
        var j :| 0 <= j < |entries| && entries[j].phase == Completed && entries[j].name == targets[i].name;
        assert entries[j].jobName == made[i];
      } else if i < |targets| {
        assert entries[i].jobName == made[i];
      }
    }
  }

  /** In particular where the targets are the recorded ones, or none is recorded yet. */
  lemma KeptIsSound(w: World, targets: seq<InstanceSpec>)
    requires RestoreSafety.Inv(w) && Active(w) && RefsPresent(w) && TargetsIn(w) == Ok(targets)
    requires RestoreSafety.Recorded(w.restore.value.status.entries, targets)
    ensures !Breaks(w, targets)
  {
    if |w.restore.value.status.entries| == |targets| {
      SettledMismatchIsSound(w, targets);
    } else {
      assert RestoreSafety.Covered(w, []);
    }
  }

  // ------------------------------------------------------------------ the invariant of kept runs

  lemma MisledPossible(entries: seq<Entry>, made: seq<string>, jobs: seq<Result<RestoreJob>>, k: nat)
    requires k < |entries| == |made| == |jobs| && jobs[k].Ok? && made[k] != entries[k].jobName
    requires forall j | 0 <= j < |entries| && j != k :: entries[j].jobName != entries[k].jobName
    requires forall j | 0 <= j < |entries| :: entries[j].jobName != "" && made[j] != ""
    requires jobs[k].value.name == made[k]
    ensures var fates := SkippingFates(entries, entries[k].jobName);
            && AllPossible(entries, jobs, made, fates)
            && FareBy(entries, made, fates, OpenFares(entries, made, fates))
            && entries[k].jobName !in OpenFares(entries, made, fates)
  {
  }

  /** In every slot but one the recorded job completes; that one is served by its target's job. */
  lemma MisledPass(s: Sys, targets: seq<InstanceSpec>, k: nat)
    requires Active(s.world) && RefsPresent(s.world) && TargetsIn(s.world) == Ok(targets) && JobsNamed(s.world.restore.value)
    requires var r := s.world.restore.value;
             var entries, made := r.status.entries, TargetJobs(r.name, targets);
             && k < |entries| == |targets| && JobsOf(s.world)[k].Ok? && made[k] != entries[k].jobName
             && (forall j | 0 <= j < |entries| && j != k :: entries[j].jobName != entries[k].jobName)
             && s.script == SkippingScript(entries, made, entries[k].jobName)
    ensures var r := s.world.restore.value;
            var entries, made := r.status.entries, TargetJobs(r.name, targets);
            var fates := SkippingFates(entries, entries[k].jobName);
            && PassWent(s.world, Reconcile(s).0.world, entries, fates, [], OpenFares(entries, made, fates))
            && entries[k].jobName !in OpenFares(entries, made, fates)
  {
    var r := s.world.restore.value;
    var entries, made := r.status.entries, TargetJobs(r.name, targets);
    BuiltJobsNamed(s.world, targets);
    TargetJobsNamed(r.name, targets);
    MisledPossible(entries, made, JobsOf(s.world), k);
    var fates := SkippingFates(entries, entries[k].jobName);
    PassGoes(s, targets, fates, [], OpenFares(entries, made, fates));
  }

  lemma MisledUnwitnessed(w: World, w': World, entries: seq<Entry>, fates: seq<Fate>, names: set<string>, k: nat)
    requires PassWent(w, w', entries, fates, [], names) && k < |entries| && fates[k] == Made
    requires entries[k].jobName !in names && Finished(entries[k].jobName) !in w.log
    ensures !RestoreSafety.Inv(w')
  {
    var entries' := w'.restore.value.status.entries;
    assert SlotAfter(entries[k], entries'[k], fates[k]);
    var v: World :| Touches(w.(restore := v.restore), v, names) && w' == Moved(v, []).(restore := w'.restore);
    assert w'.log == v.log;
    assert entries'[k].phase == Completed && Finished(entries'[k].jobName) !in w'.log;
  }

  /**
   The premise of the run theorems is what keeps their invariant, not the condition above: whatever
   the other slots say, an open slot that is worked on for another instance while its own has not
   finished may end up Completed without its job having completed.
   */
  lemma MisledLosesInv(w: World, targets: seq<InstanceSpec>, k: nat) returns (script: Script)
    requires RestoreSafety.Inv(w) && Active(w) && RefsPresent(w) && TargetsIn(w) == Ok(targets)
    requires var r := w.restore.value;
             && k < |r.status.entries| == |targets| && RestoreTheorems.DistinctNames(r.status.entries)
             && r.status.entries[k].phase != Completed && JobsOf(w)[k].Ok? && r.status.entries[k].name != targets[k].name
             && Finished(r.status.entries[k].jobName) !in w.log
    ensures OnlyJobs(script) && !RestoreSafety.Inv(Reconcile(Session([], w, script)).0.world)
  {
    var r := w.restore.value;
    var entries, made := r.status.entries, TargetJobs(r.name, targets);
    WellNamedJobs(r);
    forall j | 0 <= j < |entries| && j != k ensures entries[j].jobName != entries[k].jobName {
      Naming.RestoreJobNameInjective(r.name, entries[j].name, entries[k].name);
    }
    Naming.RestoreJobNameInjective(r.name, targets[k].name, entries[k].name);
    script := SkippingScript(entries, made, entries[k].jobName);
    SkippingEnv(entries, made, entries[k].jobName);
    var s := Session([], w, script);
    MisledPass(s, targets, k);
    var fates := SkippingFates(entries, entries[k].jobName);
    MisledUnwitnessed(w, Reconcile(s).0.world, entries, fates, OpenFares(entries, made, fates), k);
  }
}
