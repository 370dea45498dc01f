/**
 Runs from fresh restores in which reused slots do harm.
 */
module RestoreReuse {
  import opened Wrappers
  import opened ApiServer
  import opened ApiTypes
  import opened RestoreModel
  import opened RestoreJobs
  import RestoreSafety
  import RestoreTheorems
  import RestoreSteady
  import opened RestoreProgress
  import opened RestoreScripts
  import opened RestoreSlots
  import opened RestoreExact
  import Naming
  import BackupText
  import BackupAgreement

  // ------------------------------------------------------------------ runs that get there

  /** The world with other instances in the restore's cluster. */
  ghost function Edited(w: World, c: PostgresCluster): World
    requires w.restore.Some?
  {
    w.(clusters := w.clusters[ClusterKey(w) := c])
  }

  /** A restore whose jobs can be built, and an edit of its cluster that exchanges targets one for one. */
  ghost predicate Exchanged(w: World, targets: seq<InstanceSpec>, c: PostgresCluster, targets': seq<InstanceSpec>) {
    && RefsPresent(w) && TargetsIn(w) == Ok(targets) && AllBuild(w)
    && TargetsIn(Edited(w, c)) == Ok(targets') && |targets'| == |targets|
  }

  /** What the second pass leaves: slots of the old targets, some open, and the new targets in the cluster. */
  ghost predicate Halfway(w: World, w': World, targets: seq<InstanceSpec>, fates: seq<Fate>, c: PostgresCluster) {
    && Active(w') && w.restore.Some?
    && w'.restore.value == w.restore.value.(status := w'.restore.value.status, version := w'.restore.value.version)
    && w'.clusters == Edited(w, c).clusters && w'.backups == w.backups
    && var entries := w'.restore.value.status.entries;
       && |entries| == |targets| == |fates|
       && forall j | 0 <= j < |targets| :: SlotAfter(FreshEntries(w.restore.value.name, targets)[j], entries[j], fates[j])
  }

  ghost predicate OnlyTouched(w: World, names: set<string>) {
    forall n | n !in names :: Finished(n) !in w.log && Created(n) !in w.log
  }

  lemma SecondPass(s: Sys, targets: seq<InstanceSpec>, fates: seq<Fate>, c: PostgresCluster, open: nat)
    requires Active(s.world) && RefsPresent(s.world) && TargetsIn(s.world) == Ok(targets) && AllBuild(s.world)
    requires s.world.restore.value.status.entries == [] && s.world.log == multiset{}
    requires |fates| == |targets| && open < |fates| && fates[open] == Started
    requires s.script == SizingScript(s.world.restore.value.name, targets, fates, [ClusterSet(ClusterKey(s.world), c)])
    ensures var w := Reconcile(s).0.world;
            Halfway(s.world, w, targets, fates, c) && OnlyTouched(w, NameSet(TargetJobs(s.world.restore.value.name, targets)))
  {
    var w := s.world;
    var env := [ClusterSet(ClusterKey(w), c)];
    assert env[0] == ClusterSet(ClusterKey(w), c);
    FirstPassGoes(s, targets, fates, env);
    WentHalfway(w, Reconcile(s).0.world, targets, fates, c, open);
  }

  lemma OpenNotCompleted(entries: seq<Entry>, open: nat)
    requires open < |entries| && entries[open].phase == Running
    ensures Aggregate(entries) != Completed
  {
    RestoreSafety.TallyBounds(entries, Completed);
  }

  lemma TouchedFromNothing(w: World, v: World, names: set<string>)
    requires Touches(w, v, names) && w.log == multiset{}
    ensures OnlyTouched(v, names)
  {
  }

  lemma EditMoves(v: World, w': World, key: Key, c: PostgresCluster)
    requires w' == Moved(v, [ClusterSet(key, c)]).(restore := w'.restore)
    ensures w' == v.(clusters := v.clusters[key := c], restore := w'.restore)
  {
    MovedTwo(v, ClusterSet(key, c), ClusterSet(key, c));
  }

  lemma TouchedEdited(w: World, v: World, w': World, key: Key, c: PostgresCluster, names: set<string>)
    requires Touches(w.(restore := v.restore), v, names) && w.log == multiset{}
    requires w' == v.(clusters := v.clusters[key := c], restore := w'.restore)
    ensures OnlyTouched(w', names) && w'.clusters == w.clusters[key := c] && w'.backups == w.backups
  {
    TouchedFromNothing(w.(restore := v.restore), v, names);
  }

  lemma WentEdited(w: World, w': World, entries: seq<Entry>, fates: seq<Fate>, key: Key, c: PostgresCluster, names: set<string>)
    requires PassWent(w, w', entries, fates, [ClusterSet(key, c)], names) && w.log == multiset{}
    ensures OnlyTouched(w', names) && w'.clusters == w.clusters[key := c] && w'.backups == w.backups
  {
    var r' := w'.restore;
    var v: World :| Touches(w.(restore := v.restore), v, names) && w' == Moved(v, [ClusterSet(key, c)]).(restore := r');
    EditMoves(v, w', key, c);
    TouchedEdited(w, v, w', key, c, names);
  }

  lemma WentOpen(w: World, w': World, entries: seq<Entry>, fates: seq<Fate>, env: seq<EnvStep>, names: set<string>, open: nat)
    requires Active(w) && PassWent(w, w', entries, fates, env, names)
    requires open < |fates| && fates[open] == Started && entries[open].phase != Completed
    ensures Active(w')
  {
    var entries' := w'.restore.value.status.entries;
    assert SlotAfter(entries[open], entries'[open], fates[open]);
    OpenNotCompleted(entries', open);
  }

  lemma WentHalfway(w: World, w': World, targets: seq<InstanceSpec>, fates: seq<Fate>, c: PostgresCluster, open: nat)
    requires Active(w) && w.log == multiset{} && |fates| == |targets| && open < |fates| && fates[open] == Started
    requires var r := w.restore.value;
             PassWent(w, w', FreshEntries(r.name, targets), fates, [ClusterSet(ClusterKey(w), c)], NameSet(TargetJobs(r.name, targets)))
    ensures Halfway(w, w', targets, fates, c) && OnlyTouched(w', NameSet(TargetJobs(w.restore.value.name, targets)))
  {
    var entries, names := FreshEntries(w.restore.value.name, targets), NameSet(TargetJobs(w.restore.value.name, targets));
    WentEdited(w, w', entries, fates, ClusterKey(w), c, names);
    WentOpen(w, w', entries, fates, [ClusterSet(ClusterKey(w), c)], names, open);
  }

  lemma {:induction false} ThreePasses(s: Sys, a: Script, b: Script, c: Script)
    ensures Run(s, [a, b, c]) == Reconcile(Run(s, [a, b]).(script := c)).0
  {
    var s1 := Reconcile(s.(script := a)).0;
    RestoreSteady.TwoPasses(s, a, b);
    RestoreSteady.TwoPasses(s1, b, c);
    assert [a, b, c][1..] == [b, c];
  }

  /** From a fresh restore the first two passes get halfway. */
  lemma RunHalfway(s: Sys, targets: seq<InstanceSpec>, fates: seq<Fate>, c: PostgresCluster, targets': seq<InstanceSpec>, open: nat)
    returns (scripts: seq<Script>)
    requires RestoreTheorems.Fresh(s) && Exchanged(s.world, targets, c, targets')
    requires |fates| == |targets| && open < |fates| && fates[open] == Started
    ensures |scripts| == 2
    ensures var w := Run(s, scripts).world;
            Halfway(s.world.(restore := Some(s.world.restore.value.(finalizer := true))), w, targets, fates, c)
            && OnlyTouched(w, NameSet(TargetJobs(s.world.restore.value.name, targets)))
  {
    var a := [QUIET, QUIET];
    var b := SizingScript(s.world.restore.value.name, targets, fates, [ClusterSet(ClusterKey(s.world), c)]);
    scripts := [a, b];
    RestoreSteady.TwoPasses(s, a, b);
    RestoreSteady.FreshThenActive(s);
    SecondPass(Reconcile(s.(script := a)).0.(script := b), targets, fates, c, open);
  }

  /** Halfway, the pass to come finds the new targets. */
  lemma HalfwayReady(w: World, w': World, targets: seq<InstanceSpec>, fates: seq<Fate>, c: PostgresCluster, targets': seq<InstanceSpec>)
    requires Exchanged(w, targets, c, targets')
    requires Halfway(w.(restore := Some(w.restore.value.(finalizer := true))), w', targets, fates, c)
    ensures RefsPresent(w') && TargetsIn(w') == Ok(targets') && JobsOf(w') == JobsOf(Edited(w, c))
    ensures w'.restore.value.name == w.restore.value.name && JobsNamed(w'.restore.value)
  {
    var entries, sized := w'.restore.value.status.entries, FreshEntries(w.restore.value.name, targets);
    TargetJobsNamed(w.restore.value.name, targets);
    forall j | 0 <= j < |entries| ensures entries[j].jobName != "" {
      assert SlotAfter(sized[j], entries[j], fates[j]);
      assert sized[j].jobName == TargetJobs(w.restore.value.name, targets)[j];
    }
  }

  /** A target that was not one of the old ones is recorded by no slot, and has no history. */
  lemma NewTarget(w: World, w': World, targets: seq<InstanceSpec>, fates: seq<Fate>, c: PostgresCluster, name: string)
    requires w.restore.Some? && Halfway(w, w', targets, fates, c)
    requires OnlyTouched(w', NameSet(TargetJobs(w.restore.value.name, targets)))
    requires forall j | 0 <= j < |targets| :: targets[j].name != name
    ensures var job := Naming.RestoreJobName(w.restore.value.name, name);
            && !RestoreSafety.Names(w'.restore.value.status.entries, job)
            && Finished(job) !in w'.log && Created(job) !in w'.log
  {
    var r := w.restore.value;
    var job, made := Naming.RestoreJobName(r.name, name), TargetJobs(r.name, targets);
    forall j | 0 <= j < |targets| ensures made[j] != job {
      Naming.RestoreJobNameInjective(r.name, targets[j].name, name);
    }
    forall j | 0 <= j < |targets| ensures w'.restore.value.status.entries[j].jobName != job {
      assert SlotAfter(FreshEntries(r.name, targets)[j], w'.restore.value.status.entries[j], fates[j]);
    }
  }

  /** All slots go on running, but for the given one, which completes. */
  function OneDone(n: nat, k: nat): (fates: seq<Fate>)
    ensures |fates| == n && forall i | 0 <= i < n :: fates[i] == if i == k then Made else Started
  {
    seq(n, i => if i == k then Made else Started)
  }

  ghost predicate NewAt(targets: seq<InstanceSpec>, targets': seq<InstanceSpec>, k: nat) {
    k < |targets'| && forall j | 0 <= j < |targets| :: targets[j].name != targets'[k].name
  }

  /** Two passes of a run from a fresh restore, after which slot `k`, open or Completed, faces a new target. */
  lemma FacesNew(s: Sys, targets: seq<InstanceSpec>, c: PostgresCluster, targets': seq<InstanceSpec>, k: nat, done: nat, open: nat)
    returns (scripts: seq<Script>)
    requires RestoreTheorems.Fresh(s) && Exchanged(s.world, targets, c, targets') && NewAt(targets, targets', k)
    requires open < |targets| && open != done
    ensures |scripts| == 2
    ensures var w, r := Run(s, scripts).world, s.world.restore.value;
            && Active(w) && RefsPresent(w) && TargetsIn(w) == Ok(targets') && JobsOf(w) == JobsOf(Edited(s.world, c))
            && w.restore.value.name == r.name && JobsNamed(w.restore.value)
            && |w.restore.value.status.entries| == |targets'|
            && (forall j | 0 <= j < |targets| ::
                  w.restore.value.status.entries[j].name == targets[j].name
                  && w.restore.value.status.entries[j].phase == if j == done then Completed else Running)
            && var job := TargetJobs(r.name, targets')[k];
               && !RestoreSafety.Names(w.restore.value.status.entries, job)
               && Finished(job) !in w.log && Created(job) !in w.log
  {
    var fates := OneDone(|targets|, done);
    scripts := RunHalfway(s, targets, fates, c, targets', open);
    var w, w0 := Run(s, scripts).world, s.world.(restore := Some(s.world.restore.value.(finalizer := true)));
    HalfwayReady(s.world, w, targets, fates, c, targets');
    NewTarget(w0, w, targets, fates, c, targets'[k].name);
    forall j | 0 <= j < |targets|
      ensures w.restore.value.status.entries[j].name == targets[j].name
      ensures w.restore.value.status.entries[j].phase == if j == done then Completed else Running
    {
      assert SlotAfter(FreshEntries(s.world.restore.value.name, targets)[j], w.restore.value.status.entries[j], fates[j]);
    }
  }

  lemma OnePassMore(s: Sys, scripts: seq<Script>, last: Script)
    requires |scripts| == 2
    ensures Run(s, scripts + [last]) == Reconcile(Run(s, scripts).(script := last)).0
  {
    assert scripts == [scripts[0], scripts[1]] && scripts + [last] == [scripts[0], scripts[1], last];
    ThreePasses(s, scripts[0], scripts[1], last);
  }

  /**
   Slots are reused by position: from every fresh restore of two instances or more there is a
   run in which its cluster is edited while slot `k` is Completed and another is open, so that
   the restore ends up Completed for targets one of which has never had a job.
   */
  lemma ReusedSlotHidesTarget(s: Sys, targets: seq<InstanceSpec>, c: PostgresCluster, targets': seq<InstanceSpec>, k: nat, open: nat)
    returns (scripts: seq<Script>)
    requires RestoreTheorems.Fresh(s) && Exchanged(s.world, targets, c, targets') && NewAt(targets, targets', k)
    requires open < |targets| && open != k
    ensures var w := Run(s, scripts).world;
            var job := Naming.RestoreJobName(s.world.restore.value.name, targets'[k].name);
            Restored(w) && Finished(job) !in w.log && Created(job) !in w.log
  {
    var two := FacesNew(s, targets, c, targets', k, k, open);
    var w := Run(s, two).world;
    var entries, made := w.restore.value.status.entries, TargetJobs(w.restore.value.name, targets');
    assert Skips(entries, made, JobsOf(w), w.log, k);
    var last := SkippingScript(entries, made, made[k]);
    OnePassMore(s, two, last);
    SkipsBreaks(Run(s, two).(script := last), targets', k);
    scripts := two + [last];
  }

  /**
   And if the new target's job can be built, a run in which the operator creates it while no slot
   records it; deletion, which follows the records, will not find it.
   */
  lemma ReusedSlotOrphansJob(s: Sys, targets: seq<InstanceSpec>, c: PostgresCluster, targets': seq<InstanceSpec>, k: nat)
    returns (scripts: seq<Script>)
    requires RestoreTheorems.Fresh(s) && Exchanged(s.world, targets, c, targets') && NewAt(targets, targets', k)
    requires JobsOf(Edited(s.world, c))[k].Ok?
    ensures var w := Run(s, scripts).world;
            var job := Naming.RestoreJobName(s.world.restore.value.name, targets'[k].name);
            && job in w.jobs && w.jobs[job].owned
            && w.restore.Some? && !RestoreSafety.Names(w.restore.value.status.entries, job)
  {
    var two := FacesNew(s, targets, c, targets', k, |targets|, k);
    var w := Run(s, two).world;
    var entries, made := w.restore.value.status.entries, TargetJobs(w.restore.value.name, targets');
    assert Strays(entries, made, JobsOf(w), k);
    var last := StrayingScript(entries, made, k);
    OnePassMore(s, two, last);
    StraysBreaks(Run(s, two).(script := last), targets', k);
    scripts := two + [last];
  }

  // ------------------------------------------------------------------ such restores exist

  /** A dump on a local claim can be restored into every instance. */
  lemma LocalDumpBuilds(restore: string, o: RestoreOptions, c: PostgresCluster, b: PostgresBackup, target: InstanceSpec)
    requires BackupText.NormalizeBackupType(b.spec.kind) == "logical"
    requires b.spec.storage.kind == "local" && Lookup(b.spec.storage.config, "pvcName") != ""
    ensures RestoreJobFor(restore, o, c, b, target).Ok?
  {
    assert "logical" != "physical";
  }

  function Plain(name: string): InstanceSpec {
    InstanceSpec(name, None, "", None, None, None, map[])
  }

  function ClusterOf(instances: seq<InstanceSpec>): PostgresCluster {
    PostgresCluster("c", "n",
      ClusterSpec("15", instances, HASpec(false, false, 0), map[], 1, StorageSpec("", "", "", []), ResourceRequirements("", ""),
                  DatabaseSpec("", "", []), MonitoringSpec(false, false, 0)),
      ClusterStatus(Unknown, 0, "", "", []))
  }

  function DumpOf(kind: string): PostgresBackup {
    PostgresBackup("b", "n", BackupSpec(Ref("c", ""), kind, BackupStorage("local", map["pvcName" := "p"]), None, 0, 1, false))
  }

  function WorldOf(instances: seq<InstanceSpec>): World {
    var r := Resource("r", "n", RestoreSpec(Ref("b", ""), Ref("c", ""), RestoreOptions(false, false, false, "1h", 1), None),
                      RestoreStatus(Unset, None, []), 0, false, false);
    World(Some(r), map[Key("n", "c") := ClusterOf(instances)], map[Key("n", "b") := DumpOf("logical")], map[], 0, multiset{})
  }

  lemma DumpIsLogical()
    ensures BackupText.NormalizeBackupType(DumpOf("logical").spec.kind) == "logical"
    ensures DumpOf("logical").spec.storage.kind == "local" && Lookup(DumpOf("logical").spec.storage.config, "pvcName") != ""
  {
    assert BackupAgreement.Letters("logical");
    BackupAgreement.LettersStay("logical");
    assert "logical" != "physical" && "logical" != "full" && "logical" != "";
  }

  lemma WorldOfRefs(instances: seq<InstanceSpec>)
    ensures var w := WorldOf(instances);
            && RestoreTheorems.Fresh(Session([], w, [])) && RefsPresent(w) && TargetsIn(w) == Ok(instances)
            && w.clusters[ClusterKey(w)] == ClusterOf(instances) && w.backups[BackupKey(w)] == DumpOf("logical")
  {
  }

  lemma WorldOfBuilds(instances: seq<InstanceSpec>)
    ensures var w := WorldOf(instances);
            RestoreTheorems.Fresh(Session([], w, [])) && RefsPresent(w) && TargetsIn(w) == Ok(instances) && AllBuild(w)
  {
    WorldOfRefs(instances);
    DumpIsLogical();
    var w := WorldOf(instances);
    AllBuildFrom(w, instances, ClusterOf(instances), DumpOf("logical"));
  }

  lemma AllBuildFrom(w: World, instances: seq<InstanceSpec>, c: PostgresCluster, b: PostgresBackup)
    requires RefsPresent(w) && TargetsIn(w) == Ok(instances) && w.clusters[ClusterKey(w)] == c && w.backups[BackupKey(w)] == b
    requires BackupText.NormalizeBackupType(b.spec.kind) == "logical"
    requires b.spec.storage.kind == "local" && Lookup(b.spec.storage.config, "pvcName") != ""
    ensures AllBuild(w)
  {
    var r := SetDefaults(w.restore.value);
    forall i | 0 <= i < |instances| ensures JobsOf(w)[i].Ok? {
      LocalDumpBuilds(r.name, r.spec.options, c, b, instances[i]);
    }
  }

  /** Two instances "a" and "d", of which "a" is exchanged for "b": both ways of going wrong have their run. */
  lemma ExchangeGoesWrong() returns (s: Sys, hiding: seq<Script>, orphaning: seq<Script>)
    ensures RestoreTheorems.Fresh(s) && s.world == WorldOf([Plain("a"), Plain("d")])
    ensures var w := Run(s, hiding).world;
            Restored(w) && Finished("r-b-restore") !in w.log && Created("r-b-restore") !in w.log
    ensures var w := Run(s, orphaning).world;
            && "r-b-restore" in w.jobs && w.jobs["r-b-restore"].owned
            && w.restore.Some? && !RestoreSafety.Names(w.restore.value.status.entries, "r-b-restore")
  {
    var targets, targets' := [Plain("a"), Plain("d")], [Plain("b"), Plain("d")];
    s := Session([], WorldOf(targets), []);
    WorldOfBuilds(targets);
    WorldOfBuilds(targets');
    var c := ClusterOf(targets');
    EditedWorld(targets, targets');
    NewNames();
    hiding := ReusedSlotHidesTarget(s, targets, c, targets', 0, 1);
    orphaning := ReusedSlotOrphansJob(s, targets, c, targets', 0);
  }

  lemma EditedWorld(targets: seq<InstanceSpec>, targets': seq<InstanceSpec>)
    ensures Edited(WorldOf(targets), ClusterOf(targets')) == WorldOf(targets')
  {
  }

  lemma NewNames()
    ensures NewAt([Plain("a"), Plain("d")], [Plain("b"), Plain("d")], 0)
    ensures Naming.RestoreJobName("r", "b") == "r-b-restore"
  {
    assert "a" != "b" by {
      assert "a"[0] != "b"[0];
    }
    assert "d" != "b" by {
      assert "d"[0] != "b"[0];
    }
  }

  // ------------------------------------------------------------------ sound passes that lose the invariant

  function Doubled(): seq<InstanceSpec> {
    [Plain("b"), Plain("b")]
  }

  /** Slots of x, still open, and of b, whose job has completed; the cluster now lists b twice. */
  function DoubledWorld(): World {
    var w := WorldOf(Doubled());
    var job := RestoreJob("r-b-restore", "", "", "", "", "", [], [], [], [], []);
    w.(restore := Some(w.restore.value.(finalizer := true,
         status := RestoreStatus(Pending, None, [Entry("x", Pending, "r-x-restore", None, None),
                                                 Entry("b", Completed, "r-b-restore", None, Some(0))]))),
       jobs := map["r-b-restore" := Job(job, true, 0, 0, None, Some(0))],
       log := multiset{Created("r-b-restore"), Finished("r-b-restore")})
  }

  lemma DoubledLedger()
    ensures RestoreSafety.Ledger(DoubledWorld()) && RestoreSafety.NoDeletes(DoubledWorld())
  {
  }

  lemma DoubledNames()
    ensures var entries := DoubledWorld().restore.value.status.entries;
            && RestoreTheorems.DistinctNames(entries) && entries[0].name != entries[1].name
            && entries[0].jobName != entries[1].jobName
    ensures RestoreSafety.WellNamed(DoubledWorld().restore.value)
  {
    assert "x" != "b" by {
      assert "x"[0] != "b"[0];
    }
    DoubledJobs();
  }

  lemma DoubledJobs()
    ensures Naming.RestoreJobName("r", "x") == "r-x-restore" && Naming.RestoreJobName("r", "b") == "r-b-restore"
    ensures "r-x-restore" != "r-b-restore"
  {
    assert "r-x-restore"[2] != "r-b-restore"[2];
  }

  lemma DoubledInv()
    ensures RestoreSafety.Inv(DoubledWorld()) && Active(DoubledWorld())
  {
    DoubledLedger();
    DoubledNames();
    var w := DoubledWorld();
    assert RestoreSafety.Covered(w, w.restore.value.status.entries) by {
      assert w.restore.value.status.entries[1].jobName == "r-b-restore";
    }
  }

  lemma DoubledTargets()
    ensures var w := DoubledWorld();
            && RefsPresent(w) && TargetsIn(w) == Ok(Doubled()) && |JobsOf(w)| == 2 && JobsOf(w)[0].Ok?
  {
    WorldOfBuilds(Doubled());
    assert JobsOf(DoubledWorld()) == JobsOf(WorldOf(Doubled()));
  }

  ghost predicate OpenBesideDone(w: World) {
    && w.restore.Some?
    && var entries := w.restore.value.status.entries;
       && |entries| == 2 && entries[0].phase != Completed && entries[1].phase == Completed
       && entries[0].name != "b" && entries[1].name == "b"
       && RestoreTheorems.DistinctNames(entries) && Finished(entries[0].jobName) !in w.log
  }

  lemma DoubledOpen()
    ensures OpenBesideDone(DoubledWorld())
  {
    DoubledNames();
  }

  lemma DoubledMisled(w: World) returns (script: Script)
    requires RestoreSafety.Inv(w) && Active(w) && RefsPresent(w) && TargetsIn(w) == Ok(Doubled()) && OpenBesideDone(w)
    requires |JobsOf(w)| == 2 && JobsOf(w)[0].Ok?
    ensures !Breaks(w, Doubled())
    ensures OnlyJobs(script) && !RestoreSafety.Inv(Reconcile(Session([], w, script)).0.world)
  {
    SettledMismatchIsSound(w, Doubled());
    script := MisledLosesInv(w, Doubled(), 0);
  }

  /** No script breaks the pass, and still some script makes it lose the invariant. */
  lemma SoundMayLoseInv() returns (script: Script)
    ensures var w := DoubledWorld();
            && RestoreSafety.Inv(w) && Active(w) && RefsPresent(w) && TargetsIn(w) == Ok(Doubled()) && !Breaks(w, Doubled())
            && OnlyJobs(script) && !RestoreSafety.Inv(Reconcile(Session([], w, script)).0.world)
  {
    DoubledInv();
    DoubledOpen();
    DoubledTargets();
    script := DoubledMisled(DoubledWorld());
  }
}
