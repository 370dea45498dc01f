/**
 Passes played out turn by turn.

 A slot's fate says what its job does while the slot is looked at: its recorded job turns up and
 completes, the job of its target is created and completes, or is created and goes on running.
 From the fates the script of a whole pass is put together, and the lemmas say what a pass does
 under it: which entries it persists, which jobs it leaves, and what their history has grown by.
 They are what the runs are made of that reach Completed, and those in which reused slots do harm.
 */
module RestoreScripts {
  import opened Wrappers
  import opened ApiServer
  import opened ApiTypes
  import opened RestoreModel
  import opened RestoreJobs
  import opened RestoreProgress
  import Naming
  import Selectors

  type Script = seq<Turn<EnvStep>>

  const QUIET: Turn<EnvStep> := Turn([], Served)

  // ------------------------------------------------------------------ one request

  function Moved(w: World, env: seq<EnvStep>): World
    decreases |env|
  {
    if env == [] then w else Moved(Move(w, env[0]), env[1..])
  }

  lemma {:induction false} DriftMoved(s: Sys, env: seq<EnvStep>)
    ensures var s' := Drift(API, s, env); s'.world == Moved(s.world, env) && s'.script == s.script
    decreases |env|
  {
    if env != [] {
      DriftMoved(s.Become(Move(s.world, env[0])), env[1..]);
    }
  }

  lemma MovedTwo(w: World, a: EnvStep, b: EnvStep)
    ensures Moved(w, [a]) == Move(w, a) && Moved(w, [a, b]) == Move(Move(w, a), b)
  {
    assert [a, b][1..] == [b] && [b][1..] == [] && [a][1..] == [];
    assert Moved(Move(w, a), [b]) == Moved(Move(Move(w, a), b), []);
    assert Moved(Move(w, a), []) == Move(w, a);
  }

  /** A request that is served after these moves. */
  lemma Turned(s: Sys, q: Request, env: seq<EnvStep>, rest: Script)
    requires s.script == [Turn(env, Served)] + rest
    ensures var (s', a) := Call(s, q);
            (s'.world, a) == Serve(Moved(s.world, env), q) && s'.script == rest
  {
    DriftMoved(s.(script := s.script[1..]), env);
    assert s.script[1..] == rest;
  }

  // ------------------------------------------------------------------ one slot

  /**
   What becomes of a slot that is not Completed. `Own`: the job it records is there and
   completes. `Made`: that job is missing, and the one created for its target completes at once.
   `Started`: the same, but the job created goes on running.
   */
  datatype Fate = Own | Made | Started

  const SOME_JOB := RestoreJob("", "", "", "", "", "", [], [], [], [], [])

  function Completes(job: string): EnvStep {
    JobReports(job, 0, 0, None, Some(0))
  }

  /** The moves before each request of a slot's turn; `made` is the job of the slot's target. */
  function SlotTurns(e: Entry, made: string, fate: Fate): Script {
    match fate
    case Own => [Turn([JobAppears(e.jobName, SOME_JOB), Completes(e.jobName)], Served), QUIET]
    case Made => [Turn([JobRemoved(e.jobName), JobRemoved(made)], Served), QUIET, Turn([Completes(made)], Served)]
    case Started => [Turn([JobRemoved(e.jobName), JobRemoved(made)], Served), QUIET, QUIET]
  }

  /** The job by which a slot fares. */
  function Fares(e: Entry, made: string, fate: Fate): string {
    if fate == Own then e.jobName else made
  }

  /** Only jobs and their history change; of these jobs alone is creation or completion new. */
  ghost predicate Touches(w: World, w': World, names: set<string>) {
    && w' == w.(jobs := w'.jobs, log := w'.log)
    && w.log <= w'.log
    && (forall n | n !in names && Finished(n) in w'.log :: Finished(n) in w.log)
    && (forall n | n !in names && Created(n) in w'.log :: Created(n) in w.log)
  }

  lemma TouchesTwice(w: World, w1: World, w2: World, names: set<string>)
    requires Touches(w, w1, names) && Touches(w1, w2, names)
    ensures Touches(w, w2, names)
  {
  }

  /** A slot's turn: it ends Completed or Running, under the same name. */
  ghost predicate Went(w: World, m: Restore, p: Pass, i: nat, fate: Fate) {
    && i < |m.status.entries| && p.ok && |p.m.status.entries| == |m.status.entries|
    && p.m == SetEntry(m, i, p.m.status.entries[i])
    && p.m.status.entries[i].name == m.status.entries[i].name
    && p.m.status.entries[i].jobName == m.status.entries[i].jobName
    && p.m.status.entries[i].phase == if fate == Started then Running else Completed
  }

  lemma OwnWorld(w: World, n: string)
    ensures var w' := Moved(w, [JobAppears(n, SOME_JOB), Completes(n)]);
            Touches(w, w', {n}) && n in w'.jobs && w'.jobs[n].completionTime.Some?
  {
    var w1 := Move(w, JobAppears(n, SOME_JOB));
    assert n in w1.jobs;
    MovedTwo(w, JobAppears(n, SOME_JOB), Completes(n));
  }

  lemma OwnGoes(s: Sys, m: Restore, job: Result<RestoreJob>, i: nat, made: string, rest: Script)
    requires i < |m.status.entries| && m.status.entries[i].phase != Completed && m.status.entries[i].jobName != ""
    requires s.script == SlotTurns(m.status.entries[i], made, Own) + rest
    ensures var p := Visit(s, m, job, i);
            Went(s.world, m, p, i, Own) && p.s.script == rest && Touches(s.world, p.s.world, {m.status.entries[i].jobName})
  {
    var n := m.status.entries[i].jobName;
    var env := [JobAppears(n, SOME_JOB), Completes(n)];
    OwnWorld(s.world, n);
    assert s.script == [Turn(env, Served)] + ([QUIET] + rest);
    Turned(s, GetJob(n), env, [QUIET] + rest);
    var s1 := Call(s, GetJob(n)).0;
    Turned(s1, GetJob(n), [], rest);
  }

  lemma ClearedWorld(w: World, n: string, made: string)
    ensures var w' := Moved(w, [JobRemoved(n), JobRemoved(made)]);
            Touches(w, w', {}) && n !in w'.jobs && made !in w'.jobs
  {
    MovedTwo(w, JobRemoved(n), JobRemoved(made));
  }

  /** The recorded job is missing, and the target's job is created. */
  lemma Creates(s: Sys, m: Restore, job: RestoreJob, i: nat, rest: Script)
    returns (s2: Sys)
    requires i < |m.status.entries| && m.status.entries[i].phase != Completed
    requires s.script == [Turn([JobRemoved(m.status.entries[i].jobName), JobRemoved(job.name)], Served), QUIET] + rest
    ensures Touches(s.world, s2.world, {job.name}) && s2.script == rest
    ensures job.name in s2.world.jobs && s2.world.jobs[job.name].owned
    ensures s2.world.jobs[job.name].completionTime.None? && s2.world.jobs[job.name].failed == 0 && s2.world.jobs[job.name].active == 0
    ensures var e := m.status.entries[i].(phase := Running, startTime := Some(s2.world.now));
            Visit(s, m, Ok(job), i) == UpdateJobStatus(s2, SetEntry(m, i, e), i, job.name)
  {
    var n := m.status.entries[i].jobName;
    var env := [JobRemoved(n), JobRemoved(job.name)];
    ClearedWorld(s.world, n, job.name);
    assert s.script == [Turn(env, Served)] + ([QUIET] + rest);
    Turned(s, GetJob(n), env, [QUIET] + rest);
    var s1 := Call(s, GetJob(n)).0;
    Turned(s1, CreateJob(job), [], rest);
    s2 := Call(s1, CreateJob(job)).0;
  }

  lemma SetTwice(m: Restore, i: nat, e: Entry, e': Entry)
    requires i < |m.status.entries|
    ensures SetEntry(SetEntry(m, i, e), i, e') == SetEntry(m, i, e')
  {
    assert m.status.entries[i := e][i := e'] == m.status.entries[i := e'];
  }

  lemma MadeGoes(s: Sys, m: Restore, job: RestoreJob, i: nat, rest: Script)
    requires i < |m.status.entries| && m.status.entries[i].phase != Completed && job.name != ""
    requires s.script == SlotTurns(m.status.entries[i], job.name, Made) + rest
    ensures var p := Visit(s, m, Ok(job), i);
            && Went(s.world, m, p, i, Made) && p.s.script == rest && Touches(s.world, p.s.world, {job.name})
            && job.name in p.s.world.jobs && p.s.world.jobs[job.name].owned
  {
    var last := Turn([Completes(job.name)], Served);
    assert s.script == [Turn([JobRemoved(m.status.entries[i].jobName), JobRemoved(job.name)], Served), QUIET] + ([last] + rest);
    var s2 := Creates(s, m, job, i, [last] + rest);
    MovedTwo(s2.world, Completes(job.name), Completes(job.name));
    Turned(s2, GetJob(job.name), [Completes(job.name)], rest);
    SetTwice(m, i, m.status.entries[i].(phase := Running, startTime := Some(s2.world.now)),
             Visit(s, m, Ok(job), i).m.status.entries[i]);
  }

  lemma StartedGoes(s: Sys, m: Restore, job: RestoreJob, i: nat, rest: Script)
    requires i < |m.status.entries| && m.status.entries[i].phase != Completed && job.name != ""
    requires s.script == SlotTurns(m.status.entries[i], job.name, Started) + rest
    ensures var p := Visit(s, m, Ok(job), i);
            && Went(s.world, m, p, i, Started) && p.s.script == rest && Touches(s.world, p.s.world, {job.name})
  {
    assert s.script == [Turn([JobRemoved(m.status.entries[i].jobName), JobRemoved(job.name)], Served), QUIET] + ([QUIET] + rest);
    var s2 := Creates(s, m, job, i, [QUIET] + rest);
    Turned(s2, GetJob(job.name), [], rest);
    SetTwice(m, i, m.status.entries[i].(phase := Running, startTime := Some(s2.world.now)),
             Visit(s, m, Ok(job), i).m.status.entries[i]);
  }

  // ------------------------------------------------------------------ all slots

  /** The turns of the slots that are not Completed, in order. */
  function Turns(entries: seq<Entry>, made: seq<string>, fates: seq<Fate>): Script
    requires |entries| == |made| == |fates|
  {
    if entries == [] then []
    else
      (if entries[0].phase == Completed then [] else SlotTurns(entries[0], made[0], fates[0]))
      + Turns(entries[1..], made[1..], fates[1..])
  }

  /** A slot may fare so: its job can be built if it is to be created. */
  ghost predicate Possible(e: Entry, job: Result<RestoreJob>, made: string, fate: Fate) {
    e.phase != Completed ==>
      && e.jobName != "" && made != ""
      && (fate != Own ==> job.Ok? && job.value.name == made)
  }

  ghost predicate AllPossible(entries: seq<Entry>, jobs: seq<Result<RestoreJob>>, made: seq<string>, fates: seq<Fate>) {
    && |entries| == |jobs| == |made| == |fates|
    && forall i | 0 <= i < |entries| :: Possible(entries[i], jobs[i], made[i], fates[i])
  }

  /** The jobs by which the slots fare are among these. */
  ghost predicate FareBy(entries: seq<Entry>, made: seq<string>, fates: seq<Fate>, names: set<string>) {
    && |entries| == |made| == |fates|
    && forall i | 0 <= i < |entries| && entries[i].phase != Completed :: Fares(entries[i], made[i], fates[i]) in names
  }

  function PhaseAfter(e: Entry, fate: Fate): Phase {
    if e.phase != Completed && fate == Started then Running else Completed
  }

  /** What the loop over the slots from `i` on leaves of a slot. */
  ghost predicate SlotAfter(e: Entry, e': Entry, fate: Fate) {
    e'.name == e.name && e'.jobName == e.jobName && e'.phase == PhaseAfter(e, fate)
  }

  ghost predicate SlotsAfter(m: Restore, m': Restore, fates: seq<Fate>, i: nat) {
    && |fates| == |m.status.entries| == |m'.status.entries| && i <= |fates|
    && m' == m.(status := m.status.(entries := m'.status.entries))
    && (forall j | 0 <= j < i :: m'.status.entries[j] == m.status.entries[j])
    && (forall j | i <= j < |fates| :: SlotAfter(m.status.entries[j], m'.status.entries[j], fates[j]))
  }

  lemma VisitGoes(s: Sys, m: Restore, job: Result<RestoreJob>, made: string, fate: Fate, i: nat, rest: Script, names: set<string>)
    requires i < |m.status.entries| && m.status.entries[i].phase != Completed
    requires Possible(m.status.entries[i], job, made, fate) && Fares(m.status.entries[i], made, fate) in names
    requires s.script == SlotTurns(m.status.entries[i], made, fate) + rest
    ensures var p := Visit(s, m, job, i);
            Went(s.world, m, p, i, fate) && p.s.script == rest && Touches(s.world, p.s.world, names)
  {
    match fate
    case Own => OwnGoes(s, m, job, i, made, rest);
    case Made => MadeGoes(s, m, job.value, i, rest);
    case Started => StartedGoes(s, m, job.value, i, rest);
  }

  lemma TurnsSplit(entries: seq<Entry>, made: seq<string>, fates: seq<Fate>, i: nat)
    requires |entries| == |made| == |fates| && i < |entries|
    ensures Turns(entries[i..], made[i..], fates[i..])
         == (if entries[i].phase == Completed then [] else SlotTurns(entries[i], made[i], fates[i]))
            + Turns(entries[i + 1..], made[i + 1..], fates[i + 1..])
  {
    assert entries[i..][1..] == entries[i + 1..] && made[i..][1..] == made[i + 1..] && fates[i..][1..] == fates[i + 1..];
  }

  /** Slot `i` has had its turn. */
  ghost predicate SlotWent(m: Restore, m': Restore, fates: seq<Fate>, i: nat) {
    && |fates| == |m.status.entries| == |m'.status.entries| && i < |fates|
    && m' == SetEntry(m, i, m'.status.entries[i])
    && SlotAfter(m.status.entries[i], m'.status.entries[i], fates[i])
    && (m.status.entries[i].phase == Completed ==> m' == m)
  }

  lemma SlotGoes(s: Sys, m: Restore, jobs: seq<Result<RestoreJob>>, made: seq<string>, fates: seq<Fate>,
                 i: nat, rest: Script, names: set<string>)
    requires AllPossible(m.status.entries, jobs, made, fates) && FareBy(m.status.entries, made, fates, names) && i < |jobs|
    requires s.script == (if m.status.entries[i].phase == Completed then [] else SlotTurns(m.status.entries[i], made[i], fates[i])) + rest
    ensures var p := Visit(s, m, jobs[i], i);
            p.ok && p.s.script == rest && SlotWent(m, p.m, fates, i) && Touches(s.world, p.s.world, names)
  {
    if m.status.entries[i].phase == Completed {
      assert s.script == rest && m.status.entries[i := m.status.entries[i]] == m.status.entries;
    } else {
      VisitGoes(s, m, jobs[i], made[i], fates[i], i, rest, names);
    }
  }

  lemma SlotWentPossible(m: Restore, m': Restore, jobs: seq<Result<RestoreJob>>, made: seq<string>, fates: seq<Fate>, i: nat, names: set<string>)
    requires AllPossible(m.status.entries, jobs, made, fates) && FareBy(m.status.entries, made, fates, names)
    requires SlotWent(m, m', fates, i)
    ensures AllPossible(m'.status.entries, jobs, made, fates) && FareBy(m'.status.entries, made, fates, names)
    ensures m'.status.entries[i + 1..] == m.status.entries[i + 1..]
  {
    forall j | 0 <= j < |fates|
      ensures Possible(m'.status.entries[j], jobs[j], made[j], fates[j])
      ensures m'.status.entries[j].phase != Completed ==> Fares(m'.status.entries[j], made[j], fates[j]) in names
    {
      assert Possible(m.status.entries[j], jobs[j], made[j], fates[j]);
    }
  }

  lemma Associate(a: Script, b: Script, c: Script)
    ensures (a + b) + c == a + (b + c)
  {
  }

  lemma SlotThenSlots(m: Restore, m1: Restore, m2: Restore, fates: seq<Fate>, i: nat)
    requires SlotWent(m, m1, fates, i) && SlotsAfter(m1, m2, fates, i + 1)
    ensures SlotsAfter(m, m2, fates, i)
  {
  }

  lemma {:induction false} VisitsGo(s: Sys, m: Restore, jobs: seq<Result<RestoreJob>>, made: seq<string>, fates: seq<Fate>,
                                    i: nat, rest: Script, names: set<string>)
    requires AllPossible(m.status.entries, jobs, made, fates) && FareBy(m.status.entries, made, fates, names) && i <= |jobs|
    requires s.script == Turns(m.status.entries[i..], made[i..], fates[i..]) + rest
    ensures var p := VisitFrom(s, m, jobs, i);
            p.ok && p.s.script == rest && SlotsAfter(m, p.m, fates, i) && Touches(s.world, p.s.world, names)
    decreases |jobs| - i
  {
    if i == |jobs| {
      assert m.status.entries[i..] == [] && s.script == rest;
    } else {
      TurnsSplit(m.status.entries, made, fates, i);
      var now := if m.status.entries[i].phase == Completed then [] else SlotTurns(m.status.entries[i], made[i], fates[i]);
      var later := Turns(m.status.entries[i + 1..], made[i + 1..], fates[i + 1..]) + rest;
      Associate(now, Turns(m.status.entries[i + 1..], made[i + 1..], fates[i + 1..]), rest);
      SlotGoes(s, m, jobs, made, fates, i, later, names);
      var p := Visit(s, m, jobs[i], i);
      SlotWentPossible(m, p.m, jobs, made, fates, i, names);
      VisitsGo(p.s, p.m, jobs, made, fates, i + 1, rest, names);
      var p' := VisitFrom(p.s, p.m, jobs, i + 1);
      SlotThenSlots(m, p.m, p'.m, fates, i);
      TouchesTwice(s.world, p.s.world, p'.s.world, names);
    }
  }

  // ------------------------------------------------------------------ whole passes

  const FETCH: Script := [QUIET, QUIET, QUIET]

  lemma FetchGoes(s: Sys, rest: Script)
    requires Active(s.world) && RefsPresent(s.world) && s.script == FETCH + rest
    ensures var (s', f) := Fetch(s);
            && s'.world == s.world && s'.script == rest
            && f == Ready(SetDefaults(s.world.restore.value), s.world.clusters[ClusterKey(s.world)], s.world.backups[BackupKey(s.world)])
  {
    var q2, q3 := GetCluster(ClusterKey(s.world)), GetBackup(BackupKey(s.world));
    assert s.script == [Turn([], Served)] + ([QUIET, QUIET] + rest);
    Turned(s, GetRestore, [], [QUIET, QUIET] + rest);
    var s1 := Call(s, GetRestore).0;
    assert s1.script == [Turn([], Served)] + ([QUIET] + rest);
    Turned(s1, q2, [], [QUIET] + rest);
    var s2 := Call(s1, q2).0;
    Turned(s2, q3, [], rest);
  }

  /** A status write that lands after moves that leave the restore alone. */
  lemma StatusGoes(s: Sys, m: Restore, env: seq<EnvStep>, rest: Script)
    requires s.script == [Turn(env, Served)] + rest
    requires s.world.restore.Some? && s.world.restore.value.version == m.version
    requires Moved(s.world, env).restore == s.world.restore
    ensures var (s', a) := Call(s, UpdateStatus(m));
            var r := StatusUpdated(s.world.restore.value, m);
            && a == RestoreIs(r) && s'.script == rest
            && s'.world == Moved(s.world, env).(restore := Some(r)) && r.status == m.status
  {
    Turned(s, UpdateStatus(m), env, rest);
  }

  /** What a pass whose slots fare as scripted leaves of restore, jobs and history. */
  ghost predicate PassWent(w: World, w': World, entries: seq<Entry>, fates: seq<Fate>, env: seq<EnvStep>, names: set<string>) {
    && w.restore.Some? && w'.restore.Some?
    && var r, r' := w.restore.value, w'.restore.value;
       && r' == r.(status := r'.status, version := r'.version)
       && |r'.status.entries| == |entries| == |fates|
       && (forall j | 0 <= j < |fates| :: SlotAfter(entries[j], r'.status.entries[j], fates[j]))
       && r'.status.phase == Aggregate(r'.status.entries)
       && exists v: World :: Touches(w.(restore := v.restore), v, names) && w' == Moved(v, env).(restore := Some(r'))
  }

  /** The moves do not touch the restore. */
  ghost predicate Aside(env: seq<EnvStep>) {
    forall i | 0 <= i < |env| :: !env[i].SpecEdited? && !env[i].DeletionRequested?
  }

  lemma {:induction false} AsideMoved(w: World, env: seq<EnvStep>)
    requires Aside(env)
    ensures Moved(w, env).restore == w.restore
    decreases |env|
  {
    if env != [] {
      AsideMoved(Move(w, env[0]), env[1..]);
    }
  }

  lemma LoopGoes(s: Sys, m: Restore, jobs: seq<Result<RestoreJob>>, made: seq<string>, fates: seq<Fate>, env: seq<EnvStep>, names: set<string>)
    requires AllPossible(m.status.entries, jobs, made, fates) && FareBy(m.status.entries, made, fates, names) && Aside(env)
    requires s.script == Turns(m.status.entries, made, fates) + [Turn(env, Served)]
    requires InStep(m, s.world)
    ensures var v := VisitFrom(s, m, jobs, 0);
            && v.ok && UpdateRestoreStatus(v.s, v.m).ok
            && PassWent(s.world, UpdateRestoreStatus(v.s, v.m).s.world, m.status.entries, fates, env, names)
  {
    var last := [Turn(env, Served)];
    assert m.status.entries[0..] == m.status.entries && made[0..] == made && fates[0..] == fates;
    VisitsGo(s, m, jobs, made, fates, 0, last, names);
    var v := VisitFrom(s, m, jobs, 0);
    assert last == [Turn(env, Served)] + [];
    AsideMoved(v.s.world, env);
    StatusGoes(v.s, WithAggregate(v.m, v.s.world.now), env, []);
    assert Touches(s.world.(restore := v.s.world.restore), v.s.world, names);
  }

  /** The names of the targets' jobs. */
  function TargetJobs(restore: string, targets: seq<InstanceSpec>): (made: seq<string>)
    ensures |made| == |targets|
    ensures forall i | 0 <= i < |targets| :: made[i] == Naming.RestoreJobName(restore, targets[i].name)
  {
    seq(|targets|, i requires 0 <= i < |targets| => Naming.RestoreJobName(restore, targets[i].name))
  }

  /** What a pass does once it has read its objects and found its targets. */
  lemma AfterFetch(s: Sys, s': Sys, m: Restore, c: PostgresCluster, b: PostgresBackup, targets: seq<InstanceSpec>)
    requires Fetch(s) == (s', Ready(m, c, b)) && Selectors.RestoreTargets(c.spec.instances, m.spec.instances) == Ok(targets)
    ensures Reconcile(s).0 == After(ReconcileTargets(s', m, c, b, targets))
  {
  }

  /** A pass over as many slots as targets. */
  lemma PassGoes(s: Sys, targets: seq<InstanceSpec>, fates: seq<Fate>, env: seq<EnvStep>, names: set<string>)
    requires Active(s.world) && RefsPresent(s.world) && TargetsIn(s.world) == Ok(targets) && Aside(env)
    requires var r := s.world.restore.value;
             var made := TargetJobs(r.name, targets);
             && AllPossible(r.status.entries, JobsOf(s.world), made, fates) && FareBy(r.status.entries, made, fates, names)
             && s.script == FETCH + (Turns(r.status.entries, made, fates) + [Turn(env, Served)])
    ensures PassWent(s.world, Reconcile(s).0.world, s.world.restore.value.status.entries, fates, env, names)
  {
    var w, r := s.world, s.world.restore.value;
    var made := TargetJobs(r.name, targets);
    FetchGoes(s, Turns(r.status.entries, made, fates) + [Turn(env, Served)]);
    var s', m := Fetch(s).0, SetDefaults(r);
    var c, b := w.clusters[ClusterKey(w)], w.backups[BackupKey(w)];
    assert JobsOf(w) == JobsFor(m, c, b, targets);
    LoopGoes(s', m, JobsOf(w), made, fates, env, names);
    AfterFetch(s, s', m, c, b, targets);
  }

  lemma PossibleAlike(entries: seq<Entry>, jobs: seq<Result<RestoreJob>>, jobs': seq<Result<RestoreJob>>, made: seq<string>, fates: seq<Fate>)
    requires AllPossible(entries, jobs, made, fates) && SameErrors(jobs, jobs')
    ensures AllPossible(entries, jobs', made, fates)
  {
    forall i | 0 <= i < |entries| ensures Possible(entries[i], jobs'[i], made[i], fates[i]) {
      assert Possible(entries[i], jobs[i], made[i], fates[i]);
    }
  }

  /** The slots are sized to the targets. */
  lemma SizesGo(s: Sys, m: Restore, targets: seq<InstanceSpec>, rest: Script)
    requires s.script == [QUIET] + rest && InStep(m, s.world) && |m.status.entries| != |targets|
    ensures var p := InitEntries(s, m, targets);
            && p.ok && p.s.script == rest && InStep(p.m, p.s.world)
            && p.m.name == m.name && p.m.status.entries == FreshEntries(m.name, targets)
            && p.s.world == s.world.(restore := p.s.world.restore)
            && p.s.world.restore.value
               == s.world.restore.value.(status := p.s.world.restore.value.status, version := p.s.world.restore.value.version)
  {
    StatusGoes(s, m.(status := m.status.(entries := FreshEntries(m.name, targets))), [], rest);
  }

  lemma PassWentEarlier(w: World, w1: World, w2: World, entries: seq<Entry>, fates: seq<Fate>, env: seq<EnvStep>, names: set<string>)
    requires w.restore.Some? && w1.restore.Some? && w1 == w.(restore := w1.restore)
    requires w1.restore.value == w.restore.value.(status := w1.restore.value.status, version := w1.restore.value.version)
    requires PassWent(w1, w2, entries, fates, env, names)
    ensures PassWent(w, w2, entries, fates, env, names)
  {
    var v: World :| Touches(w1.(restore := v.restore), v, names) && w2 == Moved(v, env).(restore := w2.restore);
    assert w.(restore := v.restore) == w1.(restore := v.restore);
  }

  /** The loop over slots just sized to the targets. */
  lemma SizedLoopGoes(s: Sys, m: Restore, c: PostgresCluster, b: PostgresBackup, targets: seq<InstanceSpec>,
                      fates: seq<Fate>, env: seq<EnvStep>, names: set<string>)
    requires InStep(m, s.world) && |m.status.entries| != |targets| && Aside(env)
    requires var made, entries := TargetJobs(m.name, targets), FreshEntries(m.name, targets);
             && AllPossible(entries, JobsFor(m, c, b, targets), made, fates) && FareBy(entries, made, fates, names)
             && s.script == [QUIET] + (Turns(entries, made, fates) + [Turn(env, Served)])
    ensures var p := ReconcileTargets(s, m, c, b, targets);
            p.ok && PassWent(s.world, p.s.world, FreshEntries(m.name, targets), fates, env, names)
  {
    var made, entries := TargetJobs(m.name, targets), FreshEntries(m.name, targets);
    SizesGo(s, m, targets, Turns(entries, made, fates) + [Turn(env, Served)]);
    var p := InitEntries(s, m, targets);
    var jobs := JobsFor(p.m, c, b, targets);
    JobsAlike(m, p.m, c, b, targets);
    PossibleAlike(entries, JobsFor(m, c, b, targets), jobs, made, fates);
    LoopGoes(p.s, p.m, jobs, made, fates, env, names);
    PassWentEarlier(s.world, p.s.world, ReconcileTargets(s, m, c, b, targets).s.world, entries, fates, env, names);
  }

  /** The script of a pass that first sizes the slots to the targets. */
  function SizingScript(restore: string, targets: seq<InstanceSpec>, fates: seq<Fate>, env: seq<EnvStep>): Script
    requires |fates| == |targets|
  {
    FETCH + ([QUIET] + (Turns(FreshEntries(restore, targets), TargetJobs(restore, targets), fates) + [Turn(env, Served)]))
  }

  ghost predicate AllBuild(w: World)
    requires RefsPresent(w) && TargetsIn(w).Ok?
  {
    forall i | 0 <= i < |JobsOf(w)| :: JobsOf(w)[i].Ok?
  }

  lemma NamesNotEmpty(restore: string, instance: string)
    ensures Naming.RestoreJobName(restore, instance) != ""
  {
    assert |Naming.RestoreJobName(restore, instance)| > 0;
  }

  lemma FreshPossible(w: World, targets: seq<InstanceSpec>, fates: seq<Fate>)
    requires RefsPresent(w) && TargetsIn(w) == Ok(targets) && AllBuild(w) && |fates| == |targets|
    ensures var r := w.restore.value; AllPossible(FreshEntries(r.name, targets), JobsOf(w), TargetJobs(r.name, targets), fates)
  {
    var r := w.restore.value;
    forall i | 0 <= i < |targets|
      ensures Possible(FreshEntries(r.name, targets)[i], JobsOf(w)[i], TargetJobs(r.name, targets)[i], fates[i])
    {
      NamesNotEmpty(r.name, targets[i].name);
    }
  }

  ghost function NameSet(made: seq<string>): set<string> {
    set i | 0 <= i < |made| :: made[i]
  }

  lemma FaresMade(entries: seq<Entry>, made: seq<string>, fates: seq<Fate>)
    requires |entries| == |made| == |fates| && forall i | 0 <= i < |entries| :: entries[i].jobName == made[i]
    ensures FareBy(entries, made, fates, NameSet(made))
  {
  }

  /** Such a pass, where all jobs can be built. */
  lemma FirstPassGoes(s: Sys, targets: seq<InstanceSpec>, fates: seq<Fate>, env: seq<EnvStep>)
    requires Active(s.world) && RefsPresent(s.world) && TargetsIn(s.world) == Ok(targets) && AllBuild(s.world) && Aside(env)
    requires |s.world.restore.value.status.entries| != |targets| == |fates|
    requires s.script == SizingScript(s.world.restore.value.name, targets, fates, env)
    ensures var r := s.world.restore.value;
            PassWent(s.world, Reconcile(s).0.world, FreshEntries(r.name, targets), fates, env, NameSet(TargetJobs(r.name, targets)))
  {
    var w, r := s.world, s.world.restore.value;
    var made, entries := TargetJobs(r.name, targets), FreshEntries(r.name, targets);
    FreshPossible(w, targets, fates);
    FaresMade(entries, made, fates);
    FetchGoes(s, [QUIET] + (Turns(entries, made, fates) + [Turn(env, Served)]));
    var (s', f) := Fetch(s);
    SizedLoopGoes(s', f.m, f.cluster, f.backup, targets, fates, env, NameSet(made));
    AfterFetch(s, s', f.m, f.cluster, f.backup, targets);
  }

  /** The very first pass adds the finalizer. */
  lemma FinalizerGoes(s: Sys)
    requires s.world.restore.Some? && !s.world.restore.value.finalizer && !s.world.restore.value.deleting
    requires s.script == [QUIET, QUIET]
    ensures var w, w' := s.world, Reconcile(s).0.world;
            && w'.restore.Some? && w' == w.(restore := w'.restore)
            && w'.restore.value == w.restore.value.(finalizer := true, version := w'.restore.value.version)
  {
    var r := s.world.restore.value;
    assert s.script == [Turn([], Served)] + [QUIET];
    Turned(s, GetRestore, [], [QUIET]);
    var s1 := Call(s, GetRestore).0;
    assert s1.script == [Turn([], Served)] + [];
    Turned(s1, UpdateRestore(r.(finalizer := true)), [], []);
  }
}
