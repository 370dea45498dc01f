/**
 What every run of the restore controller keeps, at every API call: whatever requests are
 refused, lost or never sent, and however the environment moves in between.

 Jobs are recorded before they are created, creations and removals of each job balance, a slot
 is Completed only if its own job was seen with a completion time, and Completed stays so. The
 condition on a pass is that it finds the targets it has recorded.
 */
module RestoreSafety {
  import opened Wrappers
  import opened ApiServer
  import opened ApiTypes
  import opened RestoreModel
  import opened RestoreJobs
  import Naming
  import Selectors

  // ------------------------------------------------------------------ what holds in every world

  /** Creations and removals of each job name balance against its presence. */
  ghost predicate Balanced(w: World) {
    forall n: string ::
      w.log[Created(n)] + w.log[Appeared(n)]
      == w.log[Deleted(n)] + w.log[Removed(n)] + (if n in w.jobs then 1 else 0)
  }

  ghost predicate NoOwnedJob(w: World) {
    forall n | n in w.jobs :: !w.jobs[n].owned
  }

  ghost predicate WellNamed(r: Restore) {
    forall i | 0 <= i < |r.status.entries| ::
      r.status.entries[i].jobName == Naming.RestoreJobName(r.name, r.status.entries[i].name)
  }

  /** Every entry recorded as Completed has a job that was seen with a completion time. */
  ghost predicate Witnessed(entries: seq<Entry>, log: multiset<Event>) {
    forall i | 0 <= i < |entries| && entries[i].phase == Completed :: Finished(entries[i].jobName) in log
  }

  ghost predicate AllCompleted(entries: seq<Entry>) {
    forall i | 0 <= i < |entries| :: entries[i].phase == Completed
  }

  /** Write-ahead coverage: the persisted status names every job the operator created. */
  ghost predicate Covered(w: World, entries: seq<Entry>) {
    forall n | n in w.jobs && w.jobs[n].owned :: Names(entries, n)
  }

  ghost predicate Names(entries: seq<Entry>, job: string) {
    exists i :: 0 <= i < |entries| && entries[i].jobName == job
  }

  ghost predicate RestoreInv(w: World, r: Restore) {
    && WellNamed(r)
    && Witnessed(r.status.entries, w.log)
    && (r.status.phase == Completed ==> AllCompleted(r.status.entries))
    && (!r.finalizer ==> !r.deleting && r.status.entries == [] && r.status.phase != Completed)
    && Covered(w, r.status.entries)
  }

  /** What holds of jobs and their history, whatever the restore says. */
  ghost predicate Ledger(w: World) {
    && Balanced(w)
    && (forall n | n in w.jobs && w.jobs[n].completionTime.Some? :: Finished(n) in w.log)
    && (forall n: string :: w.log[Created(n)] <= 1 + w.log[Removed(n)])
    && (forall n: string | Finished(n) in w.log :: Created(n) in w.log || Appeared(n) in w.log)
  }

  ghost predicate NoDeletes(w: World) {
    forall n: string :: Deleted(n) !in w.log
  }

  ghost predicate Inv(w: World) {
    && Ledger(w)
    && (w.restore.None? ==> NoOwnedJob(w))
    && (w.restore.Some? ==> RestoreInv(w, w.restore.value))
    && (w.restore.Some? && !w.restore.value.deleting ==> NoDeletes(w))
  }

  // ------------------------------------------------------------------ what every step keeps

  /** The same instances in the same slots, and no slot leaves Completed. */
  ghost predicate SameSlots(before: seq<Entry>, after: seq<Entry>) {
    && |before| == |after|
    && forall i | 0 <= i < |before| ::
      && before[i].name == after[i].name
      && before[i].jobName == after[i].jobName
      && (before[i].phase == Completed ==> after[i].phase == Completed)
  }

  ghost predicate StatusNext(before: RestoreStatus, after: RestoreStatus) {
    && (before.phase == Completed ==> after == before)
    && (before.entries != [] ==> SameSlots(before.entries, after.entries))
  }

  /** The operator creates a job only for a recorded slot that is not persisted as Completed. */
  ghost predicate MayCreate(w: World, job: string) {
    && w.restore.Some?
    && var entries := w.restore.value.status.entries;
       exists i :: 0 <= i < |entries| && entries[i].jobName == job && entries[i].phase != Completed
  }

  ghost predicate Next(w: World, w': World) {
    && w.log <= w'.log
    && (w.restore.None? ==> w'.restore.None?)
    && (w.restore.Some? && w'.restore.Some? ==>
          && w'.restore.value.name == w.restore.value.name
          && (w.restore.value.deleting ==> w'.restore.value.deleting)
          && StatusNext(w.restore.value.status, w'.restore.value.status))
    && (forall n: string | w'.log[Created(n)] > w.log[Created(n)] :: MayCreate(w, n))
  }

  ghost predicate Lawful(t: seq<World>) {
    forall i | 0 <= i < |t| :: Inv(t[i]) && (i > 0 ==> Next(t[i - 1], t[i]))
  }

  ghost predicate Good(s: Sys) {
    Lawful(s.Trace())
  }

  lemma Extend(s: Sys, w: World)
    requires Good(s) && Inv(w) && Next(s.world, w)
    ensures Good(s.Become(w))
  {
    var t, t' := s.Trace(), s.Become(w).Trace();
    assert t' == t + [w];
    forall i | 0 <= i < |t'| ensures Inv(t'[i]) && (i > 0 ==> Next(t'[i - 1], t'[i])) {
      if i < |t| {
        assert t'[i] == t[i] && (i > 0 ==> t'[i - 1] == t[i - 1]);
      }
    }
  }

  // ------------------------------------------------------------------ the environment

  /** What the environment can do between two requests. */
  ghost predicate Drifted(w: World, w': World) {
    && (w.restore.None? ==> w'.restore.None?)
    && (w.restore.Some? && w.restore.value.finalizer ==> w'.restore.Some?)
    && (w.restore.Some? && w'.restore.Some? ==>
          var r, r' := w.restore.value, w'.restore.value;
          && r'.name == r.name && r'.namespace == r.namespace
          && r'.status == r.status && r'.finalizer == r.finalizer
          && (r.deleting ==> r'.deleting)
          && (!r.finalizer ==> r'.deleting == r.deleting)
          && r.version <= r'.version
          && (r.version == r'.version ==> r' == r))
    && (forall n | n in w'.jobs && w'.jobs[n].owned :: n in w.jobs && w.jobs[n].owned)
    && w.log <= w'.log
    && (forall n: string :: w'.log[Created(n)] == w.log[Created(n)] && w'.log[Deleted(n)] == w.log[Deleted(n)])
  }

  lemma LedgerGone(w: World, n: string, e: Event)
    requires Ledger(w) && n in w.jobs && e in {Deleted(n), Removed(n)}
    ensures Ledger(w.(jobs := w.jobs - {n}, log := w.log + multiset{e}))
  {
  }

  lemma LedgerNew(w: World, n: string, job: Job, e: Event)
    requires Ledger(w) && n !in w.jobs && job.completionTime.None?
    requires e == Appeared(n) || (e == Created(n) && NoDeletes(w))
    ensures Ledger(w.(jobs := w.jobs[n := job], log := w.log + multiset{e}))
  {
    assert Deleted(n) in w.log || w.log[Deleted(n)] == 0;
  }

  lemma FinishedBalances(w: World, w': World, n: string)
    requires Balanced(w) && w'.jobs.Keys == w.jobs.Keys && w'.log == w.log + multiset{Finished(n)}
    ensures Balanced(w')
    ensures forall m: string :: w'.log[Created(m)] == w.log[Created(m)] && w'.log[Removed(m)] == w.log[Removed(m)]
  {
    assert forall m: string :: w'.log[Created(m)] == w.log[Created(m)] && w'.log[Appeared(m)] == w.log[Appeared(m)];
    assert forall m: string :: w'.log[Deleted(m)] == w.log[Deleted(m)] && w'.log[Removed(m)] == w.log[Removed(m)];
  }

  lemma LedgerFinished(w: World, n: string, job: Job)
    requires Ledger(w) && n in w.jobs
    ensures Ledger(w.(jobs := w.jobs[n := job], log := w.log + multiset{Finished(n)}))
  {
    var w' := w.(jobs := w.jobs[n := job], log := w.log + multiset{Finished(n)});
    FinishedBalances(w, w', n);
    assert w.log[Created(n)] + w.log[Appeared(n)] > 0;
    assert forall m: string | Finished(m) in w'.log :: m == n || Finished(m) in w.log;
  }

  lemma LedgerReport(w: World, n: string, job: Job)
    requires Ledger(w) && n in w.jobs
    ensures job.completionTime.None? ==> Ledger(w.(jobs := w.jobs[n := job]))
    ensures Ledger(w.(jobs := w.jobs[n := job], log := w.log + multiset{Finished(n)}))
  {
    LedgerFinished(w, n, job);
  }

  lemma LedgerSame(w: World, w': World)
    requires Ledger(w) && w'.jobs == w.jobs && w'.log == w.log
    ensures Ledger(w')
  {
  }

  lemma MoveLedger(w: World, e: EnvStep)
    requires Ledger(w)
    ensures Ledger(Move(w, e))
  {
    if e.JobReports? && e.job in w.jobs {
      LedgerReport(w, e.job, Move(w, e).jobs[e.job]);
    } else if e.JobRemoved? && e.job in w.jobs {
      LedgerGone(w, e.job, Removed(e.job));
    } else if e.JobAppears? && e.job !in w.jobs {
      LedgerNew(w, e.job, Job(e.spec, false, 0, 0, None, None), Appeared(e.job));
    } else {
      LedgerSame(w, Move(w, e));
    }
  }

  lemma MoveDrifts(w: World, e: EnvStep)
    ensures Drifted(w, Move(w, e))
  {
  }

  lemma MoveSafe(w: World, e: EnvStep)
    requires Inv(w)
    ensures Inv(Move(w, e)) && Next(w, Move(w, e)) && Drifted(w, Move(w, e))
  {
    MoveLedger(w, e);
    MoveDrifts(w, e);
    DriftedSafe(w, Move(w, e));
  }

  lemma DriftedSafe(w: World, w': World)
    requires Inv(w) && Drifted(w, w') && Ledger(w')
    ensures Inv(w') && Next(w, w')
  {
  }

  lemma {:induction false} DriftSafe(s: Sys, env: seq<EnvStep>)
    requires Good(s)
    ensures var s' := Drift(API, s, env); Good(s') && Drifted(s.world, s'.world) && s'.script == s.script
    decreases |env|
  {
    if env == [] {
    } else {
      assert Inv(s.Trace()[|s.past|]);
      MoveSafe(s.world, env[0]);
      var w := Move(s.world, env[0]);
      Extend(s, w);
      DriftSafe(s.Become(w), env[1..]);
    }
  }

  // ------------------------------------------------------------------ requests

  /** A request is served, if at all, in a world `d` the environment has brought about. */
  lemma Arrive(s: Sys, q: Request) returns (d: Sys)
    requires Good(s)
    ensures Good(d) && Drifted(s.world, d.world)
    ensures var (s', a) := Call(s, q);
            var (w, b) := Serve(d.world, q);
            (s' == d && a == Unreachable) || (s' == d.Become(w) && (a == b || a == Unreachable))
  {
    d := s;
    if s.script != [] {
      var turn := s.script[0];
      var s0 := s.(script := s.script[1..]);
      assert s0.Trace() == s.Trace();
      DriftSafe(s0, turn.env);
      d := Drift(API, s0, turn.env);
    }
  }

  ghost predicate Reads(q: Request) {
    q.GetRestore? || q.GetCluster? || q.GetBackup? || q.GetJob?
  }

  lemma ReadServed(w: World, q: Request)
    requires Reads(q)
    ensures Serve(w, q).0 == w
  {
  }

  lemma SameAgain(w: World)
    requires Inv(w)
    ensures Next(w, w)
  {
  }

  /** Served or not, a read leaves a lawful trace. */
  lemma ReadExtends(d: Sys)
    requires Good(d)
    ensures Good(d.Become(d.world)) && Inv(d.world)
  {
    assert Inv(d.Trace()[|d.past|]);
    SameAgain(d.world);
    Extend(d, d.world);
  }

  lemma CallReads(s: Sys, q: Request)
    requires Good(s) && Reads(q)
    ensures var (s', a) := Call(s, q);
            Good(s') && Inv(s'.world) && Drifted(s.world, s'.world) && (a == Unreachable || a == Serve(s'.world, q).1)
  {
    var d := Arrive(s, q);
    ReadServed(d.world, q);
    ReadExtends(d);
  }

  /**
   What a pass knows of the restore it holds in memory: the persisted entries are not yet
   there or sit in the same slots, and once Completed is persisted its version is stale.
   */
  ghost predicate Tracks(m: Restore, w: World) {
    && WellNamed(m)
    && Witnessed(m.status.entries, w.log)
    && m.finalizer
    && NoDeletes(w)
    && w.restore.Some?
    && var r := w.restore.value;
       && r.name == m.name && r.finalizer
       && m.version <= r.version
       && (r.status.phase == Completed ==> m.version < r.version)
       && (r.status.entries == [] || SameSlots(r.status.entries, m.status.entries))
       && (r.status.entries == [] ==> NoOwnedJob(w))
  }

  /** No slot from `i` on differs from what is persisted. */
  ghost predicate SyncedFrom(m: Restore, w: World, i: nat) {
    && w.restore.Some?
    && var entries := w.restore.value.status.entries;
       && |entries| == |m.status.entries|
       && (forall j | i <= j < |entries| :: entries[j].phase == m.status.entries[j].phase)
  }

  ghost function StatusOf(w: World): Option<RestoreStatus> {
    if w.restore.Some? then Some(w.restore.value.status) else None
  }

  lemma DriftKeeps(m: Restore, w: World, w': World)
    requires Tracks(m, w) && Drifted(w, w')
    ensures Tracks(m, w')
    ensures forall i: nat | SyncedFrom(m, w, i) :: SyncedFrom(m, w', i)
  {
    assert forall n: string :: w'.log[Deleted(n)] == w.log[Deleted(n)];
  }

  lemma CallReadsTracks(s: Sys, m: Restore, q: Request)
    requires Good(s) && Reads(q) && Tracks(m, s.world)
    ensures var (s', a) := Call(s, q);
            && Good(s') && Inv(s'.world) && Tracks(m, s'.world)
            && (a == Unreachable || a == Serve(s'.world, q).1)
            && StatusOf(s'.world) == StatusOf(s.world)
            && (forall i: nat | SyncedFrom(m, s.world, i) :: SyncedFrom(m, s'.world, i))
  {
    CallReads(s, q);
    DriftKeeps(m, s.world, Call(s, q).0.world);
  }

  /** A status write lands only on the version the caller holds. */
  ghost predicate Lands(w: World, m: Restore) {
    w.restore.Some? && w.restore.value.version == m.version
  }

  lemma StatusWriteSafe(w: World, m: Restore)
    requires Inv(w) && Tracks(m, w) && Lands(w, m)
    requires m.status.phase == Completed ==> AllCompleted(m.status.entries)
    ensures var w' := Serve(w, UpdateStatus(m)).0; Inv(w') && Next(w, w')
  {
    var r, r' := w.restore.value, StatusUpdated(w.restore.value, m);
    assert r'.status == m.status && r'.name == r.name && r'.finalizer && r'.deleting == r.deleting;
    var w' := w.(restore := Some(r'));
    assert Ledger(w');
    if r.status.entries != [] {
      CoveredStill(w, r.status.entries, m.status.entries);
    }
    assert RestoreInv(w', r');
  }

  lemma CoveredStill(w: World, before: seq<Entry>, after: seq<Entry>)
    requires Covered(w, before) && SameSlots(before, after)
    ensures Covered(w, after)
  {
    forall n | n in w.jobs && w.jobs[n].owned ensures Names(after, n) {
      var i :| 0 <= i < |before| && before[i].jobName == n;
      assert after[i].jobName == n;
    }
  }

  lemma StatusWriteTracks(w: World, m: Restore)
    requires Tracks(m, w) && Lands(w, m)
    ensures var (w', a) := Serve(w, UpdateStatus(m));
            && a.RestoreIs? && w'.restore == Some(a.restore)
            && a.restore.status == m.status && a.restore.name == m.name
            && Tracks(m, w')
            && (m.status.phase != Completed ==> Tracks(a.restore, w'))
  {
    var r, r' := w.restore.value, StatusUpdated(w.restore.value, m);
    assert r'.status == m.status;
    assert r.status.phase != Completed && m.status.phase == Completed ==> r'.version > m.version;
  }

  lemma CreateCovers(w: World, n: string, job: Job, log: multiset<Event>, entries: seq<Entry>)
    requires Covered(w, entries) && Names(entries, n)
    ensures Covered(w.(jobs := w.jobs[n := job], log := log), entries)
  {
  }

  lemma CreateSafe(w: World, spec: RestoreJob)
    requires Inv(w) && NoDeletes(w) && MayCreate(w, spec.name) && spec.name !in w.jobs
    ensures var w' := Serve(w, CreateJob(spec)).0; Inv(w') && Next(w, w')
  {
    var n, r := spec.name, w.restore.value;
    var job := Job(spec, true, 0, 0, None, None);
    LedgerNew(w, n, job, Created(n));
    CreateCovers(w, n, job, w.log + multiset{Created(n)}, r.status.entries);
    var w' := w.(jobs := w.jobs[n := job], log := w.log + multiset{Created(n)});
    assert RestoreInv(w', r);
    assert NoDeletes(w');
    CreateNext(w, w', n);
  }

  lemma CreateNext(w: World, w': World, n: string)
    requires MayCreate(w, n) && w'.restore == w.restore && w'.log == w.log + multiset{Created(n)}
    ensures Next(w, w')
  {
    assert w.restore.value.status.entries != [] ==>
      SameSlots(w.restore.value.status.entries, w.restore.value.status.entries);
  }

  lemma CallStatus(s: Sys, m: Restore)
    requires Good(s) && Tracks(m, s.world)
    requires m.status.phase == Completed ==> AllCompleted(m.status.entries)
    ensures var (s', a) := Call(s, UpdateStatus(m));
            && Good(s')
            && (a.RestoreIs? ==>
                  && s'.world.restore == Some(a.restore)
                  && a.restore.status == m.status && a.restore.name == m.name)
            && (!a.RestoreIs? ==> Tracks(m, s'.world))
            && (m.status.phase != Completed && a.RestoreIs? ==> Tracks(a.restore, s'.world))
  {
    var d := Arrive(s, UpdateStatus(m));
    DriftKeeps(m, s.world, d.world);
    assert Inv(d.Trace()[|d.past|]);
    if Lands(d.world, m) {
      StatusWriteSafe(d.world, m);
      StatusWriteTracks(d.world, m);
    }
    Extend(d, Serve(d.world, UpdateStatus(m)).0);
  }

  lemma HandleErrorSafe(s: Sys, m: Restore)
    requires Good(s) && Tracks(m, s.world)
    ensures Good(HandleError(s, m))
  {
    CallStatus(s, m.(status := m.status.(phase := Failed)));
  }

  /** A job more or less is nothing a pass keeps in mind. */
  lemma CreateTracks(m: Restore, w: World, spec: RestoreJob, i: nat)
    requires Tracks(m, w) && SyncedFrom(m, w, i) && w.restore.value.status.entries != []
    ensures var w' := Serve(w, CreateJob(spec)).0; Tracks(m, w') && SyncedFrom(m, w', i) && StatusOf(w') == StatusOf(w)
  {
    var w' := Serve(w, CreateJob(spec)).0;
    assert w'.restore == w.restore && w.log <= w'.log;
    assert forall n: string :: w'.log[Deleted(n)] == w.log[Deleted(n)];
  }

  /** Creating the job of slot `i` when that slot is not Completed. */
  lemma CallCreate(s: Sys, m: Restore, i: nat, spec: RestoreJob)
    requires Good(s) && Tracks(m, s.world) && SyncedFrom(m, s.world, i)
    requires i < |m.status.entries| && m.status.entries[i].phase != Completed
    requires spec.name == m.status.entries[i].jobName
    ensures var s' := Call(s, CreateJob(spec)).0;
            && Good(s') && Tracks(m, s'.world) && SyncedFrom(m, s'.world, i)
            && StatusOf(s'.world) == StatusOf(s.world)
  {
    var d := Arrive(s, CreateJob(spec));
    DriftKeeps(m, s.world, d.world);
    assert Inv(d.Trace()[|d.past|]);
    var entries := d.world.restore.value.status.entries;
    assert SameSlots(entries, m.status.entries);
    assert entries[i].jobName == spec.name && entries[i].phase != Completed;
    assert MayCreate(d.world, spec.name);
    var w := Serve(d.world, CreateJob(spec)).0;
    if spec.name !in d.world.jobs {
      CreateSafe(d.world, spec);
    }
    CreateTracks(m, d.world, spec, i);
    Extend(d, w);
  }

  // ------------------------------------------------------------------ the parts of a pass

  ghost predicate Slots(entries: seq<Entry>, targets: seq<InstanceSpec>) {
    && |entries| == |targets|
    && forall i | 0 <= i < |entries| :: entries[i].name == targets[i].name
  }

  /** The recorded instances are the targets, or none is recorded yet. */
  ghost predicate Recorded(entries: seq<Entry>, targets: seq<InstanceSpec>) {
    entries == [] || Slots(entries, targets)
  }

  /** At least those of the open slots; a slot that is Completed is not looked at. */
  ghost predicate OpenSlots(entries: seq<Entry>, targets: seq<InstanceSpec>) {
    && |entries| == |targets|
    && forall i | 0 <= i < |entries| && entries[i].phase != Completed :: entries[i].name == targets[i].name
  }

  ghost predicate Kept(entries: seq<Entry>, targets: seq<InstanceSpec>) {
    entries == [] || OpenSlots(entries, targets)
  }

  lemma InitSafe(s: Sys, m: Restore, targets: seq<InstanceSpec>)
    requires Good(s) && Tracks(m, s.world) && SyncedFrom(m, s.world, 0)
    requires m.status.phase != Completed && Kept(m.status.entries, targets)
    ensures var p := InitEntries(s, m, targets);
            && Good(p.s) && Tracks(p.m, p.s.world) && p.m.status.phase != Completed
            && (p.ok ==> OpenSlots(p.m.status.entries, targets) && SyncedFrom(p.m, p.s.world, 0))
            && (p.ok && Recorded(m.status.entries, targets) ==> Slots(p.m.status.entries, targets))
  {
    if |m.status.entries| != |targets| {
      var m' := m.(status := m.status.(entries := FreshEntries(m.name, targets)));
      assert s.world.restore.value.status.entries == [];
      assert Tracks(m', s.world);
      CallStatus(s, m');
    }
  }

  lemma SetEntryKeeps(m: Restore, w: World, i: nat, e: Entry)
    requires Tracks(m, w) && i < |m.status.entries|
    requires m.status.entries[i].phase != Completed
    requires e.name == m.status.entries[i].name && e.jobName == m.status.entries[i].jobName
    requires e.phase == Completed ==> Finished(e.jobName) in w.log
    ensures Tracks(SetEntry(m, i, e), w)
    ensures SyncedFrom(m, w, i + 1) ==> SyncedFrom(SetEntry(m, i, e), w, i + 1)
    ensures SameSlots(m.status.entries, SetEntry(m, i, e).status.entries)
  {
  }

  lemma UpdateJobStatusSafe(s: Sys, m: Restore, i: nat, jobName: string)
    requires Good(s) && Tracks(m, s.world)
    requires i < |m.status.entries| && m.status.entries[i].jobName == jobName
    requires m.status.entries[i].phase != Completed && SyncedFrom(m, s.world, i + 1)
    ensures var p := UpdateJobStatus(s, m, i, jobName);
            && Good(p.s) && Tracks(p.m, p.s.world) && p.m.status.phase == m.status.phase
            && StatusOf(p.s.world) == StatusOf(s.world)
            && SameSlots(m.status.entries, p.m.status.entries) && SyncedFrom(p.m, p.s.world, i + 1)
  {
    if jobName != "" {
      CallReadsTracks(s, m, GetJob(jobName));
      var (s', a) := Call(s, GetJob(jobName));
      if a.JobIs? {
        SetEntryKeeps(m, s'.world, i, Observed(a.found, m.status.entries[i]));
      }
    }
  }

  lemma SyncedMore(m: Restore, w: World, i: nat)
    requires SyncedFrom(m, w, i)
    ensures SyncedFrom(m, w, i + 1)
  {
  }

  lemma CreateMissingSafe(s: Sys, m: Restore, i: nat, job: Result<RestoreJob>)
    requires Good(s) && Tracks(m, s.world)
    requires i < |m.status.entries| && (job.Ok? ==> m.status.entries[i].jobName == job.value.name)
    requires m.status.entries[i].phase != Completed && SyncedFrom(m, s.world, i)
    ensures var p := CreateMissing(s, m, i, job);
            && Good(p.s) && Tracks(p.m, p.s.world) && p.m.status.phase == m.status.phase
            && StatusOf(p.s.world) == StatusOf(s.world)
            && SameSlots(m.status.entries, p.m.status.entries) && (p.ok ==> SyncedFrom(p.m, p.s.world, i + 1))
  {
    if job.Ok? {
      CallCreate(s, m, i, job.value);
      var (s', created) := Call(s, CreateJob(job.value));
      if created.Done? {
        SyncedMore(m, s'.world, i);
        var e := m.status.entries[i].(phase := Running, startTime := Some(s'.world.now));
        SetEntryKeeps(m, s'.world, i, e);
        UpdateJobStatusSafe(s', SetEntry(m, i, e), i, job.value.name);
      }
    }
  }

  /** Each job that can be built for an open slot bears the name the slot records. */
  ghost predicate Fits(m: Restore, jobs: seq<Result<RestoreJob>>) {
    && |jobs| == |m.status.entries|
    && forall i | 0 <= i < |jobs| && jobs[i].Ok? && m.status.entries[i].phase != Completed ::
         jobs[i].value.name == m.status.entries[i].jobName
  }

  lemma SlotsFit(m: Restore, c: PostgresCluster, b: PostgresBackup, targets: seq<InstanceSpec>)
    requires WellNamed(m) && OpenSlots(m.status.entries, targets)
    ensures Fits(m, JobsFor(m, c, b, targets))
  {
  }

  lemma VisitSafe(s: Sys, m: Restore, jobs: seq<Result<RestoreJob>>, i: nat)
    requires Good(s) && Tracks(m, s.world) && SyncedFrom(m, s.world, i)
    requires Fits(m, jobs) && i < |jobs|
    ensures var p := Visit(s, m, jobs[i], i);
            && Good(p.s) && Tracks(p.m, p.s.world) && p.m.status.phase == m.status.phase
            && StatusOf(p.s.world) == StatusOf(s.world)
            && SameSlots(m.status.entries, p.m.status.entries) && Fits(p.m, jobs)
            && (p.ok ==> SyncedFrom(p.m, p.s.world, i + 1))
  {
    var e := m.status.entries[i];
    if e.phase == Completed {
      SyncedMore(m, s.world, i);
    } else {
      CallReadsTracks(s, m, GetJob(e.jobName));
      var (s', a) := Call(s, GetJob(e.jobName));
      SyncedMore(m, s'.world, i);
      if a.JobIs? {
        UpdateJobStatusSafe(s', m, i, e.jobName);
      } else if a.NotFound? {
        CreateMissingSafe(s', m, i, jobs[i]);
      }
    }
  }

  lemma {:induction false} VisitFromSafe(
      s: Sys, m: Restore, jobs: seq<Result<RestoreJob>>, i: nat)
    requires Good(s) && Tracks(m, s.world) && SyncedFrom(m, s.world, i)
    requires Fits(m, jobs) && i <= |jobs|
    ensures var p := VisitFrom(s, m, jobs, i);
            && Good(p.s) && Tracks(p.m, p.s.world) && p.m.status.phase == m.status.phase
            && StatusOf(p.s.world) == StatusOf(s.world)
            && SameSlots(m.status.entries, p.m.status.entries)
    decreases |jobs| - i
  {
    if i < |jobs| {
      VisitSafe(s, m, jobs, i);
      var p := Visit(s, m, jobs[i], i);
      if p.ok {
        VisitFromSafe(p.s, p.m, jobs, i + 1);
      }
    }
  }

  lemma {:induction false} TallyBounds(entries: seq<Entry>, phase: Phase)
    ensures Tally(entries, phase) <= |entries|
    ensures Tally(entries, phase) == |entries| <==> forall i | 0 <= i < |entries| :: entries[i].phase == phase
    ensures Tally(entries, phase) > 0 <==> exists i :: 0 <= i < |entries| && entries[i].phase == phase
  {
    if entries != [] {
      var init := entries[..|entries| - 1];
      TallyBounds(init, phase);
      assert forall i | 0 <= i < |init| :: init[i] == entries[i];
    }
  }

  lemma UpdateRestoreStatusSafe(s: Sys, m: Restore)
    requires Good(s) && Tracks(m, s.world)
    ensures var p := UpdateRestoreStatus(s, m);
            Good(p.s) && (!p.ok ==> Tracks(p.m, p.s.world))
  {
    TallyBounds(m.status.entries, Completed);
    CallStatus(s, WithAggregate(m, s.world.now));
  }

  lemma ReconcileTargetsSafe(s: Sys, m: Restore, c: PostgresCluster, b: PostgresBackup, targets: seq<InstanceSpec>)
    requires Good(s) && Tracks(m, s.world) && SyncedFrom(m, s.world, 0)
    requires m.status.phase != Completed && Kept(m.status.entries, targets)
    ensures var p := ReconcileTargets(s, m, c, b, targets);
            Good(p.s) && (!p.ok ==> Tracks(p.m, p.s.world))
  {
    InitSafe(s, m, targets);
    var p := InitEntries(s, m, targets);
    if p.ok {
      var jobs := JobsFor(p.m, c, b, targets);
      SlotsFit(p.m, c, b, targets);
      VisitFromSafe(p.s, p.m, jobs, 0);
      var v := VisitFrom(p.s, p.m, jobs, 0);
      if v.ok {
        UpdateRestoreStatusSafe(v.s, v.m);
      }
    }
  }

  // ------------------------------------------------------------------ deletion

  /** Deleting, with every job still owned named by an entry from `i` on. */
  ghost predicate Draining(m: Restore, w: World, i: nat) {
    && w.restore.Some?
    && var r := w.restore.value;
       && r.deleting && r.finalizer && WellNamed(r)
       && r.status.entries == m.status.entries && i <= |m.status.entries|
       && (forall n | n in w.jobs && w.jobs[n].owned :: Names(m.status.entries[i..], n))
  }

  lemma DriftDrains(m: Restore, w: World, w': World, i: nat)
    requires Draining(m, w, i) && Drifted(w, w')
    ensures Draining(m, w', i)
  {
  }

  lemma DeleteSafe(w: World, n: string)
    requires Inv(w) && n in w.jobs && w.restore.Some? && w.restore.value.deleting
    ensures var w' := Serve(w, DeleteJob(n)).0; Inv(w') && Next(w, w')
  {
    LedgerGone(w, n, Deleted(n));
    var w' := w.(jobs := w.jobs - {n}, log := w.log + multiset{Deleted(n)});
    assert Covered(w', w.restore.value.status.entries);
    assert RestoreInv(w', w.restore.value);
  }

  lemma DeleteDrains(m: Restore, w: World, i: nat)
    requires Draining(m, w, i) && i < |m.status.entries|
    ensures Draining(m, Serve(w, DeleteJob(m.status.entries[i].jobName)).0, i + 1)
  {
    var w' := Serve(w, DeleteJob(m.status.entries[i].jobName)).0;
    forall k | k in w'.jobs && w'.jobs[k].owned ensures Names(m.status.entries[i + 1..], k) {
      var j :| 0 <= j < |m.status.entries[i..]| && m.status.entries[i..][j].jobName == k;
      assert m.status.entries[i + 1..][j - 1].jobName == k;
    }
  }

  lemma {:induction false} DeleteJobsSafe(s: Sys, m: Restore, i: nat)
    requires Good(s) && Draining(m, s.world, i)
    ensures var (s', deleted) := DeleteJobsFrom(s, m, i);
            Good(s') && (deleted ==> Draining(m, s'.world, |m.status.entries|))
    decreases |m.status.entries| - i
  {
    if i < |m.status.entries| {
      var n := m.status.entries[i].jobName;
      var d := Arrive(s, DeleteJob(n));
      DriftDrains(m, s.world, d.world, i);
      assert Inv(d.Trace()[|d.past|]);
      DeleteDrains(m, d.world, i);
      if n in d.world.jobs {
        DeleteSafe(d.world, n);
      }
      Extend(d, Serve(d.world, DeleteJob(n)).0);
      var (s', a) := Call(s, DeleteJob(n));
      if a.Done? || a.NotFound? {
        DeleteJobsSafe(s', m, i + 1);
      }
    }
  }

  lemma UpdateSafe(w: World, sent: Restore)
    requires Inv(w) && (w.restore.Some? && !sent.finalizer ==> w.restore.value.deleting && NoOwnedJob(w))
    ensures var w' := Serve(w, UpdateRestore(sent)).0; Inv(w') && Next(w, w')
  {
    if w.restore.Some? && w.restore.value.version == sent.version {
      var r, r' := w.restore.value, Updated(w.restore.value, sent);
      assert r'.status == r.status && r'.name == r.name && r'.deleting == r.deleting;
      var w' := w.(restore := if r'.deleting && !r'.finalizer then None else Some(r'));
      assert Ledger(w');
      assert RestoreInv(w, r);
      if w'.restore.Some? {
        assert r'.finalizer;
        assert RestoreInv(w', r');
      }
    }
  }

  lemma HandleDeletionSafe(s: Sys, m: Restore)
    requires Good(s) && Draining(m, s.world, 0)
    ensures Good(HandleDeletion(s, m).0)
  {
    DeleteJobsSafe(s, m, 0);
    var (s', deleted) := DeleteJobsFrom(s, m, 0);
    if deleted {
      var sent := m.(finalizer := false);
      var d := Arrive(s', UpdateRestore(sent));
      DriftDrains(m, s'.world, d.world, |m.status.entries|);
      assert m.status.entries[|m.status.entries|..] == [];
      assert Inv(d.Trace()[|d.past|]);
      UpdateSafe(d.world, sent);
      Extend(d, Serve(d.world, UpdateRestore(sent)).0);
    }
  }

  // ------------------------------------------------------------------ a whole pass

  lemma AddFinalizerSafe(s: Sys, m: Restore)
    requires Good(s)
    ensures Good(Call(s, UpdateRestore(m.(finalizer := true))).0)
  {
    var sent := m.(finalizer := true);
    var d := Arrive(s, UpdateRestore(sent));
    assert Inv(d.Trace()[|d.past|]);
    UpdateSafe(d.world, sent);
    Extend(d, Serve(d.world, UpdateRestore(sent)).0);
  }

  lemma FetchRefsSafe(s: Sys, m: Restore)
    requires Good(s) && Tracks(m, s.world) && SyncedFrom(m, s.world, 0)
    ensures var (s2, cluster) := Call(s, GetCluster(m.spec.targetCluster.In(m.namespace)));
            && (!cluster.ClusterIs? ==> Good(HandleError(s2, m)))
            && var (s3, backup) := Call(s2, GetBackup(m.spec.backupRef.In(m.namespace)));
               && (!backup.BackupIs? ==> Good(HandleError(s3, m)))
               && Good(s3) && Tracks(m, s3.world) && SyncedFrom(m, s3.world, 0)
  {
    var q2 := GetCluster(m.spec.targetCluster.In(m.namespace));
    CallReadsTracks(s, m, q2);
    var s2 := Call(s, q2).0;
    HandleErrorSafe(s2, m);
    var q3 := GetBackup(m.spec.backupRef.In(m.namespace));
    CallReadsTracks(s2, m, q3);
    HandleErrorSafe(Call(s2, q3).0, m);
  }

  lemma DefaultsTrack(m: Restore, w: World)
    requires Tracks(m, w) && SyncedFrom(m, w, 0)
    ensures Tracks(SetDefaults(m), w) && SyncedFrom(SetDefaults(m), w, 0)
  {
    assert SetDefaults(m).status == m.status;
  }

  lemma FetchSafe(s: Sys)
    requires Good(s)
    ensures var (s', f) := Fetch(s);
            && Good(s')
            && (f.Ready? ==> Tracks(f.m, s'.world) && SyncedFrom(f.m, s'.world, 0) && f.m.status.phase != Completed)
  {
    CallReads(s, GetRestore);
    var (s1, got) := Call(s, GetRestore);
    if got.RestoreIs? {
      var m := got.restore;
      assert s1.world.restore == Some(m) && RestoreInv(s1.world, m);
      if m.deleting {
        assert m.status.entries[0..] == m.status.entries;
        HandleDeletionSafe(s1, m);
      } else if !m.finalizer {
        AddFinalizerSafe(s1, m);
      } else if m.status.phase != Completed {
        FetchRefsSafe(s1, m);
        var s2 := Call(s1, GetCluster(m.spec.targetCluster.In(m.namespace))).0;
        DefaultsTrack(m, Call(s2, GetBackup(m.spec.backupRef.In(m.namespace))).0.world);
      }
    }
  }

  /**
   The condition under which the controller's bookkeeping is right: when a pass resolves its
   targets, they are the instances its open slots record, or none is recorded yet.
   */
  ghost predicate TargetsKept(s: Sys) {
    var f := Fetch(s).1;
    f.Ready? ==>
      var targets := Selectors.RestoreTargets(f.cluster.spec.instances, f.m.spec.instances);
      targets.Ok? ==> Kept(f.m.status.entries, targets.value)
  }

  /** All recorded instances are the targets, in order. */
  ghost predicate TargetsRecorded(s: Sys) {
    var f := Fetch(s).1;
    f.Ready? ==>
      var targets := Selectors.RestoreTargets(f.cluster.spec.instances, f.m.spec.instances);
      targets.Ok? ==> Recorded(f.m.status.entries, targets.value)
  }

  lemma ReconcileSafe(s: Sys)
    requires Good(s) && TargetsKept(s)
    ensures Good(Reconcile(s).0)
  {
    FetchSafe(s);
    var (s', f) := Fetch(s);
    if f.Ready? {
      var targets := Selectors.RestoreTargets(f.cluster.spec.instances, f.m.spec.instances);
      if targets.Ok? {
        ReconcileTargetsSafe(s', f.m, f.cluster, f.backup, targets.value);
      }
      var p := ReconcileRestore(s', f.m, f.cluster, f.backup);
      if !p.ok {
        HandleErrorSafe(p.s, p.m);
      }
    }
  }
}
