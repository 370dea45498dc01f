/**
 What a backup and a later restore must agree on: the kind of backup, the database, the
 instance, and the meaning of a job's state.
 */
module BackupAgreement {
  import opened Wrappers
  import opened ApiTypes
  import opened BackupText
  import BackupJobs
  import BackupController
  import RestoreJobs
  import RestoreModel
  import Selectors
  import PostgresConf

  // ------------------------------------------------------------------ the kind

  lemma {:induction false} TrimIdempotent(s: string)
    ensures TrimSpace(TrimSpace(s)) == TrimSpace(s)
    decreases |s|
  {
    if s == "" {
    } else if IsSpace(s[0]) {
      TrimIdempotent(s[1..]);
    } else if IsSpace(s[|s| - 1]) {
      TrimIdempotent(s[..|s| - 1]);
    }
  }

  lemma LowerCharSpace(c: char)
    ensures IsSpace(LowerChar(c)) <==> IsSpace(c)
    ensures LowerChar(LowerChar(c)) == LowerChar(c)
  {
  }

  lemma LowerAt(s: string, t: string)
    requires |s| == |t| && forall i :: 0 <= i < |s| ==> t[i] == LowerChar(s[i])
    ensures t == ToLower(s)
  {
  }

  /** Trimming and lower-casing can be swapped. */
  lemma {:induction false} TrimLower(s: string)
    ensures TrimSpace(ToLower(s)) == ToLower(TrimSpace(s))
    decreases |s|
  {
    if s != "" {
      LowerCharSpace(s[0]);
      LowerCharSpace(s[|s| - 1]);
      if IsSpace(s[0]) {
        assert ToLower(s)[1..] == ToLower(s[1..]);
        TrimLower(s[1..]);
      } else if IsSpace(s[|s| - 1]) {
        LowerAt(s[..|s| - 1], ToLower(s)[..|s| - 1]);
        TrimLower(s[..|s| - 1]);
      }
    }
  }

  lemma LowerIdempotent(s: string)
    ensures ToLower(ToLower(s)) == ToLower(s)
  {
    forall i | 0 <= i < |s| ensures LowerChar(ToLower(s)[i]) == ToLower(s)[i] {
      LowerCharSpace(s[i]);
    }
    LowerAt(ToLower(s), ToLower(s));
  }

  ghost predicate Letters(s: string) {
    s != "" && forall i | 0 <= i < |s| :: 'a' <= s[i] <= 'z'
  }

  /** Small letters alone are their own normal form, but for the synonyms. */
  lemma LettersStay(s: string)
    requires Letters(s)
    ensures ToLower(TrimSpace(s)) == s
  {
    LowerAt(s, s);
  }

  lemma PhysicalStays()
    ensures NormalizeBackupType("physical") == "physical"
  {
    assert Letters("physical");
    LettersStay("physical");
  }

  ghost function Lowered(t: string): string {
    ToLower(TrimSpace(t))
  }

  lemma LoweredStays(t: string)
    ensures Lowered(Lowered(t)) == Lowered(t) && Lowered(ToLower(t)) == Lowered(t) && Lowered(TrimSpace(t)) == Lowered(t)
  {
    TrimIdempotent(t);
    TrimLower(t);
    LowerIdempotent(TrimSpace(t));
    TrimLower(TrimSpace(t));
  }

  lemma NormalizedOrLowered(t: string)
    ensures NormalizeBackupType(t) == "physical" || NormalizeBackupType(t) == Lowered(t)
  {
  }

  lemma SameLowered(t: string, t': string)
    requires Lowered(t) == Lowered(t')
    ensures NormalizeBackupType(t) == NormalizeBackupType(t')
  {
  }

  /** A normalized type stays as it is, and case and surrounding space do not matter. */
  lemma NormalizeIdempotent(t: string)
    ensures NormalizeBackupType(NormalizeBackupType(t)) == NormalizeBackupType(t)
    ensures NormalizeBackupType(ToLower(t)) == NormalizeBackupType(t)
    ensures NormalizeBackupType(TrimSpace(t)) == NormalizeBackupType(t)
  {
    LoweredStays(t);
    NormalizedOrLowered(t);
    SameLowered(t, Lowered(t));
    SameLowered(t, ToLower(t));
    SameLowered(t, TrimSpace(t));
    PhysicalStays();
  }

  ghost predicate Accepted(t: string) {
    NormalizeBackupType(t) == "logical" || NormalizeBackupType(t) == "physical"
  }

  /**
   For every type, the backup builder accepts it exactly when the restore builder does, given
   the claim it also needs; and a dump is restored with pg_restore, a base backup by copying.
   */
  lemma BuildersAgree(backup: PostgresBackup, options: RestoreOptions, database: DatabaseSpec, cluster: PostgresCluster,
                      instance: Option<InstanceSpec>, order: seq<string>)
    requires PostgresConf.IsOrder(BackupJobs.ConfigOf(instance), order)
    requires RestoreJobs.Lookup(cluster.spec.backupStorage, "pvcName") != ""
    ensures var job := BackupJobs.BackupJobFor(backup, cluster, instance, order);
            var command := RestoreJobs.RestoreCommand(backup, options, database);
            && (job.Ok? <==> command.Ok?) && (job.Ok? <==> Accepted(backup.spec.kind))
            && (job.Ok? ==>
                  && (job.value.command == "pg_dump" <==> command.value[0] == RestoreJobs.Text("pg_restore"))
                  && (job.value.command == "pg_basebackup" <==> command.value == RestoreJobs.PHYSICAL_COMMAND))
  {
    assert "pg_dump"[3] != "pg_basebackup"[3];
    assert "pg_restore"[0] != "mkdir -p /var/lib/postgresql/data"[0];
    if RestoreJobs.RestoreCommand(backup, options, database).Ok? && NormalizeBackupType(backup.spec.kind) == "logical" {
      LogicalStarts(options, database);
    }
  }

  lemma LogicalStarts(options: RestoreOptions, database: DatabaseSpec)
    ensures var cmd := RestoreJobs.LogicalCommand(options, database);
            && |cmd| >= 5 && cmd[0] == RestoreJobs.Text("pg_restore")
            && cmd[4] == RestoreJobs.Text("--dbname=" + RestoreJobs.RestoredDatabase(database))
  {
    var base := RestoreJobs.LogicalBase(database);
    assert base[0] == RestoreJobs.Text("pg_restore");
  }

  /** The defaults do not change what kind of backup is asked for. */
  lemma DefaultsKeepKind(spec: BackupSpec)
    ensures NormalizeBackupType(BackupController.Defaulted(spec).kind) == NormalizeBackupType(spec.kind)
    ensures BackupController.Defaulted(BackupController.Defaulted(spec)) == BackupController.Defaulted(spec)
  {
    assert NormalizeBackupType("full") == "physical" by {
      assert Letters("full");
      LettersStay("full");
    }
    assert TrimSpace("") == "";
    assert NormalizeBackupType("") == "physical";
  }

  // ------------------------------------------------------------------ the database

  /** The argument that names the database in pg_dump's command line. */
  lemma DumpNames(backup: PostgresBackup, cluster: PostgresCluster, instance: Option<InstanceSpec>, order: seq<string>)
    requires PostgresConf.IsOrder(BackupJobs.ConfigOf(instance), order)
    ensures var args := BackupJobs.LogicalArgs(backup, cluster, instance, order);
            |args| >= 6 && args[4] == BackupJobs.Text("-d")
            && args[5] == BackupJobs.Text(BackupJobs.DumpedDatabase(cluster, instance))
  {
    var base := BackupJobs.LogicalBase(BackupJobs.TargetHost(cluster, instance), BackupJobs.DumpedDatabase(cluster, instance));
    assert base[4] == BackupJobs.Text("-d") && base[5] == BackupJobs.Text(BackupJobs.DumpedDatabase(cluster, instance));
  }

  /** The database a logical backup dumps is the one its status reports, for every input. */
  lemma DumpedIsReported(backup: PostgresBackup, cluster: PostgresCluster, target: Option<InstanceSpec>, order: seq<string>,
                         before: BackupController.BackupStatus, report: BackupController.JobReport)
    requires PostgresConf.IsOrder(BackupJobs.ConfigOf(target), order)
    ensures var job := BackupJobs.BackupJobFor(backup, cluster, target, order);
            var status := BackupController.StatusAfter(before, backup.spec, report, cluster, target);
            job.Ok? && job.value.kind == "logical" ==>
              |job.value.args| >= 6 && job.value.args[5] == BackupJobs.Text(status.database.name)
  {
    DumpNames(backup, cluster, target, order);
    assert "logical" != "physical";
  }

  /**
   A logical backup of an instance and a restore into it work on the same database exactly when
   a named override settles it, or there is no override and the cluster names its database, or
   the cluster's is the one a restore falls back to.
   */
  lemma DumpedIsRestored(cluster: PostgresCluster, instance: InstanceSpec)
    ensures BackupJobs.DumpedDatabase(cluster, Some(instance))
         == RestoreJobs.RestoredDatabase(cluster.spec.DatabaseOf(instance))
       <==> || (instance.database.Some? && instance.database.value.name != "")
            || (instance.database.None? && cluster.spec.database.name != "")
            || cluster.spec.database.name == "postgres"
  {
    assert "postgres" != "";
  }

  lemma TextInjective(a: string, b: string)
    ensures RestoreJobs.Text("--dbname=" + a) == RestoreJobs.Text("--dbname=" + b) <==> a == b
  {
    var n := |"--dbname="|;
    assert ("--dbname=" + a)[n..] == a && ("--dbname=" + b)[n..] == b;
  }

  /** Both jobs name the database in their command lines; the names agree under that condition. */
  lemma CommandsAgree(backup: PostgresBackup, options: RestoreOptions, cluster: PostgresCluster, instance: InstanceSpec, order: seq<string>)
    requires PostgresConf.IsOrder(instance.config, order)
    requires NormalizeBackupType(backup.spec.kind) == "logical"
    ensures var args := BackupJobs.LogicalArgs(backup, cluster, Some(instance), order);
            var command := RestoreJobs.RestoreCommand(backup, options, cluster.spec.DatabaseOf(instance));
            && |args| >= 6 && args[5].Text? && command.Ok? && |command.value| >= 5
            && (command.value[4] == RestoreJobs.Text("--dbname=" + args[5].text)
                <==> || (instance.database.Some? && instance.database.value.name != "")
                     || (instance.database.None? && cluster.spec.database.name != "")
                     || cluster.spec.database.name == "postgres")
  {
    DumpNames(backup, cluster, Some(instance), order);
    LogicalStarts(options, cluster.spec.DatabaseOf(instance));
    DumpedIsRestored(cluster, instance);
    TextInjective(RestoreJobs.RestoredDatabase(cluster.spec.DatabaseOf(instance)), BackupJobs.DumpedDatabase(cluster, Some(instance)));
  }

  // ------------------------------------------------------------------ the instance

  ghost predicate IsFirst(instances: seq<InstanceSpec>, names: seq<string>, i: nat, found: Option<InstanceSpec>) {
    && i < |names| && Selectors.Find(instances, names[i]) == found
    && forall j | 0 <= j < i :: Selectors.Find(instances, names[j]).None?
  }

  /** The instance taken is the first one whose name is known, in the order of the names. */
  lemma {:induction false} FirstKnownIsFirst(instances: seq<InstanceSpec>, names: seq<string>)
    ensures var found := BackupController.FirstKnown(instances, names);
            && (found.None? <==> forall i | 0 <= i < |names| :: Selectors.Find(instances, names[i]).None?)
            && (found.Some? ==> exists i: nat :: IsFirst(instances, names, i, found))
  {
    if names != [] && Selectors.Find(instances, names[0]).Some? {
      assert IsFirst(instances, names, 0, Selectors.Find(instances, names[0]));
    } else if names != [] {
      var rest := names[1..];
      FirstKnownIsFirst(instances, rest);
      assert forall i | 1 <= i < |names| :: names[i] == rest[i - 1];
      var found := BackupController.FirstKnown(instances, rest);
      if found.Some? {
        var i: nat :| IsFirst(instances, rest, i, found);
        assert IsFirst(instances, names, i + 1, found);
      } else {
        forall i | 0 <= i < |names| ensures Selectors.Find(instances, names[i]).None? {
          if i > 0 { assert Selectors.Find(instances, rest[i - 1]).None?; }
        }
      }
    }
  }

  /** Where a restore takes a list of names, a backup with the same list takes the restore's first target. */
  lemma BackupTakesFirstTarget(instances: seq<InstanceSpec>, selector: InstanceSelector)
    requires selector.names != [] && instances != []
    requires Selectors.RestoreTargets(instances, Some(selector)).Ok?
    ensures var targets := Selectors.RestoreTargets(instances, Some(selector)).value;
            targets != [] && BackupController.BackupTarget(instances, Some(selector)) == Ok(Some(targets[0]))
  {
  }

  // ------------------------------------------------------------------ the job's state

  function RestoreView(phase: BackupController.BackupPhase): RestoreModel.Phase {
    match phase
    case Unset => RestoreModel.Unset
    case Pending => RestoreModel.Pending
    case Running => RestoreModel.Running
    case Failed => RestoreModel.Failed
    case Completed => RestoreModel.Completed
  }

  /**
   Backup and restore read the same state off the same job, but for an idle one: the backup
   goes back to Pending, the restore leaves the entry's phase as it is.
   */
  lemma JobsReadAlike(job: RestoreModel.Job, name: string, e: RestoreModel.Entry)
    ensures var report := BackupController.JobReport(name, job.active, job.failed, job.startTime, job.completionTime);
            (RestoreModel.Observed(job, e).phase == RestoreView(BackupController.PhaseOf(report))
             <==> job.completionTime.Some? || job.failed > 0 || job.active > 0 || e.phase == RestoreModel.Pending)
  {
  }
}
