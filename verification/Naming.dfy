/** The names the operator derives for the objects it creates, and when they cannot collide. */
module Naming {
  /** getInstanceResourceName: one Service and one StatefulSet of this name per instance. */
  function ResourceName(cluster: string, instance: string): string {
    cluster + "-" + instance
  }

  function RestoreJobName(restore: string, instance: string): string {
    restore + "-" + instance + "-restore"
  }

  const MAX_JOB_NAME := 63

  function BackupJobName(backup: string): (name: string) {
    var full := backup + "-job";
    if |full| > MAX_JOB_NAME then full[..MAX_JOB_NAME] else full
  }

  predicate HyphenFree(s: string) {
    '-' !in s
  }

  // ------------------------------------------------------------------ within one parent

  lemma ResourceNameInjective(cluster: string, a: string, b: string)
    ensures ResourceName(cluster, a) == ResourceName(cluster, b) ==> a == b
  {
    var n := |cluster| + 1;
    assert ResourceName(cluster, a)[n..] == a && ResourceName(cluster, b)[n..] == b;
  }

  lemma SameSuffix(a: string, b: string, suffix: string)
    ensures a + suffix == b + suffix ==> a == b
  {
    if a + suffix == b + suffix {
      assert |a| == |b|;
      assert (a + suffix)[..|a|] == a && (b + suffix)[..|b|] == b;
    }
  }

  lemma RestoreJobNameInjective(restore: string, a: string, b: string)
    ensures RestoreJobName(restore, a) == RestoreJobName(restore, b) ==> a == b
  {
    SameSuffix(ResourceName(restore, a), ResourceName(restore, b), "-restore");
    ResourceNameInjective(restore, a, b);
  }

  // ------------------------------------------------------------------ across parents

  /** With hyphen-free instances the last hyphen separates parent and instance. */
  lemma ResourceNameSplits(parent: string, a: string, parent': string, b: string)
    requires HyphenFree(a) && HyphenFree(b)
    ensures ResourceName(parent, a) == ResourceName(parent', b) ==> parent == parent' && a == b
  {
    var n, n' := ResourceName(parent, a), ResourceName(parent', b);
    LastHyphen(parent, a);
    LastHyphen(parent', b);
    if n == n' {
      assert n[|parent|] == '-' && n'[|parent'|] == '-';
      assert |parent| == |parent'|;
      assert n[..|parent|] == parent && n'[..|parent'|] == parent';
      ResourceNameInjective(parent, a, b);
    }
  }

  lemma LastHyphen(parent: string, a: string)
    requires HyphenFree(a)
    ensures forall i | |parent| < i < |ResourceName(parent, a)| :: ResourceName(parent, a)[i] != '-'
  {
    forall i | |parent| < i < |ResourceName(parent, a)| ensures ResourceName(parent, a)[i] != '-' {
      assert ResourceName(parent, a)[i] == a[i - |parent| - 1];
    }
  }

  lemma RestoreJobNameSplits(parent: string, a: string, parent': string, b: string)
    requires HyphenFree(a) && HyphenFree(b)
    ensures RestoreJobName(parent, a) == RestoreJobName(parent', b) ==> parent == parent' && a == b
  {
    SameSuffix(ResourceName(parent, a), ResourceName(parent', b), "-restore");
    ResourceNameSplits(parent, a, parent', b);
  }

  /** A hyphen in an instance's name is enough for two parents to collide. */
  lemma HyphensCollide(parent: string, left: string, right: string)
    ensures ResourceName(parent, left + "-" + right) == ResourceName(parent + "-" + left, right)
    ensures RestoreJobName(parent, left + "-" + right) == RestoreJobName(parent + "-" + left, right)
    ensures parent != parent + "-" + left && !HyphenFree(left + "-" + right)
  {
    var n, n' := ResourceName(parent, left + "-" + right), ResourceName(parent + "-" + left, right);
    assert n == parent + "-" + left + "-" + right == n';
    assert |parent| != |parent + "-" + left|;
    assert (left + "-" + right)[|left|] == '-';
  }

  // ------------------------------------------------------------------ backup jobs

  /** Job names fit Kubernetes, and up to 59 characters no two backups share one. */
  lemma BackupJobNames(a: string, b: string)
    ensures |BackupJobName(a)| <= MAX_JOB_NAME
    ensures |a| <= 59 && |b| <= 59 ==> (BackupJobName(a) == BackupJobName(b) <==> a == b)
  {
    SameSuffix(a, b, "-job");
  }

  /** Backups of 63 characters and more collide as soon as the first 63 agree. */
  lemma LongBackupsCollide(backup: string, more: string)
    requires |backup| >= MAX_JOB_NAME
    ensures BackupJobName(backup) == BackupJobName(backup + more)
  {
    assert (backup + "-job")[..MAX_JOB_NAME] == backup[..MAX_JOB_NAME] == (backup + more + "-job")[..MAX_JOB_NAME];
  }

  /** A backup's job name is its own, among all backups, exactly up to 58 characters. */
  lemma JobNameSharedFrom59(backup: string)
    ensures (exists other :: other != backup && BackupJobName(other) == BackupJobName(backup)) <==> |backup| > 58
  {
    if |backup| > 58 {
      var other := Colliding(backup);
    } else {
      forall other | BackupJobName(other) == BackupJobName(backup) ensures other == backup {
        SameSuffix(other, backup, "-job");
      }
    }
  }

  /** The backup that has another's job name: its text continues as that name does. */
  lemma Colliding(backup: string) returns (other: string)
    requires |backup| > 58
    ensures other != backup && BackupJobName(other) == BackupJobName(backup)
  {
    if |backup| < MAX_JOB_NAME {
      other := BackupJobName(backup);
      assert |other| == MAX_JOB_NAME;
      assert (other + "-job")[..MAX_JOB_NAME] == other;
    } else {
      other := backup + "-";
      LongBackupsCollide(backup, "-");
    }
  }
}
