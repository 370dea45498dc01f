/** What a backup type may look like: space around it and capitals in it are ignored, and nothing else. */
module BackupTypes {
  import opened BackupText

  const SPACES := "\t\n\U{0B}\U{0C}\r \U{85}\U{A0}\U{1680}\U{2028}\U{2029}\U{202F}\U{205F}\U{3000}"

  ghost predicate Space(c: char) {
    c in SPACES || 0x2000 <= c as int <= 0x200A
  }

  /** The capital's small letter; two characters beyond ASCII have one in it. */
  ghost predicate SmallOf(c: char, small: char) {
    var n := c as int;
    if 65 <= n <= 90 then small as int == n + 32
    else if n == 0x130 then small == 'i'
    else if n == 0x212A then small == 'k'
    else small == c
  }

  /** `core` is what stands between i and j, in small letters; around it is space, at its ends is none. */
  ghost predicate Core(t: string, core: string, i: nat, j: nat) {
    && i <= j <= |t| && |core| == j - i
    && (forall k | 0 <= k < |t| && !(i <= k < j) :: Space(t[k]))
    && (i < j ==> !Space(t[i]) && !Space(t[j - 1]))
    && forall k | 0 <= k < |core| :: SmallOf(t[i + k], core[k])
  }

  lemma SpaceMeans(c: char)
    ensures IsSpace(c) <==> Space(c)
    ensures SmallOf(c, LowerChar(c))
  {
    assert SPACES == ['\t', '\n', '\U{0B}', '\U{0C}', '\r', ' ', '\U{85}', '\U{A0}', '\U{1680}', '\U{2028}', '\U{2029}',
                      '\U{202F}', '\U{205F}', '\U{3000}'];
  }

  ghost predicate Trimmed(t: string, i: nat, j: nat) {
    && i <= j <= |t|
    && (forall k | 0 <= k < |t| && !(i <= k < j) :: IsSpace(t[k]))
    && (i < j ==> !IsSpace(t[i]) && !IsSpace(t[j - 1]))
  }

  lemma {:induction false} TrimFinds(t: string) returns (i: nat, j: nat)
    ensures Trimmed(t, i, j) && TrimSpace(t) == t[i..j]
    decreases |t|
  {
    i, j := 0, |t|;
    if t != "" && IsSpace(t[0]) {
      i, j := TrimFinds(t[1..]);
      assert forall k | 1 <= k < |t| :: t[k] == t[1..][k - 1];
      assert t[1..][i..j] == t[i + 1..j + 1];
      i, j := i + 1, j + 1;
    } else if t != "" && IsSpace(t[|t| - 1]) {
      i, j := TrimFinds(t[..|t| - 1]);
      assert t[..|t| - 1][i..j] == t[i..j];
    }
  }

  /** Exactly the core decides: the two kinds, with three spellings of a physical one, or an unknown type. */
  lemma NormalizeMeans(t: string)
    ensures exists core, i: nat, j: nat :: Core(t, core, i, j)
              && NormalizeBackupType(t) == if core == "" || core == "full" then "physical" else core
  {
    var i, j := TrimFinds(t);
    var core := ToLower(TrimSpace(t));
    forall k | 0 <= k < |t| ensures IsSpace(t[k]) <==> Space(t[k]) {
      SpaceMeans(t[k]);
    }
    forall k | 0 <= k < |core| ensures SmallOf(t[i + k], core[k]) {
      SpaceMeans(t[i + k]);
    }
    assert Core(t, core, i, j);
  }

  /** And there is only one core. */
  lemma CoreUnique(t: string, core: string, i: nat, j: nat, core': string, i': nat, j': nat)
    requires Core(t, core, i, j) && Core(t, core', i', j')
    ensures core == core'
  {
    if i < j {
      assert i' <= i && j <= j';
      assert i == i' && j == j';
      forall k | 0 <= k < |core| ensures core[k] == core'[k] {
        assert SmallOf(t[i + k], core[k]) && SmallOf(t[i + k], core'[k]);
      }
    }
  }
}
