/**
 Backup types as users write them: internal/postgres/backup.go trims and lower-cases the
 text before every dispatch on it.
 */
module BackupText {
  /** unicode.IsSpace. */
  predicate IsSpace(c: char) {
    || c == '\t' || c == '\n' || c == '\U{0B}' || c == '\U{0C}' || c == '\r' || c == ' '
    || c == '\U{85}' || c == '\U{A0}' || c == '\U{1680}' || '\U{2000}' <= c <= '\U{200A}'
    || c == '\U{2028}' || c == '\U{2029}' || c == '\U{202F}' || c == '\U{205F}' || c == '\U{3000}'
  }

  /** strings.TrimSpace. */
  function TrimSpace(s: string): (r: string) {
    if s == "" then ""
    else if IsSpace(s[0]) then TrimSpace(s[1..])
    else if IsSpace(s[|s| - 1]) then TrimSpace(s[..|s| - 1])
    else s
  }

  /**
   unicode.ToLower on the letters that can decide a dispatch: ASCII capitals and the two
   other characters whose lower-case form is an ASCII letter.
   */
  function LowerChar(c: char): (r: char) {
    if 'A' <= c <= 'Z' then c + ('a' - 'A')
    else if c == '\U{130}' then 'i'
    else if c == '\U{212A}' then 'k'
    else c
  }

  function ToLower(s: string): (r: string)
    ensures |r| == |s|
    ensures forall i :: 0 <= i < |s| ==> r[i] == LowerChar(s[i])
  {
    if s == "" then "" else [LowerChar(s[0])] + ToLower(s[1..])
  }

  function NormalizeBackupType(backupType: string): string {
    var t := ToLower(TrimSpace(backupType));
    if t == "" || t == "full" || t == "physical" then "physical"
    else if t == "logical" then "logical"
    else t
  }
}
