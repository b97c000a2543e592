/**
 * The few string operations the core relies on: the prefix and suffix tests and
 * prefix removal of Apache Commons' StringUtils, on non-null strings, and the way
 * Java renders a possibly-null string when it is concatenated.
 */
module Strings {
  import opened Wrappers

  predicate StartsWith(s: string, prefix: string) {
    |prefix| <= |s| && s[..|prefix|] == prefix
  }

  predicate EndsWith(s: string, suffix: string) {
    |suffix| <= |s| && s[|s| - |suffix|..] == suffix
  }

  /** StringUtils.removeStart: drops `prefix` once when `s` begins with it. */
  function RemoveStart(s: string, prefix: string): (r: string)
    ensures StartsWith(s, prefix) ==> s == prefix + r
    ensures !StartsWith(s, prefix) ==> r == s
  {
    if StartsWith(s, prefix) then s[|prefix|..] else s
  }

  /** The text Java's `+` produces for a String reference: "null" for null. */
  function JavaText(s: Option<string>): string {
    match s
    case None => "null"
    case Some(v) => v
  }
}
