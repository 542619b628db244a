/**
 * The two `pathlib` properties the upload service and the download routes
 * read from a POSIX file name: `PurePath.name` and `PurePath.suffix`.
 */
module Paths {
  import opened Text

  /** The last component that is neither empty nor `.`, or "" when there is none. */
  function LastComponent(parts: seq<string>): string {
    if parts == [] then ""
    else if parts[|parts| - 1] != "" && parts[|parts| - 1] != "." then parts[|parts| - 1]
    else LastComponent(parts[..|parts| - 1])
  }

  /** Every part given to `LastComponent` is free of `c`, so its result is too. */
  lemma {:induction false} LastComponentExcludes(parts: seq<string>, c: char)
    requires forall k :: 0 <= k < |parts| ==> c !in parts[k]
    ensures c !in LastComponent(parts)
  {
    if parts != [] {
      LastComponentExcludes(parts[..|parts| - 1], c);
    }
  }

  /**
   * `PurePosixPath(p).name`: the final component of `p`, ignoring empty and
   * `.` components; it never contains a `/`.
   */
  function Name(p: string): (n: string)
    ensures '/' !in n
  {
    LastComponentExcludes(Split(p, '/'), '/');
    LastComponent(Split(p, '/'))
  }

  /** Index of the last `.` in `s`, or -1 (`str.rfind('.')`). */
  function LastDot(s: string): (i: int)
    ensures -1 <= i < |s|
    ensures i >= 0 ==> s[i] == '.'
    ensures forall k :: i < k < |s| ==> s[k] != '.'
  {
    if s == [] then -1
    else if s[|s| - 1] == '.' then |s| - 1
    else LastDot(s[..|s| - 1])
  }

  /** A well-formed suffix: a dot followed by at least one character, none of them a dot. */
  predicate IsSuffixShape(x: string) {
    |x| >= 2 && x[0] == '.' && '.' !in x[1..]
  }

  /**
   * `PurePath.suffix` of a file name: from the last dot to the end, provided
   * that dot is neither the first nor the last character; "" otherwise.
   */
  function NameSuffix(name: string): (x: string)
    ensures x == [] || (IsSuffixShape(x) && |x| < |name| && name[|name| - |x|..] == x)
  {
    var i := LastDot(name);
    if 0 < i < |name| - 1 then name[i..] else []
  }

  /**
   * The suffix of a name is exactly its dotted ending: when `name` ends with
   * `x`, `x` has the shape of a suffix and something precedes it, `x` is
   * the suffix.
   */
  lemma SuffixOfEnding(name: string, x: string)
    requires IsSuffixShape(x) && |x| < |name| && name[|name| - |x|..] == x
    ensures NameSuffix(name) == x
  {
    var i := |name| - |x|;
    assert name[i] == '.';
    forall k | i < k < |name|
      ensures name[k] != '.'
    {
      assert name[k] == x[1..][k - i - 1];
    }
    assert LastDot(name) == i;
  }

  /** `PurePosixPath(p).suffix`. */
  function Suffix(p: string): string {
    NameSuffix(Name(p))
  }
}
