/**
 * The parts of Python's `str` that the upload service, the report routes and
 * the prompt renderer rely on: `isspace`/`strip`, `lower`, `in` on substrings,
 * `join`, `split`, `replace`, `isdigit`/`isdecimal`, `int()` and `str(int)`.
 */
module Text {

  /** Python's `str.isspace()` for one character: the full set of code points it accepts. */
  predicate IsSpace(c: char) {
    var n := c as int;
    (9 <= n <= 13) || (28 <= n <= 32) || n == 0x85 || n == 0xA0 || n == 0x1680
    || (0x2000 <= n <= 0x200A) || n == 0x2028 || n == 0x2029 || n == 0x202F
    || n == 0x205F || n == 0x3000
  }

  /** Number of whitespace characters `str.lstrip()` removes. */
  function LeadingSpaces(s: string): (n: nat)
    ensures n <= |s|
    ensures forall k :: 0 <= k < n ==> IsSpace(s[k])
    ensures n < |s| ==> !IsSpace(s[n])
  {
    if s == [] || !IsSpace(s[0]) then 0 else 1 + LeadingSpaces(s[1..])
  }

  /** Number of whitespace characters `str.rstrip()` removes. */
  function TrailingSpaces(s: string): (n: nat)
    ensures n <= |s|
    ensures forall k :: |s| - n <= k < |s| ==> IsSpace(s[k])
    ensures n < |s| ==> !IsSpace(s[|s| - 1 - n])
  {
    if s == [] || !IsSpace(s[|s| - 1]) then 0 else 1 + TrailingSpaces(s[..|s| - 1])
  }

  /** The text has no whitespace at either end. */
  predicate Trimmed(s: string) {
    s == [] || (!IsSpace(s[0]) && !IsSpace(s[|s| - 1]))
  }

  /** `r` is `s` with its leading and trailing whitespace, and nothing else, cut off. */
  predicate StrippedFrom(s: string, r: string) {
    && LeadingSpaces(s) + |r| <= |s|
    && r == s[LeadingSpaces(s)..LeadingSpaces(s) + |r|]
    && (forall k :: 0 <= k < LeadingSpaces(s) ==> IsSpace(s[k]))
    && (forall k :: LeadingSpaces(s) + |r| <= k < |s| ==> IsSpace(s[k]))
  }

  /**
   * Python's `str.strip()`: `s` without its leading and trailing whitespace.
   * The result is a slice of `s`, everything cut off is whitespace, and the
   * result itself starts and ends with non-whitespace.
   */
  function Strip(s: string): (r: string)
    ensures Trimmed(r)
    ensures StrippedFrom(s, r)
    ensures r == [] <==> forall k :: 0 <= k < |s| ==> IsSpace(s[k])
  {
    var lead := LeadingSpaces(s);
    if lead == |s| then []
    else
      var trail := TrailingSpaces(s);
      assert !IsSpace(s[lead]);
      s[lead..|s| - trail]
  }

  /** Stripping a text with no surrounding whitespace leaves it as it is. */
  lemma StripTrimmed(s: string)
    requires Trimmed(s)
    ensures Strip(s) == s
  {
    if s != [] {
      assert LeadingSpaces(s) == 0;
      assert TrailingSpaces(s) == 0;
    }
  }

  /** `strip()` is idempotent. */
  lemma StripIdempotent(s: string)
    ensures Strip(Strip(s)) == Strip(s)
  {
    StripTrimmed(Strip(s));
  }

  /**
   * Python's `str.lower()` on one character, for the characters whose
   * lower-case form is ASCII: `A`-`Z` and U+212A KELVIN SIGN. Other
   * characters are kept as they are.
   */
  function LowerChar(c: char): char {
    if 'A' <= c <= 'Z' then (c as int + 32) as char
    else if c as int == 0x212A then 'k'
    else c
  }

  /** Python's `str.lower()`, character by character. */
  function Lower(s: string): (r: string)
    ensures |r| == |s|
    ensures forall k :: 0 <= k < |s| ==> r[k] == LowerChar(s[k])
  {
    seq(|s|, k requires 0 <= k < |s| => LowerChar(s[k]))
  }

  /** Lower-casing never turns whitespace into non-whitespace or back. */
  lemma LowerKeepsSpace(c: char)
    ensures IsSpace(LowerChar(c)) <==> IsSpace(c)
  {
  }

  /** A text whose lower-case form has no surrounding whitespace has none itself. */
  lemma TrimmedWhenLowerTrimmed(s: string)
    requires Trimmed(Lower(s))
    ensures Trimmed(s)
  {
    if s != [] {
      LowerKeepsSpace(s[0]);
      LowerKeepsSpace(s[|s| - 1]);
    }
  }

  /** `p` is a prefix of `s` (`s.startswith(p)`). */
  predicate StartsWith(s: string, p: string) {
    |p| <= |s| && s[..|p|] == p
  }

  /** Python's `p in s` on strings. */
  predicate Contains(s: string, p: string)
    decreases |s|
  {
    StartsWith(s, p) || (s != [] && Contains(s[1..], p))
  }

  /** `p` occurs in `s` starting at index `i`. */
  predicate OccursAt(s: string, p: string, i: int) {
    0 <= i <= |s| - |p| && s[i..i + |p|] == p
  }

  /** `Contains` holds exactly when `p` occurs at some index of `s`. */
  lemma {:induction false} ContainsAt(s: string, p: string)
    ensures Contains(s, p) <==> exists i :: OccursAt(s, p, i)
    decreases |s|
  {
    if StartsWith(s, p) {
      assert OccursAt(s, p, 0);
    }
    if s != [] {
      ContainsAt(s[1..], p);
      if Contains(s[1..], p) {
        var i :| OccursAt(s[1..], p, i);
        assert OccursAt(s, p, i + 1);
      }
      if exists i :: OccursAt(s, p, i) {
        var i :| OccursAt(s, p, i);
        if i > 0 {
          assert OccursAt(s[1..], p, i - 1);
        }
      }
    } else {
      if exists i :: OccursAt(s, p, i) {
        var i :| OccursAt(s, p, i);
        assert StartsWith(s, p);
      }
    }
  }
  /** A text lacking one of the characters of `p` does not contain `p`. */
  lemma MissingCharNotContained(s: string, p: string, c: char)
    requires c in p && c !in s
    ensures !Contains(s, p)
  {
    ContainsAt(s, p);
  }


  /** Python's `sep.join(parts)`. */
  function Join(parts: seq<string>, sep: string): string {
    if |parts| == 0 then ""
    else if |parts| == 1 then parts[0]
    else parts[0] + sep + Join(parts[1..], sep)
  }

  /** A join of five parts puts the separator between consecutive parts. */
  lemma JoinFive(a: string, b: string, c: string, d: string, e: string, sep: string)
    ensures Join([a, b, c, d, e], sep) == a + sep + (b + sep + (c + sep + (d + sep + e)))
  {
    assert [d, e][1..] == [e];
    assert Join([d, e], sep) == d + sep + e;
    assert [c, d, e][1..] == [d, e];
    assert Join([c, d, e], sep) == c + sep + (d + sep + e);
    assert [b, c, d, e][1..] == [c, d, e];
    assert Join([b, c, d, e], sep) == b + sep + (c + sep + (d + sep + e));
    assert [a, b, c, d, e][1..] == [b, c, d, e];
  }

  /**
   * A join with a non-empty separator is empty exactly when there is no part,
   * or a single empty part.
   */
  lemma {:induction false} JoinEmpty(parts: seq<string>, sep: string)
    requires sep != ""
    ensures Join(parts, sep) == "" <==> |parts| == 0 || (|parts| == 1 && parts[0] == "")
  {
    if |parts| >= 2 {
      assert |Join(parts, sep)| >= |sep|;
    }
  }

  /** The length of a join: all the parts plus one separator between each two. */
  lemma {:induction false} JoinLength(parts: seq<string>, sep: string)
    requires |parts| >= 1
    ensures |Join(parts, sep)| == TotalLength(parts) + (|parts| - 1) * |sep|
  {
    if |parts| >= 2 {
      JoinLength(parts[1..], sep);
      assert TotalLength(parts) == |parts[0]| + TotalLength(parts[1..]);
    }
  }

  /** Sum of the lengths of some strings. */
  function TotalLength(parts: seq<string>): nat {
    if parts == [] then 0 else |parts[0]| + TotalLength(parts[1..])
  }

  /** Python's `s.split(c)` for a single-character separator: never empty. */
  function Split(s: string, c: char): (parts: seq<string>)
    ensures |parts| >= 1
    ensures forall k :: 0 <= k < |parts| ==> c !in parts[k]
  {
    if s == [] then [""]
    else
      var rest := Split(s[1..], c);
      if s[0] == c then [""] + rest else [[s[0]] + rest[0]] + rest[1..]
  }

  /** Splitting a text without the separator yields that text alone. */
  lemma {:induction false} SplitWithoutSeparator(s: string, c: char)
    requires c !in s
    ensures Split(s, c) == [s]
  {
    if s != [] {
      SplitWithoutSeparator(s[1..], c);
      assert s[0] != c;
      assert [s[0]] + s[1..] == s;
    }
  }

  /** Splitting `a + [c] + b`, with no `c` in `a`, yields `a` and then the parts of `b`. */
  lemma {:induction false} SplitAfterFirst(a: string, b: string, c: char)
    requires c !in a
    ensures Split(a + [c] + b, c) == [a] + Split(b, c)
  {
    if a == [] {
      assert (a + [c] + b)[1..] == b;
    } else {
      assert (a + [c] + b)[1..] == a[1..] + [c] + b;
      SplitAfterFirst(a[1..], b, c);
      assert [a[0]] + a[1..] == a;
    }
  }

  /**
   * Splitting a join on the same one-character separator gives the parts
   * back, provided no part contains the separator.
   */
  lemma {:induction false} SplitJoin(parts: seq<string>, c: char)
    requires |parts| >= 1
    requires forall k :: 0 <= k < |parts| ==> c !in parts[k]
    ensures Split(Join(parts, [c]), c) == parts
  {
    if |parts| == 1 {
      SplitWithoutSeparator(parts[0], c);
    } else {
      SplitJoin(parts[1..], c);
      SplitAfterFirst(parts[0], Join(parts[1..], [c]), c);
      assert [parts[0]] + parts[1..] == parts;
    }
  }

  /** Python's `s.replace(old, new)` for a one-character `from` and `to`. */
  function ReplaceChar(s: string, from: char, to: char): (r: string)
    ensures |r| == |s|
    ensures forall k :: 0 <= k < |s| ==> r[k] == (if s[k] == from then to else s[k])
  {
    seq(|s|, k requires 0 <= k < |s| => if s[k] == from then to else s[k])
  }

  /** After replacing every `from` by a different character, no `from` is left. */
  lemma ReplaceCharRemoves(s: string, from: char, to: char)
    requires from != to
    ensures from !in ReplaceChar(s, from, to)
  {
    var r := ReplaceChar(s, from, to);
    assert forall k :: 0 <= k < |r| ==> r[k] != from;
  }

  /**
   * Python's `s.replace(p, "")`: every non-overlapping occurrence of `p`,
   * scanning left to right, is removed; an empty `p` leaves `s` as it is.
   */
  function RemoveAll(s: string, p: string): (r: string)
    ensures |r| <= |s|
    decreases |s|
  {
    if p == [] || |s| < |p| then s
    else if s[..|p|] == p then RemoveAll(s[|p|..], p)
    else [s[0]] + RemoveAll(s[1..], p)
  }

  /** Removing a pattern that does not occur leaves the text unchanged. */
  lemma {:induction false} RemoveAllAbsent(s: string, p: string)
    requires !Contains(s, p)
    ensures RemoveAll(s, p) == s
    decreases |s|
  {
    if p != [] && |s| >= |p| {
      RemoveAllAbsent(s[1..], p);
      assert [s[0]] + s[1..] == s;
    }
  }

  /** A leading character other than the pattern's first is kept. */
  lemma RemoveAllKeeps(c: char, s: string, p: string)
    requires p != [] && c != p[0]
    ensures RemoveAll([c] + s, p) == [c] + RemoveAll(s, p)
  {
    var t := [c] + s;
    assert t[1..] == s;
    if |t| >= |p| {
      assert t[..|p|][0] != p[0];
    }
  }

  /** A prefix none of whose characters can start the pattern is kept whole. */
  lemma {:induction false} RemoveAllKeepsPrefix(a: string, s: string, p: string)
    requires p != [] && forall i :: 0 <= i < |a| ==> a[i] != p[0]
    ensures RemoveAll(a + s, p) == a + RemoveAll(s, p)
  {
    if a == [] {
      assert a + s == s;
    } else {
      RemoveAllKeepsPrefix(a[1..], s, p);
      RemoveAllKeeps(a[0], a[1..] + s, p);
      Uncons(a, s);
      Uncons(a, RemoveAll(s, p));
    }
  }

  lemma Uncons<T>(a: seq<T>, s: seq<T>)
    requires a != []
    ensures a + s == [a[0]] + (a[1..] + s)
  {
    assert a == [a[0]] + a[1..];
  }

  /** A leading occurrence is dropped. */
  lemma RemoveAllDrops(p: string, s: string)
    requires p != []
    ensures RemoveAll(p + s, p) == RemoveAll(s, p)
  {
    var t := p + s;
    assert t[..|p|] == p;
    assert t[|p|..] == s;
  }

  /**
   * Removing `p` from `a + p`, where `p` occurs in `a + p` only at its end,
   * yields `a`.
   */
  lemma {:induction false} RemoveAllTrailing(a: string, p: string)
    requires p != []
    requires !Contains((a + p)[..|a + p| - 1], p)
    ensures RemoveAll(a + p, p) == a
    decreases |a|
  {
    var s := a + p;
    if a == [] {
      assert s[..|p|] == p;
      assert s[|p|..] == [];
    } else {
      TrailingStep(a, p);
      RemoveAllTrailing(a[1..], p);
      Uncons(a, []);
    }
  }

  /**
   * One step of `RemoveAllTrailing`: `a + p` does not start with `p`, and
   * dropping its first character leaves `a[1..] + p`, still without an
   * earlier occurrence.
   */
  lemma TrailingStep(a: string, p: string)
    requires a != [] && p != []
    requires !Contains((a + p)[..|a + p| - 1], p)
    ensures (a + p)[..|p|] != p
    ensures (a + p)[0] == a[0] && (a + p)[1..] == a[1..] + p
    ensures !Contains((a[1..] + p)[..|a[1..] + p| - 1], p)
  {
    var s := a + p;
    var init := s[..|s| - 1];
    assert init[..|p|] == s[..|p|];
    assert s[1..] == a[1..] + p;
    assert (a[1..] + p)[..|a[1..] + p| - 1] == init[1..];
  }

  /** An ASCII decimal digit: what `str.isdecimal()` accepts in this model. */
  predicate IsDecimalChar(c: char) {
    48 <= c as int <= 57
  }

  /**
   * Characters that `str.isdigit()` accepts but `str.isdecimal()` and `int()`
   * reject, as of Unicode 15.0: those whose numeric type is Digit, such as the
   * superscript and subscript digits, the circled and parenthesized digits,
   * the dingbat digits and the Ethiopic, Kharoshthi, Rumi and Brahmi digits.
   */
  predicate IsDigitOnlyChar(c: char) {
    var n := c as int;
    (0xB2 <= n <= 0xB3) || n == 0xB9 || (0x1369 <= n <= 0x1371) || n == 0x19DA
    || n == 0x2070 || (0x2074 <= n <= 0x2079) || (0x2080 <= n <= 0x2089)
    || (0x2460 <= n <= 0x2468) || (0x2474 <= n <= 0x247C) || (0x2488 <= n <= 0x2490)
    || n == 0x24EA || (0x24F5 <= n <= 0x24FD) || n == 0x24FF
    || (0x2776 <= n <= 0x277E) || (0x2780 <= n <= 0x2788) || (0x278A <= n <= 0x2792)
    || (0x10A40 <= n <= 0x10A43) || (0x10E60 <= n <= 0x10E68)
    || (0x11052 <= n <= 0x1105A) || (0x1F100 <= n <= 0x1F10A)
  }

  /** Python's `str.isdecimal()`: non-empty and every character a decimal digit. */
  predicate IsDecimal(s: string) {
    s != [] && forall k :: 0 <= k < |s| ==> IsDecimalChar(s[k])
  }

  /** Python's `str.isdigit()`: non-empty and every character a digit. */
  predicate IsDigits(s: string) {
    s != [] && forall k :: 0 <= k < |s| ==> IsDecimalChar(s[k]) || IsDigitOnlyChar(s[k])
  }

  /** The value of a string of decimal digits, as `int()` reads it. */
  function DecimalValue(s: string): nat
    requires forall k :: 0 <= k < |s| ==> IsDecimalChar(s[k])
  {
    if s == [] then 0
    else
      assert IsDecimalChar(s[|s| - 1]);
      10 * DecimalValue(s[..|s| - 1]) + (s[|s| - 1] as int - 48)
  }

  /** The digit character for `d`. */
  function DigitChar(d: nat): (c: char)
    requires d < 10
    ensures IsDecimalChar(c)
  {
    (48 + d) as char
  }

  /** Python's `str(n)` for a non-negative integer: decimal digits, no leading zero. */
  function NatToDecimal(n: nat): (s: string)
    ensures s != []
    ensures forall k :: 0 <= k < |s| ==> IsDecimalChar(s[k])
    ensures s[0] == '0' ==> n == 0
  {
    if n < 10 then [DigitChar(n)] else NatToDecimal(n / 10) + [DigitChar(n % 10)]
  }

  /** Reading back the decimal rendering of `n` gives `n`. */
  lemma {:induction false} DecimalRoundTrip(n: nat)
    ensures DecimalValue(NatToDecimal(n)) == n
  {
    if n >= 10 {
      DecimalRoundTrip(n / 10);
      var s := NatToDecimal(n);
      assert s[..|s| - 1] == NatToDecimal(n / 10);
    }
  }

  /** Two numbers render alike only if they are equal. */
  lemma DecimalInjective(m: nat, n: nat)
    requires NatToDecimal(m) == NatToDecimal(n)
    ensures m == n
  {
    DecimalRoundTrip(m);
    DecimalRoundTrip(n);
  }
}
