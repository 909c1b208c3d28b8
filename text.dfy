/**
 * String operations the core relies on: decimal rendering of numbers, Python's
 * `str.split`, `str.join`, `str.strip` and `str.rstrip`, and the JavaScript
 * whitespace class `\s` used by the dashboard's file naming.
 */
module Text {

  function DigitChar(d: int): (c: char)
    requires 0 <= d < 10
    ensures '0' <= c <= '9' && c as int - '0' as int == d
  {
    "0123456789"[d]
  }

  predicate IsDigit(c: char) { '0' <= c <= '9' }

  /** Python's `str(n)` / JavaScript's `String(n)` for a non-negative integer. */
  function NatToString(n: nat): (s: string)
    ensures |s| >= 1
    ensures forall i :: 0 <= i < |s| ==> IsDigit(s[i])
    ensures s[0] == '0' ==> n == 0 && s == "0"
  {
    if n < 10 then [DigitChar(n)] else NatToString(n / 10) + [DigitChar(n % 10)]
  }

  /** The number a string of decimal digits denotes: the inverse of NatToString. */
  function DigitsValue(s: string): nat
    requires forall i :: 0 <= i < |s| ==> IsDigit(s[i])
  {
    if s == [] then 0
    else
      var last := s[|s| - 1];
      assert IsDigit(last);
      10 * DigitsValue(s[..|s| - 1]) + (last as int - '0' as int)
  }

  lemma {:induction false} NatToStringRoundTrip(n: nat)
    ensures DigitsValue(NatToString(n)) == n
  {
    if n >= 10 {
      var s := NatToString(n);
      assert s[..|s| - 1] == NatToString(n / 10);
      NatToStringRoundTrip(n / 10);
    }
  }

  /** A number of tenths written with one decimal, as `'%.1f'` and `toFixed(1)` print it. */
  function TenthsToString(negative: bool, tenths: nat): (s: string)
    ensures |s| >= 3 && s[|s| - 2] == '.' && IsDigit(s[|s| - 1])
    ensures negative <==> s[0] == '-'
  {
    (if negative then "-" else "") + NatToString(tenths / 10) + "." + [DigitChar(tenths % 10)]
  }

  /** Python's `sep.join(parts)`. */
  function Join(sep: string, parts: seq<string>): (s: string)
    decreases |parts|
  {
    if |parts| == 0 then ""
    else if |parts| == 1 then parts[0]
    else parts[0] + sep + Join(sep, parts[1..])
  }

  /** Total length of a list of strings. */
  function TotalLength(parts: seq<string>): nat
  {
    if parts == [] then 0 else |parts[0]| + TotalLength(parts[1..])
  }

  lemma {:induction false} JoinLength(sep: string, parts: seq<string>)
    requires |parts| >= 1
    ensures |Join(sep, parts)| == TotalLength(parts) + (|parts| - 1) * |sep|
  {
    if |parts| > 1 {
      JoinLength(sep, parts[1..]);
    }
  }

  /** The position of the first `c` in `s`. */
  function IndexOf(s: string, c: char): (i: nat)
    requires c in s
    ensures i < |s| && s[i] == c && c !in s[..i]
  {
    if s[0] == c then 0 else 1 + IndexOf(s[1..], c)
  }

  /** Python's `s.split(sep)` for a one-character separator: never empty, no piece holds `sep`. */
  function Split(s: string, sep: char): (parts: seq<string>)
    ensures |parts| >= 1
    ensures forall i :: 0 <= i < |parts| ==> sep !in parts[i]
    decreases |s|
  {
    if sep !in s then [s]
    else
      var i := IndexOf(s, sep);
      [s[..i]] + Split(s[i + 1..], sep)
  }

  /** Joining the pieces with the separator gives the string back. */
  lemma {:induction false} SplitJoin(s: string, sep: char)
    ensures Join([sep], Split(s, sep)) == s
    decreases |s|
  {
    if sep in s {
      var i := IndexOf(s, sep);
      SplitJoin(s[i + 1..], sep);
      assert s == s[..i] + [sep] + s[i + 1..];
    }
  }

  lemma SplitNoSeparator(s: string, sep: char)
    requires sep !in s
    ensures Split(s, sep) == [s]
  {
  }

  lemma {:induction false} SplitAfterPiece(a: string, sep: char, b: string)
    requires sep !in a
    ensures Split(a + [sep] + b, sep) == [a] + Split(b, sep)
  {
    var s := a + [sep] + b;
    assert s[|a|] == sep;
    assert s[..|a|] == a;
    assert s[|a| + 1..] == b;
  }

  predicate StartsWith(s: string, prefix: string) { prefix <= s }

  /** Python's `s.endswith(suffix)`. */
  predicate EndsWith(s: string, suffix: string)
  {
    |suffix| <= |s| && s[|s| - |suffix|..] == suffix
  }

  /** JavaScript's `s.includes(sub)`. */
  predicate Contains(s: string, sub: string)
  {
    exists i :: 0 <= i <= |s| - |sub| && OccursAt(s, sub, i)
  }

  predicate OccursAt(s: string, sub: string, i: int)
    requires 0 <= i <= |s| - |sub|
  {
    s[i..i + |sub|] == sub
  }

  /** Lower-casing of the ASCII letters; every other character is left alone. */
  function AsciiLower(s: string): (r: string)
    ensures |r| == |s|
    ensures forall i :: 0 <= i < |s| ==> !('A' <= r[i] <= 'Z')
  {
    seq(|s|, i requires 0 <= i < |s| =>
      if 'A' <= s[i] <= 'Z' then (s[i] as int + ('a' as int - 'A' as int)) as char else s[i])
  }

  // ----- Python whitespace and `strip` -----

  /** The characters Python's `str.strip()` removes (`str.isspace`). */
  predicate IsPySpace(c: char)
  {
    var n := c as int;
    (0x09 <= n <= 0x0D) || (0x1C <= n <= 0x20) || n == 0x85 || n == 0xA0 || n == 0x1680
    || (0x2000 <= n <= 0x200A) || n == 0x2028 || n == 0x2029 || n == 0x202F || n == 0x205F
    || n == 0x3000
  }

  /** Python's `s.rstrip()`: a prefix, with only whitespace cut off. */
  function RStripSpace(s: string): (r: string)
    ensures r <= s
    ensures r == [] || !IsPySpace(r[|r| - 1])
    ensures forall i :: |r| <= i < |s| ==> IsPySpace(s[i])
    decreases |s|
  {
    if s != [] && IsPySpace(s[|s| - 1]) then RStripSpace(s[..|s| - 1]) else s
  }

  /** Python's `s.lstrip()`: a suffix, with only whitespace cut off. */
  function LStripSpace(s: string): (r: string)
    ensures |r| <= |s| && r == s[|s| - |r|..]
    ensures r == [] || !IsPySpace(r[0])
    ensures forall i :: 0 <= i < |s| - |r| ==> IsPySpace(s[i])
  {
    if s != [] && IsPySpace(s[0]) then LStripSpace(s[1..]) else s
  }

  /** Python's `s.strip()`: a slice of `s` that neither starts nor ends with whitespace. */
  function PyStrip(s: string): (r: string)
    ensures r == [] || (!IsPySpace(r[0]) && !IsPySpace(r[|r| - 1]))
    ensures r == [] <==> forall i :: 0 <= i < |s| ==> IsPySpace(s[i])
    ensures |r| <= |s|
  {
    LStripSpace(RStripSpace(s))
  }

  /** A string with no whitespace at either end is its own `strip()`. */
  lemma PyStripUntrimmed(s: string)
    requires s == [] || (!IsPySpace(s[0]) && !IsPySpace(s[|s| - 1]))
    ensures PyStrip(s) == s
  {
    assert RStripSpace(s) == s;
  }

  /** Python's `s.rstrip(c)`: a prefix, with only copies of `c` cut off. */
  function RStripChar(s: string, c: char): (r: string)
    ensures r <= s
    ensures r == [] || r[|r| - 1] != c
    ensures forall i :: |r| <= i < |s| ==> s[i] == c
    decreases |s|
  {
    if s != [] && s[|s| - 1] == c then RStripChar(s[..|s| - 1], c) else s
  }

  /** A string made only of `c` strips to nothing. */
  lemma {:induction false} RStripCharAll(s: string, c: char)
    requires forall i :: 0 <= i < |s| ==> s[i] == c
    ensures RStripChar(s, c) == []
    decreases |s|
  {
    if s != [] {
      RStripCharAll(s[..|s| - 1], c);
    }
  }

  // ----- JavaScript `\s` and `replace(/\s+/g, '_')` -----

  /** A character of JavaScript's regular-expression class `\s`. */
  predicate IsJsSpace(c: char)
  {
    var n := c as int;
    (0x09 <= n <= 0x0D) || n == 0x20 || n == 0xA0 || n == 0x1680 || (0x2000 <= n <= 0x200A)
    || n == 0x2028 || n == 0x2029 || n == 0x202F || n == 0x205F || n == 0x3000 || n == 0xFEFF
  }

  predicate NoJsSpace(s: string)
  {
    forall i :: 0 <= i < |s| ==> !IsJsSpace(s[i])
  }

  /** Drops the run of `\s` characters at the front of `s`. */
  function DropJsSpaces(s: string): (r: string)
    ensures |r| <= |s| && r == s[|s| - |r|..]
    ensures r == [] || !IsJsSpace(r[0])
  {
    if s != [] && IsJsSpace(s[0]) then DropJsSpaces(s[1..]) else s
  }

  /** `s.replace(/\s+/g, '_')`: every maximal run of whitespace becomes one `_`. */
  function ReplaceSpaceRuns(s: string): (r: string)
    ensures NoJsSpace(r)
    ensures |r| <= |s|
    ensures r == [] <==> s == []
    decreases |s|
  {
    if s == [] then []
    else if IsJsSpace(s[0]) then "_" + ReplaceSpaceRuns(DropJsSpaces(s[1..]))
    else [s[0]] + ReplaceSpaceRuns(s[1..])
  }

  /** Replacing is idempotent: the result has no whitespace left to replace. */
  lemma ReplaceSpaceRunsIdempotent(s: string)
    ensures ReplaceSpaceRuns(ReplaceSpaceRuns(s)) == ReplaceSpaceRuns(s)
  {
    WordsUnchanged(ReplaceSpaceRuns(s));
  }

  /** Text without whitespace is left unchanged. */
  lemma WordsUnchanged(s: string)
    requires NoJsSpace(s)
    ensures ReplaceSpaceRuns(s) == s
  {
    WordsFirst(s, []);
    assert s + [] == s;
  }

  /** A run of several whitespace characters between two words gives a single `_`. */
  lemma ReplaceSpaceRunsAt(a: string, run: string, b: string)
    requires NoJsSpace(a) && run != [] && (forall i :: 0 <= i < |run| ==> IsJsSpace(run[i]))
    requires b == [] || !IsJsSpace(b[0])
    ensures ReplaceSpaceRuns(a + (run + b)) == a + ("_" + ReplaceSpaceRuns(b))
  {
    LeadingRun(run, b);
    WordsFirst(a, run + b);
  }

  /** Text without whitespace is copied as it is, whatever follows it. */
  lemma {:induction false} WordsFirst(a: string, rest: string)
    requires NoJsSpace(a)
    ensures ReplaceSpaceRuns(a + rest) == a + ReplaceSpaceRuns(rest)
    decreases |a|
  {
    if a == [] {
      assert a + rest == rest;
    } else {
      WordsFirst(a[1..], rest);
      assert a + rest == [a[0]] + (a[1..] + rest);
      WordFirst(a[0], a[1..] + rest);
      ConsAppend(a[0], a[1..], ReplaceSpaceRuns(rest));
      assert [a[0]] + a[1..] == a;
    }
  }

  /** A character that is not whitespace is copied as it is. */
  lemma WordFirst(c: char, rest: string)
    requires !IsJsSpace(c)
    ensures ReplaceSpaceRuns([c] + rest) == [c] + ReplaceSpaceRuns(rest)
  {
    assert ([c] + rest)[1..] == rest;
  }

  lemma ConsAppend(c: char, x: string, y: string)
    ensures [c] + (x + y) == ([c] + x) + y
  {
  }

  /** A leading run of whitespace becomes one `_`. */
  lemma LeadingRun(run: string, b: string)
    requires run != [] && (forall i :: 0 <= i < |run| ==> IsJsSpace(run[i]))
    requires b == [] || !IsJsSpace(b[0])
    ensures ReplaceSpaceRuns(run + b) == "_" + ReplaceSpaceRuns(b)
  {
    var s := run + b;
    assert s[0] == run[0];
    assert s[1..] == run[1..] + b;
    DropRun(run[1..], b);
  }

  lemma {:induction false} DropRun(run: string, b: string)
    requires forall i :: 0 <= i < |run| ==> IsJsSpace(run[i])
    requires b == [] || !IsJsSpace(b[0])
    ensures DropJsSpaces(run + b) == b
    decreases |run|
  {
    if run != [] {
      assert (run + b)[1..] == run[1..] + b;
      DropRun(run[1..], b);
    }
  }
}
