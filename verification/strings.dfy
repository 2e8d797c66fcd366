/** The parts of Python's `str` that the runner relies on: whitespace stripping,
    substring search, splitting, ASCII case mapping and decimal conversion.
    Whitespace is Python's; digits and letters are the ASCII ones. */
module Strings {

  // ---------------------------------------------------------------- characters

  /** Python's `str.isspace`, which is also what `\s` matches in a `str`
      pattern: the ASCII space, tab to carriage return, the four separators
      U+001C to U+001F, and the Unicode spaces. */
  predicate IsSpace(c: char) {
    || c == ' ' || '\t' <= c <= '\r' || '\U{1C}' <= c <= '\U{1F}'
    || c == '\U{85}' || c == '\U{A0}' || c == '\U{1680}' || '\U{2000}' <= c <= '\U{200A}'
    || c == '\U{2028}' || c == '\U{2029}' || c == '\U{202F}' || c == '\U{205F}' || c == '\U{3000}'
  }

  predicate IsDigit(c: char) {
    '0' <= c <= '9'
  }

  /** The characters of the regular-expression class `\w`. */
  predicate IsWordChar(c: char) {
    'a' <= c <= 'z' || 'A' <= c <= 'Z' || '0' <= c <= '9' || c == '_'
  }

  predicate AllSpace(s: string) {
    forall i :: 0 <= i < |s| ==> IsSpace(s[i])
  }

  predicate AllDigits(s: string) {
    forall i :: 0 <= i < |s| ==> IsDigit(s[i])
  }

  predicate NoSpace(s: string) {
    forall i :: 0 <= i < |s| ==> !IsSpace(s[i])
  }

  /** `c` does not occur in `s`. */
  predicate Free(s: string, c: char) {
    forall i :: 0 <= i < |s| ==> s[i] != c
  }

  // ---------------------------------------------------------------- stripping

  /** Length of the whitespace run that starts `s`. */
  function LeadingSpaces(s: string): (n: nat)
    ensures n <= |s|
    ensures forall k :: 0 <= k < n ==> IsSpace(s[k])
    ensures n == |s| || !IsSpace(s[n])
    decreases |s|
  {
    if |s| > 0 && IsSpace(s[0]) then 1 + LeadingSpaces(s[1..]) else 0
  }

  /** Length of the whitespace run that ends `s`. */
  function TrailingSpaces(s: string): (n: nat)
    ensures n <= |s|
    ensures forall k :: |s| - n <= k < |s| ==> IsSpace(s[k])
    ensures n == |s| || !IsSpace(s[|s| - n - 1])
    decreases |s|
  {
    if |s| > 0 && IsSpace(s[|s| - 1]) then 1 + TrailingSpaces(s[..|s| - 1]) else 0
  }

  function LStrip(s: string): string {
    s[LeadingSpaces(s)..]
  }

  function RStrip(s: string): string {
    s[..|s| - TrailingSpaces(s)]
  }

  /** Python's `s.strip()`. */
  function Strip(s: string): string {
    RStrip(LStrip(s))
  }

  /** `t` is already stripped: empty, or neither end is whitespace. */
  predicate Stripped(t: string) {
    t == [] || (!IsSpace(t[0]) && !IsSpace(t[|t| - 1]))
  }

  lemma {:induction false} LeadingSpacesPrefix(a: string, x: string)
    requires AllSpace(a)
    ensures LeadingSpaces(a + x) == |a| + LeadingSpaces(x)
    decreases |a|
  {
    if |a| > 0 {
      var ax := a + x;
      assert IsSpace(ax[0]);
      assert ax[1..] == a[1..] + x;
      LeadingSpacesPrefix(a[1..], x);
      assert LeadingSpaces(ax) == 1 + LeadingSpaces(ax[1..]);
    } else {
      assert a + x == x;
    }
  }

  lemma {:induction false} TrailingSpacesSuffix(x: string, c: string)
    requires AllSpace(c)
    ensures TrailingSpaces(x + c) == TrailingSpaces(x) + |c|
    decreases |c|
  {
    if |c| > 0 {
      var xc := x + c;
      assert IsSpace(xc[|xc| - 1]);
      assert xc[..|xc| - 1] == x + c[..|c| - 1];
      TrailingSpacesSuffix(x, c[..|c| - 1]);
      assert TrailingSpaces(xc) == 1 + TrailingSpaces(xc[..|xc| - 1]);
    } else {
      assert x + c == x;
    }
  }

  lemma AllSpaceLeading(s: string)
    requires AllSpace(s)
    ensures LeadingSpaces(s) == |s|
  {
    LeadingSpacesPrefix(s, []);
    assert s + [] == s;
  }

  /** Stripping `a + t + c` with whitespace padding and a stripped core gives the core. */
  lemma StripExact(a: string, t: string, c: string)
    requires AllSpace(a) && AllSpace(c) && Stripped(t)
    ensures Strip(a + t + c) == t
  {
    var s := a + t + c;
    assert s == a + (t + c);
    LeadingSpacesPrefix(a, t + c);
    if t == [] {
      assert t + c == c;
      AllSpaceLeading(c);
      assert LStrip(s) == [];
    } else {
      assert LeadingSpaces(t + c) == 0;
      assert LStrip(s) == t + c;
      TrailingSpacesSuffix(t, c);
      assert TrailingSpaces(t) == 0;
      assert (t + c)[..|t|] == t;
    }
  }

  /** The result of `Strip` has no whitespace at either end. */
  lemma StripIsStripped(s: string)
    ensures Stripped(Strip(s))
  {
    var i := LeadingSpaces(s);
    var l := s[i..];
    var j := TrailingSpaces(l);
    var t := l[..|l| - j];
    assert Strip(s) == t;
    if t != [] {
      assert t[0] == s[i];
      assert t[|t| - 1] == l[|l| - j - 1];
    }
  }

  lemma StripOfStripped(t: string)
    requires Stripped(t)
    ensures Strip(t) == t
  {
    StripExact([], t, []);
    assert [] + t + [] == t;
  }

  /** Python's `s.strip(ch)` for a single character: drop every leading and trailing `ch`. */
  function StripChar(s: string, ch: char): (r: string)
    ensures |r| <= |s|
    ensures r == [] || (r[0] != ch && r[|r| - 1] != ch)
    decreases |s|
  {
    if |s| > 0 && s[0] == ch then StripChar(s[1..], ch)
    else if |s| > 0 && s[|s| - 1] == ch then StripChar(s[..|s| - 1], ch)
    else s
  }

  // ---------------------------------------------------------------- case mapping

  function LowerChar(c: char): char {
    if 'A' <= c <= 'Z' then (c as int - 'A' as int + 'a' as int) as char else c
  }

  function UpperChar(c: char): char {
    if 'a' <= c <= 'z' then (c as int - 'a' as int + 'A' as int) as char else c
  }

  function Lower(s: string): (r: string)
    ensures |r| == |s|
  {
    seq(|s|, i requires 0 <= i < |s| => LowerChar(s[i]))
  }

  function Upper(s: string): (r: string)
    ensures |r| == |s|
  {
    seq(|s|, i requires 0 <= i < |s| => UpperChar(s[i]))
  }

  // ---------------------------------------------------------------- search

  predicate StartsWith(s: string, p: string) {
    |p| <= |s| && s[..|p|] == p
  }

  predicate EndsWith(s: string, p: string) {
    |p| <= |s| && s[|s| - |p|..] == p
  }

  predicate OccursAt(s: string, pat: string, k: int) {
    0 <= k <= |s| - |pat| && s[k..k + |pat|] == pat
  }

  /** Index of the first occurrence of `pat` at or after `i`, or -1 (Python's `str.find`). */
  function FindFrom(s: string, pat: string, i: nat): (r: int)
    requires i <= |s|
    ensures r == -1 || (i <= r && OccursAt(s, pat, r))
    ensures forall k :: i <= k && (r == -1 || k < r) ==> !OccursAt(s, pat, k)
    decreases |s| - i
  {
    if i + |pat| > |s| then -1
    else if s[i..i + |pat|] == pat then i
    else if i == |s| then -1
    else FindFrom(s, pat, i + 1)
  }

  function Find(s: string, pat: string): int {
    FindFrom(s, pat, 0)
  }

  /** Python's `pat in s`. */
  predicate Contains(s: string, pat: string) {
    Find(s, pat) >= 0
  }

  lemma ContainsMeans(s: string, pat: string)
    ensures Contains(s, pat) <==> exists k :: OccursAt(s, pat, k)
  {
  }

  lemma ContainsChar(s: string, c: char)
    ensures Contains(s, [c]) <==> !Free(s, c)
  {
    if !Free(s, c) {
      var i :| 0 <= i < |s| && s[i] == c;
      assert OccursAt(s, [c], i);
    }
    if Contains(s, [c]) {
      var k := Find(s, [c]);
      assert s[k..k + 1] == [c];
      assert s[k] == c;
    }
  }

  /** Index of the first `c` in `s`, or `|s|` when there is none. */
  function IndexOf(s: string, c: char): (r: nat)
    ensures r <= |s|
    ensures r < |s| ==> s[r] == c
    ensures Free(s[..r], c)
    decreases |s|
  {
    if |s| == 0 then 0
    else if s[0] == c then 0
    else 1 + IndexOf(s[1..], c)
  }

  /** The first occurrence is no later than any occurrence. */
  lemma {:induction false} IndexOfAtMost(s: string, c: char, j: nat)
    requires j < |s| && s[j] == c
    ensures IndexOf(s, c) <= j
    decreases |s|
  {
    if s[0] != c {
      IndexOfAtMost(s[1..], c, j - 1);
    }
  }

  lemma IndexOfFree(s: string, c: char)
    requires Free(s, c)
    ensures IndexOf(s, c) == |s|
  {
  }

  lemma IndexOfAfterFree(a: string, c: char, rest: string)
    requires Free(a, c)
    ensures IndexOf(a + [c] + rest, c) == |a|
    decreases |a|
  {
    if |a| > 0 {
      assert (a + [c] + rest)[1..] == a[1..] + [c] + rest;
      IndexOfAfterFree(a[1..], c, rest);
    }
  }

  /** The text before the first `c` (the whole string when there is none). */
  function TakeUntil(s: string, c: char): (r: string)
    ensures Free(r, c) && StartsWith(s, r)
  {
    s[..IndexOf(s, c)]
  }

  // ---------------------------------------------------------------- split / join

  /** Python's `s.split(sep)` for a non-empty separator. */
  function SplitOn(s: string, sep: string): (r: seq<string>)
    requires |sep| > 0
    ensures |r| >= 1
    decreases |s|
  {
    var k := Find(s, sep);
    if k < 0 then [s] else [s[..k]] + SplitOn(s[k + |sep|..], sep)
  }

  /** Python's `sep.join(parts)`. */
  function Join(parts: seq<string>, sep: string): string
    decreases |parts|
  {
    if |parts| == 0 then ""
    else if |parts| == 1 then parts[0]
    else parts[0] + sep + Join(parts[1..], sep)
  }

  lemma JoinCons(a: string, tail: seq<string>, sep: string)
    requires |tail| >= 1
    ensures Join([a] + tail, sep) == a + sep + Join(tail, sep)
  {
    assert ([a] + tail)[1..] == tail;
  }

  lemma Around(s: string, k: nat, n: nat)
    requires k + n <= |s|
    ensures s == s[..k] + s[k..k + n] + s[k + n..]
  {
  }

  lemma {:induction false} JoinSplit(s: string, sep: string)
    requires |sep| > 0
    ensures Join(SplitOn(s, sep), sep) == s
    decreases |s|
  {
    var k := Find(s, sep);
    if k >= 0 {
      var rest := s[k + |sep|..];
      JoinSplit(rest, sep);
      JoinCons(s[..k], SplitOn(rest, sep), sep);
      Around(s, k, |sep|);
    }
  }

  // ---------------------------------------------------------------- decimals

  function DigitValue(c: char): nat
    requires IsDigit(c)
  {
    c as int - '0' as int
  }

  function DigitChar(d: nat): (c: char)
    requires d < 10
    ensures IsDigit(c) && DigitValue(c) == d
  {
    ('0' as int + d) as char
  }

  /** Python's `int(s)` on a string of ASCII digits. */
  function DecimalValue(s: string): nat
    requires AllDigits(s)
    decreases |s|
  {
    if |s| == 0 then 0 else DecimalValue(s[..|s| - 1]) * 10 + DigitValue(s[|s| - 1])
  }

  /** Python's `str(n)` for a natural number: decimal digits without leading zeros,
      which `int` reads back as `n`. */
  function NatToString(n: nat): (r: string)
    ensures |r| >= 1 && AllDigits(r)
    ensures DecimalValue(r) == n
    ensures r[0] != '0' || n == 0
    decreases n
  {
    if n < 10 then [DigitChar(n)]
    else
      var r := NatToString(n / 10) + [DigitChar(n % 10)];
      assert r[..|r| - 1] == NatToString(n / 10);
      r
  }

  /** Python's `str(i)`. */
  function IntToString(i: int): (r: string)
    ensures |r| >= 1
    ensures i >= 0 ==> r == NatToString(i)
    ensures i < 0 ==> r == "-" + NatToString(-i)
  {
    if i >= 0 then NatToString(i) else "-" + NatToString(-i)
  }
}
