/** The string and sequence primitives the three scripts rely on, with the
    semantics of the JavaScript built-ins they call (`slice`, `split`,
    `trim`, `parseInt`, number-to-string) written out. */
module Strings {
  import opened Wrappers

  /** An octet of a response body or a stored object. */
  type byte = x: int | 0 <= x < 256

  predicate StartsWith(s: string, prefix: string) {
    prefix <= s
  }

  predicate EndsWith(s: string, suffix: string) {
    |suffix| <= |s| && s[|s| - |suffix|..] == suffix
  }

  /** `s.includes(part)` */
  predicate Contains(s: string, part: string) {
    exists i :: 0 <= i <= |s| - |part| && OccursAt(s, part, i)
  }

  predicate OccursAt(s: string, part: string, i: nat) {
    i + |part| <= |s| && s[i..i + |part|] == part
  }

  // ---------------------------------------------------------------------
  // slice

  /** How `slice` reads one of its bounds: negative counts from the end,
      and the result is clamped to `[0, len]`. */
  function Min(a: int, b: int): int { if a <= b then a else b }
  function Max(a: int, b: int): int { if a >= b then a else b }

  function RelativeIndex(i: int, len: nat): (r: nat)
    ensures r <= len
    ensures 0 <= i <= len ==> r == i
    ensures i < 0 && len + i >= 0 ==> r == len + i
  {
    if i < 0 then (if len + i < 0 then 0 else len + i)
    else if i > len then len
    else i
  }

  /** `s.slice(start, end)` on a string or an array. */
  function Slice<T>(s: seq<T>, start: int, end: int): (r: seq<T>)
    ensures |r| <= |s|
    ensures 0 <= start <= end <= |s| ==> r == s[start..end]
  {
    var from := RelativeIndex(start, |s|);
    var to := RelativeIndex(end, |s|);
    if from < to then s[from..to] else []
  }

  // ---------------------------------------------------------------------
  // split

  /** The first position of `c` in `s`, if any. */
  function IndexOf(s: string, c: char): (r: Option<nat>)
    ensures r.None? <==> c !in s
    ensures r.Some? ==> r.value < |s| && s[r.value] == c && c !in s[..r.value]
  {
    if |s| == 0 then None
    else if s[0] == c then Some(0)
    else
      match IndexOf(s[1..], c)
      case None =>
        assert s == [s[0]] + s[1..];
        None
      case Some(k) =>
        assert s[..k + 1] == [s[0]] + s[1..][..k];
        Some(k + 1)
  }

  /** `parts.join(sep)` */
  function Join(parts: seq<string>, sep: char): string
    requires |parts| >= 1
  {
    if |parts| == 1 then parts[0] else parts[0] + [sep] + Join(parts[1..], sep)
  }

  /** `s.split(sep)` for a one-character separator: the maximal pieces
      between separators, which joined again give back `s`. */
  function Split(s: string, sep: char): (parts: seq<string>)
    ensures |parts| >= 1
    ensures forall i :: 0 <= i < |parts| ==> sep !in parts[i]
    ensures Join(parts, sep) == s
    decreases |s|
  {
    match IndexOf(s, sep)
    case None => [s]
    case Some(i) =>
      var rest := Split(s[i + 1..], sep);
      assert ([s[..i]] + rest)[1..] == rest;
      assert s == s[..i] + [sep] + s[i + 1..];
      [s[..i]] + rest
  }

  /** `s.split(sep)[0]`: the text before the first separator. */
  function BeforeFirst(s: string, sep: char): (r: string)
    ensures StartsWith(s, r) && sep !in r
    ensures |r| < |s| ==> s[|r|] == sep
  {
    Split(s, sep)[0]
  }

  /** `s.split(sep).pop()`: the text after the last separator. */
  function AfterLast(s: string, sep: char): (r: string)
    ensures EndsWith(s, r) && sep !in r
    ensures |r| < |s| ==> s[|s| - |r| - 1] == sep
  {
    var parts := Split(s, sep);
    LastPartIsSuffix(parts, sep);
    parts[|parts| - 1]
  }

  /** The last piece of a join is a suffix of it, preceded by a separator
      when it is not all of it. */
  lemma {:induction false} LastPartIsSuffix(parts: seq<string>, sep: char)
    requires |parts| >= 1
    ensures var s, last := Join(parts, sep), parts[|parts| - 1];
            EndsWith(s, last) && (|last| < |s| ==> s[|s| - |last| - 1] == sep)
    decreases |parts|
  {
    var s, last := Join(parts, sep), parts[|parts| - 1];
    if |parts| == 1 {
      assert s[|s| - |last|..] == s;
    } else {
      var t := Join(parts[1..], sep);
      assert parts[1..][|parts[1..]| - 1] == last;
      LastPartIsSuffix(parts[1..], sep);
      var pre := parts[0] + [sep];
      assert s == pre + t;
      assert s[|s| - |last|..] == t[|t| - |last|..];
      if |last| == |t| {
        assert s[|s| - |last| - 1] == pre[|pre| - 1];
      } else {
        assert s[|s| - |last| - 1] == t[|t| - |last| - 1];
      }
    }
  }

  /** The text before the first separator of `pre + post` is `pre` when
      `pre` holds no separator and `post` is empty or starts with one. */
  lemma BeforeFirstOf(pre: string, post: string, sep: char)
    requires sep !in pre
    requires post == [] || post[0] == sep
    ensures BeforeFirst(pre + post, sep) == pre
  {
    var s := pre + post;
    var k := BeforeFirst(s, sep);
    assert |k| == |pre|;
    assert k == s[..|pre|];
  }

  /** The last `n` elements of `s`. */
  function LastN<T>(s: seq<T>, n: nat): seq<T>
    requires n <= |s|
  {
    s[|s| - n..]
  }

  /** The text after the last separator of `pre + [sep] + post` is `post`
      when `post` holds no separator. */
  lemma AfterLastOf(pre: string, post: string, sep: char)
    requires sep !in post
    ensures AfterLast(pre + [sep] + post, sep) == post
  {
    var s := pre + [sep] + post;
    var r := AfterLast(s, sep);
    forall n | |post| < n <= |s| ensures sep in LastN(s, n) {
      assert LastN(s, n)[n - |post| - 1] == s[|s| - |post| - 1];
    }
    forall n | 0 < n <= |post| ensures LastN(s, n)[0] != sep {
      assert LastN(s, n)[0] == post[|post| - n];
    }
    assert r == LastN(s, |r|);
    assert |r| < |s| ==> LastN(s, |r| + 1)[0] == sep;
    assert s[|s| - |post|..] == post;
  }

  /** `s.split("\n")` */
  function Lines(s: string): seq<string> {
    Split(s, '\n')
  }

  /** Each line followed by a line feed, as a playlist is written. */
  function Unlines(lines: seq<string>): string {
    if lines == [] then "" else lines[0] + "\n" + Unlines(lines[1..])
  }

  lemma {:induction false} UnlinesAppend(a: seq<string>, b: seq<string>)
    ensures Unlines(a + b) == Unlines(a) + Unlines(b)
    decreases |a|
  {
    if a != [] {
      assert (a + b)[1..] == a[1..] + b;
      UnlinesAppend(a[1..], b);
    } else {
      assert a + b == b;
    }
  }

  lemma IndexOfAfterFree(a: string, c: char, b: string)
    requires c !in a
    ensures IndexOf(a + [c] + b, c) == Some(|a|)
  {
    var s := a + [c] + b;
    assert s[|a|] == c;
  }

  /** Text without the separator, the separator and more text split into
      that text followed by the pieces of the rest. */
  lemma SplitAfterFree(a: string, c: char, b: string)
    requires c !in a
    ensures Split(a + [c] + b, c) == [a] + Split(b, c)
  {
    var s := a + [c] + b;
    IndexOfAfterFree(a, c, b);
    assert s[..|a|] == a;
    assert s[|a| + 1..] == b;
  }

  /** Splitting text written line by line at its line feeds gives back the
      lines, followed by the empty piece after the final line feed. */
  lemma {:induction false} SplitUnlines(lines: seq<string>)
    requires forall i :: 0 <= i < |lines| ==> '\n' !in lines[i]
    ensures Lines(Unlines(lines)) == lines + [""]
    decreases |lines|
  {
    if lines == [] {
      assert IndexOf("", '\n') == None;
    } else {
      var rest := Unlines(lines[1..]);
      assert '\n' !in lines[0];
      assert forall i :: 0 <= i < |lines[1..]| ==> lines[1..][i] == lines[i + 1];
      calc {
        Lines(Unlines(lines));
        Split(lines[0] + ['\n'] + rest, '\n');
        { SplitAfterFree(lines[0], '\n', rest); }
        [lines[0]] + Split(rest, '\n');
        { SplitUnlines(lines[1..]); }
        [lines[0]] + (lines[1..] + [""]);
        { assert lines == [lines[0]] + lines[1..]; }
        lines + [""];
      }
    }
  }

  // ---------------------------------------------------------------------
  // decimal digits

  predicate IsDigit(c: char) {
    '0' <= c <= '9'
  }

  predicate AllDigits(s: string) {
    forall i :: 0 <= i < |s| ==> IsDigit(s[i])
  }

  function DigitValue(c: char): (d: nat)
    requires IsDigit(c)
    ensures d < 10
  {
    c as int - '0' as int
  }

  function DigitChar(d: nat): (c: char)
    requires d < 10
    ensures IsDigit(c) && DigitValue(c) == d
  {
    ('0' as int + d) as char
  }

  /** The number a string of decimal digits denotes. */
  function DigitsValue(s: string): nat
    requires AllDigits(s)
  {
    if s == [] then 0 else 10 * DigitsValue(s[..|s| - 1]) + DigitValue(s[|s| - 1])
  }

  /** A natural number in decimal, as JavaScript's `${n}` writes it. */
  function NatToString(n: nat): (s: string)
    ensures 1 <= |s| && AllDigits(s)
    ensures s[0] == '0' ==> n == 0
    decreases n
  {
    if n < 10 then [DigitChar(n)] else NatToString(n / 10) + [DigitChar(n % 10)]
  }

  /** An integer in decimal, with a leading `-` when negative. */
  function IntToString(i: int): string {
    if i < 0 then "-" + NatToString(-i) else NatToString(i)
  }

  lemma {:induction false} NatToStringValue(n: nat)
    ensures DigitsValue(NatToString(n)) == n
    decreases n
  {
    if n >= 10 {
      NatToStringValue(n / 10);
      var s := NatToString(n);
      assert s[..|s| - 1] == NatToString(n / 10);
    }
  }

  // ---------------------------------------------------------------------
  // whitespace, trim and parseInt

  /** JavaScript's WhiteSpace and LineTerminator characters, which `trim`
      removes and `parseInt` skips. */
  predicate IsJsSpace(c: char) {
    var u := c as int;
    u == 0x09 || u == 0x0A || u == 0x0B || u == 0x0C || u == 0x0D || u == 0x20
    || u == 0xA0 || u == 0x1680 || (0x2000 <= u <= 0x200A) || u == 0x2028
    || u == 0x2029 || u == 0x202F || u == 0x205F || u == 0x3000 || u == 0xFEFF
  }

  function LeadingSpaces(s: string): (n: nat)
    ensures n <= |s|
    ensures forall i :: 0 <= i < n ==> IsJsSpace(s[i])
    ensures n < |s| ==> !IsJsSpace(s[n])
  {
    if s == [] || !IsJsSpace(s[0]) then 0 else 1 + LeadingSpaces(s[1..])
  }

  function TrailingSpaces(s: string): (n: nat)
    ensures n <= |s|
    ensures forall i :: |s| - n <= i < |s| ==> IsJsSpace(s[i])
    ensures n < |s| ==> !IsJsSpace(s[|s| - n - 1])
  {
    if s == [] || !IsJsSpace(s[|s| - 1]) then 0 else 1 + TrailingSpaces(s[..|s| - 1])
  }

  predicate AllSpace(s: string) {
    forall k :: 0 <= k < |s| ==> IsJsSpace(s[k])
  }

  /** `s` is `r` with white space before and after it, `r` starting at `i`. */
  predicate TrimmedAt(s: string, r: string, i: nat) {
    i + |r| <= |s| && s[i..i + |r|] == r && AllSpace(s[..i]) && AllSpace(s[i + |r|..])
  }

  function TrimStart(s: string): string {
    s[LeadingSpaces(s)..]
  }

  /** `s.trim()`: `s` without its leading and trailing white space. */
  function Trim(s: string): (r: string)
    ensures exists i :: 0 <= i <= |s| - |r| && TrimmedAt(s, r, i)
    ensures r == [] || (!IsJsSpace(r[0]) && !IsJsSpace(r[|r| - 1]))
  {
    var n := LeadingSpaces(s);
    var t := s[n..];
    var m := TrailingSpaces(t);
    var r := t[..|t| - m];
    assert s[n..n + |r|] == r;
    assert forall k :: n + |r| <= k < |s| ==> s[k] == t[k - n];
    assert TrimmedAt(s, r, n);
    r
  }

  /** The length of the run of decimal digits that starts `s`. */
  function DigitRun(s: string): (n: nat)
    ensures n <= |s| && AllDigits(s[..n])
    ensures n < |s| ==> !IsDigit(s[n])
  {
    if s == [] || !IsDigit(s[0]) then 0
    else
      var k := DigitRun(s[1..]);
      assert s[..k + 1] == [s[0]] + s[1..][..k];
      k + 1
  }

  /** `parseInt(s, 10)`: skip white space, read an optional sign and the
      longest run of digits; `None` stands for `NaN` (no digit at all). */
  function ParseInt(s: string): (r: Option<int>)
  {
    var t := TrimStart(s);
    var signed := |t| > 0 && (t[0] == '-' || t[0] == '+');
    var digits := if signed then t[1..] else t;
    var n := DigitRun(digits);
    if n == 0 then None
    else if signed && t[0] == '-' then Some(0 - DigitsValue(digits[..n]))
    else Some(DigitsValue(digits[..n]))
  }

  lemma {:induction false} DigitRunOfNumeral(d: string, tail: string)
    requires AllDigits(d)
    requires tail == [] || !IsDigit(tail[0])
    ensures DigitRun(d + tail) == |d|
    decreases |d|
  {
    if d == [] {
      assert d + tail == tail;
    } else {
      assert (d + tail)[1..] == d[1..] + tail;
      DigitRunOfNumeral(d[1..], tail);
    }
  }

  /** `parseInt` reads back any decimal numeral, whatever non-digit text
      follows it. */
  lemma ParseIntOfDecimal(n: nat, tail: string)
    requires tail == [] || !IsDigit(tail[0])
    ensures ParseInt(NatToString(n) + tail) == Some(n)
  {
    var d := NatToString(n);
    var s := d + tail;
    assert s[0] == d[0];
    assert LeadingSpaces(s) == 0;
    assert TrimStart(s) == s;
    DigitRunOfNumeral(d, tail);
    assert s[..|d|] == d;
    NatToStringValue(n);
  }

  // ---------------------------------------------------------------------
  // case

  /** Lower-casing restricted to ASCII letters. */
  function LowerAscii(c: char): (r: char)
    ensures 'A' <= c <= 'Z' ==> r as int == c as int + 32
    ensures !('A' <= c <= 'Z') ==> r == c
  {
    if 'A' <= c <= 'Z' then (c as int + 32) as char else c
  }
}
