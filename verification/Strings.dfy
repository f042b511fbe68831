// The few functions of Go's strings and fmt packages, and of bash, that the
// upgrade controller computes with.
module Strings {

  // ---------------------------------------------------------------- splitting

  /** strings.Split for a one-character separator: never empty. */
  function Split(s: string, sep: char): (parts: seq<string>)
    ensures |parts| > 0
    ensures forall i :: 0 <= i < |parts| ==> sep !in parts[i]
  {
    if s == "" then [""]
    else
      var rest := Split(s[1..], sep);
      if s[0] == sep then [""] + rest
      else [[s[0]] + rest[0]] + rest[1..]
  }

  /** strings.Join for a one-character separator. */
  function Join(parts: seq<string>, sep: char): (s: string)
    requires |parts| > 0
  {
    if |parts| == 1 then parts[0] else parts[0] + [sep] + Join(parts[1..], sep)
  }

  /** One character of Split. */
  function Prepend(c: char, sep: char, parts: seq<string>): (r: seq<string>)
    requires |parts| > 0
  {
    if c == sep then [""] + parts else [[c] + parts[0]] + parts[1..]
  }

  lemma PrependToConcat(c: char, sep: char, left: seq<string>, right: seq<string>)
    requires |left| > 0
    ensures Prepend(c, sep, left + right) == Prepend(c, sep, left) + right
  {
    assert (left + right)[1..] == left[1..] + right;
  }

  lemma {:induction false} SplitOfConcat(a: string, b: string, sep: char)
    ensures Split(a + [sep] + b, sep) == Split(a, sep) + Split(b, sep)
  {
    var s := a + [sep] + b;
    if a == "" {
      assert s[1..] == b;
    } else {
      assert s[0] == a[0] && s[1..] == a[1..] + [sep] + b;
      SplitOfConcat(a[1..], b, sep);
      var left, right := Split(a[1..], sep), Split(b, sep);
      assert Split(s, sep) == Prepend(a[0], sep, left + right);
      assert Split(a, sep) == Prepend(a[0], sep, left);
      hide Split;
      PrependToConcat(a[0], sep, left, right);
    }
  }

  lemma {:induction false} SplitOfAtom(s: string, sep: char)
    requires sep !in s
    ensures Split(s, sep) == [s]
  {
    if s != "" {
      SplitOfAtom(s[1..], sep);
      assert [s[0]] + s[1..] == s;
    }
  }

  lemma {:induction false} SplitUndoesJoin(parts: seq<string>, sep: char)
    requires |parts| > 0
    requires forall i :: 0 <= i < |parts| ==> sep !in parts[i]
    ensures Split(Join(parts, sep), sep) == parts
  {
    SplitOfAtom(parts[0], sep);
    if |parts| > 1 {
      SplitUndoesJoin(parts[1..], sep);
      SplitOfConcat(parts[0], Join(parts[1..], sep), sep);
    }
  }

  lemma {:induction false} JoinUndoesSplit(s: string, sep: char)
    ensures Join(Split(s, sep), sep) == s
  {
    if s != "" {
      var rest := Split(s[1..], sep);
      JoinUndoesSplit(s[1..], sep);
      if s[0] == sep {
        assert ([""] + rest)[1..] == rest;
      } else {
        var parts := [[s[0]] + rest[0]] + rest[1..];
        assert parts[1..] == rest[1..];
        assert Join(parts, sep) == [s[0]] + Join(rest, sep);
      }
    }
  }

  lemma {:induction false} JoinOfAppend(parts: seq<string>, last: string, sep: char)
    requires |parts| > 0
    ensures Join(parts + [last], sep) == Join(parts, sep) + [sep] + last
  {
    if |parts| > 1 {
      JoinOfAppend(parts[1..], last, sep);
      assert (parts + [last])[1..] == parts[1..] + [last];
    }
  }

  /** strings.TrimPrefix with a one-character prefix. */
  function TrimPrefix(s: string, prefix: char): (r: string) {
    if s != "" && s[0] == prefix then s[1..] else s
  }

  /** The bash test [[ s == *"t"* ]]. */
  predicate Contains(s: string, t: string) {
    t <= s || (s != "" && Contains(s[1..], t))
  }

  /** The text stands somewhere in the string. */
  lemma {:induction false} ContainsMeansOccurs(s: string, t: string)
    ensures Contains(s, t) <==> exists i :: 0 <= i <= |s| && t <= s[i..]
  {
    assert s[0..] == s;
    if s != "" {
      var rest := s[1..];
      ContainsMeansOccurs(rest, t);
      assert forall i :: 0 <= i <= |rest| ==> rest[i..] == s[i + 1..];
      if Contains(rest, t) {
        var i :| 0 <= i <= |rest| && t <= rest[i..];
        assert t <= s[i + 1..];
      }
      if i :| 0 < i <= |s| && t <= s[i..] { assert rest[i - 1..] == s[i..]; }
    }
  }

  lemma {:induction false} SuffixIsContained(a: string, t: string)
    ensures Contains(a + t, t)
  {
    if a == "" {
      assert a + t == t;
    } else {
      SuffixIsContained(a[1..], t);
      assert (a + t)[1..] == a[1..] + t;
    }
  }

  // ---------------------------------------------------------------- decimals

  const MAX_INT64: int := 0x7fff_ffff_ffff_ffff
  const MIN_INT64: int := -0x8000_0000_0000_0000

  predicate IsDigit(c: char) { '0' <= c <= '9' }

  function DigitValue(c: char): (r: nat)
    requires IsDigit(c)
  {
    c as int - '0' as int
  }

  /** The longest prefix of s made of digits. */
  function DigitPrefix(s: string): (d: string)
    ensures forall i :: 0 <= i < |d| ==> IsDigit(d[i])
  {
    if s == "" || !IsDigit(s[0]) then "" else [s[0]] + DigitPrefix(s[1..])
  }

  function ParseDigits(d: string): (r: nat)
    requires forall i :: 0 <= i < |d| ==> IsDigit(d[i])
  {
    if d == "" then 0 else 10 * ParseDigits(d[..|d| - 1]) + DigitValue(d[|d| - 1])
  }

  function PrintNat(n: nat): (d: string)
    ensures d != ""
    ensures forall i :: 0 <= i < |d| ==> IsDigit(d[i])
  {
    var last := ['0' + (n % 10) as char];
    if n < 10 then last else PrintNat(n / 10) + last
  }

  lemma {:induction false} ParseUndoesPrint(n: nat)
    ensures ParseDigits(PrintNat(n)) == n
  {
    var d := PrintNat(n);
    if n >= 10 {
      ParseUndoesPrint(n / 10);
      assert d[..|d| - 1] == PrintNat(n / 10);
    } else {
      assert d[..|d| - 1] == "";
    }
  }

  lemma {:induction false} AllDigitsIsItsPrefix(d: string)
    requires forall i :: 0 <= i < |d| ==> IsDigit(d[i])
    ensures DigitPrefix(d) == d
  {
    if d != "" {
      AllDigitsIsItsPrefix(d[1..]);
      assert [d[0]] + d[1..] == d;
    }
  }

  /** What Go's scanner skips before a verb, the newline excepted. */
  predicate IsSpace(c: char) {
    var n := c as int;
    || 0x09 <= n <= 0x0d || n == 0x20 || n == 0x85 || n == 0xa0 || n == 0x1680
    || 0x2000 <= n <= 0x200a || n == 0x2028 || n == 0x2029 || n == 0x202f
    || n == 0x205f || n == 0x3000
  }

  function SkipSpace(s: string): (r: string) {
    if s != "" && s[0] != '\n' && IsSpace(s[0]) then SkipSpace(s[1..]) else s
  }

  /** fmt.Sscanf(s, "%d", &p) into a p that starts at 0: leading spaces, an
      optional sign and the longest run of digits.  A newline before the number,
      no digit at all, or a value outside 64 bits is an error, which leaves p at 0. */
  function ScanInt(s: string): (n: int)
    ensures MIN_INT64 <= n <= MAX_INT64
  {
    var t := SkipSpace(s);
    var signed := t != "" && (t[0] == '-' || t[0] == '+');
    var digits := DigitPrefix(if signed then t[1..] else t);
    var magnitude: int := ParseDigits(digits);
    var n := if signed && t[0] == '-' then -magnitude else magnitude;
    if digits == "" || n < MIN_INT64 || n > MAX_INT64 then 0 else n
  }

  lemma {:induction false} SkipsSpaces(spaces: string, rest: string)
    requires forall i :: 0 <= i < |spaces| ==> IsSpace(spaces[i]) && spaces[i] != '\n'
    requires rest != "" && !IsSpace(rest[0])
    ensures SkipSpace(spaces + rest) == rest
  {
    if spaces == "" {
      assert spaces + rest == rest;
    } else {
      SkipsSpaces(spaces[1..], rest);
      assert (spaces + rest)[1..] == spaces[1..] + rest;
    }
  }

  lemma {:induction false} DigitsEndAtSuffix(digits: string, suffix: string)
    requires forall i :: 0 <= i < |digits| ==> IsDigit(digits[i])
    requires suffix == "" || !IsDigit(suffix[0])
    ensures DigitPrefix(digits + suffix) == digits
  {
    if digits == "" {
      assert digits + suffix == suffix;
    } else {
      DigitsEndAtSuffix(digits[1..], suffix);
      assert (digits + suffix)[1..] == digits[1..] + suffix;
    }
  }

  /** The scan is lenient: it skips leading spaces, takes a sign, and ignores whatever follows the digits. */
  lemma ScanIsLenient(spaces: string, sign: string, n: nat, suffix: string)
    requires forall i :: 0 <= i < |spaces| ==> IsSpace(spaces[i]) && spaces[i] != '\n'
    requires sign in {"", "+", "-"}
    requires suffix == "" || !IsDigit(suffix[0])
    ensures var value := if sign == "-" then -(n as int) else n as int;
            ScanInt(spaces + sign + PrintNat(n) + suffix) == if MIN_INT64 <= value <= MAX_INT64 then value else 0
  {
    var d := PrintNat(n);
    ParseUndoesPrint(n);
    hide PrintNat, ParseDigits, SkipSpace, DigitPrefix;
    var rest := sign + d + suffix;
    assert IsDigit(d[0]);
    assert rest != "" && !IsSpace(rest[0]) by {
      if sign == "" { assert rest[0] == d[0]; } else { assert rest[0] == sign[0]; }
    }
    assert spaces + sign + d + suffix == spaces + rest;
    SkipsSpaces(spaces, rest);
    DigitsEndAtSuffix(d, suffix);
    if sign == "" {
      assert rest == d + suffix && rest[0] == d[0];
    } else {
      assert rest[1..] == d + suffix && rest[0] == sign[0];
    }
    hide IsSpace;
  }

  lemma NothingInFront(d: string, suffix: string)
    ensures "" + "" + d + suffix == d + suffix
  {
  }

  lemma ScanIgnoresSuffix(n: nat, suffix: string)
    requires suffix == "" || !IsDigit(suffix[0])
    ensures ScanInt(PrintNat(n) + suffix) == ScanInt(PrintNat(n))
  {
    var d := PrintNat(n);
    hide *;
    NothingInFront(d, "");
    NothingInFront(d, suffix);
    assert d + "" == d;
    ScanIsLenient("", "", n, "");
    ScanIsLenient("", "", n, suffix);
  }

  /** Text without a digit counts as 0. */
  lemma ScanNeedsDigits(s: string)
    requires forall i :: 0 <= i < |s| ==> !IsDigit(s[i])
    ensures ScanInt(s) == 0
  {
    SkippedIsSuffix(s);
  }

  lemma {:induction false} SkippedIsSuffix(s: string)
    ensures exists k :: 0 <= k <= |s| && SkipSpace(s) == s[k..]
  {
    if s != "" && s[0] != '\n' && IsSpace(s[0]) {
      SkippedIsSuffix(s[1..]);
      var k :| 0 <= k <= |s[1..]| && SkipSpace(s[1..]) == s[1..][k..];
      assert s[1..][k..] == s[k + 1..];
    } else {
      assert s == s[0..];
    }
  }

  lemma ScanUndoesPrint(n: nat)
    requires n <= MAX_INT64
    ensures ScanInt(PrintNat(n)) == n
  {
    var d := PrintNat(n);
    assert IsDigit(d[0]);
    AllDigitsIsItsPrefix(d);
    ParseUndoesPrint(n);
  }
}
