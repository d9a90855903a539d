/** Character classes, the hand-written equivalents of the few regular
    expressions the program uses, integer parsing as `int.Parse` does it, and
    the ordering used for account keys. */
module Text {
  import opened Wrappers

  predicate IsDigit(c: char) { '0' <= c <= '9' }

  predicate IsAsciiLetter(c: char) { 'a' <= c <= 'z' || 'A' <= c <= 'Z' }

  predicate IsAsciiLetterOrDigit(c: char) { IsAsciiLetter(c) || IsDigit(c) }

  /** The white-space class `\s` of .NET regular expressions, restricted to the
      Latin-1 range (the other Unicode separators are not modelled). */
  predicate IsRegexSpace(c: char) {
    c == ' ' || c == '\t' || c == '\n' || c == '\r' || c == '\U{B}' || c == '\U{C}'
    || c == '\U{85}' || c == '\U{A0}'
  }

  /** White space that `int.Parse` and `double.Parse` skip around a number. */
  predicate IsParseSpace(c: char) {
    c == ' ' || c == '\t' || c == '\n' || c == '\r' || c == '\U{B}' || c == '\U{C}'
  }

  predicate AllChars(s: string, p: char -> bool) {
    forall i :: 0 <= i < |s| ==> p(s[i])
  }

  predicate StartsWith(s: string, prefix: string) {
    |prefix| <= |s| && s[..|prefix|] == prefix
  }

  function ToUpperAscii(c: char): char {
    if 'a' <= c <= 'z' then (c as int - 32) as char else c
  }

  /** Case-insensitive prefix test (ASCII case folding). */
  predicate StartsWithIgnoreCase(s: string, prefix: string) {
    |prefix| <= |s| && forall i :: 0 <= i < |prefix| ==> ToUpperAscii(s[i]) == ToUpperAscii(prefix[i])
  }

  /** Length of the longest prefix of `s` whose characters satisfy `p`. */
  function RunLength(s: string, p: char -> bool): (n: nat)
    ensures n <= |s|
    ensures forall i :: 0 <= i < n ==> p(s[i])
    ensures n < |s| ==> !p(s[n])
  {
    if s == [] || !p(s[0]) then 0 else 1 + RunLength(s[1..], p)
  }

  function DigitValue(c: char): nat
    requires IsDigit(c)
  {
    c as int - '0' as int
  }

  /** The value of a non-empty run of decimal digits. */
  function DigitsValue(s: string): nat
    requires AllChars(s, IsDigit)
  {
    if s == [] then 0 else 10 * DigitsValue(s[..|s| - 1]) + DigitValue(s[|s| - 1])
  }

  const Int32Min: int := -0x8000_0000
  const Int32Max: int := 0x7FFF_FFFF

  function TrimParseSpace(s: string): (r: string)
    ensures |r| <= |s|
  {
    if s != [] && IsParseSpace(s[0]) then TrimParseSpace(s[1..])
    else if s != [] && IsParseSpace(s[|s| - 1]) then TrimParseSpace(s[..|s| - 1])
    else s
  }

  /** `int.Parse` with the default integer style: optional surrounding white
      space, an optional sign, at least one digit, and a value in 32-bit range.
      Anything else is a FormatException, an out-of-range value an
      OverflowException. */
  function ParseInt32(text: string): (r: Result<int>)
    ensures r.Ok? ==> Int32Min <= r.value <= Int32Max
  {
    var t := TrimParseSpace(text);
    var neg := |t| > 0 && t[0] == '-';
    var body := if |t| > 0 && (t[0] == '-' || t[0] == '+') then t[1..] else t;
    if body == [] || !AllChars(body, IsDigit) then Err(Format(text))
    else
      var v: int := if neg then -(DigitsValue(body) as int) else DigitsValue(body);
      if v < Int32Min || Int32Max < v then Err(Overflow(text)) else Ok(v)
  }

  function DigitChar(d: nat): (c: char)
    requires d < 10
    ensures IsDigit(c) && DigitValue(c) == d
  {
    ('0' as int + d) as char
  }

  /** The decimal digits of `n`, most significant first, without leading
      zeros: `n.ToString()` for a non-negative number. */
  function NatDigits(n: nat): (s: string)
    ensures |s| >= 1 && AllChars(s, IsDigit)
  {
    if n < 10 then [DigitChar(n)] else NatDigits(n / 10) + [DigitChar(n % 10)]
  }

  /** Reading back the digits of `n` gives `n`. */
  lemma {:induction false} NatDigitsValue(n: nat)
    ensures DigitsValue(NatDigits(n)) == n
  {
    var s := NatDigits(n);
    if n < 10 {
      assert s[..|s| - 1] == [];
    } else {
      assert s[..|s| - 1] == NatDigits(n / 10);
      NatDigitsValue(n / 10);
    }
  }

  /** `n.ToString()` for any integer: a minus sign before the digits of a
      negative number. */
  function IntString(n: int): (s: string)
    ensures |s| >= 1 && ',' !in s && ' ' !in s
    ensures s[0] == '-' <==> n < 0
  {
    if n < 0 then "-" + NatDigits(-n) else NatDigits(n)
  }

  /** Different integers have different decimal strings. */
  lemma IntStringInjective(a: int, b: int)
    requires IntString(a) == IntString(b)
    ensures a == b
  {
    NatDigitsValue(if a < 0 then -a else a);
    NatDigitsValue(if b < 0 then -b else b);
    if a < 0 && b < 0 {
      assert IntString(a)[1..] == NatDigits(-a) && IntString(b)[1..] == NatDigits(-b);
    }
  }

  /** `int.Parse` reads back every 32-bit value from its decimal string. */
  lemma ParseIntString(n: int)
    requires Int32Min <= n <= Int32Max
    ensures ParseInt32(IntString(n)) == Ok(n)
  {
    var s := IntString(n);
    assert !IsParseSpace(s[0]) && !IsParseSpace(s[|s| - 1]);
    assert TrimParseSpace(s) == s;
    if n < 0 {
      assert s[1..] == NatDigits(-n);
      NatDigitsValue(-n);
    } else {
      NatDigitsValue(n);
    }
  }

  /** `double.Parse` restricted to plain decimal notation with '.' as the
      separator: optional white space and sign, digits, optionally a fraction. */
  function ParseDecimal(text: string): (r: Result<real>)
  {
    var t := TrimParseSpace(text);
    var neg := |t| > 0 && t[0] == '-';
    var body := if |t| > 0 && (t[0] == '-' || t[0] == '+') then t[1..] else t;
    var n := RunLength(body, IsDigit);
    var intPart := body[..n];
    var rest := body[n..];
    if n == 0 then Err(Format(text))
    else if rest == [] then
      Ok(if neg then -(DigitsValue(intPart) as real) else DigitsValue(intPart) as real)
    else if rest[0] != '.' || |rest| == 1 || !AllChars(rest[1..], IsDigit) then Err(Format(text))
    else
      var v := DigitsValue(intPart) as real + DigitsValue(rest[1..]) as real / Pow10(|rest| - 1) as real;
      Ok(if neg then -v else v)
  }

  function Pow10(n: nat): (r: nat)
    ensures r >= 1
  {
    if n == 0 then 1 else 10 * Pow10(n - 1)
  }

  /** `s.Split(' ')[0]`: everything before the first space. */
  function FirstWord(s: string): (w: string)
    ensures StartsWith(s, w)
    ensures ' ' !in w
    ensures |w| < |s| ==> s[|w|] == ' '
  {
    if s == [] || s[0] == ' ' then [] else [s[0]] + FirstWord(s[1..])
  }

  /** `s.Split(sep)`: the pieces between separators, empty pieces kept. */
  function Split(s: string, sep: char): (parts: seq<string>)
    ensures |parts| >= 1
  {
    if s == [] then [""]
    else
      var rest := Split(s[1..], sep);
      if s[0] == sep then [""] + rest else [[s[0]] + rest[0]] + rest[1..]
  }

  /** A string without the separator is one piece. */
  lemma {:induction false} SplitWhole(s: string, sep: char)
    requires sep !in s
    ensures Split(s, sep) == [s]
  {
    if s != [] {
      assert sep !in s[1..] by {
        forall i | 0 <= i < |s| - 1 ensures s[1..][i] != sep { assert s[1..][i] == s[i + 1]; }
      }
      SplitWhole(s[1..], sep);
      assert s[0] != sep;
      assert [s[0]] + s[1..] == s;
    }
  }

  /** The first separator ends the first piece. */
  lemma {:induction false} SplitAt(a: string, b: string, sep: char)
    requires sep !in a
    ensures Split(a + [sep] + b, sep) == [a] + Split(b, sep)
  {
    var s := a + [sep] + b;
    if a == [] {
      assert s[1..] == b;
    } else {
      assert s[1..] == a[1..] + [sep] + b;
      assert sep !in a[1..] by {
        forall i | 0 <= i < |a| - 1 ensures a[1..][i] != sep { assert a[1..][i] == a[i + 1]; }
      }
      SplitAt(a[1..], b, sep);
      assert [a[0]] + a[1..] == a;
    }
  }

  // ---- Ordering of account keys -------------------------------------------

  /** Ordinal lexicographic order on strings (the culture-sensitive order of
      `OrderBy` on strings is replaced by this one). */
  predicate LexLess(a: string, b: string) {
    if b == [] then false
    else if a == [] then true
    else if a[0] != b[0] then a[0] < b[0]
    else LexLess(a[1..], b[1..])
  }

  lemma {:induction false} LexLessIrreflexive(a: string)
    ensures !LexLess(a, a)
  {
    if a != [] { LexLessIrreflexive(a[1..]); }
  }

  lemma {:induction false} LexLessAsymmetric(a: string, b: string)
    ensures LexLess(a, b) ==> !LexLess(b, a)
  {
    if a != [] && b != [] && a[0] == b[0] { LexLessAsymmetric(a[1..], b[1..]); }
  }

  lemma {:induction false} LexLessTrichotomous(a: string, b: string)
    ensures a == b || LexLess(a, b) || LexLess(b, a)
  {
    if a != [] && b != [] && a[0] == b[0] {
      LexLessTrichotomous(a[1..], b[1..]);
      if a[1..] == b[1..] {
        assert a == [a[0]] + a[1..] && b == [b[0]] + b[1..];
      }
    }
  }

  lemma {:induction false} LexLessTransitive(a: string, b: string, c: string)
    requires LexLess(a, b) && LexLess(b, c)
    ensures LexLess(a, c)
  {
    if a != [] && a[0] == b[0] && b[0] == c[0] {
      LexLessTransitive(a[1..], b[1..], c[1..]);
    }
  }

  predicate StrictlySorted(s: seq<string>) {
    forall i, j :: 0 <= i < j < |s| ==> LexLess(s[i], s[j])
  }

  /** Inserts `x` into a strictly sorted sequence unless it is already there. */
  function InsertDistinct(x: string, s: seq<string>): (r: seq<string>)
    requires StrictlySorted(s)
    ensures StrictlySorted(r)
    ensures forall y :: y in r <==> y == x || y in s
    ensures r != [] && (LexLess(x, r[0]) || x == r[0] || (s != [] && r[0] == s[0]))
  {
    if s == [] then [x]
    else if x == s[0] then s
    else if LexLess(x, s[0]) then
      forall j | 0 < j < |s| ensures LexLess(x, s[j]) {
        LexLessTransitive(x, s[0], s[j]);
      }
      [x] + s
    else
      LexLessTrichotomous(x, s[0]);
      var t := InsertDistinct(x, s[1..]);
      forall j | 0 <= j < |t| ensures LexLess(s[0], t[j]) {
        var y := t[j];
        assert y in t;
        if y != x {
          var k :| 0 <= k < |s| - 1 && s[1..][k] == y;
          assert s[k + 1] == y;
        }
      }
      [s[0]] + t
  }

  /** `keys.Distinct().OrderBy(a => a)`: the elements of `keys`, each once, in
      ascending order. */
  function SortDistinct(keys: seq<string>): (r: seq<string>)
    ensures StrictlySorted(r)
    ensures forall y :: y in r <==> y in keys
  {
    if keys == [] then []
    else InsertDistinct(keys[|keys| - 1], SortDistinct(keys[..|keys| - 1]))
  }

  /** A strictly sorted sequence is determined by its elements, so the result
      of `SortDistinct` does not depend on the order of its input. */
  lemma {:induction false} StrictlySortedUnique(r: seq<string>, t: seq<string>)
    requires StrictlySorted(r) && StrictlySorted(t)
    requires forall y :: y in r <==> y in t
    ensures r == t
  {
    assert r != [] ==> r[0] in r;
    assert t != [] ==> t[0] in t;
    if r != [] && t != [] {
      var i :| 0 <= i < |t| && t[i] == r[0];
      var k :| 0 <= k < |r| && r[k] == t[0];
      SortedHeadLeast(r, k);
      SortedHeadLeast(t, i);
      LexLessAsymmetric(r[0], t[0]);
      assert r[0] == t[0];
      forall y ensures y in r[1..] <==> y in t[1..] {
        TailMembers(r, y);
        TailMembers(t, y);
      }
      StrictlySortedUnique(r[1..], t[1..]);
      assert r == [r[0]] + r[1..] && t == [t[0]] + t[1..];
    }
  }

  lemma SortedHeadLeast(s: seq<string>, k: nat)
    requires StrictlySorted(s) && k < |s|
    ensures s[k] == s[0] || LexLess(s[0], s[k])
  {
  }

  lemma TailMembers(s: seq<string>, y: string)
    requires StrictlySorted(s) && s != []
    ensures y in s[1..] <==> y in s && y != s[0]
  {
    if y in s && y != s[0] {
      var k :| 0 <= k < |s| && s[k] == y;
      assert s[1..][k - 1] == y;
    }
    if y in s[1..] {
      var k :| 0 <= k < |s| - 1 && s[1..][k] == y;
      assert LexLess(s[0], s[k + 1]);
      LexLessIrreflexive(y);
    }
  }
}
