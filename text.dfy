/** String operations the app relies on: whitespace trimming (JavaScript `trim`, Python `strip`),
    ASCII upper-casing, prefix and substring tests, and decimal rendering of a clock reading. */
module Text {

  /** The two string libraries trim slightly different sets of whitespace characters. */
  datatype Dialect = JavaScript | Python

  /** Whitespace common to both libraries, plus the characters only one of them strips:
      JavaScript also strips U+FEFF, Python also strips U+001C..U+001F and U+0085. */
  predicate IsSpace(d: Dialect, c: char)
  {
    c == '\t' || c == '\n' || c == '\U{B}' || c == '\U{C}' || c == '\r' || c == ' '
    || c == '\U{A0}' || c == '\U{1680}' || ('\U{2000}' <= c <= '\U{200A}')
    || c == '\U{2028}' || c == '\U{2029}' || c == '\U{202F}' || c == '\U{205F}' || c == '\U{3000}'
    || (d == JavaScript && c == '\U{FEFF}')
    || (d == Python && (('\U{1C}' <= c <= '\U{1F}') || c == '\U{85}'))
  }

  /** Every character of `s` is whitespace (so `s` is falsy once trimmed). */
  predicate Blank(d: Dialect, s: string)
  {
    forall k :: 0 <= k < |s| ==> IsSpace(d, s[k])
  }

  function TrimStart(d: Dialect, s: string): (r: string)
    ensures |r| <= |s| && r == s[|s| - |r|..]
    ensures forall k :: 0 <= k < |s| - |r| ==> IsSpace(d, s[k])
    ensures r != [] ==> !IsSpace(d, r[0])
  {
    if s != [] && IsSpace(d, s[0]) then TrimStart(d, s[1..]) else s
  }

  function TrimEnd(d: Dialect, s: string): (r: string)
    ensures |r| <= |s| && r == s[..|r|]
    ensures forall k :: |r| <= k < |s| ==> IsSpace(d, s[k])
    ensures r != [] ==> !IsSpace(d, r[|r| - 1])
  {
    if s != [] && IsSpace(d, s[|s| - 1]) then TrimEnd(d, s[..|s| - 1]) else s
  }

  /** `s.trim()` in JavaScript, `s.strip()` in Python: the longest infix of `s` that neither
      starts nor ends with whitespace; `TrimCutsEnds` shows it is obtained by cutting
      whitespace only. */
  function Trim(d: Dialect, s: string): (r: string)
    ensures r == [] <==> Blank(d, s)
    ensures r != [] ==> !IsSpace(d, r[0]) && !IsSpace(d, r[|r| - 1])
    ensures |r| <= |s|
  {
    TrimEnd(d, TrimStart(d, s))
  }

  /** `r` sits in `s` at offset `i`, with only whitespace before it and after it. */
  predicate CutAt(d: Dialect, s: string, r: string, i: int)
  {
    0 <= i <= |s| - |r| && (forall k :: 0 <= k < |r| ==> r[k] == s[i + k])
    && Blank(d, s[..i]) && Blank(d, s[i + |r|..])
  }

  /** The trimmed text is `s` with a blank head and a blank tail cut off. */
  lemma TrimCutsEnds(d: Dialect, s: string)
    ensures exists i :: CutAt(d, s, Trim(d, s), i)
  {
    var a := TrimStart(d, s);
    CutBetweenBlanks(d, s, a, TrimEnd(d, a));
    assert CutAt(d, s, Trim(d, s), |s| - |a|);
  }

  /** Cutting a blank head off `s`, leaving `a`, and then a blank tail off `a`, leaving `r`,
      leaves `r` as an infix of `s` between two blank parts. */
  lemma CutBetweenBlanks(d: Dialect, s: string, a: string, r: string)
    requires |a| <= |s| && a == s[|s| - |a|..]
    requires forall k :: 0 <= k < |s| - |a| ==> IsSpace(d, s[k])
    requires |r| <= |a| && r == a[..|r|]
    requires forall k :: |r| <= k < |a| ==> IsSpace(d, a[k])
    ensures CutAt(d, s, r, |s| - |a|)
  {
    var i := |s| - |a|;
    assert forall k :: 0 <= k < |r| ==> r[k] == a[k] == s[i + k];
    BlankUpTo(d, s, i);
    assert s[i + |r|..] == a[|r|..];
    BlankFrom(d, a, |r|);
  }

  /** The part of `s` before position `n` is blank when each of its characters is space. */
  lemma BlankUpTo(d: Dialect, s: string, n: nat)
    requires n <= |s|
    requires forall k :: 0 <= k < n ==> IsSpace(d, s[k])
    ensures Blank(d, s[..n])
  {
    var head := s[..n];
    forall k | 0 <= k < |head|
      ensures IsSpace(d, head[k])
    {
      assert head[k] == s[k];
    }
  }

  /** The part of `a` from position `n` on is blank when each of its characters is space. */
  lemma BlankFrom(d: Dialect, a: string, n: nat)
    requires n <= |a|
    requires forall k :: n <= k < |a| ==> IsSpace(d, a[k])
    ensures Blank(d, a[n..])
  {
    var tail := a[n..];
    forall k | 0 <= k < |tail|
      ensures IsSpace(d, tail[k])
    {
      assert tail[k] == a[n + k];
    }
  }

  /** ASCII upper-casing of one character. */
  function UpperChar(c: char): char
  {
    if 'a' <= c <= 'z' then (c as int - 32) as char else c
  }

  /** `s.upper()` in Python, `s.toUpperCase()` in JavaScript, restricted to ASCII letters. */
  function Upper(s: string): (r: string)
    ensures |r| == |s|
    ensures forall k :: 0 <= k < |s| ==> r[k] == UpperChar(s[k])
  {
    if s == [] then [] else [UpperChar(s[0])] + Upper(s[1..])
  }

  /** `s.startsWith(p)` in JavaScript. */
  predicate StartsWith(s: string, p: string)
  {
    |p| <= |s| && s[..|p|] == p
  }

  /** `s.includes(sub)` in JavaScript: `sub` occurs somewhere in `s`. */
  predicate Contains(s: string, sub: string)
    ensures Contains(s, sub) ==> |sub| <= |s|
    ensures sub == [] ==> Contains(s, sub)
    decreases |s|
  {
    StartsWith(s, sub) || (s != [] && Contains(s[1..], sub))
  }

  /** A string holding `sub` between any two strings contains it. */
  lemma {:induction false} ContainsInfix(a: string, sub: string, b: string)
    ensures Contains(a + sub + b, sub)
    decreases |a|
  {
    if a == [] {
      assert a + sub + b == sub + b;
      assert (sub + b)[..|sub|] == sub;
    } else {
      ContainsInfix(a[1..], sub, b);
      assert (a + sub + b)[1..] == a[1..] + sub + b;
    }
  }

  /** A string in which the first character of `sub` never occurs does not contain `sub`. */
  lemma {:induction false} MissingHeadNotContained(s: string, sub: string)
    requires sub != [] && sub[0] !in s
    ensures !Contains(s, sub)
    decreases |s|
  {
    if s != [] {
      assert sub[0] !in s[1..] by {
        forall k | 0 <= k < |s[1..]| ensures s[1..][k] != sub[0] {
          assert s[1..][k] == s[k + 1];
        }
      }
      MissingHeadNotContained(s[1..], sub);
      if |sub| <= |s| {
        assert s[..|sub|][0] == s[0];
      }
    }
  }

  /** A decimal digit. */
  function Digit(n: nat): (c: char)
    requires n < 10
    ensures '0' <= c <= '9'
  {
    "0123456789"[n]
  }

  /** The decimal text of a natural number, as a template literal renders `Date.now()`. */
  function Decimal(n: nat): (r: string)
    ensures |r| >= 1
    ensures forall k :: 0 <= k < |r| ==> '0' <= r[k] <= '9'
  {
    if n < 10 then [Digit(n)] else Decimal(n / 10) + [Digit(n % 10)]
  }

  /** Different numbers have different decimal texts. */
  lemma {:induction false} DecimalInjective(a: nat, b: nat)
    requires Decimal(a) == Decimal(b)
    ensures a == b
  {
    var da, db := Decimal(a), Decimal(b);
    DecimalSingle(a);
    DecimalSingle(b);
    if a < 10 {
      assert b < 10;
      DigitInjective(a, b);
    } else {
      assert b >= 10;
      DecimalLast(a);
      DecimalLast(b);
      assert Decimal(a / 10) == Decimal(b / 10);
      DecimalInjective(a / 10, b / 10);
      DigitInjective(a % 10, b % 10);
      assert a == a / 10 * 10 + a % 10 && b == b / 10 * 10 + b % 10;
    }
  }

  /** Different digits are different characters. */
  lemma DigitInjective(a: nat, b: nat)
    requires a < 10 && b < 10 && Digit(a) == Digit(b)
    ensures a == b
  {
  }

  /** The decimal text is one digit long exactly for the numbers below ten. */
  lemma DecimalSingle(n: nat)
    ensures |Decimal(n)| == 1 <==> n < 10
  {
  }

  /** From ten on, the decimal text is the text of the tens followed by the last digit. */
  lemma DecimalLast(n: nat)
    requires n >= 10
    ensures var r := Decimal(n); r[..|r| - 1] == Decimal(n / 10) && r[|r| - 1] == Digit(n % 10)
  {
  }
}
