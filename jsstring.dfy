/**
 * The JavaScript string built-ins the extension relies on: `String.prototype.trim`,
 * `Array.prototype.join('\n')`, `String.prototype.split('\n')` and the decimal
 * rendering of a non-negative integer in a template literal.
 */
module JsString {

  import opened Options

  /** WhiteSpace and LineTerminator code points, the set `trim` removes (ECMA-262 sections 12.2 and 12.3). */
  predicate IsSpace(c: char) {
    || c in {'\t', '\n', '\U{000B}', '\U{000C}', '\r', ' ', '\U{00A0}', '\U{1680}'}
    || ('\U{2000}' <= c <= '\U{200A}')
    || c in {'\U{2028}', '\U{2029}', '\U{202F}', '\U{205F}', '\U{3000}', '\U{FEFF}'}
  }

  predicate AllSpace(s: string) {
    forall k :: 0 <= k < |s| ==> IsSpace(s[k])
  }

  /** No white space at either end. */
  predicate Trimmed(s: string) {
    s == "" || (!IsSpace(s[0]) && !IsSpace(s[|s| - 1]))
  }

  /**
   * `s.trim()`: drops white space from both ends. It removes one character at a time,
   * from the front while the front is space and then from the back.
   */
  function Trim(s: string): (r: string)
    ensures Trimmed(r)
    ensures |r| <= |s|
  {
    if |s| > 0 && IsSpace(s[0]) then Trim(s[1..])
    else if |s| > 0 && IsSpace(s[|s| - 1]) then Trim(s[..|s| - 1])
    else s
  }

  /** `r` stands at index `i` of `s`, with only white space before and after it. */
  ghost predicate SpaceAround(s: string, r: string, i: int) {
    && 0 <= i <= |s| - |r|
    && r == s[i..i + |r|]
    && AllSpace(s[..i]) && AllSpace(s[i + |r|..])
  }

  lemma FrontSpace(s: string, r: string, i: int)
    requires |s| > 0 && IsSpace(s[0]) && SpaceAround(s[1..], r, i)
    ensures SpaceAround(s, r, i + 1)
  {
    assert s[1..][i..i + |r|] == s[i + 1..i + 1 + |r|];
    assert s[1..][i + |r|..] == s[i + 1 + |r|..];
    assert s[..i + 1] == [s[0]] + s[1..][..i];
  }

  lemma BackSpace(s: string, r: string, i: int)
    requires |s| > 0 && IsSpace(s[|s| - 1]) && SpaceAround(s[..|s| - 1], r, i)
    ensures SpaceAround(s, r, i)
  {
    var t := s[..|s| - 1];
    assert t[i..i + |r|] == s[i..i + |r|];
    assert t[..i] == s[..i];
    assert s[i + |r|..] == t[i + |r|..] + [s[|s| - 1]];
  }

  /**
   * What `trim` keeps is a contiguous piece of `s`, and everything before and after it
   * is white space; together with `Trimmed` this determines the result.
   */
  lemma {:induction false} TrimKeepsInfix(s: string)
    ensures exists i :: SpaceAround(s, Trim(s), i)
  {
    if |s| > 0 && IsSpace(s[0]) {
      TrimKeepsInfix(s[1..]);
      var i :| SpaceAround(s[1..], Trim(s), i);
      FrontSpace(s, Trim(s), i);
    } else if |s| > 0 && IsSpace(s[|s| - 1]) {
      TrimKeepsInfix(s[..|s| - 1]);
      var i :| SpaceAround(s[..|s| - 1], Trim(s), i);
      BackSpace(s, Trim(s), i);
    } else {
      assert Trim(s) == s;
      assert s[0..0 + |s|] == s;
      assert SpaceAround(s, s, 0);
    }
  }

  /** `trim` gives "" exactly for a string of white space only. */
  lemma {:induction false} TrimEmptyIffSpace(s: string)
    ensures Trim(s) == "" <==> AllSpace(s)
  {
    if |s| > 0 && IsSpace(s[0]) {
      TrimEmptyIffSpace(s[1..]);
      assert forall k :: 1 <= k < |s| ==> s[k] == s[1..][k - 1];
    } else if |s| > 0 && IsSpace(s[|s| - 1]) {
      TrimEmptyIffSpace(s[..|s| - 1]);
      assert forall k :: 0 <= k < |s| - 1 ==> s[k] == s[..|s| - 1][k];
    } else if |s| > 0 {
      assert !IsSpace(s[0]);
    }
  }

  /** A string without white space at either end is its own trim. */
  lemma TrimOfTrimmed(s: string)
    requires Trimmed(s)
    ensures Trim(s) == s
  {
  }

  /** Trimming twice is trimming once. */
  lemma TrimIdempotent(s: string)
    ensures Trim(Trim(s)) == Trim(s)
  {
    TrimOfTrimmed(Trim(s));
  }

  predicate IsDigit(c: char) {
    '0' <= c <= '9'
  }

  predicate IsDigits(s: string) {
    forall k :: 0 <= k < |s| ==> IsDigit(s[k])
  }

  function DigitChar(d: nat): (c: char)
    requires d < 10
    ensures IsDigit(c) && (c as int) - ('0' as int) == d
  {
    (('0' as int) + d) as char
  }

  /** `${n}` for a non-negative integer: its decimal digits, most significant first. */
  function Decimal(n: nat): (r: string)
    ensures |r| > 0 && IsDigits(r)
    ensures |r| > 1 ==> r[0] != '0'
  {
    if n < 10 then [DigitChar(n)] else Decimal(n / 10) + [DigitChar(n % 10)]
  }

  /** The number a digit string denotes. */
  function DigitsValue(s: string): nat
    requires IsDigits(s)
  {
    if s == "" then 0 else DigitsValue(s[..|s| - 1]) * 10 + ((s[|s| - 1] as int) - ('0' as int))
  }

  /** Reading a number back: the digits of a non-empty digit string, None otherwise. */
  function ParseDecimal(s: string): (r: Option<nat>)
    ensures r.Some? <==> s != "" && IsDigits(s)
  {
    if s != "" && IsDigits(s) then Some(DigitsValue(s)) else None
  }

  /** The decimal rendering of a count reads back as that count. */
  lemma {:induction false} ParseDecimalOfDecimal(n: nat)
    ensures ParseDecimal(Decimal(n)) == Some(n)
  {
    DecimalValue(n);
  }

  lemma {:induction false} DecimalValue(n: nat)
    ensures DigitsValue(Decimal(n)) == n
  {
    if n >= 10 {
      var d := Decimal(n / 10);
      var r := Decimal(n);
      assert r[..|r| - 1] == d;
      DecimalValue(n / 10);
    }
  }

  /** `lines.join('\n')`. */
  function JoinLines(ls: seq<string>): string {
    if |ls| == 0 then "" else if |ls| == 1 then ls[0] else ls[0] + "\n" + JoinLines(ls[1..])
  }

  /** Joining a concatenation of two non-empty lists puts one separator between the two parts. */
  lemma {:induction false} JoinAppend(a: seq<string>, b: seq<string>)
    requires |a| > 0 && |b| > 0
    ensures JoinLines(a + b) == JoinLines(a) + "\n" + JoinLines(b)
  {
    if |a| == 1 {
      assert (a + b)[1..] == b;
    } else {
      assert (a + b)[1..] == a[1..] + b;
      JoinAppend(a[1..], b);
    }
  }

  /** `s.split('\n')`: never empty; "" splits into [""]. */
  function SplitLines(s: string): (r: seq<string>)
    ensures |r| > 0
    ensures forall k :: 0 <= k < |r| ==> '\n' !in r[k]
  {
    if s == "" then [""]
    else
      var rest := SplitLines(s[1..]);
      if s[0] == '\n' then [""] + rest else [[s[0]] + rest[0]] + rest[1..]
  }

  predicate NoNewline(ls: seq<string>) {
    forall k :: 0 <= k < |ls| ==> '\n' !in ls[k]
  }

  lemma {:induction false} SplitLineFirst(l: string, rest: string)
    requires '\n' !in l
    ensures SplitLines(l + "\n" + rest) == [l] + SplitLines(rest)
    ensures SplitLines(l) == [l]
  {
    if l != "" {
      assert (l + "\n" + rest)[1..] == l[1..] + "\n" + rest;
      SplitLineFirst(l[1..], rest);
      assert [l[0]] + l[1..] == l;
    } else {
      assert ("" + "\n" + rest)[1..] == rest;
    }
  }

  /** Splitting on '\n' undoes joining lines that hold no '\n'. */
  lemma {:induction false} SplitJoin(ls: seq<string>)
    requires |ls| > 0 && NoNewline(ls)
    ensures SplitLines(JoinLines(ls)) == ls
  {
    if |ls| == 1 {
      SplitLineFirst(ls[0], "");
    } else {
      SplitLineFirst(ls[0], JoinLines(ls[1..]));
      SplitJoin(ls[1..]);
    }
  }

  /** `s.slice(0, n)`. */
  function Slice(s: string, n: nat): (r: string)
    ensures |r| == if n <= |s| then n else |s|
    ensures r <= s
  {
    if n <= |s| then s[..n] else s
  }

  predicate HasPrefix(s: string, p: string) {
    |p| <= |s| && s[..|p|] == p
  }

  predicate HasSuffix(s: string, p: string) {
    |p| <= |s| && s[|s| - |p|..] == p
  }
}
