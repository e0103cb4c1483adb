/**
 * String helpers the core relies on: JavaScript's `String.prototype.trim`
 * and the decimal rendering of a non-negative integer inside a template
 * literal.
 */
module Text {

  /** The code points JavaScript's `trim` strips: WhiteSpace and LineTerminator. */
  predicate IsJsSpace(c: char) {
    || c == '\t' || c == '\n' || c == '\U{B}' || c == '\U{C}' || c == '\r'
    || c == ' ' || c == '\U{A0}' || c == '\U{1680}'
    || ('\U{2000}' <= c <= '\U{200A}')
    || c == '\U{2028}' || c == '\U{2029}' || c == '\U{202F}' || c == '\U{205F}'
    || c == '\U{3000}' || c == '\U{FEFF}'
  }

  /** Every character is white space (this includes the empty string). */
  predicate IsBlank(s: string) {
    forall i :: 0 <= i < |s| ==> IsJsSpace(s[i])
  }

  /** `s` with its leading white space removed: a suffix of `s`. */
  function TrimStart(s: string): (r: string)
    ensures |r| <= |s| && r == s[|s| - |r|..]
    ensures IsBlank(s[..|s| - |r|])
    ensures r != [] ==> !IsJsSpace(r[0])
  {
    if |s| > 0 && IsJsSpace(s[0]) then
      var p := s[1..];
      var t := TrimStart(p);
      assert s[..|s| - |t|] == [s[0]] + p[..|p| - |t|];
      BlankConcat([s[0]], p[..|p| - |t|]);
      assert t == s[|s| - |t|..];
      t
    else s
  }

  /** `s` with its trailing white space removed: a prefix of `s`. */
  function TrimEnd(s: string): (r: string)
    ensures |r| <= |s| && r == s[..|r|]
    ensures IsBlank(s[|r|..])
    ensures r != [] ==> !IsJsSpace(r[|r| - 1])
  {
    if |s| > 0 && IsJsSpace(s[|s| - 1]) then
      var p := s[..|s| - 1];
      var t := TrimEnd(p);
      assert s[|t|..] == p[|t|..] + [s[|s| - 1]];
      BlankConcat(p[|t|..], [s[|s| - 1]]);
      assert t == s[..|t|];
      t
    else s
  }

  /** Blank strings stay blank when joined. */
  lemma BlankConcat(a: string, b: string)
    requires IsBlank(a) && IsBlank(b)
    ensures IsBlank(a + b)
  {
    forall i | 0 <= i < |a + b|
      ensures IsJsSpace((a + b)[i])
    {
      if i < |a| {
        assert (a + b)[i] == a[i];
      } else {
        assert (a + b)[i] == b[i - |a|];
      }
    }
  }

  /** JavaScript's `s.trim()`. */
  function Trim(s: string): string {
    TrimEnd(TrimStart(s))
  }

  /**
   * `trim` yields a contiguous piece of `s` whose removed ends are blank
   * and whose own ends are not white space.
   */
  lemma TrimIsSlice(s: string)
    ensures exists i, j :: 0 <= i <= j <= |s| && Trim(s) == s[i..j] && IsBlank(s[..i]) && IsBlank(s[j..])
    ensures Trim(s) != [] ==> !IsJsSpace(Trim(s)[0]) && !IsJsSpace(Trim(s)[|Trim(s)| - 1])
  {
    var t := TrimStart(s);
    var e := TrimEnd(t);
    SliceOfSlice(s, t, e);
    Witnessed(s, e, |s| - |t|, |s| - |t| + |e|);
    if e != [] {
      assert e[0] == t[0];
    }
  }

  /** A blank-trimmed prefix of a blank-trimmed suffix is a slice with blank surroundings. */
  lemma SliceOfSlice(s: string, t: string, e: string)
    requires |t| <= |s| && t == s[|s| - |t|..] && IsBlank(s[..|s| - |t|])
    requires |e| <= |t| && e == t[..|e|] && IsBlank(t[|e|..])
    ensures e == s[|s| - |t|..|s| - |t| + |e|] && IsBlank(s[|s| - |t| + |e|..])
  {
    assert s[|s| - |t| + |e|..] == t[|e|..];
  }

  lemma Witnessed(s: string, e: string, i: int, j: int)
    requires 0 <= i <= j <= |s| && e == s[i..j] && IsBlank(s[..i]) && IsBlank(s[j..])
    ensures exists i, j :: 0 <= i <= j <= |s| && e == s[i..j] && IsBlank(s[..i]) && IsBlank(s[j..])
  {
  }

  /** `!s.trim()` holds exactly for the blank strings. */
  lemma TrimEmptyIffBlank(s: string)
    ensures Trim(s) == [] <==> IsBlank(s)
  {
    var t := TrimStart(s);
    if Trim(s) == [] {
      assert IsBlank(t[0..]);
      assert s == s[..|s| - |t|] + t;
    } else {
      assert !IsJsSpace(s[|s| - |t|]);
    }
  }

  /** Trimming an already trimmed string changes nothing. */
  lemma TrimIdempotent(s: string)
    ensures Trim(Trim(s)) == Trim(s)
  {
    var t := Trim(s);
    TrimIsSlice(s);
    if t != [] {
      assert TrimStart(t) == t;
      assert TrimEnd(t) == t;
    }
  }

  function DigitChar(d: nat): (c: char)
    requires d < 10
    ensures '0' <= c <= '9' && c as int - '0' as int == d
  {
    ('0' as int + d) as char
  }

  /** The decimal digits of `n`, as `${n}` renders a non-negative integer. */
  function Decimal(n: nat): (r: string)
    ensures 1 <= |r|
    ensures forall i :: 0 <= i < |r| ==> '0' <= r[i] <= '9'
    ensures r[|r| - 1] == DigitChar(n % 10)
    ensures (n < 10) == (|r| == 1)
  {
    if n < 10 then [DigitChar(n)] else Decimal(n / 10) + [DigitChar(n % 10)]
  }

  /** Different numbers render differently, so rendered counters make distinct ids. */
  lemma {:induction false} DecimalInjective(a: nat, b: nat)
    requires Decimal(a) == Decimal(b)
    ensures a == b
  {
    if a >= 10 {
      var da, db := Decimal(a), Decimal(b);
      assert da[..|da| - 1] == Decimal(a / 10);
      assert db[..|db| - 1] == Decimal(b / 10);
      DecimalInjective(a / 10, b / 10);
    }
  }

  /** A fixed prefix followed by distinct numbers gives distinct strings. */
  lemma PrefixedDecimalInjective(prefix: string, a: nat, b: nat)
    requires prefix + Decimal(a) == prefix + Decimal(b)
    ensures a == b
  {
    assert Decimal(a) == (prefix + Decimal(a))[|prefix|..];
    assert Decimal(b) == (prefix + Decimal(b))[|prefix|..];
    DecimalInjective(a, b);
  }
}
