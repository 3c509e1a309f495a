/**
 * Python's conversions between integers and their decimal text:
 * `str(n)` for an int (used to build object-listing keys) and `int(s)`
 * for a string read from the configuration file.
 */
module Text {
  import opened Wrappers

  predicate IsDigit(c: char) { '0' <= c <= '9' }

  /** The characters C's `isspace` accepts, which `int()` skips around a literal. */
  predicate IsSpace(c: char) {
    c == ' ' || c == '\t' || c == '\n' || c == '\r' || c == '\U{0B}' || c == '\U{0C}'
  }

  /** Every character is a decimal digit (stated from the end, the way digits are appended). */
  predicate AllDigits(s: string) {
    s == [] || (AllDigits(s[..|s| - 1]) && IsDigit(s[|s| - 1]))
  }

  function DigitValue(c: char): (d: nat)
    requires IsDigit(c)
    ensures d < 10
  {
    (c as int) - ('0' as int)
  }

  function DigitChar(d: nat): (c: char)
    requires d < 10
    ensures IsDigit(c) && DigitValue(c) == d
  {
    (('0' as int) + d) as char
  }

  /** The value of a run of decimal digits, most significant first. */
  function DigitsValue(s: string): nat
    requires AllDigits(s)
  {
    if s == [] then 0 else 10 * DigitsValue(s[..|s| - 1]) + DigitValue(s[|s| - 1])
  }

  /** Python `str(n)` for a non-negative int: no sign, no leading zero. */
  function NatToString(n: nat): (s: string)
    ensures |s| > 0 && AllDigits(s)
    ensures forall i | 0 <= i < |s| :: IsDigit(s[i])
    ensures DigitsValue(s) == n
    ensures s[0] != '0' || n == 0
  {
    if n < 10 then [DigitChar(n)]
    else
      var s := NatToString(n / 10) + [DigitChar(n % 10)];
      assert s[..|s| - 1] == NatToString(n / 10);
      s
  }

  /** Python `str(n)` for an int: a leading '-' for negative values. */
  function IntToString(n: int): (s: string)
    ensures |s| > 0 && '.' !in s
    ensures n >= 0 <==> IsDigit(s[0])
  {
    if n < 0 then "-" + NatToString(-n) else NatToString(n)
  }

  function TrimLeft(s: string): string {
    if s != [] && IsSpace(s[0]) then TrimLeft(s[1..]) else s
  }

  function TrimRight(s: string): string {
    if s != [] && IsSpace(s[|s| - 1]) then TrimRight(s[..|s| - 1]) else s
  }

  /** Python `str.strip()` restricted to the whitespace `int()` ignores. */
  function Strip(s: string): string {
    TrimRight(TrimLeft(s))
  }

  /**
   * Python `int(s)` on a string in base 10: `None` where Python raises
   * `ValueError`.
   */
  function ParseInt(s: string): Option<int> {
    var t := Strip(s);
    if t == [] then None
    else if t[0] == '-' || t[0] == '+' then
      if |t| > 1 && AllDigits(t[1..]) then
        var magnitude: int := DigitsValue(t[1..]);
        Some(if t[0] == '-' then -magnitude else magnitude)
      else None
    else if AllDigits(t) then Some(DigitsValue(t))
    else None
  }

  predicate AllSpaces(w: string) {
    forall i | 0 <= i < |w| :: IsSpace(w[i])
  }

  /**
   * `s` is an integer literal as `int()` reads it: whitespace `w1`, an
   * optional sign, at least one digit `d`, whitespace `w2`.
   */
  predicate Literal(s: string, w1: string, sign: string, d: string, w2: string) {
    && AllSpaces(w1) && AllSpaces(w2)
    && (sign == "" || sign == "-" || sign == "+")
    && d != [] && AllDigits(d)
    && s == w1 + sign + d + w2
  }

  function LiteralValue(sign: string, d: string): int
    requires AllDigits(d)
  {
    var magnitude: int := DigitsValue(d);
    if sign == "-" then -magnitude else magnitude
  }

  lemma {:induction false} AllDigitsAt(s: string)
    ensures AllDigits(s) <==> forall i | 0 <= i < |s| :: IsDigit(s[i])
  {
    if s != [] {
      AllDigitsAt(s[..|s| - 1]);
    }
  }

  /** Left trimming drops leading whitespace only: the result is a suffix that does not start with whitespace. */
  lemma {:induction false} TrimLeftSuffix(s: string)
    ensures var t := TrimLeft(s);
      && |t| <= |s| && t == s[|s| - |t|..] && (t != [] ==> !IsSpace(t[0]))
      && forall i | 0 <= i < |s| - |t| :: IsSpace(s[i])
  {
    if s != [] && IsSpace(s[0]) {
      TrimLeftSuffix(s[1..]);
      var t := TrimLeft(s[1..]);
      assert s[1..][|s| - 1 - |t|..] == s[|s| - |t|..];
      forall i | 1 <= i < |s| - |t| ensures IsSpace(s[i]) {
        assert s[i] == s[1..][i - 1];
      }
    }
  }

  /** Right trimming drops trailing whitespace only: the result is a prefix that does not end with whitespace. */
  lemma {:induction false} TrimRightPrefix(s: string)
    ensures var r := TrimRight(s);
      && |r| <= |s| && r == s[..|r|] && (r != [] ==> !IsSpace(r[|r| - 1]))
      && forall i | |r| <= i < |s| :: IsSpace(s[i])
  {
    if s != [] && IsSpace(s[|s| - 1]) {
      TrimRightPrefix(s[..|s| - 1]);
      var r := TrimRight(s[..|s| - 1]);
      assert s[..|s| - 1][..|r|] == s[..|r|];
      forall i | |r| <= i < |s| - 1 ensures IsSpace(s[i]) {
        assert s[i] == s[..|s| - 1][i];
      }
    }
  }

  lemma {:induction false} TrimLeftSpaces(w: string, x: string)
    requires AllSpaces(w) && (x == [] || !IsSpace(x[0]))
    ensures TrimLeft(w + x) == x
  {
    if w == [] {
      assert w + x == x;
    } else {
      assert (w + x)[1..] == w[1..] + x;
      TrimLeftSpaces(w[1..], x);
    }
  }

  lemma {:induction false} TrimRightSpaces(x: string, w: string)
    requires AllSpaces(w) && (x == [] || !IsSpace(x[|x| - 1]))
    ensures TrimRight(x + w) == x
  {
    if w == [] {
      assert x + w == x;
    } else {
      assert (x + w)[..|x + w| - 1] == x + w[..|w| - 1];
      TrimRightSpaces(x, w[..|w| - 1]);
    }
  }

  /** `int()` reads every integer literal as the signed value of its digits. */
  lemma ParseIntOfLiteral(s: string, w1: string, sign: string, d: string, w2: string)
    requires Literal(s, w1, sign, d, w2)
    ensures ParseInt(s) == Some(LiteralValue(sign, d))
  {
    var t := sign + d;
    AllDigitsAt(d);
    assert s == w1 + (t + w2);
    TrimLeftSpaces(w1, t + w2);
    assert t[|t| - 1] == d[|d| - 1];
    TrimRightSpaces(t, w2);
    assert Strip(s) == t;
    if sign == "" {
      assert t == d;
    } else {
      assert t[1..] == d;
    }
  }

  /** Stripping removes whitespace on both sides and nothing else. */
  lemma StripSplit(s: string) returns (w1: string, w2: string)
    ensures AllSpaces(w1) && AllSpaces(w2) && s == w1 + Strip(s) + w2
  {
    var u := TrimLeft(s);
    TrimLeftSuffix(s);
    var t := TrimRight(u);
    TrimRightPrefix(u);
    w1, w2 := s[..|s| - |u|], u[|t|..];
    assert u == t + w2;
    assert AllSpaces(w1) by {
      forall i | 0 <= i < |w1| ensures IsSpace(w1[i]) {
        assert w1[i] == s[i];
      }
    }
    assert AllSpaces(w2) by {
      forall i | 0 <= i < |w2| ensures IsSpace(w2[i]) {
        assert w2[i] == u[|t| + i];
      }
    }
  }

  /** `int()` succeeds only on integer literals: whatever it accepts splits into whitespace, sign, digits and whitespace. */
  lemma ParseIntIsLiteral(s: string, n: int)
    requires ParseInt(s) == Some(n)
    ensures exists w1, sign, d, w2 :: Literal(s, w1, sign, d, w2) && n == LiteralValue(sign, d)
  {
    var t := Strip(s);
    var w1, w2 := StripSplit(s);
    var sign, d;
    if t[0] == '-' || t[0] == '+' {
      sign, d := t[..1], t[1..];
      assert sign == "-" <==> t[0] == '-';
    } else {
      sign, d := "", t;
    }
    assert t == sign + d;
    assert n == LiteralValue(sign, d);
    assert Literal(s, w1, sign, d, w2);
  }

  /** `int(str(n)) == n`: the decimal text of an int reads back as the same int. */
  lemma ParseIntOfIntToString(n: int)
    ensures ParseInt(IntToString(n)) == Some(n)
  {
    var s := IntToString(n);
    if n < 0 {
      assert s == [] + "-" + NatToString(-n) + [];
      ParseIntOfLiteral(s, [], "-", NatToString(-n), []);
    } else {
      assert s == [] + "" + NatToString(n) + [];
      ParseIntOfLiteral(s, [], "", NatToString(n), []);
    }
  }

  /** `str` on ints is injective, so a listing key determines the ids it was built from. */
  lemma IntToStringInjective(a: int, b: int)
    requires IntToString(a) == IntToString(b)
    ensures a == b
  {
    ParseIntOfIntToString(a);
    ParseIntOfIntToString(b);
  }
}
