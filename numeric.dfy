/** The two conversions between text and integers that the option
    post-processing relies on: Python 2's `int()` applied to a `str`, and
    `"%s" % n` applied to an `int`. */
module Numeric {
  import opened Wrappers

  /** The characters Python 2 strips around an integer literal (C's
      `isspace` in the C locale). */
  predicate IsSpace(c: char)
  {
    c == ' ' || c == '\t' || c == '\n' || c == '\r' || c as int == 11 || c as int == 12
  }

  predicate IsDigit(c: char)
  {
    '0' <= c <= '9'
  }

  predicate AllDigits(s: string)
  {
    forall i :: 0 <= i < |s| ==> IsDigit(s[i])
  }

  /** Drops the whitespace in front of `s`. */
  function TrimLeft(s: string): (r: string)
    ensures r == [] || !IsSpace(r[0])
    ensures |r| <= |s| && r == s[|s| - |r|..]
  {
    if s != [] && IsSpace(s[0]) then TrimLeft(s[1..]) else s
  }

  /** Drops the whitespace after `s`. */
  function TrimRight(s: string): (r: string)
    ensures r == [] || !IsSpace(r[|r| - 1])
    ensures |r| <= |s| && r == s[..|r|]
  {
    if s != [] && IsSpace(s[|s| - 1]) then TrimRight(s[..|s| - 1]) else s
  }

  /** The value of a run of decimal digits, read most significant first;
      leading zeros are allowed. */
  function DigitsValue(s: string): nat
    requires AllDigits(s)
  {
    if s == [] then 0
    else DigitsValue(s[..|s| - 1]) * 10 + (s[|s| - 1] as int - '0' as int)
  }

  /** Python 2's `int(s)` for a `str`: an optional sign and one or more
      decimal digits, optionally surrounded by whitespace. Python 2 also
      skips whitespace between the sign and the digits (its C conversion
      skips blanks again after reading the sign), so `int("- 5")` is -5.
      Anything else raises ValueError, modelled as None. */
  function ParseInt(s: string): Option<int>
  {
    ParseLiteral(TrimRight(TrimLeft(s)))
  }

  /** The integer literal itself, once the whitespace is gone. */
  function ParseLiteral(t: string): Option<int>
  {
    if t == [] then None
    else if t[0] == '+' || t[0] == '-' then
      var d := TrimLeft(t[1..]);
      if d != [] && AllDigits(d) then
        var m: int := DigitsValue(d);
        Some(if t[0] == '-' then -m else m)
      else None
    else if AllDigits(t) then Some(DigitsValue(t))
    else None
  }

  /** Only text holding a digit converts. */
  lemma ParseIntNeedsDigit(s: string)
    requires ParseInt(s).Some?
    ensures exists i :: 0 <= i < |s| && IsDigit(s[i])
  {
    var l := TrimLeft(s);
    var t := TrimRight(l);
    var k := |s| - |l|;
    if t[0] == '+' || t[0] == '-' {
      var d := TrimLeft(t[1..]);
      var j := |t| - |d|;
      assert IsDigit(d[0]);
      assert d[0] == t[j];
      assert s[k + j] == t[j];
    } else {
      assert IsDigit(t[0]);
      assert s[k] == t[0];
    }
  }

  /** Nothing but whitespace. */
  predicate Blank(w: string)
  {
    forall i :: 0 <= i < |w| ==> IsSpace(w[i])
  }

  lemma {:induction false} TrimLeftBlanks(w: string, u: string)
    requires Blank(w) && (u == [] || !IsSpace(u[0]))
    ensures TrimLeft(w + u) == u
    decreases |w|
  {
    if w == [] {
      assert w + u == u;
    } else {
      assert (w + u)[0] == w[0];
      assert (w + u)[1..] == w[1..] + u;
      TrimLeftBlanks(w[1..], u);
    }
  }

  lemma {:induction false} TrimRightBlanks(u: string, w: string)
    requires Blank(w) && (u == [] || !IsSpace(u[|u| - 1]))
    ensures TrimRight(u + w) == u
    decreases |w|
  {
    if w == [] {
      assert u + w == u;
    } else {
      var p := u + w;
      assert p[|p| - 1] == w[|w| - 1];
      assert p[..|p| - 1] == u + w[..|w| - 1];
      TrimRightBlanks(u, w[..|w| - 1]);
    }
  }

  /** Whitespace around a value does not change what it converts to. */
  lemma ParseIntIgnoresBlanks(w1: string, t: string, w2: string)
    requires Blank(w1) && Blank(w2)
    requires t != [] && !IsSpace(t[0]) && !IsSpace(t[|t| - 1])
    ensures ParseInt(w1 + t + w2) == ParseInt(t)
  {
    assert w1 + t + w2 == w1 + (t + w2);
    TrimLeftBlanks(w1, t + w2);
    TrimRightBlanks(t, w2);
    TrimUntouched(t);
  }

  /** Text without surrounding blanks is its own trimmed form. */
  lemma TrimUntouched(s: string)
    requires s != [] && !IsSpace(s[0]) && !IsSpace(s[|s| - 1])
    ensures TrimRight(TrimLeft(s)) == s
  {
  }

  /** A bare run of digits reads as its value. */
  lemma ParseIntOfDigits(d: string)
    requires d != [] && AllDigits(d)
    ensures ParseInt(d) == Some(DigitsValue(d))
  {
    TrimUntouched(d);
  }

  /** Text of a minus sign followed by digits, with nothing around it. */
  lemma ParseIntOfSigned(t: string)
    requires |t| > 1 && t[0] == '-' && AllDigits(t[1..]) && !IsSpace(t[|t| - 1])
    ensures ParseInt(t) == Some(-(DigitsValue(t[1..]) as int))
  {
    TrimUntouched(t);
    assert !IsSpace(t[1..][0]);
    assert TrimLeft(t[1..]) == t[1..];
  }

  /** Blanks between a minus sign and the digits are skipped. */
  lemma ParseIntSpacedSign(t: string, w: string, d: string)
    requires |t| > 1 && t[0] == '-' && t[1..] == w + d
    requires Blank(w) && d != [] && AllDigits(d)
    ensures ParseInt(t) == Some(-(DigitsValue(d) as int))
  {
    assert TrimRight(TrimLeft(t)) == t by {
      assert t[|t| - 1] == d[|d| - 1];
      TrimUntouched(t);
    }
    assert TrimLeft(t[1..]) == d by {
      assert !IsSpace(d[0]);
      TrimLeftBlanks(w, d);
    }
    ParseLiteralSigned(t, d);
  }

  lemma ParseLiteralSigned(t: string, d: string)
    requires |t| > 1 && t[0] == '-' && TrimLeft(t[1..]) == d && d != [] && AllDigits(d)
    ensures ParseLiteral(t) == Some(-(DigitsValue(d) as int))
  {
  }

  /** The decimal digits of `n`, without leading zeros. */
  function Digits(n: nat): (r: string)
    ensures r != [] && AllDigits(r)
    ensures |r| > 1 ==> r[0] != '0'
  {
    if n < 10 then [('0' as int + n) as char]
    else Digits(n / 10) + [('0' as int + n % 10) as char]
  }

  /** `"%s" % n` for an integer `n`. */
  function Decimal(n: int): string
  {
    if n < 0 then "-" + Digits(-n) else Digits(n)
  }

  lemma {:induction false} DigitsValueOfDigits(n: nat)
    ensures DigitsValue(Digits(n)) == n
  {
    if n >= 10 {
      var d := Digits(n / 10);
      var r := Digits(n);
      assert r[..|r| - 1] == d;
      DigitsValueOfDigits(n / 10);
    }
  }

  /** Reading back what `"%s" %` wrote gives the same integer. */
  lemma ParseDecimal(n: int)
    ensures ParseInt(Decimal(n)) == Some(n)
  {
    var m := if n < 0 then -n else n;
    DigitsValueOfDigits(m);
    if n < 0 {
      var t := Decimal(n);
      assert t[1..] == Digits(m);
      ParseIntOfSigned(t);
    } else {
      ParseIntOfDigits(Digits(m));
    }
  }

  /** A run of zeros. */
  predicate Zeros(z: string)
  {
    forall i :: 0 <= i < |z| ==> z[i] == '0'
  }

  lemma {:induction false} ZerosValue(z: string)
    requires Zeros(z)
    ensures AllDigits(z) && DigitsValue(z) == 0
    decreases |z|
  {
    if z != [] {
      ZerosValue(z[..|z| - 1]);
    }
  }

  /** Zeros in front of a run of digits do not change its value. */
  lemma {:induction false} DigitsValueLeadingZeros(z: string, d: string)
    requires Zeros(z) && AllDigits(d)
    ensures AllDigits(z + d) && DigitsValue(z + d) == DigitsValue(d)
    decreases |d|
  {
    ZerosValue(z);
    if d == [] {
      assert z + d == z;
    } else {
      var p := z + d;
      assert p[..|p| - 1] == z + d[..|d| - 1];
      assert p[|p| - 1] == d[|d| - 1];
      DigitsValueLeadingZeros(z, d[..|d| - 1]);
    }
  }

  /** Leading zeros are accepted and ignored: `int("007")` is `int("7")`. */
  lemma ParseIntLeadingZeros(z: string, d: string)
    requires Zeros(z) && d != [] && AllDigits(d)
    ensures ParseInt(z + d) == ParseInt(d) == Some(DigitsValue(d))
  {
    DigitsValueLeadingZeros(z, d);
    ParseIntOfDigits(z + d);
    ParseIntOfDigits(d);
  }

  /** A blank between sign and digits is accepted: `int("- 5")` is -5. */
  lemma ParseIntAcceptsSpacedSign()
    ensures ParseInt("- 5") == Some(-5)
  {
    SpacedSignShape();
    ParseIntSpacedSign("- 5", " ", "5");
  }

  lemma SpacedSignShape()
    ensures |"- 5"| > 1 && "- 5"[0] == '-' && "- 5"[1..] == " " + "5"
    ensures Blank(" ") && AllDigits("5") && DigitsValue("5") == 5
  {
    assert "5"[..0] == "";
  }

  /** An exponent is refused: `int("1e3")` raises. */
  lemma ParseIntRejectsExponent()
    ensures ParseInt("1e3") == None
  {
    assert TrimLeft("1e3") == "1e3";
    assert TrimRight("1e3") == "1e3";
    assert !AllDigits("1e3") by {
      assert !IsDigit("1e3"[1]);
    }
  }
}
