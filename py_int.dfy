/**
  Python 2's `int(text)` for a byte string in base 10. Surrounding ASCII whitespace
  is ignored. An optional sign may be followed by more whitespace, then one or more
  decimal digits (leading zeros allowed) give the value. Any other text raises
  ValueError, modelled here as `None`.
*/
module PyInt {
  import opened Wrappers
  import opened Chars

  predicate IsSpace(c: char) { c == ' ' || c == '\t' || c == '\n' || c == '\r' || c == '\U{B}' || c == '\U{C}' }

  predicate AllDigits(s: string) { forall i | 0 <= i < |s| :: IsDigit(s[i]) }

  /** The text with leading and trailing whitespace removed, as `str.strip()` does
      (`StripTrims` states that only whitespace at the ends goes). */
  function Strip(s: string): (r: string)
    ensures |r| <= |s|
    ensures r != [] ==> !IsSpace(r[0]) && !IsSpace(r[|r| - 1])
    decreases |s|
  {
    if s == [] then s
    else if IsSpace(s[0]) then Strip(s[1..])
    else if IsSpace(s[|s| - 1]) then Strip(s[..|s| - 1])
    else s
  }

  predicate AllSpace(s: string) { forall k | 0 <= k < |s| :: IsSpace(s[k]) }

  /** `r` is `s[i..j]`, and only whitespace surrounds it in `s`. */
  predicate TrimmedAt(s: string, r: string, i: int, j: int)
  {
    0 <= i <= j <= |s| && r == s[i..j] && AllSpace(s[..i]) && AllSpace(s[j..])
  }

  /** `Strip` removes whitespace only, from the two ends: its result is a contiguous
      piece of `s` with nothing but whitespace before and after it. */
  lemma {:induction false} StripTrims(s: string)
    ensures exists i, j :: TrimmedAt(s, Strip(s), i, j)
    decreases |s|
  {
    if s == [] {
      assert TrimmedAt(s, Strip(s), 0, 0);
    } else if IsSpace(s[0]) {
      StripTrims(s[1..]);
      var i, j :| TrimmedAt(s[1..], Strip(s[1..]), i, j);
      TrimmedFront(s, Strip(s), i, j);
    } else if IsSpace(s[|s| - 1]) {
      StripTrims(s[..|s| - 1]);
      var i, j :| TrimmedAt(s[..|s| - 1], Strip(s[..|s| - 1]), i, j);
      TrimmedBack(s, Strip(s), i, j);
    } else {
      assert s[..0] == [] && s[|s|..] == [];
      assert TrimmedAt(s, Strip(s), 0, |s|);
    }
  }

  lemma TrimmedFront(s: string, r: string, i: int, j: int)
    requires s != [] && IsSpace(s[0]) && TrimmedAt(s[1..], r, i, j)
    ensures TrimmedAt(s, r, i + 1, j + 1)
  {
    assert s[..i + 1] == [s[0]] + s[1..][..i];
    assert s[j + 1..] == s[1..][j..];
  }

  lemma TrimmedBack(s: string, r: string, i: int, j: int)
    requires s != [] && IsSpace(s[|s| - 1]) && TrimmedAt(s[..|s| - 1], r, i, j)
    ensures TrimmedAt(s, r, i, j)
  {
    assert s[..i] == s[..|s| - 1][..i];
    assert s[j..] == s[..|s| - 1][j..] + [s[|s| - 1]];
  }

  /** The value of a string of decimal digits, most significant first. */
  function DigitsValue(s: string): nat
    requires AllDigits(s)
    decreases |s|
  {
    if s == [] then 0 else 10 * DigitsValue(s[..|s| - 1]) + (s[|s| - 1] as int - '0' as int)
  }

  /** The text with leading whitespace removed. */
  function LStrip(s: string): (r: string)
    ensures |r| <= |s|
    ensures r != [] ==> !IsSpace(r[0])
    decreases |s|
  {
    if s != [] && IsSpace(s[0]) then LStrip(s[1..]) else s
  }

  predicate IsSign(c: char) { c == '+' || c == '-' }

  /** What follows the optional sign, after the whitespace that may come between
      the sign and the digits (the C-level `strtoul` skips it). */
  function Magnitude(s: string): (m: string)
    ensures |m| <= |s|
  {
    if |s| > 0 && IsSign(s[0]) then LStrip(s[1..]) else LStrip(s)
  }

  /** An optional sign, optional whitespace, then at least one digit. */
  predicate IsDecimal(s: string)
  {
    |Magnitude(s)| > 0 && AllDigits(Magnitude(s))
  }

  /** The decimal text with its sign applied. */
  function DecimalValue(s: string): int
    requires IsDecimal(s)
  {
    if s[0] == '-' then -(DigitsValue(Magnitude(s)) as int) else DigitsValue(Magnitude(s))
  }

  /** `int(s)`: `Some` of the value when `s` is (whitespace around) a signed decimal, else `None`. */
  function ParseInt(s: string): (r: Option<int>)
    ensures r.Some? <==> IsDecimal(Strip(s))
    ensures r.Some? ==> r.value == DecimalValue(Strip(s))
  {
    var t := Strip(s);
    if IsDecimal(t) then Some(DecimalValue(t)) else None
  }

  /** Decimal digits of a natural number, without leading zeros. */
  function ShowNat(n: nat): (s: string)
    ensures |s| > 0 && AllDigits(s)
    ensures n > 0 ==> s[0] != '0'
  {
    if n < 10 then ['0' + n as char]
    else ShowNat(n / 10) + ['0' + (n % 10) as char]
  }

  /** The text Python's `str(n)` gives for an integer. */
  function ShowInt(n: int): (s: string)
    ensures |s| > 0
  {
    if n < 0 then "-" + ShowNat(-n) else ShowNat(n)
  }

  lemma {:induction false} DigitsValueOfShowNat(n: nat)
    ensures DigitsValue(ShowNat(n)) == n
  {
    if n >= 10 {
      var s := ShowNat(n);
      assert s[..|s| - 1] == ShowNat(n / 10);
      DigitsValueOfShowNat(n / 10);
    }
  }

  /** `int(str(n)) == n`: every integer the editor could write parses back to itself. */
  lemma ParseShowInt(n: int)
    ensures ParseInt(ShowInt(n)) == Some(n)
  {
    if n < 0 { ParseShowNegative(n); } else { ParseShowNatural(n); }
  }

  lemma ParseShowNegative(n: int)
    requires n < 0
    ensures ParseInt(ShowInt(n)) == Some(n)
  {
    var d := ShowNat(-n);
    DigitsValueOfShowNat(-n);
    ParseNegatedDigits(d);
    assert DigitsValue(d) == -n;
    assert ParseInt("-" + d) == Some(n);
    assert ShowInt(n) == "-" + d;
  }

  lemma ParseShowNatural(n: int)
    requires n >= 0
    ensures ParseInt(ShowInt(n)) == Some(n)
  {
    var d := ShowNat(n);
    DigitsValueOfShowNat(n);
    ParseDigits(d);
    assert ParseInt(d) == Some(n);
    assert ShowInt(n) == d;
  }

  /** Digits alone parse to their value. */
  lemma ParseDigits(d: string)
    requires |d| > 0 && AllDigits(d)
    ensures ParseInt(d) == Some(DigitsValue(d) as int)
  {
    assert IsDigit(d[0]) && IsDigit(d[|d| - 1]);
    StripNoSpace(d);
    LStripNoSpace(d);
    assert Magnitude(d) == d;
    assert IsDecimal(d);
  }

  /** A minus sign followed by digits parses to the negated value. */
  lemma ParseNegatedDigits(d: string)
    requires |d| > 0 && AllDigits(d)
    ensures ParseInt("-" + d) == Some(-(DigitsValue(d) as int))
  {
    var s := "-" + d;
    assert IsDigit(d[0]) && IsDigit(d[|d| - 1]);
    assert s[|s| - 1] == d[|d| - 1] && s[0] == '-' && s[1..] == d;
    StripNoSpace(s);
    LStripNoSpace(d);
    assert Magnitude(s) == d;
    assert IsDecimal(s);
    assert DecimalValue(s) == -(DigitsValue(d) as int);
    assert ParseInt(s) == Some(DecimalValue(s));
  }

  lemma StripNoSpace(s: string)
    requires s == [] || (!IsSpace(s[0]) && !IsSpace(s[|s| - 1]))
    ensures Strip(s) == s
  {
  }

  lemma LStripNoSpace(s: string)
    requires s == [] || !IsSpace(s[0])
    ensures LStrip(s) == s
  {
  }

  /** Whitespace may stand between the sign and the digits: `int("- 5") == -5` and
      `int("+\t7") == 7`, while a sign with no digits after it is no number. */
  lemma SpaceAfterSign()
    ensures ParseInt("- 5") == Some(-5)
    ensures ParseInt("+\t7") == Some(7)
    ensures ParseInt("- ") == None
  {
    SignSpaceDigit('-', ' ', '5');
    SignSpaceDigit('+', '\t', '7');
    assert "- 5" == ['-', ' ', '5'] && "+\t7" == ['+', '\t', '7'];
    assert Strip("- ") == "-";
  }

  /** A sign, one whitespace character and one digit read as that digit, signed. */
  lemma SignSpaceDigit(sign: char, space: char, digit: char)
    requires IsSign(sign) && IsSpace(space) && IsDigit(digit)
    ensures ParseInt([sign, space, digit]) == Some(if sign == '-' then -(digit as int - '0' as int) else digit as int - '0' as int)
  {
    var s := [sign, space, digit];
    StripNoSpace(s);
    assert s[1..] == [space, digit] && [space, digit][1..] == [digit];
    LStripNoSpace([digit]);
    assert LStrip([space, digit]) == [digit];
    assert Magnitude(s) == [digit];
    assert [digit][..0] == [];
    assert DigitsValue([digit]) == digit as int - '0' as int;
    assert IsDecimal(s);
  }

  /** Surrounding whitespace does not change the parsed value. */
  lemma {:induction false} ParseIgnoresSpace(s: string, c: char)
    requires IsSpace(c)
    ensures ParseInt([c] + s) == ParseInt(s) && ParseInt(s + [c]) == ParseInt(s)
  {
    StripPadded(s, c);
  }

  lemma {:induction false} StripPadded(s: string, c: char)
    requires IsSpace(c)
    ensures Strip([c] + s) == Strip(s) && Strip(s + [c]) == Strip(s)
    decreases |s|
  {
    assert ([c] + s)[1..] == s;
    if s == [] {
    } else if IsSpace(s[0]) {
      assert (s + [c])[1..] == s[1..] + [c];
      StripPadded(s[1..], c);
    } else {
      assert (s + [c])[..|s|] == s;
    }
  }
}
