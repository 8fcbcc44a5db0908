/**
 * Python's `int(s)` on a string, base 10, as the product handler applies it
 * to the submitted quantity: surrounding whitespace is ignored, one optional
 * sign, then decimal digits in which single underscores may separate digits.
 * Anything else raises ValueError, modelled as None.
 */
module PyInt {
  import opened Wrappers

  /**
   * The whitespace `int` skips in an ASCII string: space, tab, line feed,
   * vertical tab, form feed and carriage return. The separators 0x1c-0x1f,
   * which `str.isspace` accepts, are not among them.
   */
  predicate IsSpace(c: char) {
    c == ' ' || 9 <= c as int <= 13
  }

  predicate IsDigit(c: char) {
    '0' <= c <= '9'
  }

  function DigitValue(c: char): (d: nat)
    requires IsDigit(c)
    ensures d < 10
  {
    (c as int) - ('0' as int)
  }

  function DigitChar(d: nat): (c: char)
    requires d < 10
    ensures IsDigit(c) && DigitValue(c) == d
  {
    ('0' as int + d) as char
  }

  /** Drops leading whitespace: the result is the suffix that starts at the first non-space. */
  function StripLeft(s: string): (r: string)
    ensures |r| <= |s| && r == s[|s| - |r|..]
    ensures r == [] || !IsSpace(r[0])
    ensures forall i :: 0 <= i < |s| - |r| ==> IsSpace(s[i])
  {
    if s != [] && IsSpace(s[0]) then StripLeft(s[1..]) else s
  }

  /** Drops trailing whitespace: the result is the prefix that ends at the last non-space. */
  function StripRight(s: string): (r: string)
    ensures |r| <= |s| && r == s[..|r|]
    ensures r == [] || !IsSpace(r[|r| - 1])
    ensures forall i :: |r| <= i < |s| ==> IsSpace(s[i])
  {
    if s != [] && IsSpace(s[|s| - 1]) then StripRight(s[..|s| - 1]) else s
  }

  function Strip(s: string): string {
    StripRight(StripLeft(s))
  }

  /** Every character of `s` is whitespace or lies at its place inside `Strip(s)`. */
  lemma StripCovers(s: string)
    ensures var o := |s| - |StripLeft(s)|;
      && o + |Strip(s)| <= |s|
      && forall i :: 0 <= i < |s| ==> IsSpace(s[i]) || (o <= i < o + |Strip(s)| && s[i] == Strip(s)[i - o])
  {
  }

  predicate DoubleUnderscoreAt(b: string, i: nat)
    requires i + 1 < |b|
  {
    b[i] == '_' && b[i + 1] == '_'
  }

  /** A digit string with underscores allowed only singly and only between digits. */
  predicate IsNumeral(b: string) {
    && |b| > 0
    && IsDigit(b[0])
    && IsDigit(b[|b| - 1])
    && (forall i :: 0 <= i < |b| ==> IsDigit(b[i]) || b[i] == '_')
    && (forall i :: 0 <= i < |b| - 1 ==> !DoubleUnderscoreAt(b, i))
  }

  /** The value of the digits of `b`, underscores skipped. */
  function NumeralValue(b: string): nat
    requires forall i :: 0 <= i < |b| ==> IsDigit(b[i]) || b[i] == '_'
  {
    if b == [] then 0
    else if b[|b| - 1] == '_' then NumeralValue(b[..|b| - 1])
    else 10 * NumeralValue(b[..|b| - 1]) + DigitValue(b[|b| - 1])
  }

  /** A character that may appear anywhere in a string `int` accepts. */
  predicate IntegerChar(c: char) {
    IsSpace(c) || IsDigit(c) || c == '_' || c == '+' || c == '-'
  }

  /** `int(s)`: Some(value) when `s` is a well-formed base-10 integer, None where Python raises. */
  function ParseInt(s: string): (r: Option<int>)
    ensures r.Some? ==> exists i :: 0 <= i < |s| && IsDigit(s[i])
  {
    var t := Strip(s);
    if t == [] then None
    else
      var negative := t[0] == '-';
      var body := if t[0] == '-' || t[0] == '+' then t[1..] else t;
      if IsNumeral(body) then
        var magnitude: int := NumeralValue(body);
        Some(if negative then -magnitude else magnitude)
      else None
  }

  /** `int` accepts no character besides whitespace, a sign, digits and underscores. */
  lemma AcceptedCharacters(s: string)
    ensures ParseInt(s).Some? ==> forall i :: 0 <= i < |s| ==> IntegerChar(s[i])
  {
    var t := Strip(s);
    if ParseInt(s).Some? {
      var body := if t[0] == '-' || t[0] == '+' then t[1..] else t;
      assert IsNumeral(body);
      assert forall k :: 0 <= k < |t| ==> IntegerChar(t[k]) by {
        forall k | 0 <= k < |t|
          ensures IntegerChar(t[k])
        {
          if t[0] == '-' || t[0] == '+' {
            if k > 0 {
              assert t[k] == body[k - 1];
            }
          } else {
            assert t[k] == body[k];
          }
        }
      }
      StripCovers(s);
    }
  }

  /** The decimal digits of `n` without sign or leading zeros, as `str(n)` prints them. */
  function Digits(n: nat): (s: string)
    ensures |s| > 0
  {
    if n < 10 then [DigitChar(n)] else Digits(n / 10) + [DigitChar(n % 10)]
  }

  /** `str(n)` for an integer. */
  function Decimal(n: int): string {
    if n < 0 then "-" + Digits(-n) else Digits(n)
  }

  lemma {:induction false} DigitsAreNumeral(n: nat)
    ensures IsNumeral(Digits(n))
    ensures NumeralValue(Digits(n)) == n
  {
    var s := Digits(n);
    if n >= 10 {
      DigitsAreNumeral(n / 10);
      var front := Digits(n / 10);
      assert s[..|s| - 1] == front;
      forall i | 0 <= i < |s| - 1
        ensures !DoubleUnderscoreAt(s, i)
      {
        if i < |s| - 2 {
          assert !DoubleUnderscoreAt(front, i);
        }
      }
    }
  }

  /** Round trip: `int(str(n)) == n` for every integer. */
  lemma DecimalRoundTrip(n: int)
    ensures ParseInt(Decimal(n)) == Some(n)
  {
    var s := Decimal(n);
    var digits := if n < 0 then Digits(-n) else Digits(n);
    DigitsAreNumeral(if n < 0 then -n else n);
    assert !IsSpace(s[0]) && !IsSpace(s[|s| - 1]);
    assert StripLeft(s) == s;
    assert Strip(s) == s;
    if n < 0 {
      assert s[1..] == digits;
    }
  }
}
