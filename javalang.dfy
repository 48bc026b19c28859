/**
 * The pieces of java.lang the handles rely on: the 32-bit `int`,
 * Integer.toString, Integer.parseInt and String.contains.
 */
module JavaLang {
  import opened Wrappers

  const INT_MIN: int := -0x8000_0000
  const INT_MAX: int := 0x7fff_ffff

  /** Java's `int`. */
  type int32 = x: int | INT_MIN <= x <= INT_MAX

  predicate IsDigit(c: char) { '0' <= c <= '9' }

  predicate AllDigits(s: string) { forall i | 0 <= i < |s| :: IsDigit(s[i]) }

  function DigitValue(c: char): nat
    requires IsDigit(c)
  {
    c as int - '0' as int
  }

  function DigitChar(d: nat): (c: char)
    requires d < 10
    ensures IsDigit(c) && DigitValue(c) == d
  {
    ('0' as int + d) as char
  }

  /** The value of a string of decimal digits, most significant first. */
  function DigitsValue(s: string): nat
    requires AllDigits(s)
    decreases |s|
  {
    if s == [] then 0 else DigitsValue(s[..|s| - 1]) * 10 + DigitValue(s[|s| - 1])
  }

  /** The shortest decimal numeral of `n` (no leading zeros). */
  function Digits(n: nat): (r: string)
    ensures r != [] && AllDigits(r)
    ensures DigitsValue(r) == n
    ensures |r| > 1 ==> r[0] != '0'
    decreases n
  {
    if n < 10 then [DigitChar(n)]
    else
      var prefix := Digits(n / 10);
      var r := prefix + [DigitChar(n % 10)];
      assert r[..|r| - 1] == prefix;
      r
  }

  /** Integer.toString(int): an optional minus sign, then the shortest digits. */
  function IntToString(n: int32): (r: string)
    ensures r != []
    ensures r[0] == '-' <==> n < 0
    ensures n < 0 ==> AllDigits(r[1..]) && DigitsValue(r[1..]) == -(n as int)
    ensures n >= 0 ==> AllDigits(r) && DigitsValue(r) == n
    ensures n >= 0 ==> (|r| > 1 ==> r[0] != '0')
    ensures n < 0 ==> |r| > 1 && r[1] != '0'
  {
    if n < 0 then
      var r := "-" + Digits(-(n as int));
      assert r[1..] == Digits(-(n as int));
      r
    else Digits(n)
  }

  /** The length of a numeral's sign: 1 for a leading '+' or '-', else 0. */
  function SignLen(s: string): (k: nat)
    ensures k <= 1 && (k == 1 <==> s != [] && (s[0] == '+' || s[0] == '-'))
  {
    if s != [] && (s[0] == '+' || s[0] == '-') then 1 else 0
  }

  /** Decimal integer syntax: an optional sign followed by one or more ASCII digits. */
  predicate IsNumeral(s: string)
  {
    SignLen(s) < |s| && AllDigits(s[SignLen(s)..])
  }

  /** The signed value a numeral denotes, unbounded. */
  function NumeralValue(s: string): int
    requires IsNumeral(s)
  {
    var v: int := DigitsValue(s[SignLen(s)..]);
    if s[0] == '-' then -v else v
  }

  /**
   * Integer.parseInt(String): an optional sign, then at least one ASCII
   * digit; anything else, or a value outside the int range, throws
   * NumberFormatException.
   */
  function ParseInt(s: string): (r: Result<int32, Error>)
    ensures r.Failure? ==> r.error == NumberFormatException
    ensures r.Success? <==> IsNumeral(s) && INT_MIN <= NumeralValue(s) <= INT_MAX
    ensures r.Success? ==> r.value == NumeralValue(s)
  {
    if s == [] then Failure(NumberFormatException)
    else
      var digits := if s[0] == '-' || s[0] == '+' then s[1..] else s;
      if digits == [] || !AllDigits(digits) then Failure(NumberFormatException)
      else
        var v: int := if s[0] == '-' then -(DigitsValue(digits) as int) else DigitsValue(digits);
        if INT_MIN <= v <= INT_MAX then Success(v) else Failure(NumberFormatException)
  }

  /** Text that is not a numeral never parses; a lone sign and the empty string included. */
  lemma NotNumeralFails(s: string)
    requires !IsNumeral(s)
    ensures ParseInt(s) == Failure(NumberFormatException)
  {
  }

  /** Integer.parseInt undoes Integer.toString on every int. */
  lemma {:induction false} ParseIntToString(n: int32)
    ensures ParseInt(IntToString(n)) == Success(n)
  {
    var s := IntToString(n);
    if n < 0 {
      assert s[0] == '-';
      assert s[1..] != [];
    } else {
      assert IsDigit(s[0]);
    }
  }

  /** Integer.toString never maps two ints to the same text. */
  lemma IntToStringInjective(a: int32, b: int32)
    requires IntToString(a) == IntToString(b)
    ensures a == b
  {
    ParseIntToString(a);
    ParseIntToString(b);
  }

  /** String.contains(t): some suffix of `s` starts with `t`. */
  function Contains(s: string, t: string): bool
    decreases |s|
  {
    t <= s || (s != [] && Contains(s[1..], t))
  }

  /** `t` occurs in `s` starting at index `i`. */
  ghost predicate OccursAt(s: string, t: string, i: int)
  {
    0 <= i && i + |t| <= |s| && s[i..i + |t|] == t
  }

  lemma {:induction false} OccursContains(s: string, t: string, i: int)
    requires OccursAt(s, t, i)
    ensures Contains(s, t)
    decreases i
  {
    if i == 0 {
      assert t <= s;
    } else {
      assert s[1..][i - 1..i - 1 + |t|] == s[i..i + |t|];
      OccursContains(s[1..], t, i - 1);
    }
  }

  lemma {:induction false} ContainsOccurs(s: string, t: string) returns (i: int)
    requires Contains(s, t)
    ensures OccursAt(s, t, i)
    decreases |s|
  {
    if t <= s {
      i := 0;
      assert s[0..|t|] == t;
    } else {
      var k := ContainsOccurs(s[1..], t);
      assert s[1..][k..k + |t|] == s[k + 1..k + 1 + |t|];
      i := k + 1;
    }
  }

  /** String.contains agrees with "there is an index where `t` occurs". */
  lemma ContainsIffOccurs(s: string, t: string)
    ensures Contains(s, t) <==> exists i :: OccursAt(s, t, i)
  {
    if Contains(s, t) {
      var i := ContainsOccurs(s, t);
    }
    if exists i :: OccursAt(s, t, i) {
      var i :| OccursAt(s, t, i);
      OccursContains(s, t, i);
    }
  }
}
