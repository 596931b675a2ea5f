/**
 * ECMAScript `parseInt(string, 10)` (section 19.2.5 of ECMA-262), on which the
 * controller's id parsing rests, and the decimal rendering of an integer
 * (`Number.prototype.toString()` below 1e21), which is how the tests build a path id. NaN is
 * `None`. Results are exact integers: the rounding of long digit strings to doubles
 * is not modelled.
 */
module JsNumbers {
  import opened Wrappers

  /** StrWhiteSpaceChar: the WhiteSpace and LineTerminator code points. */
  predicate IsWhiteSpace(c: char)
  {
    || c == '\t' || c == '\n' || c == '\U{000B}' || c == '\U{000C}' || c == '\r' || c == ' '
    || c == '\U{00A0}' || c == '\U{1680}' || ('\U{2000}' <= c <= '\U{200A}')
    || c == '\U{2028}' || c == '\U{2029}' || c == '\U{202F}' || c == '\U{205F}'
    || c == '\U{3000}' || c == '\U{FEFF}'
  }

  predicate IsDigit(c: char)
  {
    '0' <= c <= '9'
  }

  predicate AllDigits(s: string)
  {
    forall i | 0 <= i < |s| :: IsDigit(s[i])
  }

  function DigitValue(c: char): nat
    requires IsDigit(c)
  {
    c as int - '0' as int
  }

  function DigitChar(d: nat): (c: char)
    requires d < 10
    ensures IsDigit(c) && DigitValue(c) == d
  {
    ('0' as int + d) as char
  }

  /** The string with its leading white space removed. */
  function TrimStart(s: string): (r: string)
    ensures |r| <= |s| && r == s[|s| - |r|..]
    ensures forall i | 0 <= i < |s| - |r| :: IsWhiteSpace(s[i])
    ensures r == [] || !IsWhiteSpace(r[0])
  {
    if s != [] && IsWhiteSpace(s[0]) then TrimStart(s[1..]) else s
  }

  /** The longest prefix of the string made of decimal digits. */
  function DigitPrefix(s: string): (r: string)
    ensures |r| <= |s| && r == s[..|r|]
    ensures AllDigits(r)
    ensures |r| == |s| || !IsDigit(s[|r|])
  {
    if s != [] && IsDigit(s[0]) then [s[0]] + DigitPrefix(s[1..]) else []
  }

  /** The value of a string of decimal digits, most significant digit first. */
  function DigitsValue(ds: string): nat
    requires AllDigits(ds)
  {
    if ds == [] then 0 else 10 * DigitsValue(ds[..|ds| - 1]) + DigitValue(ds[|ds| - 1])
  }

  /**
   * `parseInt(s, 10)`: skip leading white space, take an optional sign, then the
   * longest run of decimal digits; NaN when that run is empty. Anything after the
   * run is ignored.
   */
  function ParseInt10(s: string): (r: Option<int>)
    ensures r.Some? ==>
      var u := StripSign(TrimStart(s));
      && u != [] && IsDigit(u[0])
      && (r.value == DigitsValue(DigitPrefix(u)) || r.value == -(DigitsValue(DigitPrefix(u)) as int))
    ensures r.Some? && r.value < 0 ==> TrimStart(s) != [] && TrimStart(s)[0] == '-'
  {
    ParseSigned(TrimStart(s))
  }

  /** `parseInt` on a string whose leading white space is already gone. */
  function ParseSigned(t: string): Option<int>
  {
    var negative := t != [] && t[0] == '-';
    var digits := DigitPrefix(StripSign(t));
    var value: int := if digits == [] then 0 else DigitsValue(digits);
    if digits == [] then None else Some(if negative then -value else value)
  }

  /** The string without a leading '+' or '-'. */
  function StripSign(t: string): string
  {
    if t != [] && (t[0] == '-' || t[0] == '+') then t[1..] else t
  }

  /** The shortest decimal digits of a natural number. */
  function NatDigits(n: nat): (r: string)
    ensures r != [] && AllDigits(r)
    ensures r[0] == '0' ==> n == 0
    decreases n
  {
    if n < 10 then [DigitChar(n)] else NatDigits(n / 10) + [DigitChar(n % 10)]
  }

  /**
   * The decimal rendering of an integer, with a leading '-' when negative: what
   * `toString()` and a template literal give for integers below 1e21 in magnitude.
   */
  function Decimal(n: int): (r: string)
    ensures n >= 0 ==> r != [] && AllDigits(r) && (r[0] == '0' ==> n == 0)
    ensures n < 0 ==> |r| > 1 && r[0] == '-' && AllDigits(r[1..]) && r[1] != '0'
  {
    if n < 0 then "-" + NatDigits(-n) else NatDigits(n)
  }

  lemma {:induction false} DigitsValueOfNatDigits(n: nat)
    ensures DigitsValue(NatDigits(n)) == n
    decreases n
  {
    if n >= 10 {
      var front := NatDigits(n / 10);
      var ds := front + [DigitChar(n % 10)];
      assert ds[..|ds| - 1] == front;
      DigitsValueOfNatDigits(n / 10);
    }
  }

  lemma {:induction false} DigitPrefixOfDigits(ds: string, rest: string)
    requires AllDigits(ds)
    requires rest == [] || !IsDigit(rest[0])
    ensures DigitPrefix(ds + rest) == ds
  {
    if ds == [] {
      assert ds + rest == rest;
    } else {
      assert (ds + rest)[1..] == ds[1..] + rest;
      DigitPrefixOfDigits(ds[1..], rest);
    }
  }

  /** A digit run is read up to the first non-digit. */
  lemma ParseSignedDigits(ds: string, rest: string)
    requires ds != [] && AllDigits(ds)
    requires rest == [] || !IsDigit(rest[0])
    ensures ParseSigned(ds + rest) == Some(DigitsValue(ds))
  {
    var t := ds + rest;
    assert t[0] == ds[0];
    assert StripSign(t) == t;
    DigitPrefixOfDigits(ds, rest);
  }

  /** A '-' followed by a digit run is read as the negated run. */
  lemma ParseSignedNegativeDigits(ds: string, rest: string)
    requires ds != [] && AllDigits(ds)
    requires rest == [] || !IsDigit(rest[0])
    ensures ParseSigned("-" + (ds + rest)) == Some(-(DigitsValue(ds) as int))
  {
    DigitPrefixOfDigits(ds, rest);
    ParseSignedMinus(ds + rest);
  }

  /** A '-' in front negates whatever digit run follows. */
  lemma ParseSignedMinus(u: string)
    requires DigitPrefix(u) != []
    ensures ParseSigned("-" + u) == Some(-(DigitsValue(DigitPrefix(u)) as int))
  {
    var t := "-" + u;
    assert t[0] == '-' && t[1..] == u;
  }

  /**
   * `parseInt` reads back the decimal rendering of every integer: the controller
   * hands the service the id the path was built from.
   */
  lemma ParseIntOfDecimal(n: int)
    ensures ParseInt10(Decimal(n)) == Some(n)
  {
    var m: nat := if n < 0 then -n else n;
    var ds := NatDigits(m);
    DigitsValueOfNatDigits(m);
    assert ds + [] == ds;
    var s := Decimal(n);
    assert !IsWhiteSpace(s[0]);
    assert TrimStart(s) == s;
    if n < 0 {
      ParseSignedNegativeDigits(ds, []);
    } else {
      ParseSignedDigits(ds, []);
    }
  }

  /**
   * A digit run after optional white space is read up to the first non-digit, as
   * in "12abc" giving 12.
   */
  lemma ParseIntReadsLeadingDigits(space: string, ds: string, rest: string)
    requires forall i | 0 <= i < |space| :: IsWhiteSpace(space[i])
    requires ds != [] && AllDigits(ds)
    requires rest == [] || !IsDigit(rest[0])
    ensures ParseInt10(space + ds + rest) == Some(DigitsValue(ds))
  {
    var t := ds + rest;
    assert t[0] == ds[0];
    TrimStartOfSpace(space, t);
    assert space + ds + rest == space + t;
    ParseSignedDigits(ds, rest);
  }

  /**
   * `parseInt` gives NaN exactly when, after the leading white space and an optional
   * sign, the string does not go on with a digit.
   */
  lemma ParseIntNaNIff(s: string)
    ensures ParseInt10(s).None? <==>
      var u := StripSign(TrimStart(s)); u == [] || !IsDigit(u[0])
  {
  }

  lemma {:induction false} TrimStartOfSpace(space: string, t: string)
    requires forall i | 0 <= i < |space| :: IsWhiteSpace(space[i])
    requires t == [] || !IsWhiteSpace(t[0])
    ensures TrimStart(space + t) == t
  {
    if space == [] {
      assert space + t == t;
    } else {
      assert (space + t)[1..] == space[1..] + t;
      TrimStartOfSpace(space[1..], t);
    }
  }

  /** The controller test's path "invalid-id" parses to NaN. */
  lemma InvalidIdIsNaN()
    ensures ParseInt10("invalid-id") == None
  {
    var s := "invalid-id";
    assert !IsWhiteSpace(s[0]);
    assert TrimStart(s) == s;
    assert StripSign(s) == s;
    assert !IsDigit(s[0]);
    assert DigitPrefix(s) == [];
  }
}
