/**
 * The three `sscanf` conversions the wrapper's argument parser relies on:
 * `%d` (an optionally signed decimal integer), `%s` (a run of non-white-space
 * characters) and `%f` (a decimal number). Each conversion first skips white
 * space, as C's `sscanf` does, and ignores whatever follows the characters it
 * consumes. A conversion that finds nothing to read yields `None`; `sscanf`
 * then returns 0 (or EOF), never 1.
 */
module Scanf {

  datatype Option<T> = None | Some(value: T)

  /** The characters C's `isspace` accepts in the "C" locale. */
  predicate IsSpace(c: char) {
    c == ' ' || c == '\t' || c == '\n' || c == '\U{0B}' || c == '\U{0C}' || c == '\r'
  }

  predicate IsDigit(c: char) {
    '0' <= c <= '9'
  }

  predicate AllDigits(s: string) {
    forall i :: 0 <= i < |s| ==> IsDigit(s[i])
  }

  predicate NoSpace(s: string) {
    forall i :: 0 <= i < |s| ==> !IsSpace(s[i])
  }

  /** Drops the leading white space. */
  function SkipSpace(s: string): (r: string)
    ensures |r| <= |s|
  {
    if s != [] && IsSpace(s[0]) then SkipSpace(s[1..]) else s
  }

  /** The length of the run of decimal digits that starts `s`. */
  function DigitRun(s: string): (n: nat)
    ensures n <= |s|
  {
    if s != [] && IsDigit(s[0]) then 1 + DigitRun(s[1..]) else 0
  }

  /** The length of the run of non-white-space characters that starts `s`. */
  function WordRun(s: string): (n: nat)
    ensures n <= |s|
  {
    if s != [] && !IsSpace(s[0]) then 1 + WordRun(s[1..]) else 0
  }

  /** The value of a decimal digit; only ever asked of digits. */
  function DigitValue(c: char): nat {
    if IsDigit(c) then c as int - '0' as int else 0
  }

  /** The number a string of decimal digits denotes, most significant digit first. */
  function Value(ds: string): nat {
    if ds == [] then 0 else 10 * Value(ds[..|ds| - 1]) + DigitValue(ds[|ds| - 1])
  }

  function Pow10(n: nat): (p: nat)
    ensures p >= 1
  {
    if n == 0 then 1 else 10 * Pow10(n - 1)
  }

  /** The length of an optional sign at the start of `s`. */
  function SignLength(s: string): (n: nat)
    ensures n <= 1 && n <= |s|
  {
    if s != [] && (s[0] == '-' || s[0] == '+') then 1 else 0
  }

  /** The leading run of digits of `u` and the number it denotes, if the run is not empty. */
  function ReadDigits(u: string): Option<nat>
  {
    var n := DigitRun(u);
    if n == 0 then None else Some(Value(u[..n]))
  }

  /** `%d`: white space, an optional sign, then at least one digit. */
  function ReadInt(s: string): Option<int>
  {
    var t := SkipSpace(s);
    var sign := SignLength(t);
    match ReadDigits(t[sign..])
    case None => None
    case Some(v) =>
      var r: int := if sign == 1 && t[0] == '-' then -(v as int) else v;
      Some(r)
  }

  /** `%s`: white space, then a non-empty run of non-white-space characters. */
  function ReadWord(s: string): Option<string>
  {
    var t := SkipSpace(s);
    var n := WordRun(t);
    if n == 0 then None else Some(t[..n])
  }

  /**
   * The unsigned part of `%f`: digits, then optionally a point and more
   * digits; at least one digit in all. The value is the exact rational the
   * digits denote.
   */
  function ReadDecimal(u: string): Option<real>
  {
    var whole := DigitRun(u);
    var point := whole < |u| && u[whole] == '.';
    var rest := if point then u[whole + 1..] else [];
    var frac := DigitRun(rest);
    if whole + frac == 0 then None
    else Some(Value(u[..whole]) as real + Fraction(rest[..frac]))
  }

  /** The value of the digits after a decimal point. */
  function Fraction(ds: string): real
  {
    if ds == [] then 0.0 else Value(ds) as real / Pow10(|ds|) as real
  }

  /** `%f`: white space, an optional sign, then a decimal number. */
  function ReadFloat(s: string): Option<real>
  {
    var t := SkipSpace(s);
    var sign := SignLength(t);
    match ReadDecimal(t[sign..])
    case None => None
    case Some(m) => Some(if sign == 1 && t[0] == '-' then -m else m)
  }

  /** The shortest decimal spelling of a natural number. */
  function Decimal(n: nat): (ds: string)
    ensures ds != [] && AllDigits(ds)
  {
    if n < 10 then ['0' + n as char] else Decimal(n / 10) + ['0' + (n % 10) as char]
  }

  /** How `printf("%d")` spells an integer. */
  function IntText(n: int): (t: string)
    ensures t != [] && !IsSpace(t[0])
  {
    if n < 0 then "-" + Decimal(-n) else Decimal(n)
  }

  /** What is skipped is white space, and what is left is the rest of `s`, not starting with white space. */
  lemma {:induction false} SkipSpaceSkipsSpace(s: string)
    ensures var r := SkipSpace(s);
      && r == s[|s| - |r|..]
      && (r == [] || !IsSpace(r[0]))
      && forall i :: 0 <= i < |s| - |r| ==> IsSpace(s[i])
  {
    if s != [] && IsSpace(s[0]) {
      SkipSpaceSkipsSpace(s[1..]);
    }
  }

  /** A digit run is made of digits and stops exactly where the digits stop. */
  lemma {:induction false} DigitRunIsMaximal(s: string)
    ensures AllDigits(s[..DigitRun(s)])
    ensures DigitRun(s) < |s| ==> !IsDigit(s[DigitRun(s)])
  {
    if s != [] && IsDigit(s[0]) {
      DigitRunIsMaximal(s[1..]);
      assert s[..DigitRun(s)] == [s[0]] + s[1..][..DigitRun(s[1..])];
    }
  }

  /** A word run is free of white space and stops exactly where the white space starts. */
  lemma {:induction false} WordRunIsMaximal(s: string)
    ensures NoSpace(s[..WordRun(s)])
    ensures WordRun(s) < |s| ==> IsSpace(s[WordRun(s)])
  {
    if s != [] && !IsSpace(s[0]) {
      WordRunIsMaximal(s[1..]);
      assert s[..WordRun(s)] == [s[0]] + s[1..][..WordRun(s[1..])];
    }
  }

  /** What `%s` reads is a non-empty word without white space. */
  lemma ReadWordIsWord(s: string)
    ensures ReadWord(s).Some? ==> ReadWord(s).value != [] && NoSpace(ReadWord(s).value)
  {
    WordRunIsMaximal(SkipSpace(s));
  }

  /** Reading back the decimal spelling of `n` gives `n`. */
  lemma {:induction false} DecimalValue(n: nat)
    ensures Value(Decimal(n)) == n
  {
    var ds := Decimal(n);
    if n >= 10 {
      DecimalValue(n / 10);
      assert ds[..|ds| - 1] == Decimal(n / 10);
    }
  }

  /** A digit run stops exactly where the digits stop. */
  lemma {:induction false} DigitRunOfDigits(ds: string, tail: string)
    requires AllDigits(ds)
    requires tail == [] || !IsDigit(tail[0])
    ensures DigitRun(ds + tail) == |ds|
  {
    if ds != [] {
      assert (ds + tail)[0] == ds[0];
      assert (ds + tail)[1..] == ds[1..] + tail;
      DigitRunOfDigits(ds[1..], tail);
    }
  }

  /** A word run stops exactly where the non-space characters stop. */
  lemma {:induction false} WordRunOfWord(w: string, tail: string)
    requires NoSpace(w)
    requires tail == [] || IsSpace(tail[0])
    ensures WordRun(w + tail) == |w|
  {
    if w != [] {
      assert (w + tail)[0] == w[0];
      assert (w + tail)[1..] == w[1..] + tail;
      WordRunOfWord(w[1..], tail);
    }
  }

  /**
   * `%d` round trip: scanning the printed form of any integer, followed by
   * anything that does not continue the number, gives back that integer.
   */
  lemma ReadIntText(n: int, tail: string)
    requires tail == [] || !IsDigit(tail[0])
    ensures ReadInt(IntText(n) + tail) == Some(n)
  {
    if n < 0 {
      assert IntText(n) + tail == "-" + (Decimal(-n) + tail);
      ReadIntSigned(-n, tail);
    } else {
      ReadIntUnsigned(n, tail);
    }
  }

  /** `%d` on a minus sign followed by the digits of `m`. */
  lemma ReadIntSigned(m: nat, tail: string)
    requires tail == [] || !IsDigit(tail[0])
    ensures ReadInt("-" + (Decimal(m) + tail)) == Some(-(m as int))
  {
    var digits := Decimal(m) + tail;
    var s := "-" + digits;
    ReadDigitsDecimal(m, tail);
    assert SkipSpace(s) == s;
    assert SignLength(s) == 1 && s[0] == '-';
    assert s[1..] == digits;
  }

  /** `%d` on the digits of `m`, without a sign. */
  lemma ReadIntUnsigned(m: nat, tail: string)
    requires tail == [] || !IsDigit(tail[0])
    ensures ReadInt(Decimal(m) + tail) == Some(m)
  {
    var digits := Decimal(m) + tail;
    ReadDigitsDecimal(m, tail);
    assert digits[0] == Decimal(m)[0];
    assert SkipSpace(digits) == digits;
    assert SignLength(digits) == 0;
    assert digits[0..] == digits;
  }

  /** Reading the digits of the decimal spelling of `m` gives `m`. */
  lemma ReadDigitsDecimal(m: nat, tail: string)
    requires tail == [] || !IsDigit(tail[0])
    ensures DigitRun(Decimal(m) + tail) == |Decimal(m)|
    ensures ReadDigits(Decimal(m) + tail) == Some(m)
  {
    var ds := Decimal(m);
    DigitRunOfDigits(ds, tail);
    assert (ds + tail)[..|ds|] == ds;
    DecimalValue(m);
  }

  /**
   * `%s` round trip: scanning a non-empty word without white space, followed
   * by nothing or by white space, gives back that word.
   */
  lemma ReadWordText(w: string, tail: string)
    requires w != [] && NoSpace(w)
    requires tail == [] || IsSpace(tail[0])
    ensures ReadWord(w + tail) == Some(w)
  {
    assert !IsSpace((w + tail)[0]);
    assert SkipSpace(w + tail) == w + tail;
    WordRunOfWord(w, tail);
    assert (w + tail)[..|w|] == w;
  }

  /**
   * `%f` on a whole number: scanning the decimal spelling of `n`, followed by
   * anything that continues neither the digits nor a fraction, gives `n`.
   */
  lemma ReadFloatWhole(n: nat, tail: string)
    requires tail == [] || (!IsDigit(tail[0]) && tail[0] != '.')
    ensures ReadFloat(Decimal(n) + tail) == Some(n as real)
  {
    var s := Decimal(n) + tail;
    ReadDigitsDecimal(n, tail);
    assert s[0] == Decimal(n)[0];
    ReadFloatNoFraction(s);
  }

  /** `%f` on digits that are not followed by a point: the number the digits denote. */
  lemma ReadFloatNoFraction(u: string)
    requires u != [] && IsDigit(u[0])
    requires DigitRun(u) == |u| || u[DigitRun(u)] != '.'
    ensures ReadFloat(u) == Some(Value(u[..DigitRun(u)]) as real)
  {
    assert SkipSpace(u) == u;
    assert SignLength(u) == 0;
    assert u[0..] == u;
    ReadDecimalWhole(u);
  }

  /** A run of digits not followed by a point is read as the whole number it denotes. */
  lemma ReadDecimalWhole(u: string)
    requires DigitRun(u) > 0
    requires DigitRun(u) == |u| || u[DigitRun(u)] != '.'
    ensures ReadDecimal(u) == Some(Value(u[..DigitRun(u)]) as real)
  {
    var none: string := [];
    assert DigitRun(none) == 0 && none[..0] == none;
  }

  /**
   * `%f` on a negative whole number: scanning a minus sign and the decimal
   * spelling of `n`, followed by anything that continues neither the digits
   * nor a fraction, gives `-n`.
   */
  lemma ReadFloatNegative(n: nat, tail: string)
    requires tail == [] || (!IsDigit(tail[0]) && tail[0] != '.')
    ensures ReadFloat("-" + (Decimal(n) + tail)) == Some(-(n as real))
  {
    var u := Decimal(n) + tail;
    var s := "-" + u;
    ReadDigitsDecimal(n, tail);
    assert u[0] == Decimal(n)[0];
    assert SkipSpace(s) == s;
    assert SignLength(s) == 1 && s[0] == '-';
    assert s[1..] == u;
    ReadDecimalWhole(u);
  }

  /**
   * `%f` on a number with a fraction: scanning the digits of `w`, a point and
   * the digits `ds`, followed by anything but a digit, gives `w` plus the
   * fraction `ds` denotes, `Value(ds) / 10^|ds|`.
   */
  lemma ReadFloatFraction(w: nat, ds: string, tail: string)
    requires ds != [] && AllDigits(ds)
    requires tail == [] || !IsDigit(tail[0])
    ensures ReadFloat(Decimal(w) + "." + ds + tail) == Some(w as real + Fraction(ds))
  {
    var whole := Decimal(w);
    var rest := ds + tail;
    var u := whole + ("." + rest);
    assert Decimal(w) + "." + ds + tail == u;
    DigitRunOfDigits(whole, "." + rest);
    DigitRunOfDigits(ds, tail);
    assert u[0] == whole[0];
    assert SkipSpace(u) == u;
    assert SignLength(u) == 0;
    assert u[0..] == u;
    ReadDecimalFraction(u, whole, rest, ds);
    DecimalValue(w);
  }

  /** The digits before and after the point of `whole` + "." + `rest`. */
  lemma ReadDecimalFraction(u: string, whole: string, rest: string, ds: string)
    requires u == whole + ("." + rest)
    requires whole != [] && DigitRun(u) == |whole|
    requires ds != [] && DigitRun(rest) == |ds| && rest[..|ds|] == ds
    ensures ReadDecimal(u) == Some(Value(whole) as real + Fraction(ds))
  {
    assert u[|whole|] == '.';
    assert u[|whole| + 1..] == rest;
    assert u[..|whole|] == whole;
  }
}
