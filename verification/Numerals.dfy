/** Decimal numerals as JSON prints them (section 6 of RFC 8259) and as `std::stod` reads them. */
module Numerals {
  import opened Types

  predicate Digit(c: char) { '0' <= c <= '9' }

  predicate AllDigits(s: string) { forall i :: 0 <= i < |s| ==> Digit(s[i]) }

  /** [-]whole[.frac][e(+|-)exp]; an absent part is None. */
  datatype Numeral = Numeral(negative: bool, whole: string, frac: Option<string>, exp: Option<Exponent>) {
    predicate Valid() {
      && whole != "" && AllDigits(whole)
      && (frac.Some? ==> frac.value != "" && AllDigits(frac.value))
      && (exp.Some? ==> exp.value.digits != "" && AllDigits(exp.value.digits))
    }

    function Print(): string {
      (if negative then "-" else "") + (whole + (PrintFrac(frac) + PrintExp(exp)))
    }

    function Value(): real {
      var m := Scaled(Mantissa(whole, if frac.Some? then frac.value else ""), exp);
      Signed(negative, m)
    }
  }

  function Mantissa(whole: string, f: string): real { Over(Natural(whole + f), Power10(|f|)) }

  function Scaled(m: real, exp: Option<Exponent>): real {
    if exp.None? then m
    else if exp.value.negative then m / Power10(Natural(exp.value.digits)) as real
    else m * Power10(Natural(exp.value.digits)) as real
  }

  datatype Exponent = Exponent(negative: bool, digits: string)

  function PrintFrac(frac: Option<string>): string { if frac.Some? then "." + frac.value else "" }

  function PrintExp(exp: Option<Exponent>): string {
    if exp.Some? then (if exp.value.negative then "e-" else "e+") + exp.value.digits else ""
  }

  function Over(n: nat, p: nat): real
    requires p > 0
  {
    n as real / p as real
  }

  function Power10(n: nat): (r: nat)
    ensures r > 0
  {
    if n == 0 then 1 else 10 * Power10(n - 1)
  }

  function Natural(s: string): nat {
    if s == "" then 0
    else 10 * Natural(s[..|s| - 1]) + if Digit(s[|s| - 1]) then (s[|s| - 1] - '0') as nat else 0
  }

  // ---------------------------------------------------------------- reading

  /** Length of the longest run of digits at the front. */
  function DigitRun(s: string): (n: nat)
    ensures n <= |s| && AllDigits(s[..n])
  {
    if s == "" || !Digit(s[0]) then 0 else
    var n := DigitRun(s[1..]);
    assert s[..n + 1] == [s[0]] + s[1..][..n];
    n + 1
  }

  predicate Space(c: char) { c == ' ' || '\t' <= c <= '\r' }

  function SkipSpace(s: string): string { if s != "" && Space(s[0]) then SkipSpace(s[1..]) else s }

  predicate Head(s: string, c: char) { s != "" && s[0] == c }

  /** A fraction part: what was read and what is left. */
  function ReadFrac(s: string): (Option<string>, string) {
    if Head(s, '.') then
      var n := DigitRun(s[1..]);
      (Some(s[1..][..n]), s[1..][n..])
    else (None, s)
  }

  /** An exponent is read only if digits follow. */
  function ReadExp(s: string): Option<Exponent> {
    if Head(s, 'e') || Head(s, 'E') then
      var signed := Head(s[1..], '-') || Head(s[1..], '+');
      var digits := if signed then s[1..][1..] else s[1..];
      if DigitRun(digits) == 0 then None else Some(Exponent(Head(s[1..], '-'), digits[..DigitRun(digits)]))
    else None
  }

  function ReadUnsigned(negative: bool, s: string): Option<Numeral> {
    var n := DigitRun(s);
    var (frac, rest) := ReadFrac(s[n..]);
    if n == 0 && (frac.None? || frac.value == "") then None
    else Some(Numeral(negative, s[..n], frac, ReadExp(rest)))
  }

  /** The longest decimal numeral at the front, after white space; None if there is none. */
  function Read(text: string): Option<Numeral> {
    var s := SkipSpace(text);
    if Head(s, '-') then ReadUnsigned(true, s[1..])
    else if Head(s, '+') then ReadUnsigned(false, s[1..])
    else ReadUnsigned(false, s)
  }

  // ---------------------------------------------------------------- round trip

  /** Text that cannot continue a numeral. */
  predicate Stops(r: string) { r != "" && !Digit(r[0]) && r[0] != '.' && r[0] != 'e' && r[0] != 'E' }

  lemma {:induction false} DigitRunStops(d: string, r: string)
    requires AllDigits(d) && (r == "" || !Digit(r[0]))
    ensures DigitRun(d + r) == |d|
    ensures (d + r)[..|d|] == d && (d + r)[|d|..] == r
  {
    if d == "" {
      assert d + r == r;
    } else {
      DigitRunStops(d[1..], r);
      assert (d + r)[1..] == d[1..] + r;
    }
  }

  lemma ReadExpBack(exp: Option<Exponent>, r: string)
    requires exp.Some? ==> exp.value.digits != "" && AllDigits(exp.value.digits)
    requires Stops(r)
    ensures ReadExp(PrintExp(exp) + r) == exp
    ensures EndsDigits(PrintExp(exp) + r)
  {
    if exp.Some? {
      var d := exp.value.digits;
      var s := PrintExp(exp) + r;
      assert s[1..][1..] == d + r;
      DigitRunStops(d, r);
    } else {
      assert PrintExp(exp) + r == r;
    }
  }

  /** Text that continues neither the digits nor the fraction before it. */
  predicate EndsDigits(t: string) { t != "" && !Digit(t[0]) && t[0] != '.' }

  lemma ReadFracBack(frac: Option<string>, t: string)
    requires frac.Some? ==> frac.value != "" && AllDigits(frac.value)
    requires EndsDigits(t)
    ensures ReadFrac(PrintFrac(frac) + t) == (frac, t)
    ensures var u := PrintFrac(frac) + t; u != "" && !Digit(u[0])
  {
    if frac.Some? {
      assert (PrintFrac(frac) + t)[1..] == frac.value + t;
      DigitRunStops(frac.value, t);
    } else {
      assert PrintFrac(frac) + t == t;
    }
  }

  lemma ReadUnsignedBack(n: Numeral, r: string)
    requires n.Valid() && Stops(r)
    ensures ReadUnsigned(n.negative, n.whole + (PrintFrac(n.frac) + (PrintExp(n.exp) + r))) == Some(n)
  {
    var e := PrintExp(n.exp) + r;
    ReadExpBack(n.exp, r);
    ReadFracBack(n.frac, e);
    DigitRunStops(n.whole, PrintFrac(n.frac) + e);
  }

  /** A printed numeral followed by a delimiter reads back as itself. */
  lemma ReadPrint(n: Numeral, r: string)
    requires n.Valid() && Stops(r)
    ensures Read(n.Print() + r) == Some(n)
  {
    ReadUnsignedBack(n, r);
    SignBack(n.negative, n.whole, PrintFrac(n.frac) + (PrintExp(n.exp) + r));
    Regroup(if n.negative then "-" else "", n.whole, PrintFrac(n.frac), PrintExp(n.exp), r);
  }

  lemma Regroup(a: string, b: string, c: string, d: string, r: string)
    ensures a + (b + (c + d)) + r == a + (b + (c + (d + r)))
  {
  }

  lemma ReadNegative(u: string)
    ensures Read("-" + u) == ReadUnsigned(true, u)
  {
    assert ("-" + u)[0] == '-' && ("-" + u)[1..] == u;
  }

  lemma ReadPositive(u: string)
    requires u != "" && Digit(u[0])
    ensures Read(u) == ReadUnsigned(false, u)
  {
  }

  lemma SignBack(negative: bool, whole: string, t: string)
    requires whole != "" && AllDigits(whole)
    ensures Read((if negative then "-" else "") + (whole + t)) == ReadUnsigned(negative, whole + t)
  {
    if negative {
      ReadNegative(whole + t);
    } else {
      assert "" + (whole + t) == whole + t && (whole + t)[0] == whole[0];
      ReadPositive(whole + t);
    }
  }

  predicate AllSpace(s: string) { forall i :: 0 <= i < |s| ==> Space(s[i]) }

  /** White space in front is passed over. */
  lemma {:induction false} ReadAfterSpace(w: string, text: string)
    requires AllSpace(w)
    ensures Read(w + text) == Read(text)
  {
    SkipAfterSpace(w, text);
  }

  lemma {:induction false} SkipAfterSpace(w: string, text: string)
    requires AllSpace(w)
    ensures SkipSpace(w + text) == SkipSpace(text)
  {
    if w == "" {
      assert w + text == text;
    } else {
      SkipAfterSpace(w[1..], text);
      assert (w + text)[1..] == w[1..] + text;
    }
  }

  /** A plus sign means nothing. */
  lemma ReadPlus(u: string)
    ensures Read("+" + u) == ReadUnsigned(false, u)
  {
    assert ("+" + u)[0] == '+' && ("+" + u)[1..] == u;
  }

  // ---------------------------------------------------------------- what a numeral is worth

  /** A natural number in decimal. */
  function Decimal(n: nat): string {
    if n < 10 then ['0' + n as char] else Decimal(n / 10) + ['0' + (n % 10) as char]
  }

  /** Reading the decimal digits of n gives n. */
  lemma {:induction false} DecimalBack(n: nat)
    ensures Decimal(n) != "" && AllDigits(Decimal(n)) && Natural(Decimal(n)) == n
  {
    var s := Decimal(n);
    if n < 10 {
      assert s[..0] == "";
    } else {
      DecimalBack(n / 10);
      assert s[..|s| - 1] == Decimal(n / 10);
    }
  }

  lemma {:induction false} NaturalAppend(a: string, b: string)
    requires AllDigits(b)
    ensures Natural(a + b) == Natural(a) * Power10(|b|) + Natural(b)
  {
    if b == "" {
      assert a + b == a;
    } else {
      var init := b[..|b| - 1];
      NaturalAppend(a, init);
      assert (a + b)[..|a + b| - 1] == a + init;
      TenTimes(Natural(a), Power10(|init|), Natural(init));
    }
  }

  lemma TenTimes(a: nat, p: nat, n: nat)
    ensures 10 * (a * p + n) == a * (10 * p) + 10 * n
  {
  }

  /** whole.frac is worth whole plus the digits of frac over the power of ten of their number. */
  lemma ValueSplits(whole: string, frac: string)
    requires AllDigits(frac)
    ensures Over(Natural(whole + frac), Power10(|frac|))
         == Natural(whole) as real + Over(Natural(frac), Power10(|frac|))
  {
    NaturalAppend(whole, frac);
    Quotient(Natural(whole), Natural(frac), Power10(|frac|), Natural(whole + frac));
  }

  lemma Quotient(a: nat, b: nat, p: nat, w: nat)
    requires p > 0 && w == a * p + b
    ensures Over(w, p) == a as real + Over(b, p)
  {
  }

  /** m times ten to the power k. */
  function Shifted(m: real, k: int): real {
    if k < 0 then m / Power10(-k) as real else m * Power10(k) as real
  }

  function Magnitude(k: int): nat { if k < 0 then -k else k }

  /** [-]a.f e k, with a and k in decimal. */
  function Scientific(negative: bool, a: nat, f: string, k: int): Numeral {
    Numeral(negative, Decimal(a), Some(f), Some(Exponent(k < 0, Decimal(Magnitude(k)))))
  }

  lemma ScaledIs(m: real, k: int)
    ensures Scaled(m, Some(Exponent(k < 0, Decimal(Magnitude(k))))) == Shifted(m, k)
  {
    DecimalBack(Magnitude(k));
  }

  function Pointed(a: nat, f: string): real { a as real + Over(Natural(f), Power10(|f|)) }

  lemma MantissaIs(a: nat, f: string)
    requires AllDigits(f)
    ensures Mantissa(Decimal(a), f) == Pointed(a, f)
  {
    DecimalBack(a);
    ValueSplits(Decimal(a), f);
  }

  lemma ScientificValid(negative: bool, a: nat, f: string, k: int)
    requires f != "" && AllDigits(f)
    ensures Scientific(negative, a, f, k).Valid()
  {
    DecimalBack(a);
    DecimalBack(Magnitude(k));
  }

  /** A numeral is worth what it says: sign, whole, fraction by place value, power of ten. */
  lemma ScientificWorth(negative: bool, a: nat, f: string, k: int)
    requires f != "" && AllDigits(f)
    ensures Scientific(negative, a, f, k).Valid()
    ensures Scientific(negative, a, f, k).Value() == Signed(negative, Shifted(Pointed(a, f), k))
  {
    ScientificValid(negative, a, f, k);
    MantissaIs(a, f);
    ScaledIs(Pointed(a, f), k);
    ValueIs(Scientific(negative, a, f, k), Pointed(a, f), Shifted(Pointed(a, f), k));
  }

  lemma ValueIs(n: Numeral, m: real, v: real)
    requires n.frac.Some? && Mantissa(n.whole, n.frac.value) == m && Scaled(m, n.exp) == v
    ensures n.Value() == Signed(n.negative, v)
  {
  }

  function Signed(negative: bool, v: real): real { if negative then -v else v }

  lemma Unpointed(digits: string, p: nat)
    requires p > 0
    ensures Mantissa(digits, "") / p as real == Over(Natural(digits), p)
  {
    assert digits + "" == digits;
  }

  /** Moving the point into a negative exponent changes nothing. */
  lemma PointMoves(negative: bool, whole: string, frac: string)
    ensures Numeral(negative, whole + frac, None, Some(Exponent(true, Decimal(|frac|)))).Value()
         == Numeral(negative, whole, Some(frac), None).Value()
  {
    DecimalBack(|frac|);
    Unpointed(whole + frac, Power10(|frac|));
  }

  // ---------------------------------------------------------------- JSON's grammar

  /** JSON allows no leading zero. */
  predicate NoLeadingZero(whole: string) { |whole| <= 1 || whole[0] != '0' }

  /** What follows a number, or None where the grammar is broken. */
  function NumberRest(s: string): Option<string> {
    var t := if Head(s, '-') then s[1..] else s;
    var n := DigitRun(t);
    if n == 0 || !NoLeadingZero(t[..n]) then None else FracRest(t[n..])
  }

  function FracRest(t: string): Option<string> {
    if Head(t, '.') then
      if DigitRun(t[1..]) == 0 then None else ExpRest(t[1..][DigitRun(t[1..])..])
    else ExpRest(t)
  }

  function ExpRest(t: string): Option<string> {
    if Head(t, 'e') || Head(t, 'E') then
      var digits := if Head(t[1..], '-') || Head(t[1..], '+') then t[1..][1..] else t[1..];
      if DigitRun(digits) == 0 then None else Some(digits[DigitRun(digits)..])
    else Some(t)
  }

  lemma NumberRestShorter(s: string)
    ensures NumberRest(s).Some? ==> |NumberRest(s).value| < |s|
  {
  }

  lemma ExpRestBack(exp: Option<Exponent>, r: string)
    requires exp.Some? ==> exp.value.digits != "" && AllDigits(exp.value.digits)
    requires Stops(r)
    ensures ExpRest(PrintExp(exp) + r) == Some(r)
  {
    if exp.Some? {
      var s := PrintExp(exp) + r;
      assert s[1..][1..] == exp.value.digits + r;
      DigitRunStops(exp.value.digits, r);
    } else {
      assert PrintExp(exp) + r == r;
    }
  }

  lemma FracRestBack(frac: Option<string>, t: string)
    requires frac.Some? ==> frac.value != "" && AllDigits(frac.value)
    requires EndsDigits(t)
    ensures FracRest(PrintFrac(frac) + t) == ExpRest(t)
  {
    if frac.Some? {
      assert (PrintFrac(frac) + t)[1..] == frac.value + t;
      DigitRunStops(frac.value, t);
    } else {
      assert PrintFrac(frac) + t == t;
    }
  }

  lemma PrintStarts(n: Numeral)
    requires n.Valid()
    ensures n.Print() != "" && (n.Print()[0] == '-' || Digit(n.Print()[0]))
  {
  }

  /** A printed numeral without leading zeros is a JSON number. */
  lemma NumberRestBack(n: Numeral, r: string)
    requires n.Valid() && NoLeadingZero(n.whole) && Stops(r)
    ensures NumberRest(n.Print() + r) == Some(r)
  {
    var e := PrintExp(n.exp) + r;
    var t := n.whole + (PrintFrac(n.frac) + e);
    ReadExpBack(n.exp, r);
    ExpRestBack(n.exp, r);
    ReadFracBack(n.frac, e);
    FracRestBack(n.frac, e);
    DigitRunStops(n.whole, PrintFrac(n.frac) + e);
    Regroup(if n.negative then "-" else "", n.whole, PrintFrac(n.frac), PrintExp(n.exp), r);
    UnsignedRest(n.negative, n.whole, PrintFrac(n.frac) + e);
    assert NumberRest(t) == FracRest(PrintFrac(n.frac) + e);
  }

  lemma UnsignedRest(negative: bool, whole: string, t: string)
    requires whole != "" && AllDigits(whole)
    ensures NumberRest((if negative then "-" else "") + (whole + t)) == NumberRest(whole + t)
  {
    var u := whole + t;
    var s := (if negative then "-" else "") + u;
    assert Digit(whole[0]) && u[0] == whole[0];
    if negative {
      assert s[0] == '-' && s[1..] == u;
    } else {
      assert s == u;
    }
  }
}
