/** JavaScript's number parsing (`parseFloat`, `parseInt`) and number
    printing (`String(x)`, `x.toFixed(2)`), for the non-negative two-decimal
    amounts and the small counts that the views handle. `None` stands for NaN. */
module Numbers {
  import opened Types

  predicate IsDigit(c: char) {
    '0' <= c <= '9'
  }

  function DigitValue(c: char): nat
    requires IsDigit(c)
  {
    c as int - '0' as int
  }

  function DigitChar(d: nat): (c: char)
    requires d < 10
    ensures IsDigit(c) && DigitValue(c) == d
  {
    ('0' as int + d) as char
  }

  predicate AllDigits(s: string) {
    forall i :: 0 <= i < |s| ==> IsDigit(s[i])
  }

  /** The length of the longest prefix of `s` made of digits. */
  function LeadingDigits(s: string): (n: nat)
    ensures n <= |s| && AllDigits(s[..n])
    ensures n < |s| ==> !IsDigit(s[n])
  {
    if s != [] && IsDigit(s[0]) then
      var n := 1 + LeadingDigits(s[1..]);
      assert s[..n] == [s[0]] + s[1..][..n - 1];
      n
    else 0
  }

  /** The value of a string of decimal digits, most significant first. */
  function DigitsValue(ds: string): nat
    requires AllDigits(ds)
  {
    if ds == [] then 0 else DigitsValue(ds[..|ds| - 1]) * 10 + DigitValue(ds[|ds| - 1])
  }

  function Pow10(n: nat): (p: nat)
    ensures p >= 1
  {
    if n == 0 then 1 else 10 * Pow10(n - 1)
  }

  /** The text after an optional leading sign. */
  function Unsigned(s: string): string {
    if |s| > 0 && (s[0] == '-' || s[0] == '+') then s[1..] else s
  }

  /** The digits after a decimal point that directly follows the integer
      digits of `body`; empty when there is no such point. */
  function FractionDigits(body: string): (f: string)
    ensures AllDigits(f)
  {
    var n := LeadingDigits(body);
    if n < |body| && body[n] == '.' then body[n + 1..][..LeadingDigits(body[n + 1..])] else []
  }

  /** Text that `parseFloat` reads a number from once the sign is taken
      off: a digit, or a point followed by a digit. */
  predicate StartsNumber(body: string) {
    (|body| > 0 && IsDigit(body[0]))
    || (|body| > 1 && body[0] == '.' && IsDigit(body[1]))
  }

  /** The value of the fractional digits `f`. */
  function FractionValue(f: string): real
    requires AllDigits(f)
  {
    DigitsValue(f) as real / Pow10(|f|) as real
  }

  /** The longest prefix of `body` of the form digits [ '.' digits ], read
      as a non-negative number; NaN when that prefix holds no digit. */
  function UnsignedFloat(body: string): (r: Option<real>)
    ensures r.Some? <==> StartsNumber(body)
  {
    var n := LeadingDigits(body);
    var frac := FractionDigits(body);
    assert n > 0 <==> |body| > 0 && IsDigit(body[0]);
    assert n == 0 ==> (|frac| > 0 <==> |body| > 1 && body[0] == '.' && IsDigit(body[1]));
    if n + |frac| == 0 then None
    else Some(DigitsValue(body[..n]) as real + FractionValue(frac))
  }

  /** `parseFloat`: an optional sign, then the longest prefix of the form
      digits [ '.' digits ]; NaN when that prefix holds no digit at all. */
  function ParseFloat(s: string): (r: Option<real>)
    ensures r.Some? <==> StartsNumber(Unsigned(s))
  {
    match UnsignedFloat(Unsigned(s))
    case None => None
    case Some(v) => Some(if |s| > 0 && s[0] == '-' then -v else v)
  }

  /** Text that starts with a digit has no sign to take off. */
  lemma {:induction false} UnsignedDigitStart(s: string)
    requires |s| > 0 && IsDigit(s[0])
    ensures Unsigned(s) == s
    ensures ParseFloat(s) == UnsignedFloat(s)
  {
  }

  /** `parseInt` in base ten: an optional sign, then the longest run of
      digits; NaN when there is no digit. */
  function ParseInt(s: string): (r: Option<int>)
    ensures r.Some? <==> |Unsigned(s)| > 0 && IsDigit(Unsigned(s)[0])
  {
    var body := Unsigned(s);
    var n := LeadingDigits(body);
    if n == 0 then None
    else
      var v: int := DigitsValue(body[..n]);
      Some(if |s| > 0 && s[0] == '-' then -v else v)
  }

  /** The decimal text of a natural number, without leading zeros. */
  function NatText(n: nat): (s: string)
    ensures |s| >= 1 && AllDigits(s)
    ensures |s| > 1 ==> s[0] != '0'
  {
    if n < 10 then [DigitChar(n)] else NatText(n / 10) + [DigitChar(n % 10)]
  }

  /** `x.toFixed(2)` for the amount `h / 100`. */
  function Fixed2(h: nat): string {
    NatText(h / 100) + "." + [DigitChar(h % 100 / 10), DigitChar(h % 10)]
  }

  /** `String(x)` for the amount `h / 100`: the shortest text, with no
      fractional part for whole amounts and no trailing zero otherwise. */
  function NumberText(h: nat): string {
    NatText(h / 100)
    + if h % 100 == 0 then ""
      else if h % 10 == 0 then "." + [DigitChar(h % 100 / 10)]
      else "." + [DigitChar(h % 100 / 10), DigitChar(h % 10)]
  }

  /** The digits of NatText read back as the number printed. */
  lemma {:induction false} NatTextValue(n: nat)
    ensures DigitsValue(NatText(n)) == n
  {
    if n >= 10 {
      NatTextValue(n / 10);
      var t := NatText(n / 10) + [DigitChar(n % 10)];
      assert t[..|t| - 1] == NatText(n / 10);
    }
  }

  /** Digits followed by text that does not continue them. */
  lemma {:induction false} LeadingDigitsAppend(d: string, t: string)
    requires AllDigits(d)
    requires t == [] || !IsDigit(t[0])
    ensures LeadingDigits(d + t) == |d|
  {
    if d != [] {
      assert (d + t)[1..] == d[1..] + t;
      LeadingDigitsAppend(d[1..], t);
    }
  }

  lemma {:induction false} TwoDigitsValue(a: nat, b: nat)
    requires a < 10 && b < 10
    ensures AllDigits([DigitChar(a), DigitChar(b)])
    ensures DigitsValue([DigitChar(a), DigitChar(b)]) == 10 * a + b
  {
    var ds := [DigitChar(a), DigitChar(b)];
    assert ds[..1] == [DigitChar(a)];
    OneDigitValue(a);
  }

  lemma {:induction false} OneDigitValue(a: nat)
    requires a < 10
    ensures DigitsValue([DigitChar(a)]) == a
  {
    assert [DigitChar(a)][..0] == [];
  }

  /** The number text of `n` followed by text that neither continues the
      digits nor starts a fraction reads back as `n`. */
  lemma {:induction false} NatTextThenStop(n: nat, t: string)
    requires t == [] || (!IsDigit(t[0]) && t[0] != '.')
    ensures ParseFloat(NatText(n) + t) == Some(n as real)
  {
    var s := NatText(n) + t;
    var k := |NatText(n)|;
    assert s[0] == NatText(n)[0];
    UnsignedDigitStart(s);
    LeadingDigitsAppend(NatText(n), t);
    assert s[..k] == NatText(n);
    NatTextValue(n);
    assert k == |s| || s[k] == t[0];
    assert FractionDigits(s) == [];
    assert UnsignedFloat(s) == Some(n as real + FractionValue([]));
  }

  /** The fractional digits of digits, a point and digits are the digits
      after the point. */
  lemma {:induction false} FractionDigitsAfterPoint(d: string, f: string)
    requires AllDigits(d) && AllDigits(f)
    ensures LeadingDigits(d + ['.'] + f) == |d|
    ensures FractionDigits(d + ['.'] + f) == f
  {
    var s := d + ['.'] + f;
    var n := |d|;
    assert s == d + (['.'] + f);
    LeadingDigitsAppend(d, ['.'] + f);
    assert s[n + 1..] == f;
    LeadingDigitsAppend(f, []);
    assert f + [] == f;
  }

  /** Digits, a point and more digits read back as their value. */
  lemma {:induction false} ParseDigitsPointDigits(d: string, f: string)
    requires AllDigits(d) && |d| > 0 && AllDigits(f) && |f| > 0
    ensures ParseFloat(d + ['.'] + f) == Some(DigitsValue(d) as real + FractionValue(f))
  {
    var s := d + ['.'] + f;
    assert s[0] == d[0];
    UnsignedDigitStart(s);
    FractionDigitsAfterPoint(d, f);
    assert s[..|d|] == d;
  }

  /** A whole number followed by a point and fractional digits. */
  lemma {:induction false} ParseFloatWithFraction(q: nat, f: string)
    requires AllDigits(f) && |f| > 0
    ensures ParseFloat(NatText(q) + "." + f) == Some(q as real + FractionValue(f))
  {
    ParseDigitsPointDigits(NatText(q), f);
    NatTextValue(q);
  }

  lemma {:induction false} HundredthsSplit(h: nat)
    ensures (h / 100) as real + (h % 100) as real / 100.0 == h as real / 100.0
  {
    assert h == 100 * (h / 100) + h % 100;
  }

  /** The last two decimal digits of `h`, as tens and units. */
  lemma {:induction false} TensAndUnits(h: nat)
    ensures 10 * (h % 100 / 10) + h % 10 == h % 100
  {
    var q, r := h / 100, h % 100;
    assert h == 10 * (10 * q + r / 10) + r % 10;
  }

  /** `parseFloat(x.toFixed(2))` gives back the amount. */
  lemma {:induction false} ParseFixed2(h: nat)
    ensures ParseFloat(Fixed2(h)) == Some(h as real / 100.0)
  {
    var a, b := h % 100 / 10, h % 10;
    var ds := [DigitChar(a), DigitChar(b)];
    TwoDigitsValue(a, b);
    TensAndUnits(h);
    assert Pow10(|ds|) == 100;
    assert FractionValue(ds) == (h % 100) as real / 100.0;
    ParseFloatWithFraction(h / 100, ds);
    HundredthsSplit(h);
    assert NatText(h / 100) + "." + ds == Fixed2(h);
  }

  /** An amount with one significant decimal prints with one decimal. */
  lemma {:induction false} ParseOneDecimal(h: nat)
    requires h % 100 != 0 && h % 10 == 0
    ensures ParseFloat(NumberText(h)) == Some(h as real / 100.0)
  {
    var a := h % 100 / 10;
    var ds := [DigitChar(a)];
    OneDigitValue(a);
    assert Pow10(|ds|) == 10;
    assert FractionValue(ds) == (h % 100) as real / 100.0;
    ParseFloatWithFraction(h / 100, ds);
    assert NatText(h / 100) + "." + ds == NumberText(h);
    HundredthsSplit(h);
  }

  /** `parseFloat(String(x))` gives back the amount. */
  lemma {:induction false} ParseNumberText(h: nat)
    ensures ParseFloat(NumberText(h)) == Some(h as real / 100.0)
  {
    if h % 100 == 0 {
      NatTextThenStop(h / 100, []);
      assert NatText(h / 100) + [] == NumberText(h);
      HundredthsSplit(h);
    } else if h % 10 == 0 {
      ParseOneDecimal(h);
    } else {
      assert NumberText(h) == Fixed2(h);
      ParseFixed2(h);
    }
  }

  /** `parseInt(String(n))` gives back `n`. */
  lemma {:induction false} ParseIntNatText(n: nat)
    ensures ParseInt(NatText(n)) == Some(n)
  {
    LeadingDigitsAppend(NatText(n), []);
    assert NatText(n) + [] == NatText(n);
    assert NatText(n)[..|NatText(n)|] == NatText(n);
    NatTextValue(n);
  }
}
