/** Conversion of chips to money at a room's chip rate "chips:money"
    (backend/services/settlement_utils.go). */
module Rates {
  import opened Common

  function Pow10(n: nat): (r: nat)
    ensures r >= 1
  {
    if n == 0 then 1 else 10 * Pow10(n - 1)
  }

  /** Unsigned decimal "ddd", "ddd.ddd", ".ddd" or "ddd." with at least one digit. */
  function ParseUnsignedDecimal(s: string): (r: Option<real>)
    ensures r.Some? ==> r.value >= 0.0
  {
    match IndexOfChar(s, '.')
    case None =>
      if |s| > 0 && AllDigits(s) then Some(DigitsValue(s) as real) else None
    case Some(k) =>
      var whole := s[..k];
      var frac := s[k + 1..];
      if |whole| + |frac| > 0 && AllDigits(whole) && AllDigits(frac) then
        Some(DigitsValue(whole) as real + (DigitsValue(frac) as real) / (Pow10(|frac|) as real))
      else None
  }

  /** strconv.ParseFloat on plain decimal notation with an optional sign. */
  function ParseDecimal(s: string): (r: Option<real>)
    ensures r.Some? ==> |s| > 0
  {
    if |s| > 0 && s[0] == '-' then
      match ParseUnsignedDecimal(s[1..])
      case None => None
      case Some(v) => Some(-v)
    else if |s| > 0 && s[0] == '+' then ParseUnsignedDecimal(s[1..])
    else ParseUnsignedDecimal(s)
  }

  /** The two numbers of a well-formed rate with a non-zero chip part. */
  datatype Rate = Rate(chipPart: real, moneyPart: real)

  /** Splits "chips:money" and parses both sides; a rate with other than one colon,
      an unparsable side or a zero chip part has no value. */
  function ParseRate(rate: string): (r: Option<Rate>)
    ensures r.Some? ==> r.value.chipPart != 0.0
  {
    var parts := Split(rate, ':');
    if |parts| != 2 then None
    else
      var chip := ParseDecimal(parts[0]);
      var money := ParseDecimal(parts[1]);
      if chip.None? || money.None? || chip.value == 0.0 then None
      else Some(Rate(chip.value, money.value))
  }

  /** The money value of a chip amount; 0 when the rate is unusable. */
  function CalculateRmb(chips: int, rate: string): real {
    var r := ParseRate(rate);
    if r.None? then 0.0 else Convert(chips, r.value)
  }

  function Convert(chips: int, r: Rate): real
    requires r.chipPart != 0.0
  {
    (chips as real) * r.moneyPart / r.chipPart
  }

  /** A rate with no colon or with more than one converts everything to 0. */
  lemma MalformedRateIsZero(chips: int, rate: string)
    requires CountChar(rate, ':') != 1
    ensures CalculateRmb(chips, rate) == 0.0
  {
    SplitCount(rate, ':');
  }

  /** Conversion is linear in the chip amount: it keeps signs, and amounts that
      cancel in chips cancel in money. */
  lemma RmbLinear(a: int, b: int, rate: string)
    ensures CalculateRmb(a + b, rate) == CalculateRmb(a, rate) + CalculateRmb(b, rate)
    ensures CalculateRmb(-a, rate) == -CalculateRmb(a, rate)
  {
    var r := ParseRate(rate);
    if r.Some? {
      ConvertLinear(a, b, r.value);
    }
  }

  lemma ConvertLinear(a: int, b: int, r: Rate)
    requires r.chipPart != 0.0
    ensures Convert(a + b, r) == Convert(a, r) + Convert(b, r)
    ensures Convert(-a, r) == -Convert(a, r)
  {
    assert ((a + b) as real) == (a as real) + (b as real);
    assert ((-a) as real) == -(a as real);
    ScaleLinear(a as real, b as real, r.moneyPart, r.chipPart);
  }

  lemma ScaleLinear(x: real, y: real, m: real, c: real)
    requires c != 0.0
    ensures (x + y) * m / c == x * m / c + y * m / c
    ensures (-x) * m / c == -(x * m / c)
  {
  }

  lemma SplitRate(chip: string, money: string)
    requires ':' !in chip && ':' !in money
    ensures Split(chip + ":" + money, ':') == [chip, money]
  {
    SplitAtSeparator(chip, money, ':');
    SplitWithoutSeparator(money, ':');
  }

  lemma DigitsExamples()
    ensures DigitsValue("20") == 20 && DigitsValue("30") == 30
    ensures DigitsValue("0") == 0 && DigitsValue("1") == 1 && DigitsValue("2") == 2
  {
    assert "20"[..1] == "2";
    assert "30"[..1] == "3";
    assert "0"[..0] == "" && "1"[..0] == "" && "2"[..0] == "" && "3"[..0] == "";
  }

  lemma DecimalExamples()
    ensures ParseDecimal("20") == Some(20.0) && ParseDecimal("30") == Some(30.0)
    ensures ParseDecimal("0") == Some(0.0) && ParseDecimal("1") == Some(1.0)
    ensures ParseDecimal("2") == Some(2.0) && ParseDecimal("a") == None
  {
    DigitsExamples();
    assert !IsDigit("a"[0]);
  }

  lemma Rate20To1()
    ensures ParseRate("20:1") == Some(Rate(20.0, 1.0))
  {
    DecimalExamples();
    SplitRate("20", "1");
    assert "20" + ":" + "1" == "20:1";
  }

  lemma Rate30To2()
    ensures ParseRate("30:2") == Some(Rate(30.0, 2.0))
  {
    DecimalExamples();
    SplitRate("30", "2");
    assert "30" + ":" + "2" == "30:2";
  }

  lemma BadRateExamples()
    ensures ParseRate("0:1") == None
    ensures ParseRate("a:b") == None
    ensures ParseRate("201") == None
  {
    DecimalExamples();
    SplitRate("0", "1");
    assert "0" + ":" + "1" == "0:1";
    SplitRate("a", "b");
    assert "a" + ":" + "b" == "a:b";
    SplitWithoutSeparator("201", ':');
  }

  /** The conversions the settlement tests expect: 200 chips at 20:1 and 150 at 30:2 are
      10, a loss keeps its sign, and malformed or zero-chip rates give 0. */
  lemma RmbExamples()
    ensures CalculateRmb(200, "20:1") == 10.0
    ensures CalculateRmb(150, "30:2") == 10.0
    ensures CalculateRmb(-200, "20:1") == -10.0
    ensures CalculateRmb(100, "201") == 0.0
    ensures CalculateRmb(100, "a:b") == 0.0
    ensures CalculateRmb(100, "0:1") == 0.0
  {
    Rate20To1();
    Rate30To2();
    BadRateExamples();
  }
}
