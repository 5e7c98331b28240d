/**
 * The currency context (src/contexts/CurrencyContext.tsx): the selected
 * display currency, the fixed exchange rate, and how a dollar price is
 * converted and written out.
 */
module Currency {
  import opened JsString
  import opened JsArray

  datatype Currency = USD | INR

  /** Rupees per dollar. */
  const ExchangeRate: real := 83.0

  /** The price in the display currency. */
  function ConvertPrice(c: Currency, priceUSD: real): (r: real)
    ensures c == USD ==> r == priceUSD
    ensures c == INR ==> r / ExchangeRate == priceUSD
  {
    if c == INR then priceUSD * ExchangeRate else priceUSD
  }

  /** The nearest integer to a non-negative number, halves going up. */
  function RoundHalfUp(x: real): (n: nat)
    requires x >= 0.0
    ensures x - 0.5 < n as real <= x + 0.5
  {
    (x + 0.5).Floor
  }

  /** `x.toFixed(2)`: the sign of a negative number, the whole part, a point and exactly two decimals, rounded half up. */
  function ToFixed2(x: real): string
  {
    if x < 0.0 then "-" + Fixed2(-x) else Fixed2(x)
  }

  function Fixed2(x: real): string
    requires x >= 0.0
  {
    var n := RoundHalfUp(x * 100.0);
    NatToString(n / 100) + "." + [DigitChar(n % 100 / 10), DigitChar(n % 10)]
  }

  /** A digit string in the Indian grouping: the last three digits, then groups of two, separated by commas. */
  function GroupIndian(d: string): string
  {
    if |d| <= 3 then d else GroupPairs(d[..|d| - 3]) + "," + d[|d| - 3..]
  }

  /** Digits in groups of two from the right, separated by commas. */
  function GroupPairs(d: string): string
  {
    if |d| <= 2 then d else GroupPairs(d[..|d| - 2]) + "," + d[|d| - 2..]
  }

  /** `x.toLocaleString("en-IN", { maximumFractionDigits: 0 })`: rounded half away from zero, grouped the Indian way. */
  function LocaleINR(x: real): string
  {
    if x < 0.0 then "-" + GroupIndian(NatToString(RoundHalfUp(-x))) else GroupIndian(NatToString(RoundHalfUp(x)))
  }

  const DollarSign := "$"
  const RupeeSign := "₹"

  /** `formatPrice`: a dollar price written in the display currency. */
  function FormatPrice(c: Currency, priceUSD: real): string
  {
    var price := ConvertPrice(c, priceUSD);
    if c == INR then RupeeSign + LocaleINR(price) else DollarSign + ToFixed2(price)
  }

  /**
   * The provider's state: the selected currency, INR until the visitor
   * picks another one.
   */
  class CurrencyState {
    var currency: Currency

    constructor ()
      ensures currency == INR
    {
      currency := INR;
    }

    method SetCurrency(c: Currency)
      modifies this
      ensures currency == c
    {
      currency := c;
    }

    /** `formatPrice` of the context: the price written in the currency now selected. */
    method Format(priceUSD: real) returns (s: string)
      ensures PriceText(currency, priceUSD, s)
    {
      s := FormatPrice(currency, priceUSD);
      FormatPriceShape(currency, priceUSD);
    }
  }

  // ---------------------------------------------------------------- properties

  predicate NotComma(c: char)
  {
    c != ','
  }

  /** The characters of `s` other than commas. */
  function RemoveCommas(s: string): string
  {
    Filter(NotComma, s)
  }

  lemma RemoveCommasJoin(a: string, b: string)
    ensures RemoveCommas(a + "," + b) == RemoveCommas(a) + RemoveCommas(b)
  {
    FilterAppend(NotComma, a + ",", b);
    FilterAppend(NotComma, a, ",");
  }

  lemma RemoveCommasDigits(d: string)
    requires AllDigits(d)
    ensures RemoveCommas(d) == d
  {
    FilterAll(NotComma, d);
  }

  /** Removing the commas of the pair grouping gives back the digits. */
  lemma {:induction false} GroupPairsDigits(d: string)
    requires AllDigits(d)
    ensures RemoveCommas(GroupPairs(d)) == d
  {
    if |d| <= 2 {
      RemoveCommasDigits(d);
    } else {
      var h, t := d[..|d| - 2], d[|d| - 2..];
      GroupPairsDigits(h);
      RemoveCommasJoin(GroupPairs(h), t);
      RemoveCommasDigits(t);
      assert h + t == d;
    }
  }

  /** Removing the commas of the Indian grouping gives back the digits. */
  lemma GroupIndianDigits(d: string)
    requires AllDigits(d)
    ensures RemoveCommas(GroupIndian(d)) == d
  {
    if |d| <= 3 {
      RemoveCommasDigits(d);
    } else {
      var h, t := d[..|d| - 3], d[|d| - 3..];
      GroupPairsDigits(h);
      RemoveCommasJoin(GroupPairs(h), t);
      RemoveCommasDigits(t);
      assert h + t == d;
    }
  }

  /** The grouping ends in the last three digits, after a comma when there are more than three. */
  lemma GroupIndianTail(d: string)
    requires |d| > 3
    ensures var g := GroupIndian(d); |g| >= 4 && g[|g| - 4] == ',' && g[|g| - 3..] == d[|d| - 3..]
  {
  }

  /** The rupee amount is the whole number of rupees, nearest to the converted price, with only digits besides the commas. */
  lemma LocaleINRValue(x: real)
    requires x >= 0.0
    ensures GroupedText(LocaleINR(x), x)
  {
    var d := NatToString(RoundHalfUp(x));
    GroupIndianDigits(d);
    NatToStringValue(RoundHalfUp(x));
  }

  /**
   * The dollar amount: a whole part, a point and two decimals whose value
   * in cents is the price in cents rounded half up.
   */
  lemma ToFixed2Value(x: real)
    requires x >= 0.0
    ensures FixedText(ToFixed2(x), x)
  {
    var n := RoundHalfUp(x * 100.0);
    var w, f := NatToString(n / 100), [DigitChar(n % 100 / 10), DigitChar(n % 10)];
    var s := w + "." + f;
    assert s == ToFixed2(x);
    var k := |s| - 3;
    assert s[..k] == w && s[k + 1..] == f;
    NatToStringValue(n / 100);
    TwoDigitsValue(n);
  }

  /** The two decimals `Fixed2` writes denote the last two digits of the number of cents. */
  lemma TwoDigitsValue(n: nat)
    ensures DigitsValue([DigitChar(n % 100 / 10), DigitChar(n % 10)]) == n % 100
  {
    var hi, lo := n % 100 / 10, n % 10;
    var f := [DigitChar(hi), DigitChar(lo)];
    assert f[..1] == [DigitChar(hi)] && [DigitChar(hi)][..0] == [];
    assert DigitsValue([DigitChar(hi)]) == hi;
    assert DigitsValue(f) == hi * 10 + lo;
  }

  /** `s` is a whole part, a point and two decimals whose value in cents is `x` in cents rounded half up. */
  predicate FixedText(s: string, x: real)
    requires x >= 0.0
  {
    var k := |s| - 3;
    k >= 1 && s[k] == '.' && AllDigits(s[..k]) && AllDigits(s[k + 1..])
    && DigitsValue(s[..k]) * 100 + DigitsValue(s[k + 1..]) == RoundHalfUp(x * 100.0)
  }

  /** `s` is digits and commas, and its digits spell `x` rounded half up. */
  predicate GroupedText(s: string, x: real)
    requires x >= 0.0
  {
    var d := RemoveCommas(s);
    AllDigits(d) && DigitsValue(d) == RoundHalfUp(x)
  }

  /** A dollar amount: `FixedText` of its size, after a minus sign when it is negative. */
  predicate DollarAmount(s: string, x: real)
  {
    if x < 0.0 then |s| >= 1 && s[0] == '-' && FixedText(s[1..], -x) else FixedText(s, x)
  }

  /** A rupee amount: `GroupedText` of its size, after a minus sign when it is negative. */
  predicate RupeeAmount(s: string, x: real)
  {
    if x < 0.0 then |s| >= 1 && s[0] == '-' && GroupedText(s[1..], -x) else GroupedText(s, x)
  }

  /**
   * How a dollar price reads in the display currency: the rupee sign and the
   * price times the exchange rate in whole rupees, or the dollar sign and the
   * price in dollars and cents.
   */
  predicate PriceText(c: Currency, priceUSD: real, s: string)
  {
    var price := ConvertPrice(c, priceUSD);
    |s| >= 1 &&
    if c == INR then s[..1] == RupeeSign && RupeeAmount(s[1..], price)
    else s[..1] == DollarSign && DollarAmount(s[1..], price)
  }

  /** `formatPrice` writes every price as `PriceText` describes. */
  lemma FormatPriceShape(c: Currency, priceUSD: real)
    ensures PriceText(c, priceUSD, FormatPrice(c, priceUSD))
  {
    var price := ConvertPrice(c, priceUSD);
    var s := FormatPrice(c, priceUSD);
    if c == INR {
      assert s[1..] == LocaleINR(price);
      RupeeShape(price);
    } else {
      assert s[1..] == ToFixed2(price);
      DollarShape(price);
    }
  }

  /** `toFixed(2)` writes a dollar amount. */
  lemma DollarShape(x: real)
    ensures DollarAmount(ToFixed2(x), x)
  {
    if x < 0.0 {
      NegativeDollar(x);
    } else {
      ToFixed2Value(x);
    }
  }

  /** A negative amount is a minus sign, then the text of its size. */
  lemma NegativeDollar(x: real)
    requires x < 0.0
    ensures DollarAmount(ToFixed2(x), x)
  {
    assert ToFixed2(x) == "-" + ToFixed2(-x);
    ToFixed2Value(-x);
    MinusAmount(ToFixed2(x), ToFixed2(-x), x);
  }

  /** A minus sign before the text of a negative amount's size is a dollar amount. */
  lemma MinusAmount(s: string, t: string, x: real)
    requires x < 0.0 && s == "-" + t && FixedText(t, -x)
    ensures DollarAmount(s, x)
  {
    assert s[1..] == t;
  }

  /** The `en-IN` locale string writes a rupee amount. */
  lemma RupeeShape(x: real)
    ensures RupeeAmount(LocaleINR(x), x)
  {
    if x < 0.0 {
      NegativeRupee(x);
    } else {
      LocaleINRValue(x);
    }
  }

  /** A negative amount is a minus sign, then the locale string of its size. */
  lemma NegativeRupee(x: real)
    requires x < 0.0
    ensures RupeeAmount(LocaleINR(x), x)
  {
    var g := GroupIndian(NatToString(RoundHalfUp(-x)));
    assert LocaleINR(x) == "-" + g && LocaleINR(-x) == g;
    assert ("-" + g)[1..] == g;
    LocaleINRValue(-x);
  }

  /** A whole number of cents is written exactly: `toFixed(2)` loses nothing on store prices. */
  lemma CentsExact(c: nat)
    ensures RoundHalfUp((c as real / 100.0) * 100.0) == c
  {
    assert (c as real / 100.0) * 100.0 == c as real;
  }

  /** $19.99 is written "$19.99" in dollars and "₹1,659" in rupees (19.99 x 83 = 1659.17). */
  lemma FormatExamples()
    ensures FormatPrice(USD, 19.99) == "$19.99"
    ensures FormatPrice(INR, 19.99) == "₹1,659"
  {
    assert RoundHalfUp(19.99 * 100.0) == 1999;
    assert NatToString(19) == "19";
    assert RoundHalfUp(19.99 * 83.0) == 1659;
    assert NatToString(1659) == "1659";
    assert "1659"[..1] == "1" && "1659"[1..] == "659";
  }
}
