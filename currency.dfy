/**
 * The PKR-only currency helpers of client/src/lib/currency-utils.ts. Locale formatting
 * (`toLocaleString("en-PK", ...)`) and `parseFloat` are library calls and are passed in
 * as functions.
 */
module CurrencyUtils {
  import opened Wrappers
  import opened Seqs

  /** The only currency code the application knows. */
  type Currency = c: string | c == "PKR" witness "PKR"

  /** The rupee sign, kept as an opaque constant. */
  const PkrSymbol: string := "\U{20A8}"

  const CurrencySymbols: map<string, string> := map["PKR" := PkrSymbol]
  const CurrencyNames: map<string, string> := map["PKR" := "Pakistani Rupee"]

  /**
   * A JavaScript value handed in where a number is expected: a number, `NaN`, or
   * something that is not a number at all (`undefined`, `null`, ...).
   */
  datatype JsValue = Num(value: int) | NaN | NotNumber

  /** `(typeof v === 'number' && !isNaN(v)) ? v : 0`, which is also what `v || 0` gives. */
  function OrZero(v: JsValue): int {
    if v.Num? then v.value else 0
  }

  /** The three optional fields of the options object. */
  datatype FormatOptions = FormatOptions(
    minimumFractionDigits: Option<int>, maximumFractionDigits: Option<int>, showSymbol: Option<bool>)

  /** `{}`, the default options object. */
  const NoOptions := FormatOptions(None, None, None)

  /** `toLocaleString("en-PK", { minimumFractionDigits, maximumFractionDigits })` on an amount. */
  type Localizer = (int, int, int) -> string

  function FormattedAmount(amount: JsValue, options: FormatOptions, toLocale: Localizer): string {
    toLocale(OrZero(amount), options.minimumFractionDigits.GetOr(2), options.maximumFractionDigits.GetOr(2))
  }

  /**
   * `formatCurrency(amount, currency, options)`: without the symbol the result is just the
   * localized amount; with it (the default) the result is the rupee sign, one space, and
   * the localized amount.
   */
  function FormatCurrency(amount: JsValue, currency: Currency, options: FormatOptions, toLocale: Localizer): (r: string)
    ensures options.showSymbol == Some(false) ==> r == FormattedAmount(amount, options, toLocale)
    ensures options.showSymbol != Some(false) ==>
      |r| == |PkrSymbol| + 1 + |FormattedAmount(amount, options, toLocale)|
      && r[..|PkrSymbol|] == PkrSymbol && r[|PkrSymbol|] == ' '
      && r[|PkrSymbol| + 1..] == FormattedAmount(amount, options, toLocale)
  {
    var formatted := FormattedAmount(amount, options, toLocale);
    if !options.showSymbol.GetOr(true) then formatted
    else CurrencySymbols[currency] + " " + formatted
  }

  /** A missing or `NaN` amount formats exactly as 0 does. */
  lemma NonNumbersFormatAsZero(amount: JsValue, currency: Currency, options: FormatOptions, toLocale: Localizer)
    requires !amount.Num?
    ensures FormatCurrency(amount, currency, options, toLocale) == FormatCurrency(Num(0), currency, options, toLocale)
  {
  }

  /** Omitted options give two fraction digits either way and the symbol. */
  lemma DefaultOptions(amount: JsValue, toLocale: Localizer)
    ensures FormatCurrency(amount, "PKR", NoOptions, toLocale) == PkrSymbol + " " + toLocale(OrZero(amount), 2, 2)
  {
  }

  /** The characters `[^\d.-]` does not match: ASCII digits, the point and the minus sign. */
  predicate IsNumericChar(c: char) {
    ('0' <= c <= '9') || c == '.' || c == '-'
  }

  /** `s.replace(/[^\d.-]/g, '')`. */
  function NumericPart(s: string): (r: string)
    ensures forall c :: c in r ==> IsNumericChar(c)
    ensures forall c :: IsNumericChar(c) ==> multiset(r)[c] == multiset(s)[c]
  {
    forall c ensures IsNumericChar(c) ==> multiset(Filter(s, IsNumericChar))[c] == multiset(s)[c] {
      FilterMultiset(s, IsNumericChar, c);
    }
    Filter(s, IsNumericChar)
  }

  /** The kept characters stay in their order: the filter works piece by piece. */
  lemma NumericPartAppend(a: string, b: string)
    ensures NumericPart(a + b) == NumericPart(a) + NumericPart(b)
  {
    FilterAppend(a, b, IsNumericChar);
  }

  /** A string of digits, points and minus signs is left as it is, so the filter is idempotent. */
  lemma NumericPartIdempotent(s: string)
    ensures (forall i :: 0 <= i < |s| ==> IsNumericChar(s[i])) ==> NumericPart(s) == s
    ensures NumericPart(NumericPart(s)) == NumericPart(s)
  {
    FilterKeepsAll(s, IsNumericChar);
    FilterKeepsAll(NumericPart(s), IsNumericChar);
  }

  /** `parseCurrencyString(s)`, with `parseFloat` as a parameter. */
  function ParseCurrencyString(s: string, parseFloat: string -> JsValue): (r: int)
    ensures parseFloat(NumericPart(s)).Num? ==> r == parseFloat(NumericPart(s)).value
    ensures !parseFloat(NumericPart(s)).Num? ==> r == 0
  {
    OrZero(parseFloat(NumericPart(s)))
  }

  /**
   * Parsing ignores the symbol prefix that formatting adds: a formatted amount parses
   * the same with or without its symbol.
   */
  lemma ParseIgnoresSymbol(amount: JsValue, options: FormatOptions, toLocale: Localizer, parseFloat: string -> JsValue)
    ensures ParseCurrencyString(FormatCurrency(amount, "PKR", options.(showSymbol := Some(true)), toLocale), parseFloat)
         == ParseCurrencyString(FormatCurrency(amount, "PKR", options.(showSymbol := Some(false)), toLocale), parseFloat)
  {
    var f := FormattedAmount(amount, options, toLocale);
    assert FormattedAmount(amount, options.(showSymbol := Some(true)), toLocale) == f;
    assert FormattedAmount(amount, options.(showSymbol := Some(false)), toLocale) == f;
    assert FormatCurrency(amount, "PKR", options.(showSymbol := Some(true)), toLocale) == PkrSymbol + " " + f;
    NumericPartAppend(PkrSymbol + " ", f);
    assert NumericPart(PkrSymbol + " ") == [] by {
      FilterKeepsNone(PkrSymbol + " ", IsNumericChar);
    }
    assert NumericPart(PkrSymbol + " " + f) == NumericPart(f);
    assert FormatCurrency(amount, "PKR", options.(showSymbol := Some(false)), toLocale) == f;
  }

  /** `isValidCurrency(c)`: exactly the supported codes are valid. */
  function IsValidCurrency(c: string): (r: bool)
    ensures r <==> c in GetSupportedCurrencies()
    ensures r ==> c in CurrencySymbols && c in CurrencyNames
  {
    c == "PKR"
  }

  /** `getSupportedCurrencies()`: one currency, which has a symbol. */
  function GetSupportedCurrencies(): (r: seq<Currency>)
    ensures |r| == 1 && forall c :: c in r ==> c in CurrencySymbols
  {
    ["PKR"]
  }

  /** `getCurrencySymbol()`: the symbol every formatted amount starts with by default. */
  function GetCurrencySymbol(): (r: string)
    ensures r == CurrencySymbols["PKR"]
    ensures forall amount, toLocale :: r <= FormatCurrency(amount, "PKR", NoOptions, toLocale)
  {
    PkrSymbol
  }
}
