/** The stand-in for `NumberFormatter` used when PHP's intl extension is
    missing. It keeps a locale, a style, a pattern and a currency symbol;
    only the currency symbol can change after construction, and only through
    the two setters whose attribute argument is the exact STRING name of the
    attribute. The class also declares integer constants with the intl
    names, but those integers never pass the setters' strict string tests.
    `number_format` (with the float cast in front of it) is opaque to the
    model and is passed to `Format` as a function. */
module NumberFormatter {
  import opened Php

  /** The styles. */
  const StyleCurrency := 1
  const StyleDecimal := 2
  const StylePercent := 3

  /** The integer constants a caller of the intl class would pass. */
  const SymbolCurrency := 0          // CURRENCY_SYMBOL
  const AttributeFractionDigits := 0 // FRACTION_DIGITS
  const TextCurrencyCode := 0        // CURRENCY_CODE

  /** `$a ?? $b`. */
  function Coalesce(a: Value, b: Value): (r: Value)
    ensures r == Null ==> b == Null
    ensures a != Null ==> r == a
  {
    if a != Null then a else b
  }

  class NumberFormatterPolyfill {
    var locale: Value
    var style: Value
    var currencyCode: Value
    var pattern: Value

    constructor(locale: Value, style: Value, pattern: Value)
      ensures this.locale == locale && this.style == style && this.pattern == pattern
      ensures currencyCode == Null
    {
      this.locale := locale;
      this.style := style;
      this.pattern := pattern;
      currencyCode := Null;
    }

    /** `create`: the same object `new` would build. */
    static method Create(locale: Value, style: Value, pattern: Value) returns (f: NumberFormatterPolyfill)
      ensures fresh(f)
      ensures f.locale == locale && f.style == style && f.pattern == pattern
      ensures f.currencyCode == Null
    {
      f := new NumberFormatterPolyfill(locale, style, pattern);
    }

    /** `setAttribute`: accepted and ignored; no state changes. */
    method SetAttribute(attr: Value, value: Value) returns (ok: bool)
      ensures ok
    {
      if attr == Str("FRACTION_DIGITS") {
        // the source stores nothing here either
      }
      ok := true;
    }

    /** `setSymbol`: only the exact string `CURRENCY_SYMBOL` stores the value. */
    method SetSymbol(attr: Value, value: Value) returns (ok: bool)
      modifies this
      ensures ok
      ensures currencyCode == (if attr == Str("CURRENCY_SYMBOL") then value else old(currencyCode))
      ensures locale == old(locale) && style == old(style) && pattern == old(pattern)
    {
      if StrictEq(attr, Str("CURRENCY_SYMBOL")) {
        currencyCode := value;
      }
      ok := true;
    }

    /** `setTextAttribute`: only the exact string `CURRENCY_CODE` stores the
        value, into the same field. */
    method SetTextAttribute(attr: Value, value: Value) returns (ok: bool)
      modifies this
      ensures ok
      ensures currencyCode == (if attr == Str("CURRENCY_CODE") then value else old(currencyCode))
      ensures locale == old(locale) && style == old(style) && pattern == old(pattern)
    {
      if StrictEq(attr, Str("CURRENCY_CODE")) {
        currencyCode := value;
      }
      ok := true;
    }

    /** `getSymbol`: the stored symbol, `$` while none is stored, and the
        empty string for any other attribute. */
    function GetSymbol(attr: Value): (sym: Value)
      reads this
      ensures attr == Str("CURRENCY_SYMBOL") && currencyCode != Null ==> sym == currencyCode
      ensures attr == Str("CURRENCY_SYMBOL") && currencyCode == Null ==> sym == Str("$")
      ensures attr != Str("CURRENCY_SYMBOL") ==> sym == Str("")
    {
      if StrictEq(attr, Str("CURRENCY_SYMBOL")) then Coalesce(currencyCode, Str("$")) else Str("")
    }

    /** `getAttribute`: two fraction digits, nothing else is known. */
    function GetAttribute(attr: Value): (v: Value)
      ensures v == Int(2) <==> attr == Str("FRACTION_DIGITS")
      ensures v != Int(2) ==> v == Null
    {
      if StrictEq(attr, Str("FRACTION_DIGITS")) then Int(2) else Null
    }

    /** `format`: the style is compared strictly with the integer styles; the
        currency style puts the symbol `getSymbol` reports in front; any other
        style (a numeric string included) gives the value as a string. The
        `$type` argument is ignored by the source. */
    function Format(value: Value, formatType: Value, numberFormat: Value -> string): (s: string)
      reads this
      ensures style == Int(StyleCurrency) ==>
        s == StrVal(GetSymbol(Str("CURRENCY_SYMBOL"))) + numberFormat(value)
      ensures style == Int(StyleDecimal) ==> s == numberFormat(value)
      ensures style == Int(StylePercent) ==> s == numberFormat(value) + "%"
      ensures style != Int(StyleCurrency) && style != Int(StyleDecimal) && style != Int(StylePercent) ==>
        s == StrVal(value)
    {
      if StrictEq(style, Int(StyleCurrency)) then
        StrVal(Coalesce(currencyCode, Str("$"))) + numberFormat(value)
      else if StrictEq(style, Int(StyleDecimal)) then numberFormat(value)
      else if StrictEq(style, Int(StylePercent)) then numberFormat(value) + "%"
      else StrVal(value)
    }
  }

  /** Configuring the currency the way intl callers do, with the integer
      constants, leaves the symbol as it was. */
  method ConfigureWithIntegerConstants(f: NumberFormatterPolyfill, symbol: Value)
    modifies f
    ensures f.currencyCode == old(f.currencyCode)
    ensures f.GetSymbol(Str("CURRENCY_SYMBOL")) == old(f.GetSymbol(Str("CURRENCY_SYMBOL")))
  {
    var ok1 := f.SetSymbol(Int(SymbolCurrency), symbol);
    var ok2 := f.SetTextAttribute(Int(TextCurrencyCode), symbol);
  }

  /** Configuring it with the string names takes effect: a currency
      formatter then prints the new symbol before the number. */
  method ConfigureWithNames(f: NumberFormatterPolyfill, code: Value, amount: Value,
                            numberFormat: Value -> string)
    returns (formatted: string)
    requires code != Null
    modifies f
    ensures f.GetSymbol(Str("CURRENCY_SYMBOL")) == code
    ensures f.style == Int(StyleCurrency) ==> formatted == StrVal(code) + numberFormat(amount)
  {
    var ok := f.SetTextAttribute(Str("CURRENCY_CODE"), code);
    formatted := f.Format(amount, Null, numberFormat);
  }

  /** A fresh currency formatter prints `$`. */
  method FreshCurrencyFormatter(amount: Value, numberFormat: Value -> string) returns (formatted: string)
    ensures formatted == "$" + numberFormat(amount)
  {
    var f := NumberFormatterPolyfill.Create(Str("en_US"), Int(StyleCurrency), Null);
    formatted := f.Format(amount, Null, numberFormat);
  }
}
