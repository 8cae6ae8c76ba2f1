/** The optional VAT-number rule of the customer forms. An empty value is
    accepted; a value made of 5 to 30 ASCII letters or digits is accepted
    without further checks; any other value is handed to a strict per-country
    validator, whose rejection fails the attribute with one message. The
    strict validator is not part of this model and is passed in as a
    predicate over (value, country). */
module VatId {
  import opened Strings
  import opened Php

  const InvalidFormat := "customer::app.validations.vat-id.invalid-format"

  /** `[A-Z0-9]{5,30}` under the case-insensitive flag. */
  predicate AlnumRun(s: string) {
    5 <= |s| <= 30 && forall k | 0 <= k < |s| :: IsAsciiAlnum(s[k])
  }

  /** `/^[A-Z0-9]{5,30}$/i`: without the D modifier `$` also matches before
      one final newline. */
  predicate BasicPattern(s: string) {
    AlnumRun(s) || (|s| > 0 && s[|s| - 1] == '\n' && AlnumRun(s[..|s| - 1]))
  }

  /** The string `preg_match` receives for a value, or None where PHP throws
      a TypeError (arrays). An object is matched as its `__toString` form,
      as everywhere in `Php`. */
  function Subject(v: Value): (s: Option<string>)
    ensures s.None? <==> v.Arr?
    ensures s.Some? ==> s.value == StrVal(v)
  {
    match v
    case Arr(_) => None
    case _ => Some(StrVal(v))
  }

  /** On letters and digits alone the pattern is exactly a length test:
      4 and 31 characters fall through to the strict validator. */
  lemma PatternIsLengthOnAlnum(s: string)
    requires forall k | 0 <= k < |s| :: IsAsciiAlnum(s[k])
    ensures BasicPattern(s) <==> 5 <= |s| <= 30
  {
  }

  /** One trailing newline is tolerated, a second one is not. */
  lemma TrailingNewline(s: string)
    requires AlnumRun(s)
    ensures BasicPattern(s + "\n")
    ensures !BasicPattern(s + "\n\n")
  {
    assert (s + "\n")[..|s|] == s;
    var t := s + "\n\n";
    assert t[..|t| - 1][|t| - 2] == '\n';
  }

  class VatIdRule {
    /** The country code of the form; unset until `SetCountry`. */
    var country: Value

    constructor()
      ensures country == Null
    {
      country := Null;
    }

    /** Stores the country for later validations and returns the same rule. */
    method SetCountry(c: Value) returns (self: VatIdRule)
      modifies this
      ensures country == c && self == this
    {
      country := c;
      self := this;
    }

    /** `validate`: `failures` lists the messages passed to `fail`,
        `consulted` says whether the strict validator was called, and
        `typeError` that `preg_match` threw. */
    method Validate(attribute: string, value: Value, strictValidator: (Value, Value) -> bool)
      returns (failures: seq<string>, consulted: bool, typeError: bool)
      ensures Empty(value) ==> failures == [] && !consulted && !typeError
      ensures typeError <==> Truthy(value) && Subject(value).None?
      ensures consulted <==>
        Truthy(value) && Subject(value).Some? && !BasicPattern(Subject(value).value)
      ensures failures == [] || failures == [InvalidFormat]
      ensures failures == [InvalidFormat] <==> consulted && !strictValidator(value, country)
    {
      failures, consulted, typeError := [], false, false;
      if Empty(value) {
        return;
      }
      var subject := Subject(value);
      if subject.None? {
        typeError := true;
        return;
      }
      if !Empty(value) && !BasicPattern(subject.value) {
        consulted := true;
        if !strictValidator(value, country) {
          failures := failures + [InvalidFormat];
        }
      }
    }
  }

  /** A rule set up for a country and then run: the strict check sees the
      country that was set, and a value of 5 to 30 letters or digits passes
      whatever the country. */
  method ValidateForCountry(c: Value, value: Value, strictValidator: (Value, Value) -> bool)
    returns (failures: seq<string>)
    ensures failures == [] || failures == [InvalidFormat]
    ensures failures == [InvalidFormat] <==>
      Truthy(value) && Subject(value).Some? && !BasicPattern(Subject(value).value)
      && !strictValidator(value, c)
    ensures value.Str? && AlnumRun(value.s) ==> failures == []
  {
    var rule := new VatIdRule();
    var same := rule.SetCountry(c);
    var consulted, typeError;
    failures, consulted, typeError := same.Validate("vat_id", value, strictValidator);
  }
}
