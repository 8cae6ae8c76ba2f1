/** The slice of PHP's value model that the modelled code relies on:
    `null`, booleans, integers, strings, list arrays and objects, with the
    truthiness test of `if ($x)` / `empty($x)`, strict comparison `===`,
    `in_array(..., true)` and the `(string)` conversion. PHP floats are not
    part of this model. */
module Php {

  datatype Option<+T> = None | Some(value: T)

  datatype Value =
    | Null
    | Bool(b: bool)
    | Int(i: int)
    | Str(s: string)
    | Arr(items: seq<Value>)
    | Obj(id: nat)          // an object handle, e.g. a model instance; every
                            // object is taken to have a `__toString`

  /** PHP's boolean conversion: `null`, `false`, `0`, `""`, `"0"` and `[]`
      are false, everything else (every object included) is true. */
  predicate Truthy(v: Value) {
    match v
    case Null => false
    case Bool(b) => b
    case Int(i) => i != 0
    case Str(s) => s != "" && s != "0"
    case Arr(items) => |items| > 0
    case Obj(_) => true
  }

  /** `empty($v)` on a variable that is set. */
  predicate Empty(v: Value) {
    !Truthy(v)
  }

  /** Strict comparison `===`: same type and same value. */
  predicate StrictEq(a: Value, b: Value) {
    a == b
  }

  /** `in_array($needle, $haystack, true)`. */
  predicate InArrayStrict(needle: Value, haystack: seq<Value>) {
    exists k | 0 <= k < |haystack| :: StrictEq(needle, haystack[k])
  }

  lemma FalsyValues()
    ensures !Truthy(Null) && !Truthy(Bool(false)) && !Truthy(Int(0))
    ensures !Truthy(Str("")) && !Truthy(Str("0")) && !Truthy(Arr([]))
    ensures Truthy(Str("00")) && Truthy(Str(" ")) && Truthy(Int(-1)) && Truthy(Obj(0))
  {
  }

  /** No array is strictly equal to a string, so `in_array($array, [$string], true)`
      never holds, whatever the contents. */
  lemma ArrayNeverInStringList(items: seq<Value>, s: string)
    ensures !InArrayStrict(Arr(items), [Str(s)])
  {
  }

  function DigitChar(d: nat): (c: char)
    requires d < 10
    ensures '0' <= c <= '9'
  {
    "0123456789"[d]
  }

  /** Decimal rendering of a natural number, most significant digit first. */
  function NatToString(n: nat): (s: string)
    ensures |s| >= 1
    ensures forall k | 0 <= k < |s| :: '0' <= s[k] <= '9'
    ensures n < 10 <==> |s| == 1
    decreases n
  {
    if n < 10 then [DigitChar(n)] else NatToString(n / 10) + [DigitChar(n % 10)]
  }

  /** Decimal value of a string of digits; the inverse of NatToString. */
  function DigitsValue(s: string): nat
    requires forall k | 0 <= k < |s| :: '0' <= s[k] <= '9'
  {
    if s == [] then 0 else 10 * DigitsValue(s[..|s| - 1]) + (s[|s| - 1] - '0') as nat
  }

  lemma {:induction false} NatToStringRoundTrip(n: nat)
    ensures DigitsValue(NatToString(n)) == n
    decreases n
  {
    if n >= 10 {
      var s := NatToString(n);
      assert s[..|s| - 1] == NatToString(n / 10);
      NatToStringRoundTrip(n / 10);
    }
  }

  /** `(string)$i` for an integer. */
  function IntToString(i: int): (s: string)
    ensures |s| >= 1
    ensures i >= 0 ==> s == NatToString(i)
    ensures i < 0 ==> s == "-" + NatToString(-i)
  {
    if i >= 0 then NatToString(i) else "-" + NatToString(-i)
  }

  /** `(string)$v`, as used by string concatenation: `null` and `false`
      become `""`, `true` becomes `"1"`, an array becomes `"Array"` (PHP also
      raises a warning there) and an object stands for one whose `__toString`
      gives an opaque name. */
  function StrVal(v: Value): (s: string)
    ensures v.Str? ==> s == v.s
    ensures v.Int? ==> s == IntToString(v.i)
    ensures v == Null || v == Bool(false) ==> s == ""
  {
    match v
    case Null => ""
    case Bool(b) => if b then "1" else ""
    case Int(i) => IntToString(i)
    case Str(s) => s
    case Arr(_) => "Array"
    case Obj(id) => "Object#" + NatToString(id)
  }
}
