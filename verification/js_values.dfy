/**
 * JavaScript values as they occur in the app's JSON payloads and in the
 * property reads its code performs, with the conversions it relies on:
 * truthiness, `String(v)`, `Array.prototype.join`, `Number(v)` and property access.
 *
 * Numbers are integers: the app's JSON never carries a fractional number, and
 * `Number(...)` of a string that is not an integer is `NotIntegral`.
 */
module JsValues {
  import opened Wrappers
  import opened JsStrings

  datatype JsValue =
    | Undefined
    | Null
    | Bool(b: bool)
    | Num(n: int)
    | Str(s: string)
    | Arr(items: seq<JsValue>)
    | Obj(fields: map<string, JsValue>)

  /** `null` or `undefined`: reading a property of such a value throws a TypeError. */
  predicate IsNullish(v: JsValue) {
    v.Undefined? || v.Null?
  }

  /** The values `if (v)` accepts. */
  predicate Truthy(v: JsValue) {
    match v
    case Undefined => false
    case Null => false
    case Bool(b) => b
    case Num(n) => n != 0
    case Str(s) => s != ""
    case Arr(_) => true
    case Obj(_) => true
  }

  /** V8's TypeError when a value has no primitive form. */
  const ConversionError: string := "Cannot convert object to primitive value"

  /**
   * Whether `String(v)`, `Number(v)`, `+` and `join` can turn `v` into a
   * primitive. An object that `JSON.parse` gave its own `toString` key holds a
   * value there that is not a function, and the `valueOf` it inherits returns
   * the object itself, so every conversion of it throws `ConversionError`.
   * An array converts through `join`, so it converts when its elements do.
   */
  predicate Convertible(v: JsValue) {
    match v
    case Obj(fields) => "toString" !in fields
    case Arr(items) => forall i :: 0 <= i < |items| ==> Convertible(items[i])
    case _ => true
  }

  /**
   * `String(v)`, which is also what `+` and template literals insert, for a
   * `Convertible` value; callers check `Convertible` first.
   */
  function Display(v: JsValue): string
    decreases v, 0
  {
    match v
    case Undefined => "undefined"
    case Null => "null"
    case Bool(b) => if b then "true" else "false"
    case Num(n) => IntToString(n)
    case Str(s) => s
    case Arr(items) => Join(seq(|items|, i requires 0 <= i < |items| => ElementText(items[i])), ",")
    case Obj(_) => "[object Object]"
  }

  /** How `join` writes one element: `null` and `undefined` become empty. */
  function ElementText(v: JsValue): string
    decreases v, 1
  {
    if IsNullish(v) then "" else Display(v)
  }

  /** `items.join(sep)`. */
  function JoinValues(items: seq<JsValue>, sep: string): string
  {
    Join(seq(|items|, i requires 0 <= i < |items| => ElementText(items[i])), sep)
  }

  /** The strings of an array of strings, in order. */
  function Texts(items: seq<JsValue>): (r: seq<string>)
    requires forall i :: 0 <= i < |items| ==> items[i].Str?
    ensures |r| == |items| && forall i :: 0 <= i < |r| ==> Str(r[i]) == items[i]
  {
    seq(|items|, i requires 0 <= i < |items| => items[i].s)
  }

  /** Joining an array of strings joins their texts. */
  lemma JoinValuesOfStrings(items: seq<JsValue>, sep: string)
    requires forall i :: 0 <= i < |items| ==> items[i].Str?
    ensures JoinValues(items, sep) == Join(Texts(items), sep)
  {
    var texts := seq(|items|, i requires 0 <= i < |items| => ElementText(items[i]));
    forall i | 0 <= i < |items| ensures texts[i] == Texts(items)[i] {
      assert items[i] == Str(Texts(items)[i]);
      assert texts[i] == ElementText(items[i]) == Display(items[i]);
    }
    assert texts == Texts(items);
  }

  /** V8's message for reading property `key` of `null` or `undefined`. */
  function ReadError(v: JsValue, key: string): string
    requires IsNullish(v)
  {
    "Cannot read properties of " + Display(v) + " (reading '" + key + "')"
  }

  /**
   * `v[key]` for a value that is not nullish. Only own properties of objects
   * are found; none of the keys the app reads is a built-in property of
   * strings, numbers, booleans or arrays.
   */
  function Prop(v: JsValue, key: string): (r: JsValue)
    requires !IsNullish(v)
    ensures r != Undefined ==> v.Obj? && key in v.fields && r == v.fields[key]
  {
    if v.Obj? && key in v.fields then v.fields[key] else Undefined
  }

  /** `v.key`: throws the TypeError message when `v` is nullish. */
  function Get(v: JsValue, key: string): (r: Result<JsValue, string>)
    ensures r.Err? <==> IsNullish(v)
    ensures r.Ok? ==> r.value == Prop(v, key)
  {
    if IsNullish(v) then Err(ReadError(v, key)) else Ok(Prop(v, key))
  }

  /** `v[0]` for a value that is not nullish. */
  function First(v: JsValue): (r: JsValue)
    requires !IsNullish(v)
  {
    match v
    case Arr(items) => if items == [] then Undefined else items[0]
    case Str(s) => if s == "" then Undefined else Str([s[0]])
    case Obj(fields) => if "0" in fields then fields["0"] else Undefined
    case _ => Undefined
  }

  /** The result of `Number(v)`: an integer, or a value that is not one (NaN, infinities, fractions). */
  datatype NumberValue = Integral(i: int) | NotIntegral

  function Negate(x: NumberValue): NumberValue {
    match x
    case Integral(i) => Integral(-i)
    case NotIntegral => NotIntegral
  }

  /** Index of the first '.' in `u`, or `|u|` when there is none. */
  function DotIndex(u: string): (k: nat)
    ensures k <= |u|
    ensures forall i :: 0 <= i < k ==> u[i] != '.'
    ensures k < |u| ==> u[k] == '.'
  {
    if u == [] then 0
    else if u[0] == '.' then 0
    else 1 + DotIndex(u[1..])
  }

  /** An unsigned decimal literal `digits[.digits]`; integral when every fraction digit is 0. */
  function UnsignedDecimal(u: string): NumberValue
  {
    var k := DotIndex(u);
    var whole := u[..k];
    var fraction := if k < |u| then u[k + 1..] else "";
    if AllDigits(whole) && AllDigits(fraction) && |whole| + |fraction| > 0 then
      if forall i :: 0 <= i < |fraction| ==> fraction[i] == '0' then
        Integral(DigitsValue(whole))
      else NotIntegral
    else NotIntegral
  }

  /** `Number(s)` for decimal spellings: surrounding white space ignored, empty reads as 0. */
  function StringToNumber(s: string): NumberValue
  {
    var t := Trim(s);
    if t == "" then Integral(0)
    else if t[0] == '-' then Negate(UnsignedDecimal(t[1..]))
    else if t[0] == '+' then UnsignedDecimal(t[1..])
    else UnsignedDecimal(t)
  }

  /** `Number(v)` for a `Convertible` value; on any other it throws `ConversionError`. */
  function ToNumber(v: JsValue): NumberValue
    requires Convertible(v)
  {
    match v
    case Undefined => NotIntegral
    case Null => Integral(0)
    case Bool(b) => Integral(if b then 1 else 0)
    case Num(n) => Integral(n)
    case Str(s) => StringToNumber(s)
    case Arr(_) => StringToNumber(Display(v))
    case Obj(_) => NotIntegral
  }

  /** A natural number's spelling reads back as that number. */
  lemma UnsignedDecimalOfNat(n: nat)
    ensures UnsignedDecimal(NatToString(n)) == Integral(n)
  {
    var u := NatToString(n);
    assert forall i :: 0 <= i < |u| ==> u[i] != '.' by {
      forall i | 0 <= i < |u| ensures u[i] != '.' { assert IsDigit(u[i]); }
    }
    assert DotIndex(u) == |u|;
    assert u[..|u|] == u;
    DigitsValueOfNatToString(n);
  }

  /** `Number(String(n))` is `n` for every integer: the decimal spelling round-trips. */
  lemma {:induction false} NumberOfDisplayedInteger(n: int)
    ensures StringToNumber(Display(Num(n))) == Integral(n)
  {
    var s := Display(Num(n));
    var digits := NatToString(if n < 0 then -n else n);
    assert IsDigit(digits[0]) && IsDigit(digits[|digits| - 1]);
    if n < 0 {
      assert s == "-" + digits;
      TrimOfTrimmed(s);
      assert s[1..] == digits;
    } else {
      TrimOfTrimmed(s);
    }
    UnsignedDecimalOfNat(if n < 0 then -n else n);
  }
}
