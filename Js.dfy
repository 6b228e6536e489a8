/** JSON values as the connectors, the apps and the tests exchange them, and the
    parts of JavaScript's value semantics the modelled code depends on:
    truthiness, `undefined` versus `null`, and the string coercion applied when
    a value is concatenated into a URL or a header. */
module Js {
  import opened Text

  /** `None` stands for JavaScript's `undefined` (a missing property, an absent
      query parameter), distinct from the JSON value `null`. */
  datatype Option<+T> = None | Some(value: T)

  datatype Result<+T, +E> = Ok(value: T) | Err(error: E)

  /** A JSON document. Numbers are modelled as integers. */
  datatype Json =
    | JNull
    | JBool(b: bool)
    | JNum(n: int)
    | JStr(s: string)
    | JArr(items: seq<Json>)
    | JObj(fields: map<string, Json>)

  /** A plain JavaScript object with JSON values. */
  type Object = map<string, Json>

  /** Reading property k of an object, or parameter k of a parsed query:
      `o[k]`, undefined when absent. */
  function Get<V>(o: map<string, V>, k: string): (r: Option<V>)
    ensures r.Some? <==> k in o
    ensures r.Some? ==> r.value == o[k]
  {
    if k in o then Some(o[k]) else None
  }

  /** JavaScript truthiness of a JSON value: `null`, `false`, `0` and `""` are
      falsy; every array and every object, even an empty one, is truthy. */
  predicate TruthyJson(j: Json) {
    match j
    case JNull => false
    case JBool(b) => b
    case JNum(n) => n != 0
    case JStr(s) => s != ""
    case JArr(_) => true
    case JObj(_) => true
  }

  /** Truthiness of a value that may be `undefined`. */
  predicate Truthy(v: Option<Json>) {
    v.Some? && TruthyJson(v.value)
  }

  /** Truthiness of a string that may be `undefined` or `null` (an environment
      variable, a query parameter, a global set from a configuration). */
  predicate TruthyString(v: Option<string>) {
    v.Some? && v.value != ""
  }

  /** `String(v)`: what `"..." + v` inserts for a JSON value. */
  function ToJsString(j: Json): string {
    match j
    case JNull => "null"
    case JBool(b) => if b then "true" else "false"
    case JNum(n) => IntToString(n)
    case JStr(s) => s
    case JArr(items) => ArrayToJsString(items)
    case JObj(_) => "[object Object]"
  }

  /** `Array.prototype.toString`: the elements joined with commas, `null`
      elements written as the empty string. */
  function ArrayToJsString(items: seq<Json>): string
    decreases items
  {
    if items == [] then ""
    else
      var first := if items[0] == JNull then "" else ToJsString(items[0]);
      if |items| == 1 then first else first + "," + ArrayToJsString(items[1..])
  }

  /** `String(v)` for a string that may be `null`, such as a global that was
      never assigned: `"x:" + null` is `"x:null"`. */
  function NullableToJsString(v: Option<string>): (r: string)
    ensures v.Some? ==> r == v.value
    ensures v.None? ==> r == "null"
  {
    if v.Some? then v.value else "null"
  }

  /** `parseInt(s)` in base ten: leading white space, an optional sign and the
      digits that follow; `None` is `NaN` (no digit there). */
  function ParseInt(s: string): (r: Option<int>)
  {
    var t := TrimStart(s);
    var negative := t != [] && t[0] == '-';
    var body := if t != [] && (t[0] == '-' || t[0] == '+') then t[1..] else t;
    var digits := DigitPrefix(body);
    var v: int := DigitsValue(digits);
    if digits == [] then None else Some(if negative then -v else v)
  }

  /** A printed integer starts with a sign or a digit, never with space. */
  lemma TrimStartOfNumber(n: int)
    ensures TrimStart(IntToString(n)) == IntToString(n)
  {
    var d := NatToString(if n < 0 then -n else n);
    assert IsDigit(d[0]);
    assert !IsSpace(IntToString(n)[0]);
  }

  /** `parseInt` reads back every integer JavaScript prints. */
  lemma ParseIntOfIntToString(n: int)
    ensures ParseInt(IntToString(n)) == Some(n)
  {
    var d := NatToString(if n < 0 then -n else n);
    TrimStartOfNumber(n);
    DigitPrefixOfDigits(d);
    if n < 0 {
      assert IntToString(n)[1..] == d;
    } else {
      assert IsDigit(d[0]);
    }
  }
}
