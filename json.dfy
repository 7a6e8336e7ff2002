/**
 * The values `JSON.parse` can produce (numbers restricted to integers), together
 * with the three JavaScript operations the front end applies to them: truthiness,
 * property reads and conversion to a string with `String(x)`.
 */
module Json {

  datatype Json =
    | JNull
    | JBool(b: bool)
    | JInt(n: int)
    | JString(s: string)
    | JArray(items: seq<Json>)
    | JObject(fields: map<string, Json>)

  /** JavaScript truthiness: `null`, `false`, `0` and `""` are falsy; every array and object is truthy. */
  predicate Truthy(v: Json) {
    match v
    case JNull => false
    case JBool(b) => b
    case JInt(n) => n != 0
    case JString(s) => s != ""
    case _ => true
  }

  /**
   * The property read `v.key`. A key the object does not have, or any key of a
   * value that is not an object, reads as `undefined`, which is represented by
   * `JNull`: both are falsy and the front end never tells them apart.
   */
  function Member(v: Json, key: string): (r: Json)
    ensures v.JObject? && key in v.fields ==> r == v.fields[key]
    ensures !(v.JObject? && key in v.fields) ==> !Truthy(r)
  {
    if v.JObject? && key in v.fields then v.fields[key] else JNull
  }

  /** The number a string of decimal digits denotes, most significant digit first. */
  function DecimalValue(s: string): nat
    requires forall i :: 0 <= i < |s| ==> '0' <= s[i] <= '9'
  {
    if s == [] then 0 else DecimalValue(s[..|s| - 1]) * 10 + (s[|s| - 1] - '0') as int
  }

  /**
   * The decimal digits of a natural number, most significant first, as `String(n)`
   * writes an integer: they denote `n`, and there is no leading zero.
   */
  function Digits(n: nat): (r: string)
    ensures r != []
    ensures forall i :: 0 <= i < |r| ==> '0' <= r[i] <= '9'
    ensures DecimalValue(r) == n
    ensures r[0] == '0' <==> n == 0
  {
    var d := ['0' + (n % 10) as char];
    if n < 10 then d
    else
      var h := Digits(n / 10);
      assert (h + d)[..|h|] == h;
      h + d
  }

  /**
   * Whether `String(v)` returns. A parsed object with its own "toString" key has
   * no callable `toString`, and the `valueOf` it inherits returns the object
   * itself, so converting it to a string throws a TypeError; an array throws
   * when `join` reaches an element that does.
   */
  predicate Printable(v: Json) {
    match v
    case JArray(items) => forall i :: 0 <= i < |items| ==> Printable(items[i])
    case JObject(fields) => "toString" !in fields
    case _ => true
  }

  /**
   * `String(v)` for a value it does not throw on: strings are themselves,
   * integers are written in decimal, arrays are their elements' strings joined
   * with "," (a `null` element becomes the empty string) and an object without
   * its own "toString" is "[object Object]".
   */
  function ToJsString(v: Json): string
    requires Printable(v)
    decreases v, 1
  {
    match v
    case JNull => "null"
    case JBool(b) => if b then "true" else "false"
    case JInt(n) => if n < 0 then "-" + Digits(-n) else Digits(n)
    case JString(s) => s
    case JArray(items) => Join(items)
    case JObject(_) => "[object Object]"
  }

  /**
   * `String(n)` of an integer: a minus sign exactly for a negative number,
   * followed by decimal digits that denote its magnitude.
   */
  lemma IntegerText(n: int)
    ensures var r := ToJsString(JInt(n));
      && r != []
      && (r[0] == '-' <==> n < 0)
      && (n < 0 ==> |r| > 1 && (forall i :: 1 <= i < |r| ==> '0' <= r[i] <= '9') && DecimalValue(r[1..]) == -n)
      && (n >= 0 ==> (forall i :: 0 <= i < |r| ==> '0' <= r[i] <= '9') && DecimalValue(r) == n)
  {
    if n < 0 {
      var d := Digits(-n);
      assert ToJsString(JInt(n)) == "-" + d;
      assert ("-" + d)[1..] == d;
    }
  }

  /**
   * An array is truthy, yet `String` of an array whose only element is `null`
   * or the empty string is the empty string, as is `String([])`.
   */
  lemma BlankArrays(v: Json)
    requires v == JArray([]) || v == JArray([JNull]) || v == JArray([JString("")])
    ensures Truthy(v) && Printable(v) && ToJsString(v) == ""
  {
  }

  /** `Array.prototype.join(",")` over elements that are JSON values. */
  function Join(items: seq<Json>): string
    requires forall i :: 0 <= i < |items| ==> Printable(items[i])
    decreases items, 0
  {
    if items == [] then ""
    else
      var head := if items[0].JNull? then "" else ToJsString(items[0]);
      if |items| == 1 then head else head + "," + Join(items[1..])
  }
}
