/**
 * Values shared by the server and the browser client: optional values, results,
 * JSON documents as JavaScript holds them after `JSON.parse`, JavaScript
 * truthiness and the string conversion `new Error(x)` applies to its argument.
 */
module Json {

  datatype Option<+T> = None | Some(value: T)

  /** A result that can be used with `:-`. */
  datatype Result<+T, +E> = Ok(value: T) | Err(error: E) {
    predicate IsFailure() { Err? }

    function PropagateFailure<U>(): Result<U, E>
      requires Err?
    {
      Err(error)
    }

    function Extract(): T
      requires Ok?
    {
      value
    }
  }

  /** A parsed JSON value. Numbers are integers in this model. */
  datatype Json =
    | JNull
    | JBool(b: bool)
    | JNum(n: int)
    | JStr(s: string)
    | JArr(items: seq<Json>)
    | JObj(fields: map<string, Json>)

  /** A JavaScript TypeError raised while reading a payload: a property read on
      `null` or `undefined`, or `.map` called on something that is not an array. */
  datatype Fault = TypeError

  /** JavaScript truthiness of a property value; `None` is `undefined`. Every
      object and every array is truthy, even an empty one. */
  predicate Truthy(v: Option<Json>) {
    match v
    case None => false
    case Some(JNull) => false
    case Some(JBool(b)) => b
    case Some(JNum(n)) => n != 0
    case Some(JStr(s)) => s != ""
    case Some(JArr(_)) => true
    case Some(JObj(_)) => true
  }

  /** The JavaScript expression `a || b`. */
  function Or(a: Option<Json>, b: Option<Json>): Option<Json> {
    if Truthy(a) then a else b
  }

  /** The named properties a property read `v.key` can see: reading from
      `undefined` or `null` throws; strings, numbers, booleans and arrays have
      none of the named fields the client reads. */
  function Props(v: Option<Json>): (r: Result<map<string, Json>, Fault>)
    ensures r.Err? <==> v == None || v == Some(JNull)
    ensures v.Some? && v.value.JObj? ==> r == Ok(v.value.fields)
  {
    match v
    case None => Err(TypeError)
    case Some(JNull) => Err(TypeError)
    case Some(JObj(m)) => Ok(m)
    case Some(_) => Ok(map[])
  }

  /** `obj.key` on an object's named properties. */
  function Get(m: map<string, Json>, key: string): Option<Json> {
    if key in m then Some(m[key]) else None
  }

  /** A string shown as a property value. */
  function Str(s: string): Option<Json> {
    Some(JStr(s))
  }

  /** The decimal digits of a natural number, most significant first. */
  function Digits(n: nat): (r: string)
    ensures |r| >= 1
    ensures forall i :: 0 <= i < |r| ==> '0' <= r[i] <= '9'
    decreases n
  {
    if n < 10 then [DigitChar(n)] else Digits(n / 10) + [DigitChar(n % 10)]
  }

  function DigitChar(d: nat): (c: char)
    requires d < 10
    ensures '0' <= c <= '9' && c as int - '0' as int == d
  {
    (d + '0' as int) as char
  }

  /** How JavaScript writes an integer as text. */
  function Decimal(n: int): string {
    if n < 0 then "-" + Digits(-n) else Digits(n)
  }

  /** JavaScript's ToString of a JSON value, as `new Error(x)` stores it in
      `message`: arrays are joined with commas (null elements as empty text),
      every object reads "[object Object]". */
  function ToText(v: Json): string
    decreases v, 1
  {
    match v
    case JNull => "null"
    case JBool(b) => if b then "true" else "false"
    case JNum(n) => Decimal(n)
    case JStr(s) => s
    case JArr(items) => JoinItems(v, items)
    case JObj(_) => "[object Object]"
  }

  function JoinItems(ghost whole: Json, items: seq<Json>): string
    requires forall x :: x in items ==> x < whole
    decreases whole, 0, |items|
  {
    if items == [] then ""
    else
      assert items[0] in items;
      assert forall x :: x in items[1..] ==> x in items;
      var head := if items[0] == JNull then "" else ToText(items[0]);
      if |items| == 1 then head else head + "," + JoinItems(whole, items[1..])
  }
}
