/** The slice of JavaScript value semantics the socket relies on: which
    payloads count as falsy in `if (data)`, what `data[i]` does, and an
    external JSON codec (`JSON.stringify` / `JSON.parse`) whose text is bytes. */
module JsValue {
  import opened Common

  /** A JavaScript value as far as JSON can carry it. Numbers are integers
      here: NaN, -0 and fractions are not modelled. */
  datatype Value =
    | Undefined
    | Null
    | Bool(b: bool)
    | Num(n: int)
    | Str(s: string)
    | Arr(items: seq<Value>)
    | Obj(props: map<string, Value>)

  /** Exceptions that the socket's code paths can throw. */
  datatype Fault =
    | RangeError   // a buffer read past the end
    | SyntaxError  // JSON.parse on text that is not JSON
    | TypeError    // a property read on null or undefined

  /** JavaScript truthiness, as tested by `if (data)`. */
  predicate Truthy(v: Value) {
    match v
    case Undefined => false
    case Null => false
    case Bool(b) => b
    case Num(n) => n != 0
    case Str(s) => s != ""
    case Arr(_) => true
    case Obj(_) => true
  }

  /** `null` and `undefined`: the values that property access throws on. */
  predicate Nullish(v: Value) {
    v.Undefined? || v.Null?
  }

  function Digit(d: nat): (c: char)
    requires d < 10
    ensures '0' <= c <= '9'
    ensures DigitValue(c) == d
  {
    ('0' as int + d) as char
  }

  /** The value of one decimal digit character. */
  function DigitValue(c: char): int {
    c as int - '0' as int
  }

  /** The number a string of decimal digits spells. */
  function DecimalValue(s: string): int
    decreases |s|
  {
    if s == [] then 0 else DecimalValue(s[..|s| - 1]) * 10 + DigitValue(s[|s| - 1])
  }

  /** The property key JavaScript uses for a numeric index: its decimal text,
      which spells `n` and has no leading zero. */
  function DecimalKey(n: nat): (s: string)
    ensures |s| >= 1
    ensures forall i :: 0 <= i < |s| ==> '0' <= s[i] <= '9'
    ensures DecimalValue(s) == n
    ensures |s| > 1 ==> s[0] != '0'
  {
    if n < 10 then [Digit(n)]
    else
      var prefix := DecimalKey(n / 10);
      var s := prefix + [Digit(n % 10)];
      assert s[..|s| - 1] == prefix;
      s
  }

  /** `v[i]`: throws on null and undefined, reads an element of an array or a
      one-character string, a property of an object, and yields `undefined`
      everywhere else. */
  function Index(v: Value, i: nat): (r: Result<Value, Fault>)
    ensures r.Err? <==> Nullish(v)
    ensures r.Err? ==> r.error == TypeError
    ensures v.Arr? && i < |v.items| ==> r == Ok(v.items[i])
  {
    match v
    case Undefined => Err(TypeError)
    case Null => Err(TypeError)
    case Arr(items) => Ok(if i < |items| then items[i] else Undefined)
    case Str(s) => Ok(if i < |s| then Str([s[i]]) else Undefined)
    case Obj(props) =>
      var key := DecimalKey(i);
      Ok(if key in props then props[key] else Undefined)
    case Bool(_) => Ok(Undefined)
    case Num(_) => Ok(Undefined)
  }

  /** On a plain object, `data[0]` and `data[1]` read the properties named
      "0" and "1". */
  lemma IndexReadsDecimalKeys(props: map<string, Value>)
    ensures Index(Obj(props), 0) == Ok(if "0" in props then props["0"] else Undefined)
    ensures Index(Obj(props), 1) == Ok(if "1" in props then props["1"] else Undefined)
  {
  }

  /** The external JSON codec. `parse` yields None where JSON.parse throws. */
  datatype Json = Json(stringify: Value -> seq<Byte>, parse: seq<Byte> -> Option<Value>)

  /** `v` survives a trip through the codec, and its text is not empty (JSON
      text never is). */
  predicate RoundTrips(json: Json, v: Value) {
    json.stringify(v) != [] && json.parse(json.stringify(v)) == Some(v)
  }

  /** Like JSON.parse, the codec rejects empty text. */
  predicate RejectsEmpty(json: Json) {
    json.parse([]) == None
  }
}
