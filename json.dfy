/**
 * JSON values as JavaScript sees them after `JSON.parse` or `r.json()`,
 * with the three JavaScript rules the core depends on: truthiness, reading a
 * named property, and conversion to a string (`String(v)`, which string
 * concatenation and `RegExp.prototype.test` apply to their operand).
 */
module Json {
  import opened Wrappers
  import opened Text

  /** A JSON value. Numbers are integers here; an object maps its keys to values. */
  datatype Value =
    | Null
    | Bool(b: bool)
    | Num(n: int)
    | Str(s: string)
    | Arr(items: seq<Value>)
    | Obj(fields: map<string, Value>)

  /** What JavaScript throws, as far as the core can run into it. */
  datatype Failure =
    | SyntaxError              // JSON.parse on text that is not JSON
    | TypeError                // a property read on null, or a method missing on a non-array
    | NetworkError(message: string)  // fetch or r.json() rejected; `message` is err.toString()

  /** JavaScript truthiness: null, false, 0 and "" are falsy; arrays and objects are truthy. */
  predicate Truthy(v: Value)
  {
    match v
    case Null => false
    case Bool(b) => b
    case Num(n) => n != 0
    case Str(s) => s != ""
    case Arr(_) => true
    case Obj(_) => true
  }

  /** The falsy JSON values are exactly null, false, 0 and the empty string. */
  lemma FalsyValues(v: Value)
    ensures !Truthy(v) <==> v == Null || v == Bool(false) || v == Num(0) || v == Str("")
  {
  }

  /** A property read `v.name` that yields a truthy value. */
  predicate TruthyField(f: Option<Value>)
  {
    f.Some? && Truthy(f.value)
  }

  /**
   * `v.name` for a value that is not null: an object's own key, and undefined
   * (None) for every other kind of value. The names the core reads (`id`,
   * `total`, `processed`, `status`) are not properties of strings, numbers,
   * booleans or arrays. Reading a property of null throws; callers check for
   * Null first.
   */
  function Field(v: Value, name: string): Option<Value>
  {
    match v
    case Obj(m) => if name in m then Some(m[name]) else None
    case _ => None
  }

  const Digits: set<char> := {'0', '1', '2', '3', '4', '5', '6', '7', '8', '9'}

  /** The decimal numeral of `n`, without leading zeros. */
  function NatToDecimal(n: nat): (r: string)
    ensures |r| > 0
    ensures DrawnFrom(r, Digits)
    decreases n
  {
    (if n < 10 then "" else NatToDecimal(n / 10)) + ["0123456789"[n % 10]]
  }

  function IntToDecimal(n: int): (r: string)
    ensures DrawnFrom(r, Digits + {'-'})
  {
    if n < 0 then "-" + NatToDecimal(-n) else NatToDecimal(n)
  }

  /**
   * `String(v)`. An array converts to its elements joined by ",", with null
   * elements as empty strings; every object converts to "[object Object]".
   */
  function ToJsString(v: Value): (r: string)
    ensures v.Str? ==> r == v.s
    ensures v.Num? ==> r == IntToDecimal(v.n) && DrawnFrom(r, Digits + {'-'})
    ensures v.Obj? ==> r == "[object Object]"
    decreases v
  {
    match v
    case Null => "null"
    case Bool(b) => if b then "true" else "false"
    case Num(n) => IntToDecimal(n)
    case Str(s) => s
    case Arr(items) =>
      Join(seq(|items|, i requires 0 <= i < |items| =>
                 if items[i].Null? then "" else ToJsString(items[i])), ",")
    case Obj(_) => "[object Object]"
  }
}
