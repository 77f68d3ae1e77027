/** The JavaScript values the client library inspects and passes around,
    with the type tests of the library's `Utils` object and the language's
    own `ToString` conversion, which `encodeURIComponent` applies to its
    argument. */
module JsValue {
  import opened Wrappers

  /** `Number.MAX_SAFE_INTEGER`, 2^53 - 1: every integer up to it in
      magnitude is a JavaScript number, held exactly. */
  const MaxSafeInteger: int := 0x1F_FFFF_FFFF_FFFF

  /** An integral JavaScript number within the safe range. Its magnitude
      stays far below 10^21, where `ToString` switches to exponent
      notation, so its string form is its plain decimal digits. */
  type SafeInteger = n: int | -MaxSafeInteger <= n <= MaxSafeInteger

  /** A JavaScript value. Numbers are safe integers or NaN; an object is a
      plain object whose own enumerable properties are listed in `for-in`
      order; a function is known by its source text, which is what
      `String(f)` yields. */
  datatype Value =
    | Undefined
    | Null
    | Bool(b: bool)
    | Num(n: SafeInteger)
    | NaN
    | Str(s: string)
    | Arr(elems: seq<Value>)
    | Obj(props: seq<Property>)
    | Func(source: string)

  datatype Property = Property(name: string, value: Value)

  /** The empty object literal `{}`. */
  const EmptyObject: Value := Obj([])

  /** The object literal `{name: value}`. */
  function Singleton(name: string, value: Value): (o: Value)
    ensures o.Obj? && |o.props| == 1 && Get(o.props, name) == Some(value)
  {
    Obj([Property(name, value)])
  }

  /** `Utils.isObj`: `Object.prototype.toString` reports `[object Object]`. */
  predicate IsObj(v: Value) {
    v.Obj?
  }

  /** `Utils.isFunc`: `typeof v === 'function'`. */
  predicate IsFunc(v: Value) {
    v.Func?
  }

  /** `Utils.isArray`: `Object.prototype.toString` reports `[object Array]`. */
  predicate IsArray(v: Value) {
    v.Arr?
  }

  /** `Utils.isString`: `typeof v === 'string'`. */
  predicate IsString(v: Value) {
    v.Str?
  }

  /** `Object.prototype.toString` reports `[object Number]` (NaN included). */
  predicate IsNumber(v: Value) {
    v.Num? || v.NaN?
  }

  /** The value of own property `name` (the first one listed), if any. */
  function Get(props: seq<Property>, name: string): (r: Option<Value>)
    ensures r.Some? <==> exists i :: 0 <= i < |props| && props[i].name == name
    ensures r.Some? ==> exists i :: 0 <= i < |props| && props[i] == Property(name, r.value)
  {
    if |props| == 0 then None
    else if props[0].name == name then Some(props[0].value)
    else
      var r := Get(props[1..], name);
      assert r.Some? ==> exists i :: 0 <= i < |props| && props[i] == Property(name, r.value) by {
        if r.Some? {
          var i :| 0 <= i < |props[1..]| && props[1..][i] == Property(name, r.value);
          assert props[i + 1] == Property(name, r.value);
        }
      }
      assert (exists i :: 0 <= i < |props| && props[i].name == name) ==> r.Some? by {
        if exists i :: 0 <= i < |props| && props[i].name == name {
          var i :| 0 <= i < |props| && props[i].name == name;
          assert props[1..][i - 1].name == name;
        }
      }
      r
  }

  /** Decimal digit character of `d`. */
  function DigitChar(d: nat): char
    requires d < 10
  {
    "0123456789"[d]
  }

  /** Decimal text of a natural number, without leading zeros. */
  function NatToString(n: nat): string
    decreases n
  {
    if n < 10 then [DigitChar(n)] else NatToString(n / 10) + [DigitChar(n % 10)]
  }

  /** ECMAScript `ToString` of a safe integer (section 9.8.1 of ECMA-262
      5.1): a sign for a negative number, then the decimal digits. */
  function IntToString(n: int): string {
    if n < 0 then "-" + NatToString(-n) else NatToString(n)
  }

  /** `elems.join(",")`, where `undefined` and `null` elements print empty. */
  function JoinElements(elems: seq<Value>, strs: seq<string>): string
    requires |strs| == |elems|
  {
    if |elems| == 0 then ""
    else
      var first := if elems[0].Undefined? || elems[0].Null? then "" else strs[0];
      if |elems| == 1 then first else first + "," + JoinElements(elems[1..], strs[1..])
  }

  /** ECMAScript `ToString`, as applied by `encodeURIComponent` and by
      string concatenation. */
  function ToStr(v: Value): string
    decreases v
  {
    match v
    case Undefined => "undefined"
    case Null => "null"
    case Bool(b) => if b then "true" else "false"
    case Num(n) => IntToString(n)
    case NaN => "NaN"
    case Str(s) => s
    case Arr(elems) =>
      JoinElements(elems, seq(|elems|, i requires 0 <= i < |elems| => ToStr(elems[i])))
    case Obj(_) => "[object Object]"
    case Func(source) => source
  }
}
