/**
 * Tool arguments as the handlers receive them: a `Map<String, Object>`
 * decoded by Jackson from the request's JSON, read through `Map.get`,
 * `Map.getOrDefault`, checked casts and `toString()`.
 */
module Arguments {
  import opened Wrappers
  import opened JavaLang

  /**
   * One decoded JSON argument. Jackson turns an integral number into an
   * Integer, a Long or a BigInteger depending on its magnitude, an object
   * into a LinkedHashMap and an array into an ArrayList; for the latter two
   * only their `toString()` rendering matters here.
   */
  datatype Value =
    | Str(s: string)
    | Num(n: int)
    | Bool(b: bool)
    | Null
    | Object(rendering: string)
    | Array(rendering: string)

  type Args = map<string, Value>

  /** The runtime class of the Java object Jackson builds for a value. */
  function ClassName(v: Value): string
    requires !v.Null?
  {
    match v
    case Str(_) => "java.lang.String"
    case Num(n) =>
      if MinInt <= n <= MaxInt then "java.lang.Integer"
      else if MinLong <= n <= MaxLong then "java.lang.Long"
      else "java.math.BigInteger"
    case Bool(_) => "java.lang.Boolean"
    case Object(_) => "java.util.LinkedHashMap"
    case Array(_) => "java.util.ArrayList"
  }

  /** `value.toString()` for a present value. */
  function ToJavaString(v: Value): (s: string)
    requires !v.Null?
    ensures v.Str? ==> s == v.s
    ensures v.Num? ==> s == IntToDecimal(v.n)
    ensures v.Bool? ==> s == (if v.b then "true" else "false")
  {
    match v
    case Str(s) => s
    case Num(n) => IntToDecimal(n)
    case Bool(b) => if b then "true" else "false"
    case Object(r) => r
    case Array(r) => r
  }

  /** `arguments.get(key)`: an absent key and a JSON null both read as null. */
  function Get(args: Args, key: string): (r: Option<Value>)
    ensures r.None? <==> key !in args || args[key].Null?
    ensures r.Some? ==> r.value == args[key] && !r.value.Null?
  {
    if key in args && !args[key].Null? then Some(args[key]) else None
  }

  /** `(String) arguments.get(key)`. */
  function CastString(args: Args, key: string): (r: Result<Option<string>, Failure>)
    ensures r.Ok? && r.value.None? <==> Get(args, key).None?
    ensures r.Ok? && r.value.Some? <==> key in args && args[key].Str?
    ensures r.Ok? && r.value.Some? ==> r.value.value == args[key].s
    ensures r.Err? <==> Get(args, key).Some? && !args[key].Str?
    ensures r.Err? ==> r.error == ClassCast(ClassName(args[key]), "java.lang.String")
  {
    match Get(args, key)
    case None => Ok(None)
    case Some(v) => if v.Str? then Ok(Some(v.s)) else Err(ClassCast(ClassName(v), "java.lang.String"))
  }

  /**
   * `(String) arguments.getOrDefault(key, default)`: only an ABSENT key gives
   * the default; a key bound to JSON null gives null.
   */
  function CastStringOrDefault(args: Args, key: string, default: string): (r: Result<Option<string>, Failure>)
    ensures key !in args ==> r == Ok(Some(default))
    ensures key in args && args[key].Null? ==> r == Ok(None)
    ensures key in args && args[key].Str? ==> r == Ok(Some(args[key].s))
    ensures r.Err? <==> key in args && !args[key].Null? && !args[key].Str?
  {
    if key !in args then Ok(Some(default)) else CastString(args, key)
  }

  /** `(Boolean) arguments.getOrDefault(key, default)`, with the same null rule. */
  function CastBooleanOrDefault(args: Args, key: string, default: bool): (r: Result<Option<bool>, Failure>)
    ensures key !in args ==> r == Ok(Some(default))
    ensures key in args && args[key].Null? ==> r == Ok(None)
    ensures key in args && args[key].Bool? ==> r == Ok(Some(args[key].b))
    ensures r.Err? <==> key in args && !args[key].Null? && !args[key].Bool?
  {
    if key !in args then Ok(Some(default))
    else
      var v := args[key];
      if v.Null? then Ok(None)
      else if v.Bool? then Ok(Some(v.b))
      else Err(ClassCast(ClassName(v), "java.lang.Boolean"))
  }
}
