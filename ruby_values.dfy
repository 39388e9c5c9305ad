/**
 * Parsed JSON documents as Ruby's JSON.parse hands them to the plugin, and
 * the few Ruby operations the plugin applies to them: truthiness, `v[key]`
 * and string interpolation.
 */
module RubyValues {
  import opened Wrappers

  /**
   * A JSON value. A number carries the text Ruby's `to_s` gives it, so that
   * integers and floats need not be told apart.
   */
  datatype Value =
    | Null
    | Bool(b: bool)
    | Num(text: string)
    | Str(s: string)
    | Arr(items: seq<Value>)
    | Obj(fields: map<string, Value>)

  /** The exceptions the plugin's code paths can raise. */
  datatype RubyError =
    | NotIndexable    // NoMethodError or TypeError from `v["..."]` on nil, a boolean, a number or an array
    | ParserError     // JSON::ParserError from JSON.parse
    | ReadError       // an exception from File.read

  /** Ruby's truthiness: only nil and false are falsy. */
  predicate Truthy(v: Value) {
    !v.Null? && v != Bool(false)
  }

  /** `needle` occurs in `hay` as a contiguous piece. */
  predicate Occurs(needle: string, hay: string) {
    needle <= hay || (hay != [] && Occurs(needle, hay[1..]))
  }

  /**
   * `v[key]` with a String key: a Hash answers its entry or nil, a String
   * answers the key itself when it occurs in it (String#[] with a String
   * argument) or nil; every other value raises.
   */
  function Index(v: Value, key: string): (r: Result<Value, RubyError>)
    ensures r.Err? <==> !(v.Obj? || v.Str?)
    ensures v.Obj? ==> r == Ok(if key in v.fields then v.fields[key] else Null)
    ensures v.Str? ==> (r == Ok(Str(key)) <==> Occurs(key, v.s)) && (r == Ok(Null) <==> !Occurs(key, v.s))
  {
    match v
    case Obj(fields) => Ok(if key in fields then fields[key] else Null)
    case Str(s) => Ok(if Occurs(key, s) then Str(key) else Null)
    case _ => Err(NotIndexable)
  }

  /**
   * The text `"#{v}"` gives for a scalar. Arrays and objects would be
   * rendered with Ruby's `inspect`; this model renders them as "".
   */
  function KeyText(v: Value): string {
    match v
    case Null => ""
    case Bool(b) => if b then "true" else "false"
    case Num(text) => text
    case Str(s) => s
    case _ => ""
  }
}
