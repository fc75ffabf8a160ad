/**
 * The few PHP value semantics the plugin relies on: values that may be
 * null, array lookups that yield null for a missing key, truthiness of
 * strings, and strict comparison with the boolean true.
 */
module Php {

  /** A value that may be PHP's null. */
  datatype Option<+T> = None | Some(value: T)

  /** A PHP value as returned by a host routine of unknown type. */
  datatype Value = Null | Bool(b: bool) | Int(i: int) | Str(s: string)

  /** The host's array lookup helper (twitter.php:40-42, 124-125): the entry, or null when the key is absent. */
  function GetValue(a: map<string, string>, key: string): (v: Option<string>)
    ensures v.Some? <==> key in a
    ensures key in a ==> v.value == a[key]
  {
    if key in a then Some(a[key]) else None
  }

  /**
   * A string-or-null in boolean context (twitter.php:44) is false for null,
   * the empty string and the one-character string of a zero digit; every
   * longer string, such as two zeros or a single space, is true.
   */
  predicate FalsyString(v: Option<string>)
    ensures FalsyString(v) ==> v.None? || |v.value| <= 1
    ensures v.Some? && |v.value| == 1 ==> (FalsyString(v) <==> v.value == "0")
  {
    v == None || v == Some("") || v == Some("0")
  }

  /**
   * Strict comparison with true (twitter.php:122): only the boolean true
   * itself passes, never the integer one, a non-empty string or any other
   * value PHP would treat as true in a condition.
   */
  predicate IsStrictlyTrue(x: Value)
    ensures IsStrictlyTrue(x) <==> x.Bool? && x.b
    ensures IsStrictlyTrue(x) ==> !x.Null? && !x.Int? && !x.Str?
  {
    x == Bool(true)
  }
}
