/**
 * The few pieces of JavaScript value semantics the PayPal adapter relies on:
 * `undefined`, nullish defaults (`??`), truthiness, and upper-casing.
 */
module Js {

  /** A value that may be `undefined`. */
  datatype Option<+T> = None | Some(value: T) {
    /** `x ?? default` */
    function GetOr(default: T): T {
      if Some? then value else default
    }
  }

  datatype Result<+T, +E> = Ok(value: T) | Err(error: E)

  /**
   * A configuration value as the adapter receives it: absent, a boolean, or a
   * string (every value read from an environment variable is a string).
   */
  datatype Flag = Undefined | Bool(b: bool) | Str(s: string)

  /** JavaScript truthiness of a flag: `undefined`, `false` and `""` are falsy. */
  predicate Truthy(f: Flag) {
    match f
    case Undefined => false
    case Bool(b) => b
    case Str(s) => s != ""
  }

  /** JavaScript truthiness of an optional string: defined and not empty. */
  predicate Present(s: Option<string>) {
    s.Some? && s.value != ""
  }

  predicate IsLower(c: char) {
    'a' <= c <= 'z'
  }

  function UpperChar(c: char): char {
    if IsLower(c) then (c as int - 32) as char else c
  }

  /** `String.prototype.toUpperCase`, on the ASCII letters. */
  function ToUpperCase(s: string): (r: string)
    ensures |r| == |s|
    ensures forall i :: 0 <= i < |r| ==> !IsLower(r[i])
    ensures forall i :: 0 <= i < |s| && !IsLower(s[i]) ==> r[i] == s[i]
    ensures forall i :: 0 <= i < |s| && IsLower(s[i]) ==> r[i] == (s[i] as int - 32) as char
  {
    if s == [] then [] else [UpperChar(s[0])] + ToUpperCase(s[1..])
  }
}
