/** JavaScript values as the service sees them after JSON decoding, and the
    few built-in string operations the movie code relies on. */
module JsValues {

  /** `undefined` versus a present value. */
  datatype Option<+T> = None | Some(value: T)

  /** The outcome of evaluating an expression that may throw a `TypeError`
      (calling a method on `undefined` or on a value that lacks it). */
  datatype Result<+T> = Ok(value: T) | TypeError

  /** A decoded JSON value; numbers are JavaScript doubles, kept as reals. */
  datatype Json =
    | JNull
    | JBool(b: bool)
    | JNum(n: real)
    | JStr(s: string)
    | JArr(items: seq<Json>)
    | JObj(fields: map<string, Json>)

  /** A plain JavaScript object: its own enumerable properties. */
  type Obj = map<string, Json>

  /** `String.prototype.toLowerCase` on one character, restricted to ASCII. */
  function LowerChar(c: char): char
  {
    if 'A' <= c <= 'Z' then (c as int + 32) as char else c
  }

  /** `String.prototype.toLowerCase`, restricted to ASCII. */
  function ToLowerCase(s: string): (r: string)
    ensures |r| == |s|
  {
    seq(|s|, i requires 0 <= i < |s| => LowerChar(s[i]))
  }

  /** `a.toLowerCase() === b.toLowerCase()`. */
  predicate EqualsIgnoringCase(a: string, b: string)
  {
    ToLowerCase(a) == ToLowerCase(b)
  }

  /** JavaScript truthiness of an optional string: `undefined` and `''` are falsy. */
  predicate Truthy(s: Option<string>)
  {
    s.Some? && s.value != ""
  }
}
