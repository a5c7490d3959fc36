/** Values shared by the modelled routines: a JSON-like dynamic value and
    Python's str.upper / str.lower, restricted to what the routines compare. */
module Values {

  /** A dynamically typed Python value as it travels through payloads,
      tool arguments, parameter descriptions and connection settings. */
  datatype Value =
    | Null
    | Bool(b: bool)
    | Num(n: int)
    | Str(s: string)
    | List(items: seq<Value>)
    | Object(fields: map<string, Value>)

  /** str.upper() on one character, as far as the result can be an ASCII letter:
      ASCII lower case, plus the two non-ASCII characters whose upper case is a
      single ASCII letter (dotless i and long s). */
  function UpperChar(c: char): (u: char)
    ensures 'A' <= u <= 'Z' <==> 'A' <= c <= 'Z' || 'a' <= c <= 'z' || c == '\U{131}' || c == '\U{17F}'
  {
    if 'a' <= c <= 'z' then (c as int - 32) as char
    else if c == '\U{131}' then 'I'
    else if c == '\U{17F}' then 'S'
    else c
  }

  /** str.lower() on one character, ASCII letters only. */
  function LowerChar(c: char): (l: char)
    ensures 'a' <= l <= 'z' <==> 'A' <= c <= 'Z' || 'a' <= c <= 'z'
    ensures 'A' <= c <= 'Z' ==> l as int - 'a' as int == c as int - 'A' as int
    ensures !('A' <= c <= 'Z') ==> l == c
  {
    if 'A' <= c <= 'Z' then (c as int + 32) as char else c
  }

  function Upper(s: string): (u: string)
    ensures |u| == |s|
  {
    seq(|s|, k requires 0 <= k < |s| => UpperChar(s[k]))
  }

  function Lower(s: string): (l: string)
    ensures |l| == |s|
  {
    seq(|s|, k requires 0 <= k < |s| => LowerChar(s[k]))
  }
}
