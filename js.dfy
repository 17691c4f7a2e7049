/** The few JavaScript runtime notions the storefront's handlers rely on:
    optional values, truthiness, `||`, `String(...)`, `trim()` and the
    substring tests of `String.prototype`. */
module Js {

  datatype Option<+T> = None | Some(value: T)

  /** A value read from a parsed JSON body or a thrown error, reduced to what
      the handlers observe: strings are kept as they are; any other non-nullish
      value (number, boolean, object, array) is kept as its truthiness and the
      text `String(v)` gives for it. */
  datatype Value = Undefined | Null | Str(s: string) | Other(truthy: bool, text: string)

  /** JavaScript truthiness of a value. */
  predicate Truthy(v: Value) {
    match v
    case Undefined => false
    case Null => false
    case Str(s) => s != ""
    case Other(t, _) => t
  }

  /** `a || b`: the left operand when it is truthy, the right one otherwise. */
  function Or(a: Value, b: Value): Value {
    if Truthy(a) then a else b
  }

  /** `String(v)`. */
  function ToText(v: Value): string {
    match v
    case Undefined => "undefined"
    case Null => "null"
    case Str(s) => s
    case Other(_, text) => text
  }

  /** An environment variable or a storage lookup: absent, or a string. */
  predicate IsSet(o: Option<string>) {
    o.Some? && o.value != ""
  }

  /** `a || b` for two optional strings (an empty string is falsy). */
  function EnvOr(a: Option<string>, b: Option<string>): Option<string> {
    if IsSet(a) then a else b
  }

  /** A template literal's rendering of a value that is a string or `null`. */
  function NullableText(o: Option<string>): string {
    if o.Some? then o.value else "null"
  }

  /** A template literal's rendering of a value that is a string or `undefined`. */
  function UndefinedText(o: Option<string>): string {
    if o.Some? then o.value else "undefined"
  }

  /** The WhiteSpace and LineTerminator code points that `trim()` removes. */
  predicate IsWhiteSpace(c: char) {
    c == '\t' || c == '\n' || c == '\U{B}' || c == '\U{C}' || c == '\r' || c == ' '
    || c == '\U{A0}' || c == '\U{1680}' || ('\U{2000}' <= c <= '\U{200A}')
    || c == '\U{2028}' || c == '\U{2029}' || c == '\U{202F}' || c == '\U{205F}'
    || c == '\U{3000}' || c == '\U{FEFF}'
  }

  /** `trimStart()`: drops the longest all-white-space prefix. */
  function TrimStart(s: string): (r: string)
    ensures |r| <= |s| && r == s[|s| - |r|..]
    ensures r == [] || !IsWhiteSpace(r[0])
    ensures forall i :: 0 <= i < |s| - |r| ==> IsWhiteSpace(s[i])
  {
    if |s| > 0 && IsWhiteSpace(s[0]) then TrimStart(s[1..]) else s
  }

  /** `trimEnd()`: drops the longest all-white-space suffix. */
  function TrimEnd(s: string): (r: string)
    ensures r <= s
    ensures r == [] || !IsWhiteSpace(r[|r| - 1])
    ensures forall i :: |r| <= i < |s| ==> IsWhiteSpace(s[i])
  {
    if |s| > 0 && IsWhiteSpace(s[|s| - 1]) then TrimEnd(s[..|s| - 1]) else s
  }

  lemma TrimStartKeeps(s: string)
    requires |s| > 0 && !IsWhiteSpace(s[0])
    ensures TrimStart(s) == s
  {
  }

  lemma TrimEndKeeps(s: string)
    requires |s| > 0 && !IsWhiteSpace(s[|s| - 1])
    ensures TrimEnd(s) == s
  {
  }

  /** `trim()`. */
  function Trim(s: string): string {
    TrimStart(TrimEnd(s))
  }

  predicate StartsWith(s: string, prefix: string) {
    |prefix| <= |s| && s[..|prefix|] == prefix
  }

  predicate EndsWith(s: string, suffix: string) {
    |suffix| <= |s| && s[|s| - |suffix|..] == suffix
  }

  /** `s.includes(sub)`. */
  predicate Contains(s: string, sub: string)
    decreases |s|
  {
    StartsWith(s, sub) || (|s| > 0 && Contains(s[1..], sub))
  }

  /** A string that ends with `sub` contains it. */
  lemma {:induction false} EndsWithContains(s: string, sub: string)
    requires EndsWith(s, sub)
    ensures Contains(s, sub)
    decreases |s|
  {
    if |s| == |sub| {
      assert s[..|sub|] == s[|s| - |sub|..];
    } else {
      assert s[1..][|s| - 1 - |sub|..] == s[|s| - |sub|..];
      EndsWithContains(s[1..], sub);
    }
  }
}
