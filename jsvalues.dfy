/**
 * The JavaScript values that flow through the dashboard: request bodies,
 * parsed JSON responses, and the loosely typed records the validators check.
 * Numbers are integers here.
 */
module JsValues {
  import opened Strings

  datatype JsValue =
    | Undefined
    | Null
    | Bool(b: bool)
    | Num(n: int)
    | Str(s: string)
    | Arr(items: seq<JsValue>)
    | Obj(fields: seq<Field>)

  /** One own property of an object, in insertion order. */
  datatype Field = Field(key: string, value: JsValue)

  /** JavaScript truthiness: `undefined`, `null`, `false`, `0` and `""` are falsy. */
  predicate Truthy(v: JsValue) {
    match v
    case Undefined => false
    case Null => false
    case Bool(b) => b
    case Num(n) => n != 0
    case Str(s) => s != ""
    case Arr(_) => true
    case Obj(_) => true
  }

  /** Reading a property of these throws a TypeError. */
  predicate IsNullish(v: JsValue) {
    v.Undefined? || v.Null?
  }

  /** The value stored under `key`; a later field shadows an earlier one, as in an object literal. */
  function Lookup(fields: seq<Field>, key: string): JsValue {
    if fields == [] then Undefined
    else if fields[|fields| - 1].key == key then fields[|fields| - 1].value
    else Lookup(fields[..|fields| - 1], key)
  }

  /** `v.key` for a receiver that is not nullish; primitives and arrays have no such own data property. */
  function Prop(v: JsValue, key: string): JsValue {
    if v.Obj? then Lookup(v.fields, key) else Undefined
  }

  /** The message of the TypeError thrown by `v.key` when `v` is nullish. */
  function ReadPropertyError(v: JsValue, key: string): string
    requires IsNullish(v)
  {
    "Cannot read properties of " + (if v.Null? then "null" else "undefined") + " (reading '" + key + "')"
  }

  /** `parts.join(sep)`. */
  function Join(parts: seq<string>, sep: string): string {
    if parts == [] then ""
    else if |parts| == 1 then parts[0]
    else Join(parts[..|parts| - 1], sep) + sep + parts[|parts| - 1]
  }

  /** `String(v)`, the coercion `localStorage.setItem` applies to the value it stores. */
  function ToJsString(v: JsValue): string {
    match v
    case Undefined => "undefined"
    case Null => "null"
    case Bool(b) => if b then "true" else "false"
    case Num(n) => IntToString(n)
    case Str(s) => s
    case Arr(items) =>
      Join(seq(|items|, i requires 0 <= i < |items| =>
             if IsNullish(items[i]) then "" else ToJsString(items[i])), ",")
    case Obj(_) => "[object Object]"
  }

  /** A string coerces to itself, so a string token is stored verbatim. */
  lemma ToJsStringOfString(s: string)
    ensures ToJsString(Str(s)) == s
  {
  }

  function HexDigit(d: int): char
    requires 0 <= d < 16
  {
    "0123456789abcdef"[d]
  }

  function HexValue(c: char): nat {
    if '0' <= c <= '9' then c as int - '0' as int
    else if 'a' <= c <= 'f' then c as int - 'a' as int + 10
    else 0
  }

  /** How `JSON.stringify` writes one character inside a string literal. */
  function EscapeChar(c: char): string {
    if c == '"' then "\\\""
    else if c == '\\' then "\\\\"
    else if c == '\U{8}' then "\\b"
    else if c == '\t' then "\\t"
    else if c == '\n' then "\\n"
    else if c == '\U{C}' then "\\f"
    else if c == '\r' then "\\r"
    else if c < ' ' then ['\\', 'u', '0', '0', HexDigit(c as int / 16), HexDigit(c as int % 16)]
    else [c]
  }

  function Escape(s: string): string {
    if s == [] then "" else EscapeChar(s[0]) + Escape(s[1..])
  }

  /** A JSON string literal for `s`. */
  function Quote(s: string): string {
    "\"" + Escape(s) + "\""
  }

  /** Reads back the escape sequences `Escape` writes (the inside of a JSON string literal). */
  function Unescape(s: string): string
    decreases |s|
  {
    if s == [] then ""
    else if s[0] == '\\' && |s| >= 2 then
      if s[1] == '"' then "\"" + Unescape(s[2..])
      else if s[1] == '\\' then "\\" + Unescape(s[2..])
      else if s[1] == 'b' then "\U{8}" + Unescape(s[2..])
      else if s[1] == 't' then "\t" + Unescape(s[2..])
      else if s[1] == 'n' then "\n" + Unescape(s[2..])
      else if s[1] == 'f' then "\U{C}" + Unescape(s[2..])
      else if s[1] == 'r' then "\r" + Unescape(s[2..])
      else if s[1] == 'u' && |s| >= 6 && s[2] == '0' && s[3] == '0' then
        [(HexValue(s[4]) % 16 * 16 + HexValue(s[5]) % 16) as char] + Unescape(s[6..])
      else [s[0]] + Unescape(s[1..])
    else [s[0]] + Unescape(s[1..])
  }

  lemma UnescapeEscapeChar(c: char, t: string)
    ensures Unescape(EscapeChar(c) + t) == [c] + Unescape(t)
  {
    var e := EscapeChar(c);
    var u := e + t;
    if |e| == 2 {
      assert u[2..] == t;
    } else if |e| == 6 {
      assert u[6..] == t;
      assert HexValue(HexDigit(c as int / 16)) == c as int / 16;
      assert HexValue(HexDigit(c as int % 16)) == c as int % 16;
    } else {
      assert u[1..] == t;
    }
  }

  /** Escaping loses nothing: the string literal reads back as the original string. */
  lemma {:induction false} UnescapeEscape(s: string)
    ensures Unescape(Escape(s)) == s
  {
    if s != [] {
      UnescapeEscapeChar(s[0], Escape(s[1..]));
      UnescapeEscape(s[1..]);
      assert [s[0]] + s[1..] == s;
    }
  }

  /** Keeps the non-empty parts. */
  function NonEmpty(parts: seq<string>): seq<string> {
    if parts == [] then []
    else if parts[0] == "" then NonEmpty(parts[1..])
    else [parts[0]] + NonEmpty(parts[1..])
  }

  /**
   * `JSON.stringify(v)`. `undefined` is written `null`, which is what happens
   * to it inside an array; an object property holding `undefined` is omitted.
   */
  function Json(v: JsValue): string {
    match v
    case Undefined => "null"
    case Null => "null"
    case Bool(b) => if b then "true" else "false"
    case Num(n) => IntToString(n)
    case Str(s) => Quote(s)
    case Arr(items) =>
      "[" + Join(seq(|items|, i requires 0 <= i < |items| => Json(items[i])), ",") + "]"
    case Obj(fields) =>
      "{" + Join(NonEmpty(seq(|fields|, i requires 0 <= i < |fields| =>
                   if fields[i].value.Undefined? then ""
                   else Quote(fields[i].key) + ":" + Json(fields[i].value))), ",") + "}"
  }

  /** A string value is written as a quoted literal that reads back as the string. */
  lemma JsonStringRoundTrip(s: string)
    ensures var j := Json(Str(s));
      |j| >= 2 && j[0] == '"' && j[|j| - 1] == '"' && Unescape(j[1..|j| - 1]) == s
  {
    var j := Json(Str(s));
    assert j[1..|j| - 1] == Escape(s);
    UnescapeEscape(s);
  }
}
