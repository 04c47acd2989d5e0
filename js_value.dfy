/**
 * A value produced by `JSON.parse` (or `response.json()`), and the parts of JavaScript's
 * semantics that the client applies to such values: `typeof`, truthiness, property access
 * with and without optional chaining, and `JSON.stringify` of strings.
 */
module JsValue {
  import opened Wrappers
  import JsText

  /**
   * A parsed JSON value. Numbers are reals; an infinite parse result (that of `1e400`, say) is
   * represented by a real outside every range the client tests.
   */
  datatype Json =
    | JNull
    | JBool(b: bool)
    | JNumber(n: real)
    | JString(s: string)
    | JArray(elems: seq<Json>)
    | JObject(fields: map<string, Json>)

  /** `typeof v === "object"`: true for `null`, arrays and objects; `undefined` is `None`. */
  predicate TypeofObject(v: Option<Json>) {
    v.Some? && (v.value.JNull? || v.value.JArray? || v.value.JObject?)
  }

  /** `typeof v === "string"`. */
  predicate TypeofString(v: Option<Json>) {
    v.Some? && v.value.JString?
  }

  /** `typeof v === "number"`. */
  predicate TypeofNumber(v: Option<Json>) {
    v.Some? && v.value.JNumber?
  }

  /** `Array.isArray(v)`. */
  predicate IsArray(v: Option<Json>) {
    v.Some? && v.value.JArray?
  }

  /** JavaScript truthiness: `undefined`, `null`, `false`, `0` and `""` are falsy. */
  predicate Truthy(v: Option<Json>) {
    match v
    case None => false
    case Some(JNull) => false
    case Some(JBool(b)) => b
    case Some(JNumber(n)) => n != 0.0
    case Some(JString(s)) => s != ""
    case Some(_) => true
  }

  /** A property key: a name (`x.name`) or an integer index (`x[i]`). */
  datatype Key = Name(name: string) | Index(i: nat)

  /** The property name an object sees for a key (`o[0]` reads property "0"). */
  function KeyString(k: Key): string {
    match k
    case Name(n) => n
    case Index(i) => JsText.Decimal(i)
  }

  /**
   * `v[k]` on a value that is not `null`; `None` is `undefined`. The names the client reads
   * ("candidates", "content", "parts", "text", "error", "message" and the analysis fields)
   * are neither array indices nor built-in members of arrays or strings, so on those values
   * only an index can find something. Indexing a string yields a one-character string.
   */
  function Get(v: Json, k: Key): (r: Option<Json>)
    requires !v.JNull?
    ensures v.JObject? ==> (r.Some? <==> KeyString(k) in v.fields)
    ensures r.Some? && v.JObject? ==> r.value == v.fields[KeyString(k)]
    ensures v.JNumber? || v.JBool? ==> r == None
  {
    match v
    case JObject(m) => if KeyString(k) in m then Some(m[KeyString(k)]) else None
    case JArray(a) => if k.Index? && k.i < |a| then Some(a[k.i]) else None
    case JString(s) => if k.Index? && k.i < |s| then Some(JString([s[k.i]])) else None
    case _ => None
  }

  /** `v?.[k]` / `v?.k`: `undefined` when `v` is `null` or `undefined`, else `v[k]`. */
  function OptGet(v: Option<Json>, k: Key): (r: Option<Json>)
    ensures v == None || v == Some(JNull) ==> r == None
  {
    if v.None? || v.value.JNull? then None else Get(v.value, k)
  }

  /** Lower-case hexadecimal digit, as `JSON.stringify` writes escapes. */
  function HexDigit(d: nat): char
    requires d < 16
  {
    "0123456789abcdef"[d]
  }

  /** The escaped form of one character inside a JSON string literal. */
  function EscapeChar(c: char): string {
    var n := c as int;
    if c == '"' then "\\\""
    else if c == '\\' then "\\\\"
    else if n == 0x08 then "\\b"
    else if n == 0x09 then "\\t"
    else if n == 0x0A then "\\n"
    else if n == 0x0C then "\\f"
    else if n == 0x0D then "\\r"
    else if n < 0x20 then "\\u00" + [HexDigit(n / 16), HexDigit(n % 16)]
    else [c]
  }

  /** The body of a JSON string literal for `s` (without the quotes). */
  function EscapeString(s: string): string {
    if s == [] then [] else EscapeChar(s[0]) + EscapeString(s[1..])
  }

  /** `JSON.stringify(s)` for a string `s`. */
  function Quote(s: string): (q: string)
    ensures |q| >= 2 && q[0] == '"' && q[|q| - 1] == '"'
  {
    "\"" + EscapeString(s) + "\""
  }

  /** The value of a hexadecimal digit of a `\uXXXX` escape, either case. */
  function HexValue(c: char): Option<nat> {
    if '0' <= c <= '9' then Some(c as nat - '0' as nat)
    else if 'a' <= c <= 'f' then Some(c as nat - 'a' as nat + 10)
    else if 'A' <= c <= 'F' then Some(c as nat - 'A' as nat + 10)
    else None
  }

  /** The character a four-digit `\uXXXX` escape denotes; surrogate halves are not read. */
  function UnicodeEscape(h: string): Option<char>
    requires |h| == 4
  {
    match (HexValue(h[0]), HexValue(h[1]), HexValue(h[2]), HexValue(h[3]))
    case (Some(a), Some(b), Some(c), Some(d)) =>
      var n := ((a * 16 + b) * 16 + c) * 16 + d;
      if 0xD800 <= n < 0xE000 then None else Some(n as char)
    case _ => None
  }

  /** The character after a backslash, for the one-letter escapes of JSON. */
  function ShortEscape(e: char): Option<char> {
    if e == '"' then Some('"')
    else if e == '\\' then Some('\\')
    else if e == '/' then Some('/')
    else if e == 'b' then Some(0x08 as char)
    else if e == 't' then Some(0x09 as char)
    else if e == 'n' then Some(0x0A as char)
    else if e == 'f' then Some(0x0C as char)
    else if e == 'r' then Some(0x0D as char)
    else None
  }

  /** `Some((c + v, r))` for a string read as `Some((v, r))`. */
  function Prepend(c: char, read: Option<(string, string)>): Option<(string, string)> {
    match read
    case None => None
    case Some((v, r)) => Some(([c] + v, r))
  }

  /**
   * Reads the body of a JSON string literal, up to and including its closing quote: the
   * string it denotes and the text after it, or `None` when the text is not such a body.
   */
  function ReadString(s: string): Option<(string, string)>
    decreases |s|
  {
    if s == [] then None
    else if s[0] == '"' then Some(([], s[1..]))
    else if s[0] == '\\' then
      if |s| < 2 then None
      else if s[1] == 'u' then
        if |s| < 6 then None
        else match UnicodeEscape(s[2..6])
          case None => None
          case Some(c) => Prepend(c, ReadString(s[6..]))
      else match ShortEscape(s[1])
        case None => None
        case Some(c) => Prepend(c, ReadString(s[2..]))
    else if (s[0] as int) < 0x20 then None
    else Prepend(s[0], ReadString(s[1..]))
  }

  lemma HexValueOfDigit(d: nat)
    requires d < 16
    ensures HexValue(HexDigit(d)) == Some(d)
  {
  }

  /** Reading an escaped character gives back the character, before what follows. */
  lemma ReadEscapeChar(c: char, t: string)
    ensures ReadString(EscapeChar(c) + t) == Prepend(c, ReadString(t))
  {
    var n := c as int;
    var s := EscapeChar(c) + t;
    if c == '"' || c == '\\' || n == 0x08 || n == 0x09 || n == 0x0A || n == 0x0C || n == 0x0D {
      assert s[2..] == t;
    } else if n < 0x20 {
      HexValueOfDigit(n / 16);
      HexValueOfDigit(n % 16);
      assert s[2..6] == "00" + [HexDigit(n / 16), HexDigit(n % 16)];
      assert UnicodeEscape(s[2..6]) == Some(c);
      assert s[6..] == t;
    } else {
      assert s[1..] == t;
    }
  }

  /** `JSON.stringify` of a string reads back as that string, whatever follows it. */
  lemma {:induction false} ReadQuoted(v: string, rest: string)
    ensures ReadString(EscapeString(v) + "\"" + rest) == Some((v, rest))
  {
    if v == [] {
      assert EscapeString(v) + "\"" + rest == "\"" + rest;
    } else {
      var t := EscapeString(v[1..]) + "\"" + rest;
      assert EscapeString(v) + "\"" + rest == EscapeChar(v[0]) + t;
      ReadEscapeChar(v[0], t);
      ReadQuoted(v[1..], rest);
      assert [v[0]] + v[1..] == v;
    }
  }
}
