/**
 * JSON values and the text `JSON.stringify` produces for them. The property that matters
 * most to the push channel: that text never contains a line break, so a serialised payload
 * always fits on a single `data:` line of an event-stream frame.
 */
module Json {
  import opened Wrappers

  datatype Json =
    | JNull
    | JBool(b: bool)
    | JNum(n: int)
    | JStr(s: string)
    | JArr(items: seq<Json>)
    | JObj(fields: seq<(string, Json)>)

  function Digit(d: nat): char
    requires d < 10
  {
    "0123456789"[d]
  }

  function HexDigit(d: nat): char
    requires d < 16
  {
    "0123456789abcdef"[d]
  }

  predicate AllDigits(t: string)
  {
    forall i :: 0 <= i < |t| ==> '0' <= t[i] <= '9'
  }

  /** The number a string of decimal digits denotes, most significant digit first. */
  function DecimalValue(t: string): nat
    requires AllDigits(t)
    decreases |t|
  {
    if t == [] then 0
    else DecimalValue(t[..|t| - 1]) * 10 + (t[|t| - 1] as int - '0' as int)
  }

  /**
   * Decimal text of a natural number (`Number.prototype.toString`): the digits that denote
   * `n`, with no leading zero.
   */
  function NatText(n: nat): (t: string)
    ensures |t| >= 1 && AllDigits(t)
    ensures DecimalValue(t) == n
    ensures n > 0 ==> t[0] != '0'
    decreases n
  {
    if n < 10 then
      var t := [Digit(n)];
      assert t[..0] == [];
      t
    else
      var t := NatText(n / 10) + [Digit(n % 10)];
      assert t[..|t| - 1] == NatText(n / 10);
      t
  }

  /** Neither a line feed nor a carriage return: text that stays on one line of an event stream. */
  predicate OneLine(s: string)
  {
    '\n' !in s && '\r' !in s
  }

  /** Decimal text of an integer, with a leading minus for negatives. */
  function IntText(n: int): string
  {
    if n < 0 then "-" + NatText(-n) else NatText(n)
  }

  /** One character of a JSON string literal: quote, backslash and control characters escaped. */
  function EscapeChar(c: char): string
  {
    if c == '"' then "\\\""
    else if c == '\\' then "\\\\"
    else if c == '\n' then "\\n"
    else if c == '\r' then "\\r"
    else if c == '\t' then "\\t"
    else if c == 8 as char then "\\b"
    else if c == 12 as char then "\\f"
    else if c < ' ' then "\\u00" + [HexDigit(c as nat / 16), HexDigit(c as nat % 16)]
    else [c]
  }

  function Escape(s: string): string
  {
    if s == [] then [] else EscapeChar(s[0]) + Escape(s[1..])
  }

  function Quote(s: string): string
  {
    "\"" + Escape(s) + "\""
  }

  /** Comma-separated concatenation. */
  function Join(parts: seq<string>): string
  {
    if parts == [] then ""
    else if |parts| == 1 then parts[0]
    else parts[0] + "," + Join(parts[1..])
  }

  /** `JSON.stringify` on a value (object fields in the order given). */
  function Stringify(v: Json): string
    decreases v
  {
    match v
    case JNull => "null"
    case JBool(b) => if b then "true" else "false"
    case JNum(n) => IntText(n)
    case JStr(s) => Quote(s)
    case JArr(items) =>
      "[" + Join(seq(|items|, i requires 0 <= i < |items| => Stringify(items[i]))) + "]"
    case JObj(fields) =>
      "{" + Join(seq(|fields|, i requires 0 <= i < |fields| =>
                       Quote(fields[i].0) + ":" + Stringify(fields[i].1))) + "}"
  }

  lemma {:induction false} EscapeIsOneLine(s: string)
    ensures OneLine(Escape(s))
  {
    if s != [] {
      EscapeIsOneLine(s[1..]);
    }
  }

  lemma {:induction false} JoinIsOneLine(parts: seq<string>)
    requires forall i :: 0 <= i < |parts| ==> OneLine(parts[i])
    ensures OneLine(Join(parts))
  {
    if |parts| > 1 {
      JoinIsOneLine(parts[1..]);
    }
  }

  lemma IntTextIsOneLine(n: int)
    ensures OneLine(IntText(n))
  {
    var t := if n < 0 then NatText(-n) else NatText(n);
    assert forall i :: 0 <= i < |t| ==> t[i] != '\n' && t[i] != '\r';
  }

  /**
   * The text of any JSON value is a single line: `JSON.stringify` escapes every line feed
   * and carriage return.
   */
  lemma {:induction false} StringifyIsOneLine(v: Json)
    ensures OneLine(Stringify(v))
    decreases v
  {
    match v
    case JNull =>
    case JBool(b) =>
    case JNum(n) => IntTextIsOneLine(n);
    case JStr(s) => EscapeIsOneLine(s);
    case JArr(items) =>
      var parts := seq(|items|, i requires 0 <= i < |items| => Stringify(items[i]));
      forall i | 0 <= i < |items| ensures OneLine(parts[i]) {
        StringifyIsOneLine(items[i]);
      }
      JoinIsOneLine(parts);
    case JObj(fields) =>
      var parts := seq(|fields|, i requires 0 <= i < |fields| =>
                         Quote(fields[i].0) + ":" + Stringify(fields[i].1));
      forall i | 0 <= i < |fields| ensures OneLine(parts[i]) {
        EscapeIsOneLine(fields[i].0);
        StringifyIsOneLine(fields[i].1);
      }
      JoinIsOneLine(parts);
  }

  /**
   * A property read `v[key]` on a parsed value: for an object, the value of the key's last
   * occurrence (the one `JSON.parse` keeps); any other value has no such property.
   */
  function Prop(v: Json, key: string): (r: Option<Json>)
    ensures r.Some? ==> v.JObj? && (key, r.value) in v.fields
    ensures r.None? ==> !v.JObj? || forall i :: 0 <= i < |v.fields| ==> v.fields[i].0 != key
  {
    if v.JObj? then Member(v.fields, key) else None
  }

  function Member(fields: seq<(string, Json)>, key: string): (r: Option<Json>)
    ensures r.Some? ==>
      exists i :: 0 <= i < |fields| && fields[i] == (key, r.value)
                  && forall j :: i < j < |fields| ==> fields[j].0 != key
    ensures r.None? ==> forall i :: 0 <= i < |fields| ==> fields[i].0 != key
    decreases |fields|
  {
    if fields == [] then None
    else if fields[|fields| - 1].0 == key then Some(fields[|fields| - 1].1)
    else Member(fields[..|fields| - 1], key)
  }

  /** JavaScript truthiness of a parsed value. */
  predicate Truthy(v: Json)
  {
    match v
    case JNull => false
    case JBool(b) => b
    case JNum(n) => n != 0
    case JStr(s) => s != ""
    case JArr(_) => true
    case JObj(_) => true
  }

  /** `String(v)`, as a template literal renders a value; `null` inside an array renders empty. */
  function TemplateText(v: Json, inArray: bool): string
    decreases v
  {
    match v
    case JNull => if inArray then "" else "null"
    case JBool(b) => if b then "true" else "false"
    case JNum(n) => IntText(n)
    case JStr(s) => s
    case JArr(items) => Join(seq(|items|, i requires 0 <= i < |items| => TemplateText(items[i], true)))
    case JObj(_) => "[object Object]"
  }

  /** An object literal's properties as `JSON.stringify` writes them: the undefined ones are left out. */
  function Present(props: seq<(string, Option<Json>)>): (fields: seq<(string, Json)>)
    ensures |fields| <= |props|
    ensures forall k, v :: (k, v) in fields <==> (k, Some(v)) in props
    decreases |props|
  {
    if props == [] then []
    else
      var rest := Present(props[1..]);
      assert forall p :: p in props <==> p == props[0] || p in props[1..];
      if props[0].1.Some? then [(props[0].0, props[0].1.value)] + rest else rest
  }
}
