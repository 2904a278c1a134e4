/** Decoded JSON values as the gateway and the bridge handle them (Python
    `json.loads` results), `json.dumps` with its default settings, Python's
    truthiness and `str()` of such values, and the JavaScript truthiness and
    `String()` the front end applies to the same values. Numbers are integers. */
module JsonValues {
  import opened Wrappers
  import opened Text
  import opened Dicts

  datatype Json =
    | JNull
    | JBool(b: bool)
    | JNum(n: int)
    | JStr(s: string)
    | JArr(items: seq<Json>)
    | JObj(fields: Dict<string, Json>)

  /** `value.get(key)` on a dict; `None` when `value` is no object or lacks the key. */
  function Get(j: Json, key: string): (r: Option<Json>)
    ensures r.Some? ==> j.JObj? && HasKey(j.fields, key)
  {
    if j.JObj? then Lookup(j.fields, key) else None
  }

  /** `value.get(key)` where an absent key reads as `None` (JSON `null`). */
  function GetOrNull(j: Json, key: string): Json {
    Get(j, key).GetOr(JNull)
  }

  /** Python's `bool(value)`. */
  predicate Truthy(j: Json) {
    match j
    case JNull => false
    case JBool(b) => b
    case JNum(n) => n != 0
    case JStr(s) => s != []
    case JArr(items) => items != []
    case JObj(fields) => fields != []
  }

  function HexDigit(d: nat): (c: char)
    requires d < 16
    ensures ' ' <= c <= '~'
  {
    "0123456789abcdef"[d]
  }

  /** `\uXXXX` with four lower-case hexadecimal digits. */
  function UnicodeEscape(u: nat): (r: string)
    requires u < 0x1_0000
    ensures forall i :: 0 <= i < |r| ==> ' ' <= r[i] <= '~'
  {
    ['\\', 'u', HexDigit(u / 0x1000), HexDigit(u / 0x100 % 16), HexDigit(u / 16 % 16), HexDigit(u % 16)]
  }

  /** How `json.dumps` writes one character of a string with `ensure_ascii`:
      the two-character escapes, and `\uXXXX` (in surrogate pairs above
      U+FFFF) for everything outside printable ASCII. */
  function EscapeChar(c: char): (r: string)
    ensures forall i :: 0 <= i < |r| ==> ' ' <= r[i] <= '~'
  {
    if c == '"' then "\\\""
    else if c == '\\' then "\\\\"
    else if c == '\n' then "\\n"
    else if c == '\r' then "\\r"
    else if c == '\t' then "\\t"
    else if c == '\U{0008}' then "\\b"
    else if c == '\U{000C}' then "\\f"
    else if ' ' <= c <= '~' then [c]
    else
      var units := CharUnits(c);
      if |units| == 1 then UnicodeEscape(units[0])
      else UnicodeEscape(units[0]) + UnicodeEscape(units[1])
  }

  function EscapeString(s: string): (r: string)
    ensures forall i :: 0 <= i < |r| ==> ' ' <= r[i] <= '~'
  {
    if s == [] then "" else EscapeChar(s[0]) + EscapeString(s[1..])
  }

  function Quote(s: string): (r: string)
    ensures forall i :: 0 <= i < |r| ==> ' ' <= r[i] <= '~'
  {
    "\"" + EscapeString(s) + "\""
  }

  /** `json.dumps(value)`: separators ", " and ": ", keys in insertion order. */
  function Render(j: Json): string
    decreases j
  {
    match j
    case JNull => "null"
    case JBool(b) => if b then "true" else "false"
    case JNum(n) => IntToString(n)
    case JStr(s) => Quote(s)
    case JArr(items) =>
      "[" + JoinWith(seq(|items|, i requires 0 <= i < |items| => Render(items[i])), ", ") + "]"
    case JObj(fields) =>
      "{" + JoinWith(seq(|fields|, i requires 0 <= i < |fields| =>
                       Quote(fields[i].0) + ": " + Render(fields[i].1)), ", ") + "}"
  }

  predicate Printable(s: string) {
    forall i :: 0 <= i < |s| ==> ' ' <= s[i] <= '~'
  }

  lemma PrintableAppend(a: string, b: string)
    requires Printable(a) && Printable(b)
    ensures Printable(a + b)
  {
    assert forall i :: 0 <= i < |a + b| ==> (a + b)[i] == if i < |a| then a[i] else b[i - |a|];
  }

  lemma {:induction false} JoinPrintable(parts: seq<string>, sep: string)
    requires Printable(sep) && forall i :: 0 <= i < |parts| ==> Printable(parts[i])
    ensures Printable(JoinWith(parts, sep))
  {
    if |parts| > 1 {
      JoinPrintable(parts[1..], sep);
      PrintableAppend(parts[0], sep);
      PrintableAppend(parts[0] + sep, JoinWith(parts[1..], sep));
    }
  }

  lemma NatToStringPrintable(n: nat)
    ensures Printable(NatToString(n))
  {
  }

  /** `json.dumps` writes printable ASCII only, so a rendered value never holds
      a line break and one value is one line of a newline-delimited stream. */
  lemma {:induction false} RenderPrintable(j: Json)
    ensures Printable(Render(j))
    decreases j
  {
    match j
    case JNull =>
    case JBool(b) =>
    case JNum(n) =>
      if n < 0 {
        NatToStringPrintable(-n);
        PrintableAppend("-", NatToString(-n));
      } else {
        NatToStringPrintable(n);
      }
    case JStr(s) =>
    case JArr(items) =>
      var parts := seq(|items|, i requires 0 <= i < |items| => Render(items[i]));
      forall i | 0 <= i < |items|
        ensures Printable(parts[i])
      {
        RenderPrintable(items[i]);
      }
      JoinPrintable(parts, ", ");
      PrintableAppend("[", JoinWith(parts, ", "));
      PrintableAppend("[" + JoinWith(parts, ", "), "]");
    case JObj(fields) =>
      var parts := seq(|fields|, i requires 0 <= i < |fields| =>
                       Quote(fields[i].0) + ": " + Render(fields[i].1));
      forall i | 0 <= i < |fields|
        ensures Printable(parts[i])
      {
        RenderPrintable(fields[i].1);
        PrintableAppend(Quote(fields[i].0), ": ");
        PrintableAppend(Quote(fields[i].0) + ": ", Render(fields[i].1));
      }
      JoinPrintable(parts, ", ");
      PrintableAppend("{", JoinWith(parts, ", "));
      PrintableAppend("{" + JoinWith(parts, ", "), "}");
  }

  /** A rendered value never contains a line break. */
  lemma RenderSingleLine(j: Json)
    ensures '\n' !in Render(j)
  {
    RenderPrintable(j);
  }

  /** Python's `repr` of a value; strings are written between single quotes
      without escaping. */
  function PyRepr(j: Json): string
    decreases j
  {
    match j
    case JNull => "None"
    case JBool(b) => if b then "True" else "False"
    case JNum(n) => IntToString(n)
    case JStr(s) => "'" + s + "'"
    case JArr(items) =>
      "[" + JoinWith(seq(|items|, i requires 0 <= i < |items| => PyRepr(items[i])), ", ") + "]"
    case JObj(fields) =>
      "{" + JoinWith(seq(|fields|, i requires 0 <= i < |fields| =>
                       "'" + fields[i].0 + "': " + PyRepr(fields[i].1)), ", ") + "}"
  }

  /** Python's `str(value)` (and an f-string's `{value}`): a string is itself,
      anything else its `repr`. */
  function PyStr(j: Json): string {
    if j.JStr? then j.s else PyRepr(j)
  }

  /** `json.dumps(frame) + "\n"` */
  function Line(frame: Json): string {
    Render(frame) + "\n"
  }

  /** A frame is one line: its only line break is the final one. */
  lemma LineIsOneLine(frame: Json)
    ensures |Line(frame)| >= 1 && Line(frame)[|Line(frame)| - 1] == '\n'
    ensures forall i :: 0 <= i < |Line(frame)| - 1 ==> Line(frame)[i] != '\n'
  {
    RenderPrintable(frame);
    var r := Render(frame);
    assert forall i :: 0 <= i < |r| ==> Line(frame)[i] == r[i];
  }

  /** The name of a value's Python type, as error messages print it. */
  function PyTypeName(j: Json): string {
    match j
    case JNull => "NoneType"
    case JBool(_) => "bool"
    case JNum(_) => "int"
    case JStr(_) => "str"
    case JArr(_) => "list"
    case JObj(_) => "dict"
  }

  /** The message of the `AttributeError` raised by `value.attr` on a value without it. */
  function NoAttribute(j: Json, attr: string): string {
    "'" + PyTypeName(j) + "' object has no attribute '" + attr + "'"
  }

  // JavaScript views of the same values, for the front end.

  /** `String(value)` for a JSON value. */
  function JsString(v: Json): string
    decreases v
  {
    match v
    case JNull => "null"
    case JBool(b) => if b then "true" else "false"
    case JNum(n) => IntToString(n)
    case JStr(s) => s
    case JArr(items) =>
      JoinWith(seq(|items|, i requires 0 <= i < |items| => if items[i].JNull? then "" else JsString(items[i])), ",")
    case JObj(_) => "[object Object]"
  }

  /** JavaScript's truthiness: unlike Python's, every array and object is truthy. */
  predicate JsTruthy(j: Json) {
    match j
    case JNull => false
    case JBool(b) => b
    case JNum(n) => n != 0
    case JStr(s) => s != []
    case JArr(_) => true
    case JObj(_) => true
  }

  /** The property names every plain object inherits from `Object.prototype`. */
  const PrototypeNames: set<string> :=
    {"constructor", "__proto__", "__defineGetter__", "__defineSetter__", "__lookupGetter__",
     "__lookupSetter__", "hasOwnProperty", "isPrototypeOf", "propertyIsEnumerable",
     "toString", "toLocaleString", "valueOf"}
}
