/** The dynamically typed payload a search provider hands back, with the parts of
    Python's semantics the adapter relies on: truthiness, `str()`, `dict.get` and
    what a `for` loop yields when it iterates a value. */
module PyJson {
  import opened Wrappers

  /** A JSON value as Python holds it after decoding. An object is its entries in
      insertion order; a Python dict never holds a key twice, so lookups take the
      first entry with the key. Numbers are integers only (see README). */
  datatype Json =
    | JNull
    | JBool(b: bool)
    | JInt(i: int)
    | JStr(s: string)
    | JArr(items: seq<Json>)
    | JObj(fields: seq<(string, Json)>)

  /** `d.get(key)`: the value stored under `key`, or `None` when the key is absent. */
  function Get(fields: seq<(string, Json)>, key: string): (r: Option<Json>)
    ensures r.Some? <==> exists i :: 0 <= i < |fields| && fields[i].0 == key
    ensures r.Some? ==> exists i :: 0 <= i < |fields| && fields[i] == (key, r.value)
  {
    if |fields| == 0 then None
    else if fields[0].0 == key then Some(fields[0].1)
    else
      var r := Get(fields[1..], key);
      assert forall i :: 0 < i < |fields| ==> fields[i] == fields[1..][i - 1];
      r
  }

  /** Python's truth value of a decoded JSON value: `None`, `False`, `0`, `""`,
      `[]` and `{}` are false, everything else is true. */
  predicate Truthy(j: Json) {
    match j
    case JNull => false
    case JBool(b) => b
    case JInt(i) => i != 0
    case JStr(s) => |s| > 0
    case JArr(xs) => |xs| > 0
    case JObj(fs) => |fs| > 0
  }

  /** Python's `str(j)`: a string is itself, anything else is its `repr`. */
  function ToStr(j: Json): (s: string)
    ensures j.JStr? ==> s == j.s
    ensures |s| == 0 <==> j == JStr("")
  {
    match j
    case JStr(s) => s
    case _ => Repr(j)
  }

  /** Python's `repr(j)`. */
  function Repr(j: Json): (s: string)
    ensures |s| > 0
  {
    match j
    case JNull => "None"
    case JBool(b) => if b then "True" else "False"
    case JInt(i) => IntToDecimal(i)
    case JStr(s) => StrRepr(s)
    case JArr(xs) =>
      "[" + Join(seq(|xs|, k requires 0 <= k < |xs| => Repr(xs[k]))) + "]"
    case JObj(fs) =>
      "{" + Join(seq(|fs|, k requires 0 <= k < |fs| => StrRepr(fs[k].0) + ": " + Repr(fs[k].1))) + "}"
  }

  /** The parts joined by `", "`, as in Python's list and dict `repr`. */
  function Join(parts: seq<string>): string {
    if |parts| == 0 then ""
    else if |parts| == 1 then parts[0]
    else parts[0] + ", " + Join(parts[1..])
  }

  function IntToDecimal(i: int): (s: string)
    ensures |s| > 0
  {
    if i < 0 then "-" + NatToDecimal(-i) else NatToDecimal(i)
  }

  function NatToDecimal(n: nat): (s: string)
    ensures |s| > 0
    decreases n
  {
    var digit := ["0123456789"[n % 10]];
    if n < 10 then digit else NatToDecimal(n / 10) + digit
  }

  /** Python's `repr` of a string: single quotes unless the text holds a single
      quote and no double quote, with the quote and non-printable Latin-1
      characters escaped. */
  function StrRepr(s: string): (r: string)
    ensures |r| >= 2
  {
    var quote := if '\'' in s && '"' !in s then '"' else '\'';
    [quote] + Escape(s, quote) + [quote]
  }

  function Escape(s: string, quote: char): string {
    if |s| == 0 then "" else EscapeChar(s[0], quote) + Escape(s[1..], quote)
  }

  function EscapeChar(c: char, quote: char): string {
    if c == '\\' then "\\\\"
    else if c == quote then ['\\', quote]
    else if c == '\t' then "\\t"
    else if c == '\n' then "\\n"
    else if c == '\r' then "\\r"
    else if c < ' ' || ('\U{7f}' <= c <= '\U{a0}') || c == '\U{ad}' then
      var code := c as int;
      "\\x" + ["0123456789abcdef"[code / 16], "0123456789abcdef"[code % 16]]
    else [c]
  }

  /** What `for item in j` yields: the elements of a list, the one-character
      strings of a string, the keys of a dict; `None`, booleans and numbers are
      not iterable and raise `TypeError` (reported as `None` here). */
  function Iterate(j: Json): (r: Option<seq<Json>>)
    ensures r.None? <==> (j.JNull? || j.JBool? || j.JInt?)
    ensures j.JArr? ==> r == Some(j.items)
    ensures r.Some? && !j.JArr? ==> forall k :: 0 <= k < |r.value| ==> r.value[k].JStr?
  {
    match j
    case JArr(xs) => Some(xs)
    case JStr(s) => Some(seq(|s|, k requires 0 <= k < |s| => JStr([s[k]])))
    case JObj(fs) => Some(seq(|fs|, k requires 0 <= k < |fs| => JStr(fs[k].0)))
    case _ => None
  }
}
