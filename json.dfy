/**
 * The values that cross the bridge (Swift's `Any` as produced by a script
 * message or handed to `JSONSerialization`), and their rendering as JSON
 * text. Numbers are integers; `Foreign` stands for any value that has no JSON
 * form (a class instance, say), which cannot be rendered.
 */
module Json {
  import opened Wrappers
  import StringOrder

  datatype Value =
    | Null
    | Bool(b: bool)
    | Number(n: int)
    | String(s: string)
    | Array(elems: seq<Value>)
    | Object(fields: map<string, Value>)
    | Foreign(kind: string)

  /** `v` contains no `Foreign` value at any depth. */
  predicate Representable(v: Value)
    decreases v
  {
    match v
    case Foreign(_) => false
    case Array(a) => forall i :: 0 <= i < |a| ==> Representable(a[i])
    case Object(o) => forall k :: k in o ==> Representable(o[k])
    case _ => true
  }

  // ---------------------------------------------------------------------
  // Integers

  function DigitChar(d: nat): char
    requires d < 10
  {
    "0123456789"[d]
  }

  predicate IsDigit(c: char) {
    '0' <= c <= '9'
  }

  function DigitValue(c: char): nat
    requires IsDigit(c)
  {
    (c as int) - ('0' as int)
  }

  /** Decimal digits of `n`, most significant first, no leading zeros. */
  function NatToString(n: nat): (r: string)
    ensures |r| > 0
    ensures forall i :: 0 <= i < |r| ==> IsDigit(r[i])
    decreases n
  {
    if n < 10 then [DigitChar(n)] else NatToString(n / 10) + [DigitChar(n % 10)]
  }

  function IntToString(n: int): string {
    if n < 0 then "-" + NatToString(-n) else NatToString(n)
  }

  // ---------------------------------------------------------------------
  // Strings

  function HexChar(d: nat): char
    requires d < 16
  {
    "0123456789abcdef"[d]
  }

  /** A string's characters with `"` and `\` escaped and control characters written as \u00XX. */
  function Escape(s: string): string
    decreases |s|
  {
    if s == [] then ""
    else EscapeChar(s[0]) + Escape(s[1..])
  }

  function EscapeChar(c: char): string {
    if c == '"' then "\\\""
    else if c == '\\' then "\\\\"
    else if c < ' ' then "\\u00" + [HexChar((c as int) / 16), HexChar((c as int) % 16)]
    else [c]
  }

  function Quote(s: string): string {
    "\"" + Escape(s) + "\""
  }

  // ---------------------------------------------------------------------
  // Values

  /** The compact JSON text of a representable value; object members in sorted key order. */
  function Render(v: Value): string
    requires Representable(v)
    decreases v, 1, 0
  {
    match v
    case Null => "null"
    case Bool(b) => if b then "true" else "false"
    case Number(n) => IntToString(n)
    case String(s) => Quote(s)
    case Array(a) => "[" + RenderElems(a, v) + "]"
    case Object(o) => "{" + RenderMembers(StringOrder.SortedKeys(o.Keys), o) + "}"
  }

  /** Rendered elements of an array, separated by commas. */
  function RenderElems(a: seq<Value>, ghost parent: Value): string
    requires forall i :: 0 <= i < |a| ==> a[i] < parent && Representable(a[i])
    decreases parent, 0, |a|
  {
    if a == [] then ""
    else if |a| == 1 then Render(a[0])
    else Render(a[0]) + "," + RenderElems(a[1..], parent)
  }

  /** Rendered `"key":value` members for the listed keys, separated by commas. */
  function RenderMembers(keys: seq<string>, o: map<string, Value>): string
    requires forall i :: 0 <= i < |keys| ==> keys[i] in o
    requires forall k :: k in o ==> Representable(o[k])
    decreases Object(o), 0, |keys|
  {
    if keys == [] then ""
    else if |keys| == 1 then RenderMember(keys[0], o)
    else RenderMember(keys[0], o) + "," + RenderMembers(keys[1..], o)
  }

  function RenderMember(key: string, o: map<string, Value>): string
    requires key in o && Representable(o[key])
    decreases Object(o), 0, 0
  {
    Quote(key) + ":" + Render(o[key])
  }
}
