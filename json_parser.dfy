/**
 * A reader for the JSON text `Render` writes, standing for the decoding the
 * content process does on the other side of the bridge, and the serialiser
 * `Serialize`, whose output is proved to read back as the value serialised.
 */
module JsonParser {
  import opened Wrappers
  import opened Json
  import StringOrder

  /** A value read from a prefix of the input, and the input left over. */
  datatype Parsed<T> = Parsed(value: T, rest: string)

  // ---------------------------------------------------------------------
  // Integers

  /** The number of leading decimal digits of `s`. */
  function DigitSpan(s: string): (k: nat)
    ensures k <= |s|
    ensures forall i :: 0 <= i < k ==> IsDigit(s[i])
    ensures k < |s| ==> !IsDigit(s[k])
    decreases |s|
  {
    if s == [] || !IsDigit(s[0]) then 0 else 1 + DigitSpan(s[1..])
  }

  /** The number a string of decimal digits denotes. */
  function DigitsValue(ds: string): nat
    requires forall i :: 0 <= i < |ds| ==> IsDigit(ds[i])
    decreases |ds|
  {
    if ds == [] then 0 else DigitsValue(ds[..|ds| - 1]) * 10 + DigitValue(ds[|ds| - 1])
  }

  /** An optionally negated run of at least one digit. */
  function ParseNumber(s: string): (r: Option<Parsed<Value>>)
    ensures r.Some? ==> |r.value.rest| < |s|
  {
    var neg := s != [] && s[0] == '-';
    var body := if neg then s[1..] else s;
    var k := DigitSpan(body);
    if k == 0 then None
    else
      var m: int := DigitsValue(body[..k]);
      Some(Parsed(Number(if neg then -m else m), body[k..]))
  }

  // ---------------------------------------------------------------------
  // Strings

  predicate IsHex(c: char) {
    ('0' <= c <= '9') || ('a' <= c <= 'f') || ('A' <= c <= 'F')
  }

  function HexValue(c: char): (d: nat)
    requires IsHex(c)
    ensures d < 16
  {
    if '0' <= c <= '9' then (c as int) - ('0' as int)
    else if 'a' <= c <= 'f' then (c as int) - ('a' as int) + 10
    else (c as int) - ('A' as int) + 10
  }

  /** Prefixes `c` to a parsed string. */
  function Prepend(c: char, r: Option<Parsed<string>>): (q: Option<Parsed<string>>)
    ensures r.Some? <==> q.Some?
    ensures q.Some? ==> q.value == Parsed([c] + r.value.value, r.value.rest)
  {
    match r
    case None => None
    case Some(p) => Some(Parsed([c] + p.value, p.rest))
  }

  /** The characters of a string literal up to and including its closing quote (the opening one already read). */
  function ParseChars(s: string): (r: Option<Parsed<string>>)
    ensures r.Some? ==> |r.value.rest| < |s|
    decreases |s|
  {
    if s == [] then None
    else if s[0] == '"' then Some(Parsed("", s[1..]))
    else if s[0] == '\\' then
      if |s| >= 2 && (s[1] == '"' || s[1] == '\\') then Prepend(s[1], ParseChars(s[2..]))
      else if |s| >= 6 && s[1] == 'u' && IsHex(s[2]) && IsHex(s[3]) && IsHex(s[4]) && IsHex(s[5]) then
        var code := ((HexValue(s[2]) * 16 + HexValue(s[3])) * 16 + HexValue(s[4])) * 16 + HexValue(s[5]);
        if 0xD800 <= code < 0xE000 then None
        else Prepend(code as char, ParseChars(s[6..]))
      else None
    else if s[0] < ' ' then None
    else Prepend(s[0], ParseChars(s[1..]))
  }

  // ---------------------------------------------------------------------
  // Values

  /** Reads `word` at the start of `s`, yielding `v`. */
  function Literal(s: string, word: string, v: Value): (r: Option<Parsed<Value>>)
    requires |word| > 0
    ensures r.Some? ==> |r.value.rest| < |s|
  {
    if |word| <= |s| && s[..|word|] == word then Some(Parsed(v, s[|word|..])) else None
  }

  /** The dictionary a list of members denotes; a later duplicate key wins. */
  function ToMap(pairs: seq<(string, Value)>): map<string, Value>
    decreases |pairs|
  {
    if pairs == [] then map[]
    else
      var m := ToMap(pairs[1..]);
      if pairs[0].0 in m then m else m[pairs[0].0 := pairs[0].1]
  }

  /** One JSON value at the start of `s`, chosen by its first character. */
  function ParseValue(s: string): (r: Option<Parsed<Value>>)
    ensures r.Some? ==> |r.value.rest| < |s|
    decreases |s|, 1
  {
    if s == [] then None
    else
      match s[0]
      case 'n' => Literal(s, "null", Null)
      case 't' => Literal(s, "true", Bool(true))
      case 'f' => Literal(s, "false", Bool(false))
      case '"' => ParseString(s)
      case '[' => ParseArray(s)
      case '{' => ParseObject(s)
      case _ => ParseNumber(s)
  }

  /** A string literal, opening quote included. */
  function ParseString(s: string): (r: Option<Parsed<Value>>)
    requires s != []
    ensures r.Some? ==> |r.value.rest| < |s|
  {
    match ParseChars(s[1..])
    case None => None
    case Some(p) => Some(Parsed(String(p.value), p.rest))
  }

  /** An array, opening bracket included. */
  function ParseArray(s: string): (r: Option<Parsed<Value>>)
    requires s != []
    ensures r.Some? ==> |r.value.rest| < |s|
    decreases |s|, 0
  {
    if |s| > 1 && s[1] == ']' then Some(Parsed(Array([]), s[2..]))
    else
      match ParseElems(s[1..])
      case None => None
      case Some(p) => Some(Parsed(Array(p.value), p.rest))
  }

  /** An object, opening brace included. */
  function ParseObject(s: string): (r: Option<Parsed<Value>>)
    requires s != []
    ensures r.Some? ==> |r.value.rest| < |s|
    decreases |s|, 0
  {
    if |s| > 1 && s[1] == '}' then Some(Parsed(Object(map[]), s[2..]))
    else
      match ParseMembers(s[1..])
      case None => None
      case Some(p) => Some(Parsed(Object(ToMap(p.value)), p.rest))
  }

  /** `value (',' value)* ']'`, after the opening bracket. */
  function ParseElems(s: string): (r: Option<Parsed<seq<Value>>>)
    ensures r.Some? ==> |r.value.rest| < |s|
    decreases |s|, 2
  {
    match ParseValue(s)
    case None => None
    case Some(p) =>
      if p.rest == [] then None
      else if p.rest[0] == ']' then Some(Parsed([p.value], p.rest[1..]))
      else if p.rest[0] == ',' then
        match ParseElems(p.rest[1..])
        case None => None
        case Some(q) => Some(Parsed([p.value] + q.value, q.rest))
      else None
  }

  /** One `"key":value` member. */
  function ParseMember(s: string): (r: Option<Parsed<(string, Value)>>)
    ensures r.Some? ==> |r.value.rest| < |s|
    decreases |s|, 2
  {
    if s == [] || s[0] != '"' then None
    else
      match ParseChars(s[1..])
      case None => None
      case Some(k) =>
        if k.rest == [] || k.rest[0] != ':' then None
        else
          match ParseValue(k.rest[1..])
          case None => None
          case Some(p) => Some(Parsed((k.value, p.value), p.rest))
  }

  /** `member (',' member)* '}'`, after the opening brace. */
  function ParseMembers(s: string): (r: Option<Parsed<seq<(string, Value)>>>)
    ensures r.Some? ==> |r.value.rest| < |s|
    decreases |s|, 3
  {
    match ParseMember(s)
    case None => None
    case Some(p) =>
      if p.rest == [] then None
      else if p.rest[0] == '}' then Some(Parsed([p.value], p.rest[1..]))
      else if p.rest[0] == ',' then
        match ParseMembers(p.rest[1..])
        case None => None
        case Some(q) => Some(Parsed([p.value] + q.value, q.rest))
      else None
  }

  /** The value a complete JSON text denotes, if it is one. */
  function Decode(s: string): Option<Value> {
    match ParseValue(s)
    case Some(p) => if p.rest == [] then Some(p.value) else None
    case None => None
  }

  // ---------------------------------------------------------------------
  // Round trip

  lemma DigitCharValue(d: nat)
    requires d < 10
    ensures IsDigit(DigitChar(d)) && DigitValue(DigitChar(d)) == d
  {
  }

  lemma {:induction false} NatToStringValue(n: nat)
    ensures DigitsValue(NatToString(n)) == n
    decreases n
  {
    var s := NatToString(n);
    if n < 10 {
      DigitCharValue(n);
      assert s[..|s| - 1] == [];
    } else {
      NatToStringValue(n / 10);
      DigitCharValue(n % 10);
      assert s[..|s| - 1] == NatToString(n / 10);
    }
  }

  lemma {:induction false} DigitSpanOf(ds: string, rest: string)
    requires forall i :: 0 <= i < |ds| ==> IsDigit(ds[i])
    requires rest == [] || !IsDigit(rest[0])
    ensures DigitSpan(ds + rest) == |ds|
    decreases |ds|
  {
    if ds == [] {
      assert ds + rest == rest;
    } else {
      assert (ds + rest)[1..] == ds[1..] + rest;
      DigitSpanOf(ds[1..], rest);
    }
  }

  /** Reading back the digits of a natural number, followed by a non-digit. */
  lemma DigitsRoundTrip(n: nat, rest: string)
    requires rest == [] || !IsDigit(rest[0])
    ensures var body := NatToString(n) + rest;
      DigitSpan(body) == |NatToString(n)| &&
      DigitsValue(body[..DigitSpan(body)]) == n && body[DigitSpan(body)..] == rest
  {
    var ds := NatToString(n);
    NatToStringValue(n);
    DigitSpanOf(ds, rest);
    assert (ds + rest)[..|ds|] == ds;
    assert (ds + rest)[|ds|..] == rest;
  }

  lemma NumberRoundTrip(n: int, rest: string)
    requires rest == [] || !IsDigit(rest[0])
    ensures ParseNumber(IntToString(n) + rest) == Some(Parsed(Number(n), rest))
  {
    var s := IntToString(n) + rest;
    if n < 0 {
      NegativeRoundTrip(-n, rest, s);
    } else {
      NonNegativeRoundTrip(n, rest, s);
    }
  }

  lemma NegativeRoundTrip(m: nat, rest: string, s: string)
    requires m > 0 && (rest == [] || !IsDigit(rest[0]))
    requires s == "-" + NatToString(m) + rest
    ensures ParseNumber(s) == Some(Parsed(Number(-(m as int)), rest))
  {
    DigitsRoundTrip(m, rest);
    AfterFirst('-', NatToString(m), rest);
    NegativeText(s, NatToString(m) + rest, m);
  }

  lemma NegativeText(s: string, body: string, m: nat)
    requires |s| > 0 && s[0] == '-' && s[1..] == body
    requires DigitSpan(body) > 0 && DigitsValue(body[..DigitSpan(body)]) == m
    ensures ParseNumber(s) == Some(Parsed(Number(-(m as int)), body[DigitSpan(body)..]))
  {
  }

  lemma NonNegativeRoundTrip(m: nat, rest: string, s: string)
    requires rest == [] || !IsDigit(rest[0])
    requires s == NatToString(m) + rest
    ensures ParseNumber(s) == Some(Parsed(Number(m), rest))
  {
    DigitsRoundTrip(m, rest);
    assert IsDigit(s[0]);
  }

  lemma HexCharValue(d: nat)
    requires d < 16
    ensures IsHex(HexChar(d)) && HexValue(HexChar(d)) == d
  {
  }

  lemma EscapeCharRoundTrip(c: char, t: string)
    ensures ParseChars(EscapeChar(c) + t) == Prepend(c, ParseChars(t))
  {
    var s := EscapeChar(c) + t;
    if c == '"' || c == '\\' {
      assert s[2..] == t;
    } else if c < ' ' {
      var hi, lo := (c as int) / 16, (c as int) % 16;
      HexCharValue(0);
      HexCharValue(hi);
      HexCharValue(lo);
      assert s[..6] == ['\\', 'u', '0', '0', HexChar(hi), HexChar(lo)];
      assert s[6..] == t;
    } else {
      assert s[1..] == t;
    }
  }

  lemma {:induction false} EscapeRoundTrip(x: string, rest: string)
    ensures ParseChars(Escape(x) + "\"" + rest) == Some(Parsed(x, rest))
    decreases |x|
  {
    if x == [] {
      assert Escape(x) + "\"" + rest == "\"" + rest;
    } else {
      var t := Escape(x[1..]) + "\"" + rest;
      assert Escape(x) + "\"" + rest == EscapeChar(x[0]) + t;
      EscapeCharRoundTrip(x[0], t);
      EscapeRoundTrip(x[1..], rest);
      assert [x[0]] + x[1..] == x;
    }
  }

  /** What may follow a value inside a JSON text. */
  predicate Delimited(rest: string) {
    rest == [] || rest[0] == ',' || rest[0] == ']' || rest[0] == '}'
  }

  /** The members of `o` listed in the order of `keys`. */
  function Pairs(keys: seq<string>, o: map<string, Value>): seq<(string, Value)>
    requires forall i :: 0 <= i < |keys| ==> keys[i] in o
    decreases |keys|
  {
    if keys == [] then [] else [(keys[0], o[keys[0]])] + Pairs(keys[1..], o)
  }

  lemma {:induction false} PairsToMap(keys: seq<string>, o: map<string, Value>)
    requires forall i :: 0 <= i < |keys| ==> keys[i] in o
    ensures forall k :: k in ToMap(Pairs(keys, o)) <==> k in keys
    ensures forall k :: k in ToMap(Pairs(keys, o)) ==> ToMap(Pairs(keys, o))[k] == o[k]
    decreases |keys|
  {
    if keys != [] {
      PairsToMap(keys[1..], o);
      assert Pairs(keys, o)[1..] == Pairs(keys[1..], o);
      forall k ensures k in keys <==> k == keys[0] || k in keys[1..] {
        assert keys == [keys[0]] + keys[1..];
      }
    }
  }

  lemma RenderNotEmpty(v: Value)
    requires Representable(v)
    ensures |Render(v)| > 0
    ensures Render(v)[0] in "ntf\"-0123456789[{"
  {
    match v
    case Number(n) =>
      var ds := NatToString(if n < 0 then -n else n);
      assert IsDigit(ds[0]);
    case _ =>
  }

  // Each of these states what ParseValue does on one kind of first character.

  lemma ParseValueNumber(s: string)
    requires |s| > 0 && (s[0] == '-' || IsDigit(s[0]))
    ensures ParseValue(s) == ParseNumber(s)
  {
    assert s[0] != 'n' && s[0] != 't' && s[0] != 'f' && s[0] != '"' && s[0] != '[' && s[0] != '{';
  }

  lemma ParseValueString(s: string)
    requires |s| > 0 && s[0] == '"'
    ensures ParseValue(s) == ParseString(s)
  {
  }

  lemma ParseValueArray(s: string)
    requires |s| > 0 && s[0] == '['
    ensures ParseValue(s) == ParseArray(s)
  {
  }

  lemma ParseValueObject(s: string)
    requires |s| > 0 && s[0] == '{'
    ensures ParseValue(s) == ParseObject(s)
  {
  }

  lemma LiteralRoundTrip(word: string, v: Value, rest: string)
    requires word == "null" || word == "true" || word == "false"
    requires v == (if word == "null" then Null else Bool(word == "true"))
    ensures ParseValue(word + rest) == Some(Parsed(v, rest))
  {
    var s := word + rest;
    assert s[..|word|] == word && s[|word|..] == rest;
    assert s[0] == word[0];
  }

  lemma StringRoundTrip(x: string, rest: string)
    ensures ParseValue(Quote(x) + rest) == Some(Parsed(String(x), rest))
  {
    var s := "\"" + (Escape(x) + "\"" + rest);
    assert Quote(x) + rest == s;
    ParseValueString(s);
    assert s[1..] == Escape(x) + "\"" + rest;
    EscapeRoundTrip(x, rest);
  }

  lemma IntRoundTrip(n: int, rest: string)
    requires rest == [] || !IsDigit(rest[0])
    ensures ParseValue(IntToString(n) + rest) == Some(Parsed(Number(n), rest))
  {
    RenderNotEmpty(Number(n));
    ParseValueNumber(IntToString(n) + rest);
    NumberRoundTrip(n, rest);
  }

  lemma {:induction false} ValueRoundTrip(v: Value, rest: string)
    requires Representable(v) && Delimited(rest)
    ensures ParseValue(Render(v) + rest) == Some(Parsed(v, rest))
    decreases v, 2, 0
  {
    match v
    case Null => LiteralRoundTrip("null", v, rest);
    case Bool(b) => LiteralRoundTrip(if b then "true" else "false", v, rest);
    case Number(n) => IntRoundTrip(n, rest);
    case String(x) => StringRoundTrip(x, rest);
    case Array(a) => ArrayRoundTrip(v, rest);
    case Object(o) => ObjectRoundTrip(v, rest);
  }

  lemma {:induction false} ArrayRoundTrip(v: Value, rest: string)
    requires v.Array? && Representable(v) && Delimited(rest)
    ensures ParseValue(Render(v) + rest) == Some(Parsed(v, rest))
    decreases v, 1, 1
  {
    var a := v.elems;
    if a == [] {
      assert Render(v) == "[]";
      EmptyRoundTrip('[', ']', Array([]), rest);
    } else {
      var e := RenderElems(a, v);
      ElemsRoundTrip(a, v, rest);
      RenderNotEmpty(a[0]);
      ElemsStart(a, v, "]" + rest);
      Assoc(e, "]", rest);
      ArrayText(e, "]" + rest, a, rest);
      Regroup("[", e, "]", rest);
    }
  }

  /** `[]` or `{}` followed by `rest`. */
  lemma EmptyRoundTrip(open: char, close: char, v: Value, rest: string)
    requires (open == '[' && close == ']' && v == Array([])) || (open == '{' && close == '}' && v == Object(map[]))
    ensures ParseValue([open, close] + rest) == Some(Parsed(v, rest))
  {
    var s := [open, close] + rest;
    assert s[2..] == rest;
    if open == '[' {
      ParseValueArray(s);
    } else {
      ParseValueObject(s);
    }
  }

  /** The array whose elements' text `e` is followed by `t`. */
  lemma ArrayText(e: string, t: string, a: seq<Value>, rest: string)
    requires |e + t| > 0 && (e + t)[0] != ']'
    requires ParseElems(e + t) == Some(Parsed(a, rest))
    ensures ParseValue("[" + (e + t)) == Some(Parsed(Array(a), rest))
  {
    assert ("[" + (e + t))[1..] == e + t;
    ArrayFromElems("[" + (e + t), a, rest);
  }

  lemma ElemsStart(a: seq<Value>, parent: Value, t: string)
    requires |a| > 0
    requires forall i :: 0 <= i < |a| ==> a[i] < parent && Representable(a[i])
    requires |Render(a[0])| > 0 && Render(a[0])[0] != ']'
    ensures |RenderElems(a, parent) + t| > 0 && (RenderElems(a, parent) + t)[0] != ']'
  {
  }

  lemma ArrayFromElems(s: string, a: seq<Value>, rest: string)
    requires |s| > 1 && s[0] == '[' && s[1] != ']'
    requires ParseElems(s[1..]) == Some(Parsed(a, rest))
    ensures ParseValue(s) == Some(Parsed(Array(a), rest))
  {
    ParseValueArray(s);
  }

  lemma ObjectFromMembers(s: string, pairs: seq<(string, Value)>, rest: string)
    requires |s| > 1 && s[0] == '{' && s[1] != '}'
    requires ParseMembers(s[1..]) == Some(Parsed(pairs, rest))
    ensures ParseValue(s) == Some(Parsed(Object(ToMap(pairs)), rest))
  {
    ParseValueObject(s);
  }

  /** The members of `o` in sorted key order denote `o` again. */
  lemma SortedPairs(o: map<string, Value>)
    ensures ToMap(Pairs(StringOrder.SortedKeys(o.Keys), o)) == o
  {
    var keys := StringOrder.SortedKeys(o.Keys);
    PairsToMap(keys, o);
  }

  lemma MembersStartWithQuote(keys: seq<string>, o: map<string, Value>)
    requires |keys| > 0
    requires forall i :: 0 <= i < |keys| ==> keys[i] in o
    requires forall k :: k in o ==> Representable(o[k])
    ensures |RenderMembers(keys, o)| > 0 && RenderMembers(keys, o)[0] == '"'
  {
  }

  lemma {:induction false} ObjectRoundTrip(v: Value, rest: string)
    requires v.Object? && Representable(v) && Delimited(rest)
    ensures ParseValue(Render(v) + rest) == Some(Parsed(v, rest))
    decreases v, 1, 1
  {
    var o := v.fields;
    var keys := StringOrder.SortedKeys(o.Keys);
    if keys == [] {
      assert o == map[];
      assert Render(v) == "{}";
      EmptyRoundTrip('{', '}', Object(map[]), rest);
    } else {
      SortedPairs(o);
      NonEmptyObjectRoundTrip(v, keys, rest, Render(v) + rest);
    }
  }

  lemma {:induction false} NonEmptyObjectRoundTrip(v: Value, keys: seq<string>, rest: string, s: string)
    requires v.Object? && Representable(v) && Delimited(rest)
    requires keys == StringOrder.SortedKeys(v.fields.Keys) && keys != []
    requires ToMap(Pairs(keys, v.fields)) == v.fields
    requires s == Render(v) + rest
    ensures ParseValue(s) == Some(Parsed(v, rest))
    decreases v, 1, 0
  {
    var o := v.fields;
    var inner := RenderMembers(keys, o) + "}" + rest;
    ObjectText(v, rest, s);
    MembersRoundTrip(keys, o, rest);
    MembersStartWithQuote(keys, o);
    ObjectFromMembers(s, Pairs(keys, o), rest);
  }

  lemma ObjectText(v: Value, rest: string, s: string)
    requires v.Object? && Representable(v)
    requires s == Render(v) + rest
    ensures s == "{" + (RenderMembers(StringOrder.SortedKeys(v.fields.Keys), v.fields) + "}" + rest)
  {
  }

  /** ParseElems after one element has been read. */
  lemma ParseElemsStep(s: string, v: Value, t: string)
    requires ParseValue(s) == Some(Parsed(v, t))
    ensures ParseElems(s) == if t == [] then None
                             else if t[0] == ']' then Some(Parsed([v], t[1..]))
                             else if t[0] == ',' then
                               match ParseElems(t[1..])
                               case None => None
                               case Some(q) => Some(Parsed([v] + q.value, q.rest))
                             else None
  {
  }

  lemma {:induction false} ElemsRoundTrip(a: seq<Value>, parent: Value, rest: string)
    requires |a| > 0
    requires forall i :: 0 <= i < |a| ==> a[i] < parent && Representable(a[i])
    requires Delimited(rest)
    ensures ParseElems(RenderElems(a, parent) + "]" + rest) == Some(Parsed(a, rest))
    decreases parent, 0, |a|
  {
    var s := RenderElems(a, parent) + "]" + rest;
    var v := a[0];
    if |a| == 1 {
      var t := "]" + rest;
      assert RenderElems(a, parent) == Render(v);
      Assoc(Render(v), "]", rest);
      ValueRoundTrip(v, t);
      LastElem(s, v, rest);
      assert a == [v];
    } else {
      var inner := RenderElems(a[1..], parent) + "]" + rest;
      var t := "," + inner;
      ListText(RenderElems(a, parent), Render(v), RenderElems(a[1..], parent), "]", rest);
      ValueRoundTrip(v, t);
      ElemsRoundTrip(a[1..], parent, rest);
      NextElem(s, v, inner, a[1..], rest);
      assert [v] + a[1..] == a;
    }
  }

  lemma LastElem(s: string, v: Value, rest: string)
    requires ParseValue(s) == Some(Parsed(v, "]" + rest))
    ensures ParseElems(s) == Some(Parsed([v], rest))
  {
    var t := "]" + rest;
    ParseElemsStep(s, v, t);
    assert t[1..] == rest;
  }

  lemma NextElem(s: string, v: Value, inner: string, tail: seq<Value>, rest: string)
    requires ParseValue(s) == Some(Parsed(v, "," + inner))
    requires ParseElems(inner) == Some(Parsed(tail, rest))
    ensures ParseElems(s) == Some(Parsed([v] + tail, rest))
  {
    var t := "," + inner;
    ParseElemsStep(s, v, t);
    assert t[1..] == inner;
  }

  lemma {:induction false} MembersRoundTrip(keys: seq<string>, o: map<string, Value>, rest: string)
    requires |keys| > 0
    requires forall i :: 0 <= i < |keys| ==> keys[i] in o
    requires forall k :: k in o ==> Representable(o[k])
    requires Delimited(rest)
    ensures ParseMembers(RenderMembers(keys, o) + "}" + rest) == Some(Parsed(Pairs(keys, o), rest))
    decreases Object(o), 0, |keys|
  {
    var k := keys[0];
    var s := RenderMembers(keys, o) + "}" + rest;
    if |keys| == 1 {
      var u := "}" + rest;
      assert RenderMembers(keys, o) == RenderMember(k, o);
      Assoc(RenderMember(k, o), "}", rest);
      MemberRoundTrip(k, o, u);
      LastMember(s, (k, o[k]), rest);
      assert Pairs(keys, o) == [(k, o[k])];
    } else {
      var inner := RenderMembers(keys[1..], o) + "}" + rest;
      var u := "," + inner;
      ListText(RenderMembers(keys, o), RenderMember(k, o), RenderMembers(keys[1..], o), "}", rest);
      MemberRoundTrip(k, o, u);
      MembersRoundTrip(keys[1..], o, rest);
      NextMember(s, (k, o[k]), inner, Pairs(keys[1..], o), rest);
    }
  }

  /** A list text `x,y` followed by its closing bracket and `rest`, split after `x`. */
  lemma ListText(whole: string, x: string, y: string, close: string, rest: string)
    requires whole == x + "," + y
    ensures whole + close + rest == x + ("," + (y + close + rest))
  {
    Splice(x, ",", y, close + rest);
  }

  lemma Splice(a: string, b: string, c: string, d: string)
    ensures a + b + c + d == a + (b + (c + d))
  {
  }

  /** One `"key":value` member, read up to what follows its value. */
  lemma MemberRoundTrip(k: string, o: map<string, Value>, u: string)
    requires k in o && Representable(o[k]) && Delimited(u)
    ensures ParseMember(RenderMember(k, o) + u) == Some(Parsed((k, o[k]), u))
    decreases Object(o), 0, 0
  {
    var w := Render(o[k]);
    var t := ":" + w + u;
    ValueRoundTrip(o[k], u);
    AfterFirst(':', w, u);
    Regroup(Quote(k), ":", w, u);
    MemberText(k, t, o[k], u, RenderMember(k, o) + u);
  }

  lemma Regroup(a: string, b: string, c: string, d: string)
    ensures a + b + c + d == a + (b + c + d)
  {
  }

  lemma Assoc(a: string, b: string, c: string)
    ensures a + b + c == a + (b + c)
  {
  }

  lemma AfterFirst(x: char, w: string, u: string)
    ensures ([x] + w + u)[1..] == w + u
  {
  }

  /** A member whose key is `k` and whose text after the key is `t`. */
  lemma MemberText(k: string, t: string, v: Value, u: string, s: string)
    requires s == Quote(k) + t
    requires |t| > 0 && t[0] == ':' && ParseValue(t[1..]) == Some(Parsed(v, u))
    ensures ParseMember(s) == Some(Parsed((k, v), u))
  {
    KeyRoundTrip(k, t);
    MemberAfterKey(s, k, t, v, u);
  }

  /** The key of a member and the text after it. */
  lemma KeyRoundTrip(k: string, t: string)
    ensures var s := Quote(k) + t; |s| > 0 && s[0] == '"' && ParseChars(s[1..]) == Some(Parsed(k, t))
  {
    var s := Quote(k) + t;
    assert s == "\"" + (Escape(k) + "\"" + t);
    assert s[1..] == Escape(k) + "\"" + t;
    EscapeRoundTrip(k, t);
  }

  lemma MemberAfterKey(s: string, k: string, t: string, v: Value, u: string)
    requires |s| > 0 && s[0] == '"' && ParseChars(s[1..]) == Some(Parsed(k, t))
    requires |t| > 0 && t[0] == ':' && ParseValue(t[1..]) == Some(Parsed(v, u))
    ensures ParseMember(s) == Some(Parsed((k, v), u))
  {
  }

  /** ParseMembers after one member has been read. */
  lemma ParseMembersStep(s: string, m: (string, Value), t: string)
    requires ParseMember(s) == Some(Parsed(m, t))
    ensures ParseMembers(s) == if t == [] then None
                               else if t[0] == '}' then Some(Parsed([m], t[1..]))
                               else if t[0] == ',' then
                                 match ParseMembers(t[1..])
                                 case None => None
                                 case Some(q) => Some(Parsed([m] + q.value, q.rest))
                               else None
  {
  }

  lemma LastMember(s: string, m: (string, Value), rest: string)
    requires ParseMember(s) == Some(Parsed(m, "}" + rest))
    ensures ParseMembers(s) == Some(Parsed([m], rest))
  {
    var t := "}" + rest;
    ParseMembersStep(s, m, t);
    assert t[1..] == rest;
  }

  lemma NextMember(s: string, m: (string, Value), inner: string, tail: seq<(string, Value)>, rest: string)
    requires ParseMember(s) == Some(Parsed(m, "," + inner))
    requires ParseMembers(inner) == Some(Parsed(tail, rest))
    ensures ParseMembers(s) == Some(Parsed([m] + tail, rest))
  {
    var t := "," + inner;
    ParseMembersStep(s, m, t);
    assert t[1..] == inner;
  }

  /**
   * JSONSerialization.data(withJSONObject:): the JSON text of `v`, or None
   * when `v` holds a value with no JSON form. The text reads back as `v`.
   */
  function Serialize(v: Value): (r: Option<string>)
    ensures r.Some? <==> Representable(v)
    ensures r.Some? ==> Decode(r.value) == Some(v)
  {
    if Representable(v) then
      ValueRoundTrip(v, "");
      assert Render(v) + "" == Render(v);
      Some(Render(v))
    else None
  }
}
