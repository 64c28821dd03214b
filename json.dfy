/**
 * `JSON.stringify` and `JSON.parse` over the values of JsValue, as the
 * session store uses them to keep a value in browser storage as text.
 *
 * Stringify works in two steps, as JavaScript's does: the value is first
 * projected onto JSON (`Normalize`: an undefined array item becomes null, a
 * property whose value is undefined is dropped), then written as text with no
 * whitespace (`Encode`). A top-level undefined has no JSON text at all.
 * Parse reads the JSON grammar (whitespace, literals, strings with escapes,
 * integers, arrays, objects) and fails on anything else.
 */
module JsonCodec {
  import opened Optional
  import opened JsValue
  import opened Decimal

  /** A value JSON can represent: undefined occurs nowhere in it. */
  predicate IsJson(v: Value)
    decreases v
  {
    match v
    case Undefined => false
    case Arr(vs) => forall i | 0 <= i < |vs| :: IsJson(vs[i])
    case Obj(fs) => forall i | 0 <= i < |fs| :: IsJson(fs[i].val)
    case _ => true
  }

  // ---------------------------------------------------------------------------
  // JSON.stringify

  /** The JSON projection of a value; undefined in an array slot becomes null. */
  function Normalize(v: Value): (r: Value)
    ensures IsJson(r)
    decreases v
  {
    match v
    case Undefined => Null
    case Arr(vs) => Arr(NormalizeItems(vs))
    case Obj(fs) => Obj(NormalizeFields(fs))
    case _ => v
  }

  function NormalizeItems(vs: seq<Value>): (r: seq<Value>)
    ensures |r| == |vs|
    ensures forall i | 0 <= i < |r| :: IsJson(r[i])
    decreases vs
  {
    if vs == [] then [] else [Normalize(vs[0])] + NormalizeItems(vs[1..])
  }

  /**
   * Properties whose value is undefined are left out of the text: an entry
   * that is undefined itself, and every entry of a key whose last entry, the
   * one lookup sees, is undefined.
   */
  function NormalizeFields(fs: seq<Field>): (r: seq<Field>)
    ensures |r| <= |fs|
    ensures forall i | 0 <= i < |r| :: IsJson(r[i].val)
    decreases fs
  {
    if fs == [] then []
    else
      var head := if fs[0].val.Undefined? || Lookup(fs, fs[0].key).Undefined? then [] else [Field(fs[0].key, Normalize(fs[0].val))];
      head + NormalizeFields(fs[1..])
  }

  /** The characters a JSON value's text can start with. */
  predicate StartsValue(c: char) {
    c == 'n' || c == 't' || c == 'f' || c == '"' || c == '[' || c == '{' || c == '-' || IsDigit(c)
  }

  /** The text of a JSON value, without whitespace. */
  function Encode(v: Value): (r: string)
    ensures |r| > 0 && StartsValue(r[0])
    decreases v
  {
    match v
    case Undefined => "null"
    case Null => "null"
    case Bool(b) => if b then "true" else "false"
    case Num(n) => NumberText(n)
    case Str(s) => Quote(s)
    case Arr(vs) => "[" + EncodeItems(vs)
    case Obj(fs) => "{" + EncodeMembers(fs)
  }

  /** The items of an array after its `[`, up to and including the closing `]`. */
  function EncodeItems(vs: seq<Value>): string
    decreases vs
  {
    if vs == [] then "]"
    else Encode(vs[0]) + (if |vs| == 1 then "]" else "," + EncodeItems(vs[1..]))
  }

  /** The members of an object after its `{`, up to and including the closing `}`. */
  function EncodeMembers(fs: seq<Field>): string
    decreases fs
  {
    if fs == [] then "}"
    else Quote(fs[0].key) + ":" + Encode(fs[0].val) + (if |fs| == 1 then "}" else "," + EncodeMembers(fs[1..]))
  }

  function Quote(s: string): string {
    "\"" + EscapeText(s) + "\""
  }

  const Backspace: char := 8 as char
  const FormFeed: char := 12 as char

  /** The escaping JSON.stringify applies to one character of a string. */
  function EscapeChar(c: char): string {
    if c == '"' then "\\\""
    else if c == '\\' then "\\\\"
    else if c == Backspace then "\\b"
    else if c == FormFeed then "\\f"
    else if c == '\n' then "\\n"
    else if c == '\r' then "\\r"
    else if c == '\t' then "\\t"
    else if c < ' ' then "\\u00" + [HexDigit(c as int / 16), HexDigit(c as int % 16)]
    else [c]
  }

  function EscapeText(s: string): string {
    if s == [] then [] else EscapeChar(s[0]) + EscapeText(s[1..])
  }

  predicate IsHex(c: char) {
    '0' <= c <= '9' || 'a' <= c <= 'f' || 'A' <= c <= 'F'
  }

  function HexValue(c: char): (d: int)
    requires IsHex(c)
    ensures 0 <= d < 16
  {
    if c <= '9' then c as int - '0' as int
    else if 'a' <= c then c as int - 'a' as int + 10
    else c as int - 'A' as int + 10
  }

  /** A lower-case hexadecimal digit, as JSON.stringify writes `\u001f`. */
  function HexDigit(d: int): (c: char)
    requires 0 <= d < 16
    ensures IsHex(c) && HexValue(c) == d
  {
    if d < 10 then (('0' as int) + d) as char else (('a' as int) + d - 10) as char
  }

  /** `JSON.stringify(v)`: None for undefined, which has no JSON text. */
  function Stringify(v: Value): (r: Option<string>)
    ensures r.None? <==> v.Undefined?
  {
    if v.Undefined? then None else Some(Encode(Normalize(v)))
  }

  // ---------------------------------------------------------------------------
  // JSON.parse

  predicate IsWs(c: char) {
    c == ' ' || c == '\t' || c == '\n' || c == '\r'
  }

  function SkipWs(s: string): (r: string)
    ensures |r| <= |s|
    ensures r == [] || !IsWs(r[0])
  {
    if s != [] && IsWs(s[0]) then SkipWs(s[1..]) else s
  }

  function Word(s: string, w: string, v: Value): (r: Option<(Value, string)>)
    requires |w| > 0
    ensures r.Some? ==> |r.value.1| < |s| && r.value.0 == v
  {
    if |w| <= |s| && s[..|w|] == w then Some((v, s[|w|..])) else None
  }

  /** The character an escape denotes; `s` is the text after the backslash. */
  function Unescape(s: string): (r: Option<(char, string)>)
    ensures r.Some? ==> |r.value.1| < |s|
  {
    if s == [] then None
    else if s[0] == '"' then Some(('"', s[1..]))
    else if s[0] == '\\' then Some(('\\', s[1..]))
    else if s[0] == '/' then Some(('/', s[1..]))
    else if s[0] == 'b' then Some((Backspace, s[1..]))
    else if s[0] == 'f' then Some((FormFeed, s[1..]))
    else if s[0] == 'n' then Some(('\n', s[1..]))
    else if s[0] == 'r' then Some(('\r', s[1..]))
    else if s[0] == 't' then Some(('\t', s[1..]))
    else if s[0] == 'u' && |s| >= 5 && IsHex(s[1]) && IsHex(s[2]) && IsHex(s[3]) && IsHex(s[4]) then
      var code := HexValue(s[1]) * 4096 + HexValue(s[2]) * 256 + HexValue(s[3]) * 16 + HexValue(s[4]);
      if 0xD800 <= code < 0xE000 then None else Some((code as char, s[5..]))
    else None
  }

  /** The characters of a string literal; `s` is the text after the opening quote. */
  function ParseChars(s: string): (r: Option<(string, string)>)
    ensures r.Some? ==> |r.value.1| < |s|
    decreases |s|
  {
    if s == [] then None
    else if s[0] == '"' then Some(([], s[1..]))
    else if s[0] == '\\' then
      match Unescape(s[1..])
      case None => None
      case Some((c, rest)) =>
        match ParseChars(rest)
        case None => None
        case Some((cs, after)) => Some(([c] + cs, after))
    else if s[0] < ' ' then None
    else
      match ParseChars(s[1..])
      case None => None
      case Some((cs, after)) => Some(([s[0]] + cs, after))
  }

  /** The longest run of digits `s` starts with. */
  function DigitRun(s: string): (r: string)
    ensures |r| <= |s| && r == s[..|r|] && AllDigits(r)
    ensures |r| < |s| ==> !IsDigit(s[|r|])
  {
    if s != [] && IsDigit(s[0]) then [s[0]] + DigitRun(s[1..]) else []
  }

  /** An integer token: an optional minus, then `0` or digits without a leading zero. */
  function ParseNumber(s: string): (r: Option<(Value, string)>)
    ensures r.Some? ==> |r.value.1| < |s| && r.value.0.Num?
  {
    var neg := s != [] && s[0] == '-';
    var t := if neg then s[1..] else s;
    var ds := DigitRun(t);
    var rest := t[|ds|..];
    if ds == [] || (ds[0] == '0' && |ds| > 1) then None
    else if rest != [] && (rest[0] == '.' || rest[0] == 'e' || rest[0] == 'E') then None
    else
      var m: int := DigitsValue(ds);
      Some((Num(if neg then -m else m), rest))
  }

  /** One JSON value after optional whitespace, and the text that follows it. */
  function ParseValue(s: string): (r: Option<(Value, string)>)
    ensures r.Some? ==> |r.value.1| < |s| && IsJson(r.value.0)
    decreases |s|, 2
  {
    var t := SkipWs(s);
    if t == [] then None
    else if t[0] == 'n' then Word(t, "null", Null)
    else if t[0] == 't' then Word(t, "true", Bool(true))
    else if t[0] == 'f' then Word(t, "false", Bool(false))
    else if t[0] == '"' then ParseString(t)
    else if t[0] == '[' then ParseArray(t)
    else if t[0] == '{' then ParseObject(t)
    else if t[0] == '-' || IsDigit(t[0]) then ParseNumber(t)
    else None
  }

  /** A string literal; `t` starts with its opening quote. */
  function ParseString(t: string): (r: Option<(Value, string)>)
    requires t != []
    ensures r.Some? ==> |r.value.1| < |t| && r.value.0.Str?
  {
    match ParseChars(t[1..])
    case None => None
    case Some((cs, rest)) => Some((Str(cs), rest))
  }

  /** An array; `t` starts with its `[`. */
  function ParseArray(t: string): (r: Option<(Value, string)>)
    requires t != []
    ensures r.Some? ==> |r.value.1| < |t| && IsJson(r.value.0)
    decreases |t|, 1
  {
    var u := SkipWs(t[1..]);
    if u != [] && u[0] == ']' then Some((Arr([]), u[1..]))
    else
      match ParseItems(u)
      case None => None
      case Some((vs, rest)) => Some((Arr(vs), rest))
  }

  /** An object; `t` starts with its `{`. */
  function ParseObject(t: string): (r: Option<(Value, string)>)
    requires t != []
    ensures r.Some? ==> |r.value.1| < |t| && IsJson(r.value.0)
    decreases |t|, 1
  {
    var u := SkipWs(t[1..]);
    if u != [] && u[0] == '}' then Some((Obj([]), u[1..]))
    else
      match ParseMembers(u)
      case None => None
      case Some((fs, rest)) => Some((Obj(fs), rest))
  }

  /** `value (, value)* ]`: the items of a non-empty array and the text after it. */
  function ParseItems(s: string): (r: Option<(seq<Value>, string)>)
    ensures r.Some? ==> |r.value.1| < |s| && forall i | 0 <= i < |r.value.0| :: IsJson(r.value.0[i])
    decreases |s|, 3
  {
    match ParseValue(s)
    case None => None
    case Some((v, rest)) =>
      var t := SkipWs(rest);
      if t != [] && t[0] == ',' then
        match ParseItems(t[1..])
        case None => None
        case Some((vs, after)) => Some(([v] + vs, after))
      else if t != [] && t[0] == ']' then Some(([v], t[1..]))
      else None
  }

  /** One `"key": value` member after optional whitespace. */
  function ParseMember(s: string): (r: Option<(Field, string)>)
    ensures r.Some? ==> |r.value.1| < |s| && IsJson(r.value.0.val)
    decreases |s|, 3
  {
    var t := SkipWs(s);
    if t == [] || t[0] != '"' then None
    else
      match ParseChars(t[1..])
      case None => None
      case Some((key, rest)) =>
        var u := SkipWs(rest);
        if u == [] || u[0] != ':' then None
        else
          match ParseValue(u[1..])
          case None => None
          case Some((v, after)) => Some((Field(key, v), after))
  }

  /** `member (, member)* }`: the members of a non-empty object and the text after it. */
  function ParseMembers(s: string): (r: Option<(seq<Field>, string)>)
    ensures r.Some? ==> |r.value.1| < |s| && forall i | 0 <= i < |r.value.0| :: IsJson(r.value.0[i].val)
    decreases |s|, 4
  {
    match ParseMember(s)
    case None => None
    case Some((f, rest)) =>
      var w := SkipWs(rest);
      if w != [] && w[0] == ',' then
        match ParseMembers(w[1..])
        case None => None
        case Some((fs, after)) => Some(([f] + fs, after))
      else if w != [] && w[0] == '}' then Some(([f], w[1..]))
      else None
  }

  /** `JSON.parse(text)`: None where JavaScript throws a SyntaxError. */
  function Parse(text: string): (r: Option<Value>)
    ensures r.Some? ==> IsJson(r.value)
  {
    match ParseValue(text)
    case None => None
    case Some((v, rest)) => if SkipWs(rest) == [] then Some(v) else None
  }

  // ---------------------------------------------------------------------------
  // The round trip

  /** Text that may follow a number token without extending it. */
  predicate Boundary(rest: string) {
    rest == [] || !(IsDigit(rest[0]) || rest[0] == '.' || rest[0] == 'e' || rest[0] == 'E')
  }

  lemma {:induction false} DigitRunOfDigits(ds: string, rest: string)
    requires AllDigits(ds)
    requires rest == [] || !IsDigit(rest[0])
    ensures DigitRun(ds + rest) == ds
  {
    if ds != [] {
      assert (ds + rest)[1..] == ds[1..] + rest;
      DigitRunOfDigits(ds[1..], rest);
      assert ds == [ds[0]] + ds[1..];
    } else {
      assert ds + rest == rest;
    }
  }

  lemma NumberRoundTrip(n: int, rest: string)
    requires Boundary(rest)
    ensures ParseNumber(NumberText(n) + rest) == Some((Num(n), rest))
  {
    var m: nat := if n < 0 then -n else n;
    var ds := Digits(m);
    DigitRunOfDigits(ds, rest);
    DigitsRoundTrip(m);
    assert (ds + rest)[..|ds|] == ds;
    assert (ds + rest)[|ds|..] == rest;
    if n < 0 {
      assert (NumberText(n) + rest)[1..] == ds + rest;
    }
  }

  /** One escaped character reads back as that character. */
  lemma CharRoundTrip(c: char, tail: string, cs: string, after: string)
    requires ParseChars(tail) == Some((cs, after))
    ensures ParseChars(EscapeChar(c) + tail) == Some(([c] + cs, after))
  {
    var s := EscapeChar(c) + tail;
    if c == '"' || c == '\\' || c == Backspace || c == FormFeed || c == '\n' || c == '\r' || c == '\t' {
      assert s[1..][1..] == tail;
    } else if c < ' ' {
      var hi, lo := c as int / 16, c as int % 16;
      assert s[1..][5..] == tail;
      assert s[1..][1..5] == ['0', '0', HexDigit(hi), HexDigit(lo)];
      assert HexValue(s[1..][3]) == hi && HexValue(s[1..][4]) == lo;
      assert (hi * 16 + lo) as char == c;
    } else {
      assert s[1..] == tail;
    }
  }

  /** A string literal reads back as the string it encodes. */
  lemma {:induction false} TextRoundTrip(s: string, rest: string)
    ensures ParseChars(EscapeText(s) + "\"" + rest) == Some((s, rest))
  {
    if s == [] {
      assert EscapeText(s) + "\"" + rest == "\"" + rest;
    } else {
      TextRoundTrip(s[1..], rest);
      assert EscapeText(s) + "\"" + rest == EscapeChar(s[0]) + (EscapeText(s[1..]) + "\"" + rest);
      CharRoundTrip(s[0], EscapeText(s[1..]) + "\"" + rest, s[1..], rest);
      assert [s[0]] + s[1..] == s;
    }
  }

  lemma QuoteRoundTrip(s: string, rest: string)
    ensures ParseChars((Quote(s) + rest)[1..]) == Some((s, rest))
    ensures ParseString(Quote(s) + rest) == Some((Str(s), rest))
  {
    assert (Quote(s) + rest)[1..] == EscapeText(s) + "\"" + rest;
    TextRoundTrip(s, rest);
  }

  /** The text of a JSON value reads back as that value, whatever follows it. */
  lemma {:induction false} ValueRoundTrip(v: Value, rest: string)
    requires IsJson(v) && Boundary(rest)
    ensures ParseValue(Encode(v) + rest) == Some((v, rest))
    decreases v, 1
  {
    var s := Encode(v) + rest;
    assert SkipWs(s) == s;
    match v
    case Null =>
      assert s[..4] == "null";
    case Bool(b) =>
      if b { assert s[..4] == "true"; } else { assert s[..5] == "false"; }
    case Num(n) =>
      NumberRoundTrip(n, rest);
    case Str(str) =>
      QuoteRoundTrip(str, rest);
    case Arr(vs) =>
      ArrayRoundTrip(vs, rest);
    case Obj(fs) =>
      ObjectRoundTrip(fs, rest);
  }

  lemma {:induction false} ArrayRoundTrip(vs: seq<Value>, rest: string)
    requires forall i | 0 <= i < |vs| :: IsJson(vs[i])
    ensures ParseArray(Encode(Arr(vs)) + rest) == Some((Arr(vs), rest))
    decreases vs, 2
  {
    var s := Encode(Arr(vs)) + rest;
    assert s[1..] == EncodeItems(vs) + rest;
    if vs != [] {
      ItemsRoundTrip(vs, rest);
    }
  }

  lemma {:induction false} ObjectRoundTrip(fs: seq<Field>, rest: string)
    requires forall i | 0 <= i < |fs| :: IsJson(fs[i].val)
    ensures ParseObject(Encode(Obj(fs)) + rest) == Some((Obj(fs), rest))
    decreases fs, 1
  {
    var s := Encode(Obj(fs)) + rest;
    assert s[1..] == EncodeMembers(fs) + rest;
    if fs != [] {
      MembersRoundTrip(fs, rest);
    }
  }

  lemma {:induction false} ItemsRoundTrip(vs: seq<Value>, rest: string)
    requires vs != [] && forall i | 0 <= i < |vs| :: IsJson(vs[i])
    ensures ParseItems(EncodeItems(vs) + rest) == Some((vs, rest))
    decreases vs, 1
  {
    if |vs| == 1 {
      LastItem(vs, rest);
    } else {
      assert forall i | 0 <= i < |vs[1..]| :: IsJson(vs[1..][i]);
      ItemsRoundTrip(vs[1..], rest);
      NextItem(vs, rest);
    }
  }

  lemma LastItem(vs: seq<Value>, rest: string)
    requires |vs| == 1 && IsJson(vs[0])
    ensures ParseItems(EncodeItems(vs) + rest) == Some((vs, rest))
    decreases vs, 0
  {
    var tail := "]" + rest;
    assert EncodeItems(vs) + rest == Encode(vs[0]) + tail;
    ValueRoundTrip(vs[0], tail);
    assert SkipWs(tail) == tail && tail[1..] == rest;
    assert vs == [vs[0]];
  }

  lemma NextItem(vs: seq<Value>, rest: string)
    requires |vs| > 1 && IsJson(vs[0])
    requires ParseItems(EncodeItems(vs[1..]) + rest) == Some((vs[1..], rest))
    ensures ParseItems(EncodeItems(vs) + rest) == Some((vs, rest))
    decreases vs, 0
  {
    var more := EncodeItems(vs[1..]) + rest;
    var tail := "," + more;
    assert EncodeItems(vs) + rest == Encode(vs[0]) + tail;
    ValueRoundTrip(vs[0], tail);
    assert SkipWs(tail) == tail && tail[1..] == more;
    assert vs == [vs[0]] + vs[1..];
  }

  lemma {:induction false} MembersRoundTrip(fs: seq<Field>, rest: string)
    requires fs != [] && forall i | 0 <= i < |fs| :: IsJson(fs[i].val)
    ensures ParseMembers(EncodeMembers(fs) + rest) == Some((fs, rest))
    decreases fs, 0
  {
    var f := fs[0];
    assert IsJson(f.val);
    var tail := (if |fs| == 1 then "}" else "," + EncodeMembers(fs[1..])) + rest;
    if |fs| == 1 {
      MembersSplit(fs, rest);
      MemberHead(f, tail);
      LastMember(fs, rest, tail);
    } else {
      var more := EncodeMembers(fs[1..]) + rest;
      assert tail == "," + more;
      assert forall i | 0 <= i < |fs[1..]| :: IsJson(fs[1..][i].val);
      MembersRoundTrip(fs[1..], rest);
      MembersSplit(fs, rest);
      MemberHead(f, tail);
      NextMember(fs, rest, tail);
    }
  }

  lemma LastMember(fs: seq<Field>, rest: string, tail: string)
    requires |fs| == 1 && tail == "}" + rest
    requires ParseMember(EncodeMembers(fs) + rest) == Some((fs[0], tail))
    ensures ParseMembers(EncodeMembers(fs) + rest) == Some((fs, rest))
  {
    assert SkipWs(tail) == tail && tail[1..] == rest;
    assert fs == [fs[0]];
  }

  lemma NextMember(fs: seq<Field>, rest: string, tail: string)
    requires |fs| > 1 && tail != [] && tail[0] == ','
    requires ParseMember(EncodeMembers(fs) + rest) == Some((fs[0], tail))
    requires ParseMembers(tail[1..]) == Some((fs[1..], rest))
    ensures ParseMembers(EncodeMembers(fs) + rest) == Some((fs, rest))
  {
    assert SkipWs(tail) == tail;
    assert fs == [fs[0]] + fs[1..];
  }

  /** An encoded object splits after its first member. */
  lemma MembersSplit(fs: seq<Field>, rest: string)
    requires fs != []
    ensures var tail := (if |fs| == 1 then "}" else "," + EncodeMembers(fs[1..])) + rest;
      EncodeMembers(fs) + rest == Quote(fs[0].key) + (":" + Encode(fs[0].val) + tail) && Boundary(tail)
  {
    var sep := if |fs| == 1 then "}" else "," + EncodeMembers(fs[1..]);
    assert EncodeMembers(fs) == Quote(fs[0].key) + ":" + Encode(fs[0].val) + sep;
    Associate(Quote(fs[0].key), ":", Encode(fs[0].val), sep, rest);
  }

  /** Regrouping of a five-part concatenation, stated on its own for the proof of `MembersSplit`. */
  lemma Associate(a: string, b: string, c: string, d: string, e: string)
    ensures a + b + c + d + e == a + (b + c + (d + e))
  {
  }

  /** `"key":value` reads back as its key and value. */
  lemma MemberHead(f: Field, tail: string)
    requires IsJson(f.val) && Boundary(tail)
    ensures ParseMember(Quote(f.key) + (":" + Encode(f.val) + tail)) == Some((f, tail))
    decreases f.val, 2
  {
    var afterKey := ":" + Encode(f.val) + tail;
    var s := Quote(f.key) + afterKey;
    assert SkipWs(s) == s;
    QuoteRoundTrip(f.key, afterKey);
    assert SkipWs(afterKey) == afterKey;
    assert afterKey[1..] == Encode(f.val) + tail;
    ValueRoundTrip(f.val, tail);
  }

  /** `JSON.parse` undoes the encoding of every JSON value. */
  lemma ParseEncode(v: Value)
    requires IsJson(v)
    ensures Parse(Encode(v)) == Some(v)
  {
    ValueRoundTrip(v, "");
    assert Encode(v) + "" == Encode(v);
  }

  /** The projection leaves a JSON value as it is. */
  lemma {:induction false} NormalizeJson(v: Value)
    requires IsJson(v)
    ensures Normalize(v) == v
    decreases v
  {
    match v
    case Arr(vs) => NormalizeItemsJson(vs);
    case Obj(fs) => NormalizeFieldsJson(fs);
    case _ =>
  }

  lemma {:induction false} NormalizeItemsJson(vs: seq<Value>)
    requires forall i | 0 <= i < |vs| :: IsJson(vs[i])
    ensures NormalizeItems(vs) == vs
    decreases vs
  {
    if vs != [] {
      NormalizeJson(vs[0]);
      NormalizeItemsJson(vs[1..]);
      assert vs == [vs[0]] + vs[1..];
    }
  }

  lemma {:induction false} NormalizeFieldsJson(fs: seq<Field>)
    requires forall i | 0 <= i < |fs| :: IsJson(fs[i].val)
    ensures NormalizeFields(fs) == fs
    decreases fs
  {
    if fs != [] {
      LookupCons(fs[0], fs[1..], fs[0].key);
      LookupJson(fs[1..], fs[0].key);
      NormalizeJson(fs[0].val);
      NormalizeFieldsJson(fs[1..]);
      assert fs == [fs[0]] + fs[1..];
    }
  }

  /** In a list of JSON values, the value a present key looks up is JSON. */
  lemma {:induction false} LookupJson(fs: seq<Field>, k: string)
    requires forall i | 0 <= i < |fs| :: IsJson(fs[i].val)
    ensures HasKey(fs, k) ==> IsJson(Lookup(fs, k))
    decreases |fs|
  {
    if fs != [] && fs[|fs| - 1].key != k {
      var init := fs[..|fs| - 1];
      assert fs == init + [fs[|fs| - 1]];
      HasKeySnoc(init, fs[|fs| - 1], k);
      LookupJson(init, k);
    }
  }

  /**
   * The projection of an object reads, under every key, as the projection of
   * what the object reads there; a key that reads as undefined is gone.
   */
  lemma {:induction false} NormalizeLookup(fs: seq<Field>, k: string)
    ensures Lookup(NormalizeFields(fs), k) == if Lookup(fs, k).Undefined? then Undefined else Normalize(Lookup(fs, k))
    ensures HasKey(NormalizeFields(fs), k) <==> !Lookup(fs, k).Undefined?
    decreases fs
  {
    if fs != [] {
      var tail := fs[1..];
      assert fs == [fs[0]] + tail;
      NormalizeLookup(tail, k);
      LookupCons(fs[0], tail, k);
      var nt := NormalizeFields(tail);
      if !HasKey(tail, k) {
        LookupMissing(tail, k);
      }
      if !HasKey(nt, k) {
        LookupMissing(nt, k);
      }
      if fs[0].val.Undefined? || Lookup(fs, fs[0].key).Undefined? {
        assert NormalizeFields(fs) == nt;
      } else {
        var f := Field(fs[0].key, Normalize(fs[0].val));
        assert NormalizeFields(fs) == [f] + nt;
        LookupCons(f, nt, k);
        HasKeyCons(f, nt, k);
      }
    }
  }

  /** `{a: 1, a: undefined}` is the object `{a: undefined}`, which stringifies to `{}`. */
  lemma ShadowedByUndefined()
    ensures Member(Normalize(Obj([Field("a", Num(1)), Field("a", Undefined)])), "a") == Undefined
  {
    NormalizeLookup([Field("a", Num(1)), Field("a", Undefined)], "a");
  }

  /**
   * `JSON.parse(JSON.stringify(v))` is the JSON projection of `v`, and `v`
   * itself when `v` is JSON.
   */
  lemma StringifyRoundTrip(v: Value)
    requires !v.Undefined?
    ensures Stringify(v).Some? && Parse(Stringify(v).value) == Some(Normalize(v))
    ensures IsJson(v) ==> Parse(Stringify(v).value) == Some(v)
  {
    ParseEncode(Normalize(v));
    if IsJson(v) {
      NormalizeJson(v);
    }
  }
}
