/** JavaScript values as `express.json()` and `response.json()` hand them to the code, and the
    few JavaScript coercions the planner relies on: truthiness, property access, `String(v)`,
    `Array.prototype.join` and `String.prototype.trim`. Numbers are integers here. */
module Json {
  import opened Wrappers

  datatype Json =
    | JNull
    | JBool(b: bool)
    | JNum(n: int)
    | JStr(s: string)
    | JArr(items: seq<Json>)
    | JObj(fields: map<string, Json>)

  /** JavaScript truthiness of a value that is present. */
  predicate Truthy(v: Json) {
    match v
    case JNull => false
    case JBool(b) => b
    case JNum(n) => n != 0
    case JStr(s) => s != ""
    case _ => true
  }

  /** Truthiness of a value that may be `undefined` (modelled as None). */
  predicate Present(v: Option<Json>) {
    v.Some? && Truthy(v.value)
  }

  /** `m.key` on a request body or query object: `undefined` when the key is absent. */
  function Get(m: map<string, Json>, key: string): Option<Json> {
    if key in m then Some(m[key]) else None
  }

  /** `v.key` on a parsed value other than `null`: only an object with that key defines it. */
  function Field(v: Json, key: string): (r: Option<Json>)
    ensures r.Some? ==> v.JObj? && key in v.fields && r.value == v.fields[key]
  {
    if v.JObj? then Get(v.fields, key) else None
  }

  predicate IsAsciiDigit(c: char) {
    '0' <= c <= '9'
  }

  function DigitChar(d: nat): (c: char)
    requires d < 10
    ensures IsAsciiDigit(c)
  {
    ('0' as int + d) as char
  }

  /** The decimal numeral of `n`, without sign or leading zeros. */
  function NatToDecimal(n: nat): (r: string)
    ensures 1 <= |r|
    ensures forall i :: 0 <= i < |r| ==> IsAsciiDigit(r[i])
    decreases n
  {
    if n < 10 then [DigitChar(n)] else NatToDecimal(n / 10) + [DigitChar(n % 10)]
  }

  /** `parts.join(sep)` on strings. */
  function Join(parts: seq<string>, sep: string): string
    decreases |parts|
  {
    if |parts| == 0 then ""
    else if |parts| == 1 then parts[0]
    else parts[0] + sep + Join(parts[1..], sep)
  }

  /** `String(v)`: the coercion that `RegExp.prototype.test`, template literals and the `Error`
      constructor apply to their argument. An array joins its elements with ",". */
  function ToStr(v: Json): string
    decreases v, 1
  {
    match v
    case JNull => "null"
    case JBool(b) => if b then "true" else "false"
    case JNum(n) => if n < 0 then "-" + NatToDecimal(-n) else NatToDecimal(n)
    case JStr(s) => s
    case JArr(items) => Join(seq(|items|, i requires 0 <= i < |items| => ElementStr(items[i])), ",")
    case JObj(_) => "[object Object]"
  }

  /** How `join` renders one element: `null` (and `undefined`) become the empty string. */
  function ElementStr(v: Json): string
    decreases v, 2
  {
    if v.JNull? then "" else ToStr(v)
  }

  /** `items.join(sep)` on an array of arbitrary values. */
  function ArrayJoin(items: seq<Json>, sep: string): string {
    Join(seq(|items|, i requires 0 <= i < |items| => ElementStr(items[i])), sep)
  }

  predicate StartsWith(s: string, prefix: string) {
    |prefix| <= |s| && s[..|prefix|] == prefix
  }

  /** The characters `String.prototype.trim` removes: WhiteSpace (tab, vertical tab, form feed,
      space, no-break space, byte-order mark and the Unicode space separators) and LineTerminator. */
  predicate IsJsWhitespace(c: char) {
    || c == '\t' || c == '\n' || c == '\U{000B}' || c == '\U{000C}' || c == '\r'
    || c == ' ' || c == '\U{00A0}' || c == '\U{1680}'
    || ('\U{2000}' <= c <= '\U{200A}')
    || c == '\U{2028}' || c == '\U{2029}' || c == '\U{202F}' || c == '\U{205F}'
    || c == '\U{3000}' || c == '\U{FEFF}'
  }

  /** `s` consists of whitespace only. */
  predicate AllJsWhitespace(s: string) {
    forall k :: 0 <= k < |s| ==> IsJsWhitespace(s[k])
  }

  /** `r` is the infix of `s` at `i`, preceded and followed in `s` by whitespace only. */
  predicate EdgesStripped(s: string, i: int, r: string) {
    && 0 <= i && i + |r| <= |s| && r == s[i..i + |r|]
    && AllJsWhitespace(s[..i]) && AllJsWhitespace(s[i + |r|..])
  }

  /** `s` without its leading whitespace. */
  function TrimStart(s: string): (r: string)
    ensures |r| <= |s| && r == s[|s| - |r|..]
    ensures forall i :: 0 <= i < |s| - |r| ==> IsJsWhitespace(s[i])
    ensures r != [] ==> !IsJsWhitespace(r[0])
  {
    if s != [] && IsJsWhitespace(s[0]) then TrimStart(s[1..]) else s
  }

  /** `s` without its trailing whitespace. */
  function TrimEnd(s: string): (r: string)
    ensures |r| <= |s| && r == s[..|r|]
    ensures forall i :: |r| <= i < |s| ==> IsJsWhitespace(s[i])
    ensures r != [] ==> !IsJsWhitespace(r[|r| - 1])
  {
    if s != [] && IsJsWhitespace(s[|s| - 1]) then TrimEnd(s[..|s| - 1]) else s
  }

  /** `s.trim()`: the infix of `s` that starts where its leading whitespace ends and is followed
      only by whitespace; empty exactly when `s` is all whitespace. */
  function Trim(s: string): (r: string)
    ensures |r| <= |s|
    ensures r != [] ==> !IsJsWhitespace(r[0]) && !IsJsWhitespace(r[|r| - 1])
    ensures r == [] <==> forall i :: 0 <= i < |s| ==> IsJsWhitespace(s[i])
    ensures EdgesStripped(s, |s| - |TrimStart(s)|, r)
  {
    var t := TrimStart(s);
    var r := TrimEnd(t);
    TrimShape(s, t, r);
    r
  }

  /** What trimming the start `t` of `s` and then the end `r` of `t` leaves, from the two steps'
      own guarantees. */
  lemma {:induction false} TrimShape(s: string, t: string, r: string)
    requires |t| <= |s| && t == s[|s| - |t|..]
    requires forall i :: 0 <= i < |s| - |t| ==> IsJsWhitespace(s[i])
    requires t != [] ==> !IsJsWhitespace(t[0])
    requires |r| <= |t| && r == t[..|r|]
    requires forall j :: |r| <= j < |t| ==> IsJsWhitespace(t[j])
    requires r != [] ==> !IsJsWhitespace(r[|r| - 1])
    ensures |r| <= |s|
    ensures r != [] ==> !IsJsWhitespace(r[0]) && !IsJsWhitespace(r[|r| - 1])
    ensures r == [] <==> forall i :: 0 <= i < |s| ==> IsJsWhitespace(s[i])
    ensures EdgesStripped(s, |s| - |t|, r)
  {
    var i := |s| - |t|;
    assert AllJsWhitespace(s[..i]) by {
      forall k | 0 <= k < i ensures IsJsWhitespace(s[..i][k]) {
        assert s[..i][k] == s[k];
      }
    }
    var j := i + |r|;
    var tail := s[j..];
    assert AllJsWhitespace(tail) by {
      forall k | 0 <= k < |tail| ensures IsJsWhitespace(tail[k]) {
        assert tail[k] == t[k + |r|];
      }
    }
    if r != [] {
      assert r[0] == t[0];
    }
    forall k | i + |r| <= k < |s| ensures IsJsWhitespace(s[k]) {
      assert s[k] == t[k - i];
    }
    if r == [] {
      assert forall k :: 0 <= k < |s| ==> IsJsWhitespace(s[k]);
    } else {
      assert s[i] == r[0];
    }
  }

  /** Trimming twice is trimming once. */
  lemma TrimIdempotent(s: string)
    ensures Trim(Trim(s)) == Trim(s)
  {
    var r := Trim(s);
    if r != [] {
      assert TrimStart(r) == r;
      assert TrimEnd(r) == r;
    }
  }

  /** The string form of an integer has a digit at every index but the first. */
  lemma {:induction false} NumberStringDigits(n: int)
    ensures forall i :: 1 <= i < |ToStr(JNum(n))| ==> IsAsciiDigit(ToStr(JNum(n))[i])
  {
  }

  /** Only a string, or an array whose elements it joins, can have the string form of a
      `YYYY-MM-DD` date: the forms of null, booleans, numbers and objects have no '-' at index 4. */
  lemma DashAtFourOnlyInStringsOrArrays(v: Json)
    requires |ToStr(v)| == 10 && ToStr(v)[4] == '-'
    ensures v.JStr? || v.JArr?
  {
    if v.JNum? {
      NumberStringDigits(v.n);
      assert false;
    }
  }
}
