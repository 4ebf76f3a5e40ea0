/**
 * The JSON values that MCP tool arguments carry, with the three JavaScript conversions the
 * server applies to them: truthiness, `JSON.stringify` (compact, and indented by two spaces for
 * a flat object) and `String(value)` as used by template literals. Numbers are integers here.
 */
module Json {
  import opened Results

  datatype Json =
    | JNull
    | JBool(b: bool)
    | JNum(n: int)
    | JStr(s: string)
    | JArr(items: seq<Json>)
    | JObj(members: seq<(string, Json)>)

  /** JavaScript truthiness of a defined value: `null`, `false`, `0` and `""` are falsy. */
  predicate Truthy(v: Json)
  {
    match v
    case JNull => false
    case JBool(b) => b
    case JNum(n) => n != 0
    case JStr(s) => s != ""
    case JArr(_) => true
    case JObj(_) => true
  }

  /** Truthiness of a property that may be `undefined` (`None`). */
  predicate Given(o: Option<Json>)
  {
    o.Some? && Truthy(o.value)
  }

  /** `args.key`: the property of an arguments object, `None` when it is absent. */
  function Property(args: map<string, Json>, key: string): (r: Option<Json>)
    ensures r.Some? <==> key in args
  {
    if key in args then Some(args[key]) else None
  }

  function DigitChar(d: nat): (c: char)
    requires d < 10
    ensures '0' <= c <= '9'
  {
    ('0' as int + d) as char
  }

  /** Decimal digits of a natural number, most significant first, without leading zeros. */
  function Digits(n: nat): (s: string)
    ensures |s| >= 1
    ensures forall k :: 0 <= k < |s| ==> '0' <= s[k] <= '9'
    decreases n
  {
    if n < 10 then [DigitChar(n)] else Digits(n / 10) + [DigitChar(n % 10)]
  }

  /** How JavaScript writes an integer-valued number. */
  function NumberText(n: int): string
  {
    if n < 0 then "-" + Digits(-n) else Digits(n)
  }

  function HexDigit(d: nat): char
    requires d < 16
  {
    if d < 10 then DigitChar(d) else ('a' as int + d - 10) as char
  }

  /** The escape `JSON.stringify` writes for one character of a string. */
  function EscapeChar(c: char): (e: string)
    ensures |e| >= 1
    ensures c != '"' && c != '\\' && c as int >= 0x20 ==> e == [c]
  {
    var n := c as int;
    if c == '"' then "\\\""
    else if c == '\\' then "\\\\"
    else if n == 0x08 then "\\b"
    else if n == 0x0C then "\\f"
    else if c == '\n' then "\\n"
    else if c == '\r' then "\\r"
    else if c == '\t' then "\\t"
    else if n < 0x20 then "\\u00" + [HexDigit(n / 16), HexDigit(n % 16)]
    else [c]
  }

  function EscapeString(s: string): string
  {
    if s == [] then [] else EscapeChar(s[0]) + EscapeString(s[1..])
  }

  /** A JSON string literal. */
  function Quote(s: string): (q: string)
    ensures |q| >= 2 && q[0] == '"' && q[|q| - 1] == '"'
  {
    "\"" + EscapeString(s) + "\""
  }

  /** `JSON.stringify(v)` without indentation. */
  function Stringify(v: Json): string
    decreases v, 1
  {
    match v
    case JNull => "null"
    case JBool(b) => if b then "true" else "false"
    case JNum(n) => NumberText(n)
    case JStr(s) => Quote(s)
    case JArr(items) => "[" + StringifyItems(items) + "]"
    case JObj(members) => "{" + StringifyMembers(members) + "}"
  }

  /** The elements of an array, separated by commas. */
  function StringifyItems(items: seq<Json>): string
    decreases items, 0
  {
    if items == [] then ""
    else if |items| == 1 then Stringify(items[0])
    else Stringify(items[0]) + "," + StringifyItems(items[1..])
  }

  /** The members of an object as `"key":value`, separated by commas. */
  function StringifyMembers(members: seq<(string, Json)>): string
    decreases members, 0
  {
    if members == [] then ""
    else
      assert members[0].1 < members[0];
      var first := Quote(members[0].0) + ":" + Stringify(members[0].1);
      if |members| == 1 then first else first + "," + StringifyMembers(members[1..])
  }

  /** `n` spaces. */
  function Spaces(n: nat): (s: string)
    ensures |s| == n && forall k :: 0 <= k < n ==> s[k] == ' '
  {
    if n == 0 then "" else Spaces(n - 1) + " "
  }

  /**
   * `JSON.stringify(v, null, 2)` for a value nested `depth` levels deep: every array element and
   * object member on a line of its own, indented by two spaces per level; empty arrays and
   * objects stay on one line.
   */
  function Pretty(v: Json, depth: nat): string
    decreases v, 1
  {
    match v
    case JArr(items) =>
      if items == [] then "[]"
      else "[\n" + PrettyItems(items, depth + 1) + "\n" + Spaces(2 * depth) + "]"
    case JObj(members) =>
      if members == [] then "{}"
      else "{\n" + PrettyMembers(members, depth + 1) + "\n" + Spaces(2 * depth) + "}"
    case _ => Stringify(v)
  }

  function PrettyItems(items: seq<Json>, depth: nat): string
    decreases items, 0
  {
    if items == [] then ""
    else
      var first := Spaces(2 * depth) + Pretty(items[0], depth);
      if |items| == 1 then first else first + ",\n" + PrettyItems(items[1..], depth)
  }

  function PrettyMembers(members: seq<(string, Json)>, depth: nat): string
    decreases members, 0
  {
    if members == [] then ""
    else
      assert members[0].1 < members[0];
      var first := Spaces(2 * depth) + Quote(members[0].0) + ": " + Pretty(members[0].1, depth);
      if |members| == 1 then first else first + ",\n" + PrettyMembers(members[1..], depth)
  }

  /** The object literal `{k1: v1, ...}` where some values may be `undefined` (`None`). */
  function ObjectOf(members: seq<(string, Option<Json>)>): (v: Json)
    ensures v.JObj? && |v.members| <= |members|
  {
    JObj(PresentMembers(members))
  }

  function PresentMembers(members: seq<(string, Option<Json>)>): (r: seq<(string, Json)>)
    ensures |r| <= |members|
  {
    if members == [] then []
    else if members[0].1.Some? then [(members[0].0, members[0].1.value)] + PresentMembers(members[1..])
    else PresentMembers(members[1..])
  }

  /**
   * `obj[key]` on an object whose members are listed in order: the last binding of the key wins,
   * as it does for an object built by `JSON.parse`.
   */
  function Member(members: seq<(string, Json)>, key: string): (r: Option<Json>)
    ensures r.Some? <==> exists i :: 0 <= i < |members| && members[i].0 == key
    ensures r.Some? ==> exists i :: 0 <= i < |members| && members[i] == (key, r.value)
                                    && forall j :: i < j < |members| ==> members[j].0 != key
  {
    if members == [] then None
    else
      var last := members[|members| - 1];
      if last.0 == key then Some(last.1) else Member(members[..|members| - 1], key)
  }

  /** Appending a member makes it the binding of its key and leaves the other keys alone. */
  lemma MemberOfLast(members: seq<(string, Json)>, k: string, v: Json, key: string)
    ensures Member(members + [(k, v)], key) == if k == key then Some(v) else Member(members, key)
  {
    assert (members + [(k, v)])[..|members|] == members;
  }

  /**
   * `data[key]` for a value received as a response body: `null` throws a TypeError, an object
   * looks the key up, and every other value has no such property.
   */
  function PropertyOf(data: Json, key: string): (r: Result<Option<Json>>)
    ensures r.Err? <==> data.JNull?
    ensures data.JObj? ==> r == Ok(Member(data.members, key))
    ensures !data.JNull? && !data.JObj? ==> r == Ok(None)
  {
    match data
    case JNull => Err(Error("TypeError", "Cannot read properties of null (reading '" + key + "')"))
    case JObj(members) => Ok(Member(members, key))
    case _ => Ok(None)
  }

  /** `JSON.stringify` of a two-member object. */
  lemma StringifyPair(k1: string, v1: Json, k2: string, v2: Json)
    ensures Stringify(JObj([(k1, v1), (k2, v2)]))
            == "{" + ((Quote(k1) + ":" + Stringify(v1)) + "," + (Quote(k2) + ":" + Stringify(v2))) + "}"
  {
    var members := [(k1, v1), (k2, v2)];
    assert members[1..] == [(k2, v2)];
    assert StringifyMembers([(k2, v2)]) == Quote(k2) + ":" + Stringify(v2);
    assert StringifyMembers(members)
           == (Quote(k1) + ":" + Stringify(v1)) + "," + StringifyMembers(members[1..]);
  }

  /** A string without quotes, backslashes or control characters is quoted as it is. */
  lemma {:induction false} QuotePlain(s: string)
    requires forall k :: 0 <= k < |s| ==> s[k] != '"' && s[k] != '\\' && s[k] as int >= 0x20
    ensures Quote(s) == "\"" + s + "\""
  {
    EscapePlain(s);
  }

  lemma {:induction false} EscapePlain(s: string)
    requires forall k :: 0 <= k < |s| ==> s[k] != '"' && s[k] != '\\' && s[k] as int >= 0x20
    ensures EscapeString(s) == s
  {
    if s != [] {
      EscapePlain(s[1..]);
      assert s == [s[0]] + s[1..];
    }
  }

  /** `String(v)`, which a template literal applies to an interpolated value. */
  function DisplayText(o: Option<Json>): string
  {
    match o
    case None => "undefined"
    case Some(v) => ValueText(v)
  }

  function ValueText(v: Json): string
    decreases v, 1
  {
    match v
    case JNull => "null"
    case JBool(b) => if b then "true" else "false"
    case JNum(n) => NumberText(n)
    case JStr(s) => s
    case JArr(items) => ValueItems(items)
    case JObj(_) => "[object Object]"
  }

  /** `Array.prototype.join`, which writes null elements as empty strings. */
  function ValueItems(items: seq<Json>): string
    decreases items, 0
  {
    if items == [] then ""
    else
      var first := if items[0].JNull? then "" else ValueText(items[0]);
      if |items| == 1 then first else first + "," + ValueItems(items[1..])
  }
}
