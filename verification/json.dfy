/** `JSON.stringify` for the values the code generators serialise: arrays of
    option objects whose fields hold strings, integers, booleans, null,
    arrays and objects. */
module Json {
  import opened Js
  import opened Text

  /** A JSON value; an object's fields are kept in the order the object
      enumerates them. */
  datatype Json = JNull | JBool(b: bool) | JNum(n: int) | JStr(s: string) | JArr(items: seq<Json>) | JObj(fields: seq<Field>)
  datatype Field = Field(key: string, value: Json)

  /** The lowercase hexadecimal digit of 0 <= d < 16. */
  function HexDigit(d: int): char
    requires 0 <= d < 16
  {
    if d < 10 then '0' + d as char else 'a' + (d - 10) as char
  }

  /** How `JSON.stringify` writes one character of a string: the two-character
      escapes for quote, backslash, backspace, tab, newline, form feed and
      carriage return, `\u00XX` with lowercase hex for the other control
      characters, and the character itself otherwise. */
  function EscapeChar(c: char): (r: string)
    ensures |r| >= 1
    ensures r[0] == '\\' <==> c == '"' || c == '\\' || (c as int) < 0x20
    ensures r[0] != '\\' ==> r == [c]
  {
    if c == '"' then "\\\""
    else if c == '\\' then "\\\\"
    else if c as int == 0x08 then "\\b"
    else if c as int == 0x09 then "\\t"
    else if c as int == 0x0A then "\\n"
    else if c as int == 0x0C then "\\f"
    else if c as int == 0x0D then "\\r"
    else if (c as int) < 0x20 then "\\u00" + [HexDigit(c as int / 16), HexDigit(c as int % 16)]
    else [c]
  }

  /** The escaped body of a string. */
  function EscapeString(s: string): string {
    if s == [] then "" else EscapeChar(s[0]) + EscapeString(s[1..])
  }

  /** A string as `JSON.stringify` quotes it. */
  function Quote(s: string): string {
    "\"" + EscapeString(s) + "\""
  }

  /** `JSON.stringify(j)`, without indentation. */
  function Stringify(j: Json): string
    decreases j, 1
  {
    match j
    case JNull => "null"
    case JBool(b) => if b then "true" else "false"
    case JNum(n) => IntToString(n)
    case JStr(s) => Quote(s)
    case JArr(items) => "[" + StringifyItems(j, items) + "]"
    case JObj(fields) => "{" + StringifyFields(j, fields) + "}"
  }

  /** The elements of an array, separated by commas. */
  function StringifyItems(ghost parent: Json, items: seq<Json>): string
    requires forall i :: 0 <= i < |items| ==> items[i] < parent
    decreases parent, 0, |items|
  {
    if items == [] then ""
    else if |items| == 1 then Stringify(items[0])
    else Stringify(items[0]) + "," + StringifyItems(parent, items[1..])
  }

  /** The fields of an object as `"key":value`, separated by commas. */
  function StringifyFields(ghost parent: Json, fields: seq<Field>): string
    requires forall i :: 0 <= i < |fields| ==> fields[i].value < parent
    decreases parent, 0, |fields|
  {
    if fields == [] then ""
    else
      var f := Quote(fields[0].key) + ":" + Stringify(fields[0].value);
      if |fields| == 1 then f else f + "," + StringifyFields(parent, fields[1..])
  }

  // ---------------------------------------------------------------------
  // Reading strings back

  /** The value of a hexadecimal digit, either case. */
  function HexValue(c: char): Option<int> {
    if '0' <= c <= '9' then Some(c as int - '0' as int)
    else if 'a' <= c <= 'f' then Some(c as int - 'a' as int + 10)
    else if 'A' <= c <= 'F' then Some(c as int - 'A' as int + 10)
    else None
  }

  /** The value of four hexadecimal digits. */
  function Hex4(t: string): Option<int>
    requires |t| == 4
  {
    match (HexValue(t[0]), HexValue(t[1]), HexValue(t[2]), HexValue(t[3]))
    case (Some(a), Some(b), Some(c), Some(d)) => Some(((a * 16 + b) * 16 + c) * 16 + d)
    case _ => None
  }

  /** Reads one character of a JSON string body: a plain character (not a
      quote, not a backslash, not a control character) or an escape
      sequence; yields the character and the length read. A `\u` escape of
      a surrogate is refused. */
  function UnescapeOne(t: string): (r: Option<(char, nat)>)
    requires |t| > 0
    ensures r.Some? ==> 1 <= r.value.1 <= |t|
  {
    if t[0] != '\\' then
      if t[0] == '"' || (t[0] as int) < 0x20 then None else Some((t[0], 1))
    else if |t| < 2 then None
    else
      match t[1]
      case '"' => Some(('"', 2))
      case '\\' => Some(('\\', 2))
      case '/' => Some(('/', 2))
      case 'b' => Some((0x08 as char, 2))
      case 't' => Some((0x09 as char, 2))
      case 'n' => Some((0x0A as char, 2))
      case 'f' => Some((0x0C as char, 2))
      case 'r' => Some((0x0D as char, 2))
      case 'u' =>
        if |t| < 6 then None
        else (match Hex4(t[2..6])
          case Some(v) => if 0xD800 <= v < 0xE000 then None else Some((v as char, 6))
          case None => None)
      case _ => None
  }

  /** Decodes the body of a JSON string; `None` when it is malformed. */
  function Unescape(t: string): Option<string>
    decreases |t|
  {
    if t == [] then Some([])
    else
      match UnescapeOne(t)
      case None => None
      case Some((c, n)) =>
        match Unescape(t[n..])
        case None => None
        case Some(rest) => Some([c] + rest)
  }

  /** Reading back one escaped character yields it and consumes exactly its
      escape. */
  lemma UnescapeOneEscapeChar(c: char, rest: string)
    ensures UnescapeOne(EscapeChar(c) + rest) == Some((c, |EscapeChar(c)|))
  {
    var t := EscapeChar(c) + rest;
    if c != '"' && c != '\\' && (c as int) >= 0x20 {
      assert t[0] == c;
    } else if c != '"' && c != '\\' && c as int !in {0x08, 0x09, 0x0A, 0x0C, 0x0D} {
      var hi := c as int / 16;
      var lo := c as int % 16;
      assert EscapeChar(c) == "\\u00" + [HexDigit(hi), HexDigit(lo)];
      assert t[2..6] == ['0', '0', HexDigit(hi), HexDigit(lo)];
      assert HexValue(HexDigit(hi)) == Some(hi);
      assert HexValue(HexDigit(lo)) == Some(lo);
      assert Hex4(t[2..6]) == Some(c as int);
    }
  }

  /** Escaping loses nothing: decoding the escaped body of a string gives the
      string back. */
  lemma {:induction false} UnescapeEscapeString(s: string)
    ensures Unescape(EscapeString(s)) == Some(s)
    decreases |s|
  {
    if s != [] {
      var e := EscapeChar(s[0]);
      var t := EscapeString(s);
      assert t == e + EscapeString(s[1..]);
      UnescapeOneEscapeChar(s[0], EscapeString(s[1..]));
      assert t[|e|..] == EscapeString(s[1..]);
      UnescapeEscapeString(s[1..]);
      assert [s[0]] + s[1..] == s;
    }
  }

  /** Distinct strings are written as distinct JSON strings. */
  lemma QuoteInjective(s: string, u: string)
    ensures Quote(s) == Quote(u) <==> s == u
  {
    if Quote(s) == Quote(u) {
      var es := EscapeString(s);
      var eu := EscapeString(u);
      assert es == Quote(s)[1..|Quote(s)| - 1];
      assert eu == Quote(u)[1..|Quote(u)| - 1];
      UnescapeEscapeString(s);
      UnescapeEscapeString(u);
    }
  }

  /** Every element of an array is written, whole, inside the array. */
  lemma {:induction false} StringifyItemsContains(parent: Json, items: seq<Json>, i: int)
    requires forall k :: 0 <= k < |items| ==> items[k] < parent
    requires 0 <= i < |items|
    ensures Contains(StringifyItems(parent, items), Stringify(items[i]))
    decreases |items|
  {
    var head := Stringify(items[0]);
    if |items| == 1 {
      ContainsSelf(head);
    } else if i == 0 {
      ContainsSelf(head);
      ContainsLeft(head, "," + StringifyItems(parent, items[1..]), head);
      assert head + ("," + StringifyItems(parent, items[1..])) == StringifyItems(parent, items);
    } else {
      StringifyItemsContains(parent, items[1..], i - 1);
      ContainsRight(head + ",", StringifyItems(parent, items[1..]), Stringify(items[i]));
    }
  }

  /** The elements of an array, in its written form. */
  lemma StringifyArrayContains(items: seq<Json>, i: int)
    requires 0 <= i < |items|
    ensures Contains(Stringify(JArr(items)), Stringify(items[i]))
  {
    var j := JArr(items);
    StringifyItemsContains(j, items, i);
    ContainsRight("[", StringifyItems(j, items), Stringify(items[i]));
    ContainsLeft("[" + StringifyItems(j, items), "]", Stringify(items[i]));
  }
}
