/** JSON values as serde builds them from a `#[derive(Serialize)]` struct, and
    the compact text serde_json writes for them. Objects are ordered member
    lists, because a derived serialiser emits the fields in declaration order.
    String escaping follows section 7 of RFC 8259 the way serde_json does it:
    quotation mark, reverse solidus and the control characters U+0000..U+001F
    are escaped, the last with the short forms \b \t \n \f \r where they exist
    and lower-case `\u00xx` otherwise; every other character is written as is. */
module Json {

  datatype Option<+T> = None | Some(value: T)

  datatype Value =
    | JString(text: string)
    | JArray(items: seq<Value>)
    | JObject(members: seq<Member>)

  datatype Member = Member(key: string, value: Value)

  /** The keys of an object, in the order they are written. */
  function Keys(members: seq<Member>): seq<string> {
    seq(|members|, i requires 0 <= i < |members| => members[i].key)
  }

  /** A sequence of strings as a JSON array of strings. */
  function JStrings(ss: seq<string>): seq<Value> {
    seq(|ss|, i requires 0 <= i < |ss| => JString(ss[i]))
  }

  /** The strings of an array whose items are all strings, and None otherwise. */
  function StringsOf(items: seq<Value>): (r: Option<seq<string>>)
    decreases |items|
  {
    if items == [] then Some([])
    else if !items[0].JString? then None
    else match StringsOf(items[1..])
      case None => None
      case Some(rest) => Some([items[0].text] + rest)
  }

  lemma {:induction false} StringsOfJStrings(ss: seq<string>)
    ensures StringsOf(JStrings(ss)) == Some(ss)
    decreases |ss|
  {
    if ss != [] {
      assert JStrings(ss)[1..] == JStrings(ss[1..]);
      StringsOfJStrings(ss[1..]);
      assert [ss[0]] + ss[1..] == ss;
    }
  }

  // ---------------------------------------------------------------------------
  // String escaping

  /** Lower-case hexadecimal digit of `n`. */
  function HexDigit(n: nat): (c: char)
    requires n < 16
    ensures HexValue(c) == Some(n)
  {
    if n < 10 then (48 + n) as char else (87 + n) as char
  }

  /** The value of a hexadecimal digit of either case. */
  function HexValue(c: char): (r: Option<nat>)
    ensures r.Some? ==> r.value < 16
  {
    if '0' <= c <= '9' then Some(c as int - 48)
    else if 'a' <= c <= 'f' then Some(c as int - 87)
    else if 'A' <= c <= 'F' then Some(c as int - 55)
    else None
  }

  /** True of the characters a JSON string may not hold unescaped. */
  predicate MustEscape(c: char) {
    c == '"' || c == '\\' || c < ' '
  }

  /** The text serde_json writes for one character of a string. */
  function EscapeChar(c: char): (t: string)
    ensures !MustEscape(c) <==> t == [c]
  {
    if c == '"' then "\\\""
    else if c == '\\' then "\\\\"
    else if c as int == 0x08 then "\\b"
    else if c == '\t' then "\\t"
    else if c == '\n' then "\\n"
    else if c as int == 0x0C then "\\f"
    else if c == '\r' then "\\r"
    else if c < ' ' then "\\u00" + [HexDigit(c as int / 16), HexDigit(c as int % 16)]
    else [c]
  }

  /** The escaped body of a string, without the surrounding quotation marks. */
  function Escape(s: string): string
    decreases |s|
  {
    if s == [] then [] else EscapeChar(s[0]) + Escape(s[1..])
  }

  /** A string literal: quotation marks around the escaped body. */
  function Quoted(s: string): string {
    "\"" + Escape(s) + "\""
  }

  function Prepend(c: char, o: Option<string>): Option<string> {
    match o
    case None => None
    case Some(s) => Some([c] + s)
  }

  /** Reads back the body of a JSON string literal, the inverse of Escape.
      None when the text holds an unescaped quotation mark or control
      character, or an escape sequence that section 7 of RFC 8259 does not
      define. Surrogate pairs written as two `\u` escapes are not read. */
  function Unescape(t: string): (r: Option<string>)
    decreases |t|
  {
    if t == [] then Some([])
    else if t[0] == '\\' then
      if |t| < 2 then None
      else if t[1] == '"' then Prepend('"', Unescape(t[2..]))
      else if t[1] == '\\' then Prepend('\\', Unescape(t[2..]))
      else if t[1] == '/' then Prepend('/', Unescape(t[2..]))
      else if t[1] == 'b' then Prepend(8 as char, Unescape(t[2..]))
      else if t[1] == 't' then Prepend('\t', Unescape(t[2..]))
      else if t[1] == 'n' then Prepend('\n', Unescape(t[2..]))
      else if t[1] == 'f' then Prepend(12 as char, Unescape(t[2..]))
      else if t[1] == 'r' then Prepend('\r', Unescape(t[2..]))
      else if t[1] == 'u' && |t| >= 6
              && HexValue(t[2]).Some? && HexValue(t[3]).Some?
              && HexValue(t[4]).Some? && HexValue(t[5]).Some? then
        var code := 4096 * HexValue(t[2]).value + 256 * HexValue(t[3]).value
                    + 16 * HexValue(t[4]).value + HexValue(t[5]).value;
        if 0xD800 <= code < 0xE000 then None
        else Prepend(code as char, Unescape(t[6..]))
      else None
    else if MustEscape(t[0]) then None
    else Prepend(t[0], Unescape(t[1..]))
  }

  /** Reading back the escape of one character yields that character. */
  lemma UnescapeEscapeChar(c: char, rest: string)
    ensures Unescape(EscapeChar(c) + rest) == Prepend(c, Unescape(rest))
  {
    if !MustEscape(c) {
      assert (EscapeChar(c) + rest)[1..] == rest;
    } else if c == '"' || c == '\\' || c as int == 0x08 || c == '\t' || c == '\n'
              || c as int == 0x0C || c == '\r' {
      UnescapeShortEscape(c, rest);
    } else {
      UnescapeUnicodeEscape(c, rest);
    }
  }

  lemma UnescapeShortEscape(c: char, rest: string)
    requires c == '"' || c == '\\' || c as int == 0x08 || c == '\t' || c == '\n'
             || c as int == 0x0C || c == '\r'
    ensures Unescape(EscapeChar(c) + rest) == Prepend(c, Unescape(rest))
  {
    var t := EscapeChar(c) + rest;
    assert |EscapeChar(c)| == 2 && t[0] == '\\';
    assert t[2..] == rest;
  }

  lemma UnescapeUnicodeEscape(c: char, rest: string)
    requires c < ' ' && c as int != 0x08 && c != '\t' && c != '\n' && c as int != 0x0C && c != '\r'
    ensures Unescape(EscapeChar(c) + rest) == Prepend(c, Unescape(rest))
  {
    var hi, lo := c as int / 16, c as int % 16;
    var e := EscapeChar(c);
    assert e == ['\\', 'u', '0', '0', HexDigit(hi), HexDigit(lo)];
    var t := e + rest;
    assert t[0] == '\\' && t[1] == 'u' && |t| >= 6;
    assert t[6..] == rest;
    assert HexValue(t[2]) == Some(0) && HexValue(t[3]) == Some(0);
    assert HexValue(t[4]) == Some(hi) && HexValue(t[5]) == Some(lo);
  }

  /** Escaping loses nothing: the body of a string literal gives back the
      string, for every string including the empty one. */
  lemma {:induction false} UnescapeEscape(s: string)
    ensures Unescape(Escape(s)) == Some(s)
    decreases |s|
  {
    if s != [] {
      UnescapeEscapeChar(s[0], Escape(s[1..]));
      UnescapeEscape(s[1..]);
      assert [s[0]] + s[1..] == s;
    }
  }

  /** Two strings have the same escaped body exactly when they are equal. */
  lemma EscapeInjective(s1: string, s2: string)
    ensures Escape(s1) == Escape(s2) <==> s1 == s2
  {
    UnescapeEscape(s1);
    UnescapeEscape(s2);
  }

  // ---------------------------------------------------------------------------
  // Compact rendering

  /** The compact text serde_json writes for a value: no white space, members
      and items in order. */
  function Render(v: Value): string
    decreases v, 1
  {
    match v
    case JString(s) => Quoted(s)
    case JArray(items) => "[" + RenderItems(items) + "]"
    case JObject(ms) => "{" + RenderMembers(ms) + "}"
  }

  /** The items of an array, comma-separated. */
  function RenderItems(items: seq<Value>): (t: string)
    decreases items, 0
  {
    if items == [] then ""
    else if |items| == 1 then Render(items[0])
    else Render(items[0]) + "," + RenderItems(items[1..])
  }

  /** The members of an object, comma-separated, each a quoted key, a colon
      and the value. */
  function RenderMembers(ms: seq<Member>): (t: string)
    decreases ms, 0
  {
    if ms == [] then ""
    else if |ms| == 1 then Quoted(ms[0].key) + ":" + Render(ms[0].value)
    else Quoted(ms[0].key) + ":" + Render(ms[0].value) + "," + RenderMembers(ms[1..])
  }
}
