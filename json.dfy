/**
 * The webhook request body `JSON.stringify({ log: entry })`: the entry is quoted
 * the way JSON.stringify quotes a string (quote, backslash and the five short
 * control escapes, any other control character as a lower-case \u00XX escape,
 * everything else literal), and Unescape reads such text back.
 */
module Json {
  import opened Wrappers

  /** A lower-case hex digit, which HexValue reads back. */
  function HexDigit(d: nat): (c: char)
    requires d < 16
    ensures '0' <= c <= '9' || 'a' <= c <= 'f'
    ensures HexValue(c) == Some(d)
  {
    if d < 10 then ('0' as int + d) as char else ('a' as int + d - 10) as char
  }

  function HexValue(c: char): (r: Option<nat>)
    ensures r.Some? ==> r.value < 16
  {
    if '0' <= c <= '9' then Some(c as int - '0' as int)
    else if 'a' <= c <= 'f' then Some(c as int - 'a' as int + 10)
    else if 'A' <= c <= 'F' then Some(c as int - 'A' as int + 10)
    else None
  }

  /** How JSON.stringify writes one character inside a string literal. */
  function EscapeChar(c: char): (s: string)
    ensures |s| >= 1
    // no control character is written raw
    ensures forall i :: 0 <= i < |s| ==> 0x20 <= s[i] as int
    // a character is either copied as it is, or written as an escape starting with a backslash
    ensures s == [c] || s[0] == '\\'
    ensures s == [c] <==> 0x20 <= c as int && c != '"' && c != '\\'
  {
    if c == '"' then "\\\""
    else if c == '\\' then "\\\\"
    else if c == 8 as char then "\\b"
    else if c == '\t' then "\\t"
    else if c == '\n' then "\\n"
    else if c == 12 as char then "\\f"
    else if c == '\r' then "\\r"
    else if (c as int) < 0x20 then "\\u00" + [HexDigit(c as int / 16), HexDigit(c as int % 16)]
    else [c]
  }

  /** The inside of the string literal JSON.stringify writes for s. */
  function Escape(s: string): (r: string)
    ensures |r| >= |s|
    ensures forall i :: 0 <= i < |r| ==> 0x20 <= r[i] as int
    ensures (forall i :: 0 <= i < |s| ==> 0x20 <= s[i] as int && s[i] != '"' && s[i] != '\\') ==> r == s
  {
    if s == [] then [] else EscapeChar(s[0]) + Escape(s[1..])
  }

  /** The character a one-letter escape (after the backslash) stands for. */
  function ShortEscape(c: char): Option<char> {
    if c == '"' then Some('"')
    else if c == '\\' then Some('\\')
    else if c == '/' then Some('/')
    else if c == 'b' then Some(8 as char)
    else if c == 't' then Some('\t')
    else if c == 'n' then Some('\n')
    else if c == 'f' then Some(12 as char)
    else if c == 'r' then Some('\r')
    else None
  }

  /** The character four hex digits of a \u escape stand for (surrogates have none). */
  function Hex4(s: string): Option<char>
    requires |s| == 4
  {
    match (HexValue(s[0]), HexValue(s[1]), HexValue(s[2]), HexValue(s[3]))
    case (Some(a), Some(b), Some(c), Some(d)) =>
      var v := ((a * 16 + b) * 16 + c) * 16 + d;
      if v < 0xD800 || 0xE000 <= v then Some(v as char) else None
    case _ => None
  }

  function Prepend(c: char, rest: Option<string>): Option<string> {
    match rest
    case None => None
    case Some(t) => Some([c] + t)
  }

  /** Reads the inside of a JSON string literal back into the string it denotes. */
  function Unescape(s: string): Option<string>
    decreases |s|
  {
    if s == [] then Some([])
    else if s[0] != '\\' then Prepend(s[0], Unescape(s[1..]))
    else if |s| < 2 then None
    else if s[1] == 'u' then
      if |s| < 6 then None
      else match Hex4(s[2..6])
        case Some(c) => Prepend(c, Unescape(s[6..]))
        case None => None
    else match ShortEscape(s[1])
      case Some(c) => Prepend(c, Unescape(s[2..]))
      case None => None
  }

  lemma UnescapeEscapeChar(c: char, rest: string)
    ensures Unescape(EscapeChar(c) + rest) == Prepend(c, Unescape(rest))
  {
    var s := EscapeChar(c) + rest;
    if |EscapeChar(c)| == 1 {
      assert s[1..] == rest;
    } else if |EscapeChar(c)| == 2 {
      assert s[2..] == rest;
    } else {
      var n := c as int;
      assert s[2..6] == ['0', '0', HexDigit(n / 16), HexDigit(n % 16)];
      assert s[6..] == rest;
    }
  }

  /** Escaping loses nothing: Unescape recovers the original string. */
  lemma {:induction false} UnescapeEscape(s: string)
    ensures Unescape(Escape(s)) == Some(s)
  {
    if s != [] {
      UnescapeEscape(s[1..]);
      UnescapeEscapeChar(s[0], Escape(s[1..]));
      assert [s[0]] + s[1..] == s;
    }
  }

  const BODY_PREFIX := "{\"log\":\""
  const BODY_SUFFIX := "\"}"

  /** What a receiver parsing a log body finds under "log". */
  function DecodeLogBody(body: string): Option<string> {
    if |body| >= |BODY_PREFIX| + |BODY_SUFFIX|
       && body[..|BODY_PREFIX|] == BODY_PREFIX
       && body[|body| - |BODY_SUFFIX|..] == BODY_SUFFIX
    then Unescape(body[|BODY_PREFIX|..|body| - |BODY_SUFFIX|])
    else None
  }

  /**
   * The text of `JSON.stringify({ log: entry })`: a subscriber that decodes it
   * finds exactly the entry that was logged.
   */
  function LogBody(entry: string): (body: string)
    ensures DecodeLogBody(body) == Some(entry)
  {
    var b := BODY_PREFIX + Escape(entry) + BODY_SUFFIX;
    assert b[..|BODY_PREFIX|] == BODY_PREFIX;
    assert b[|b| - |BODY_SUFFIX|..] == BODY_SUFFIX;
    assert b[|BODY_PREFIX|..|b| - |BODY_SUFFIX|] == Escape(entry);
    UnescapeEscape(entry);
    b
  }

  /** Different log lines are posted as different bodies. */
  lemma LogBodyInjective(e1: string, e2: string)
    requires LogBody(e1) == LogBody(e2)
    ensures e1 == e2
  {
  }
}
