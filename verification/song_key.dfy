/** `get_song_entry_key`: the identity key of a song is
    `JSON.stringify([animeName, animeType, songName, artistName])`. The
    decoder below is not part of the viewer; it is the inverse that shows the
    key determines the four fields. */
module SongKey {
  import opened Options

  // ---------------------------------------------------------------------------
  // JSON.stringify of a string
  // ---------------------------------------------------------------------------

  function HexDigit(n: nat): char
    requires n < 16
  {
    if n < 10 then ('0' as int + n) as char else ('a' as int + n - 10) as char
  }

  /** How `JSON.stringify` writes one character inside a string literal:
      the quote and the backslash are escaped, the control characters get
      their short escape or a lower-case `\u00XX`, everything else is kept. */
  function EscapeChar(c: char): string {
    var n := c as int;
    if c == '"' then ['\\', '"']
    else if c == '\\' then ['\\', '\\']
    else if n == 0x08 then ['\\', 'b']
    else if n == 0x09 then ['\\', 't']
    else if n == 0x0A then ['\\', 'n']
    else if n == 0x0C then ['\\', 'f']
    else if n == 0x0D then ['\\', 'r']
    else if n < 0x20 then ['\\', 'u', '0', '0', HexDigit(n / 16), HexDigit(n % 16)]
    else [c]
  }

  function EscapeBody(s: string): string {
    if s == [] then [] else EscapeChar(s[0]) + EscapeBody(s[1..])
  }

  /** `JSON.stringify(s)` for a string `s`. */
  function Quote(s: string): string {
    ['"'] + EscapeBody(s) + ['"']
  }

  /** A separator followed by a quoted string. */
  function Field(sep: char, s: string): string {
    [sep] + Quote(s)
  }

  /** `get_song_entry_key`: the JSON array of the four identity fields,
      `["…","…","…","…"]` with no white space. */
  function EncodeKey(animeName: string, animeType: string, songName: string, artistName: string): string {
    Field('[', animeName) + (Field(',', animeType) + (Field(',', songName) + (Field(',', artistName) + [']'])))
  }

  // ---------------------------------------------------------------------------
  // Decoding
  // ---------------------------------------------------------------------------

  function HexValue(c: char): Option<nat> {
    if '0' <= c <= '9' then Some(c as int - '0' as int)
    else if 'a' <= c <= 'f' then Some(c as int - 'a' as int + 10)
    else if 'A' <= c <= 'F' then Some(c as int - 'A' as int + 10)
    else None
  }

  /** The character a `\uXXXX` escape denotes; surrogate halves and bad
      digits are refused. */
  function UnicodeEscape(h: string): Option<char>
    requires |h| == 4
  {
    match (HexValue(h[0]), HexValue(h[1]), HexValue(h[2]), HexValue(h[3]))
    case (Some(a), Some(b), Some(c), Some(d)) =>
      var n := ((a * 16 + b) * 16 + c) * 16 + d;
      if 0xD800 <= n < 0xE000 then None else Some(n as char)
    case _ => None
  }

  /** The character a two-character escape `\x` denotes. */
  function ShortEscape(c: char): Option<char> {
    if c == '"' then Some('"')
    else if c == '\\' then Some('\\')
    else if c == '/' then Some('/')
    else if c == 'b' then Some(8 as char)
    else if c == 't' then Some(9 as char)
    else if c == 'n' then Some(10 as char)
    else if c == 'f' then Some(12 as char)
    else if c == 'r' then Some(13 as char)
    else None
  }

  function Prepend(c: char, r: Option<(string, string)>): Option<(string, string)> {
    match r
    case None => None
    case Some((body, rest)) => Some(([c] + body, rest))
  }

  /** Reads the characters of a JSON string literal up to its closing quote;
      returns the decoded text and what follows the quote. */
  function ParseBody(s: string): Option<(string, string)>
    decreases |s|
  {
    if s == [] then None
    else if s[0] == '"' then Some(([], s[1..]))
    else if s[0] != '\\' then Prepend(s[0], ParseBody(s[1..]))
    else if |s| < 2 then None
    else if s[1] == 'u' then
      if |s| < 6 then None
      else match UnicodeEscape(s[2..6])
        case None => None
        case Some(c) => Prepend(c, ParseBody(s[6..]))
    else match ShortEscape(s[1])
      case None => None
      case Some(c) => Prepend(c, ParseBody(s[2..]))
  }

  function ParseString(s: string): Option<(string, string)> {
    if s != [] && s[0] == '"' then ParseBody(s[1..]) else None
  }

  /** Expects `sep` and then a string literal. */
  function ParseField(sep: char, s: string): Option<(string, string)> {
    if s != [] && s[0] == sep then ParseString(s[1..]) else None
  }

  /** Reads a key back into its four fields. */
  function DecodeKey(k: string): Option<(string, string, string, string)> {
    match ParseField('[', k)
    case None => None
    case Some((a, r1)) =>
      match ParseField(',', r1)
      case None => None
      case Some((b, r2)) =>
        match ParseField(',', r2)
        case None => None
        case Some((c, r3)) =>
          match ParseField(',', r3)
          case None => None
          case Some((d, r4)) => if r4 == [']'] then Some((a, b, c, d)) else None
  }

  // ---------------------------------------------------------------------------
  // Round trip and injectivity
  // ---------------------------------------------------------------------------

  lemma EscapeCharParses(c: char, tail: string)
    ensures ParseBody(EscapeChar(c) + tail) == Prepend(c, ParseBody(tail))
  {
    var n := c as int;
    var e := EscapeChar(c);
    if c == '"' || c == '\\' || n == 0x08 || n == 0x09 || n == 0x0A || n == 0x0C || n == 0x0D {
      assert (e + tail)[2..] == tail;
    } else if n < 0x20 {
      var s := e + tail;
      assert s[2..6] == e[2..6];
      assert HexValue(HexDigit(n / 16)) == Some(n / 16);
      assert HexValue(HexDigit(n % 16)) == Some(n % 16);
      assert UnicodeEscape(s[2..6]) == Some(c);
      assert s[6..] == tail;
    } else {
      assert (e + tail)[1..] == tail;
    }
  }

  /** Reading back an escaped body yields the original text and stops right
      after the closing quote. */
  lemma {:induction false} EscapeBodyParses(s: string, rest: string)
    ensures ParseBody(EscapeBody(s) + ['"'] + rest) == Some((s, rest))
  {
    if s == [] {
      assert EscapeBody(s) + ['"'] + rest == ['"'] + rest;
    } else {
      var tail := EscapeBody(s[1..]) + ['"'] + rest;
      assert EscapeBody(s) + ['"'] + rest == EscapeChar(s[0]) + tail;
      EscapeCharParses(s[0], tail);
      EscapeBodyParses(s[1..], rest);
      assert [s[0]] + s[1..] == s;
    }
  }

  lemma QuoteParses(sep: char, s: string, rest: string)
    ensures ParseField(sep, Field(sep, s) + rest) == Some((s, rest))
  {
    var t := Field(sep, s) + rest;
    assert t[1..][1..] == EscapeBody(s) + ['"'] + rest;
    EscapeBodyParses(s, rest);
  }

  /** Decoding a key gives back the four fields it was made from. */
  lemma DecodeEncodeKey(a: string, b: string, c: string, d: string)
    ensures DecodeKey(EncodeKey(a, b, c, d)) == Some((a, b, c, d))
  {
    var r4 := [']'];
    var r3 := Field(',', d) + r4;
    var r2 := Field(',', c) + r3;
    var r1 := Field(',', b) + r2;
    QuoteParses('[', a, r1);
    QuoteParses(',', b, r2);
    QuoteParses(',', c, r3);
    QuoteParses(',', d, r4);
  }

  /** Two songs share a key exactly when all four identity fields agree:
      the JSON array keeps field boundaries even when a title contains a
      quote, a comma or a bracket. */
  lemma KeyInjective(a: string, b: string, c: string, d: string,
                     a': string, b': string, c': string, d': string)
    ensures EncodeKey(a, b, c, d) == EncodeKey(a', b', c', d') <==>
            (a, b, c, d) == (a', b', c', d')
  {
    DecodeEncodeKey(a, b, c, d);
    DecodeEncodeKey(a', b', c', d');
  }
}
