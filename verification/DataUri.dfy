// Data URIs with percent-encoding (section 3 of RFC 2397, section 2.1 of RFC 3986).
module DataUri {
  import opened Common

  type Byte = b: nat | b < 256

  // Go strings are UTF-8; a char here is one code point.
  function Utf8Char(c: char): (r: seq<Byte>)
    ensures c as int < 128 ==> r == [c as int]
  {
    var n := c as int;
    if n < 0x80 then [n]
    else if n < 0x800 then [0xC0 + n / 64, 0x80 + n % 64]
    else if n < 0x1_0000 then [0xE0 + n / 4096, 0x80 + n / 64 % 64, 0x80 + n % 64]
    else [0xF0 + n / 262144, 0x80 + n / 4096 % 64, 0x80 + n / 64 % 64, 0x80 + n % 64]
  }

  function Utf8(s: string): seq<Byte> {
    if s == [] then [] else Utf8Char(s[0]) + Utf8(s[1..])
  }

  // The bytes url.PathEscape leaves as they are. ':' is one of them.
  predicate Kept(b: Byte) {
    && b < 128
    && (var c := b as char;
        || 'a' <= c <= 'z' || 'A' <= c <= 'Z' || '0' <= c <= '9'
        || c == '-' || c == '_' || c == '.' || c == '~'
        || c == '$' || c == '&' || c == '+' || c == '=' || c == ':' || c == '@')
  }

  function HexDigit(d: nat): char
    requires d < 16
  {
    if d < 10 then ('0' as int + d) as char else ('A' as int + d - 10) as char
  }

  function PathEscape(bytes: seq<Byte>): string {
    if bytes == [] then []
    else
      var b := bytes[0];
      (if Kept(b) then [b as char] else ['%', HexDigit(b / 16), HexDigit(b % 16)]) + PathEscape(bytes[1..])
  }

  function HexValue(c: char): (r: Option<nat>)
    ensures r.Some? ==> r.value < 16
  {
    if '0' <= c <= '9' then Some(c as int - '0' as int)
    else if 'A' <= c <= 'F' then Some(c as int - 'A' as int + 10)
    else if 'a' <= c <= 'f' then Some(c as int - 'a' as int + 10)
    else None
  }

  // The bytes a percent-encoded text stands for.
  function Unescape(s: string): Option<seq<Byte>> {
    if s == [] then Some([])
    else if s[0] == '%' then
      if |s| < 3 || HexValue(s[1]).None? || HexValue(s[2]).None? then None
      else match Unescape(s[3..])
        case None => None
        case Some(rest) => Some([16 * HexValue(s[1]).value + HexValue(s[2]).value] + rest)
    else match Unescape(s[1..])
      case None => None
      case Some(rest) => Some(Utf8Char(s[0]) + rest)
  }

  const PLAIN := "data:,"

  function UrlEncode(s: string): string { PathEscape(Utf8(s)) }

  lemma HexBack(d: nat)
    requires d < 16
    ensures HexValue(HexDigit(d)) == Some(d)
  {
  }

  lemma {:induction false} UnescapeEscape(bytes: seq<Byte>)
    ensures Unescape(PathEscape(bytes)) == Some(bytes)
  {
    if bytes != [] {
      var b := bytes[0];
      var rest := PathEscape(bytes[1..]);
      UnescapeEscape(bytes[1..]);
      if Kept(b) {
        assert PathEscape(bytes)[1..] == rest;
      } else {
        HexBack(b / 16);
        HexBack(b % 16);
        assert PathEscape(bytes)[3..] == rest;
        assert [16 * (b / 16) + b % 16] == [b];
      }
      assert [b] + bytes[1..] == bytes;
    }
  }

  predicate UriChar(c: char) {
    c == '%' || (c as int < 128 && Kept(c as int))
  }

  // Nothing in the encoded text can be taken for the structure of the URI.
  lemma {:induction false} EscapedIsClean(bytes: seq<Byte>)
    ensures forall c | c in PathEscape(bytes) :: UriChar(c) && c != ',' && c != ';' && c != '/' && c != '?' && c != '#'
  {
    if bytes != [] {
      var b := bytes[0];
      EscapedIsClean(bytes[1..]);
    }
  }
}
