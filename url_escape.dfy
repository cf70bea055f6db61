/** Query-component escaping as Go's net/url.QueryEscape performs it: letters,
    digits and `-_.~` pass through, a space becomes `+`, and every other
    character becomes `%XX` for each byte of its UTF-8 encoding, with
    upper-case hexadecimal digits. */
module UrlEscape {

  predicate IsUnreserved(c: char)
  {
    || 'a' <= c <= 'z' || 'A' <= c <= 'Z' || '0' <= c <= '9'
    || c == '-' || c == '_' || c == '.' || c == '~'
  }

  predicate IsUpperHex(c: char) { '0' <= c <= '9' || 'A' <= c <= 'F' }

  /** The characters QueryEscape may emit. */
  predicate IsEscapedChar(c: char) { IsUnreserved(c) || c == '+' || c == '%' }

  function HexDigit(d: nat): (c: char)
    requires d < 16
    ensures IsUpperHex(c)
  {
    "0123456789ABCDEF"[d]
  }

  /** The UTF-8 encoding of one Unicode scalar value. */
  function Utf8(c: char): (bytes: seq<nat>)
    ensures 1 <= |bytes| <= 4
    ensures forall i :: 0 <= i < |bytes| ==> bytes[i] < 256
  {
    var n := c as int;
    if n < 0x80 then [n]
    else if n < 0x800 then [0xC0 + n / 0x40, 0x80 + n % 0x40]
    else if n < 0x1_0000 then [0xE0 + n / 0x1000, 0x80 + (n / 0x40) % 0x40, 0x80 + n % 0x40]
    else [0xF0 + n / 0x4_0000, 0x80 + (n / 0x1000) % 0x40, 0x80 + (n / 0x40) % 0x40, 0x80 + n % 0x40]
  }

  /** `%XX` for each byte. */
  function PercentEncode(bytes: seq<nat>): (r: string)
    requires forall i :: 0 <= i < |bytes| ==> bytes[i] < 256
    ensures |r| == 3 * |bytes|
    ensures forall i :: 0 <= i < |r| ==> r[i] == '%' || IsUpperHex(r[i])
  {
    if bytes == [] then []
    else ['%', HexDigit(bytes[0] / 16), HexDigit(bytes[0] % 16)] + PercentEncode(bytes[1..])
  }

  function EscapeChar(c: char): (r: string)
    ensures |r| > 0
  {
    if IsUnreserved(c) then [c]
    else if c == ' ' then "+"
    else PercentEncode(Utf8(c))
  }

  /** url.QueryEscape: each character escaped in turn. */
  function QueryEscape(s: string): string
  {
    if s == [] then [] else EscapeChar(s[0]) + QueryEscape(s[1..])
  }

  /** Whatever the input, the escaped text holds only unreserved characters,
      `+` and `%`, so it can never contain `&`, `=`, `#` or a space and cannot
      end the query component it is placed in. */
  lemma {:induction false} QueryEscapeIsSafe(s: string)
    ensures forall i :: 0 <= i < |QueryEscape(s)| ==> IsEscapedChar(QueryEscape(s)[i])
  {
    if s != [] {
      QueryEscapeIsSafe(s[1..]);
      var e := EscapeChar(s[0]);
      assert forall i :: 0 <= i < |e| ==> IsEscapedChar(e[i]);
    }
  }

  /** Text made only of unreserved characters is left unchanged. */
  lemma {:induction false} QueryEscapeKeepsUnreserved(s: string)
    requires forall i :: 0 <= i < |s| ==> IsUnreserved(s[i])
    ensures QueryEscape(s) == s
  {
    if s != [] {
      QueryEscapeKeepsUnreserved(s[1..]);
    }
  }
}
