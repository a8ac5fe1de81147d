/**
 * Python's `urllib.parse.urlencode(query, quote_via=quote_plus)`:
 * each key and value is written as UTF-8 (RFC 3629), the unreserved characters
 * of section 2.3 of RFC 3986 are kept, a space becomes `+` (as in the
 * application/x-www-form-urlencoded serializer of section 5 of the WHATWG URL
 * Standard) and every other byte becomes `%XX` with upper-case hex digits
 * (section 2.1 of RFC 3986); pairs are written `key=value` and joined with `&`.
 */
module UrlCodec {
  import opened Wrappers
  import opened Strings
  import opened Decimal

  type Byte = x: int | 0 <= x < 256

  /** UTF-8 encoding of one Unicode scalar value. */
  function Utf8Char(c: char): (bs: seq<Byte>)
    ensures 1 <= |bs| <= 4
    ensures |bs| == 1 <==> c as int < 0x80
    ensures |bs| == 1 ==> bs[0] == c as int
  {
    var n := c as int;
    if n < 0x80 then [n]
    else if n < 0x800 then [0xC0 + n / 64, 0x80 + n % 64]
    else if n < 0x10000 then [0xE0 + n / 4096, 0x80 + (n / 64) % 64, 0x80 + n % 64]
    else [0xF0 + n / 262144, 0x80 + (n / 4096) % 64, 0x80 + (n / 64) % 64, 0x80 + n % 64]
  }

  /** UTF-8 encoding of a string, as Python's `s.encode("utf-8")`. */
  function Utf8(s: string): seq<Byte> {
    if |s| == 0 then [] else Utf8Char(s[0]) + Utf8(s[1..])
  }

  /** The bytes of ALPHA, DIGIT, "-", ".", "_" and "~" (section 2.3 of RFC 3986). */
  predicate IsUnreservedByte(b: int) {
    || 0x41 <= b <= 0x5A || 0x61 <= b <= 0x7A || 0x30 <= b <= 0x39
    || b == 0x2D || b == 0x2E || b == 0x5F || b == 0x7E
  }

  /** The characters an encoded component is made of. */
  predicate IsQuotedChar(c: char) {
    IsUnreservedByte(c as int) || c == '+' || c == '%'
  }

  /** Upper-case hexadecimal digit. */
  function HexDigit(d: nat): (c: char)
    requires d < 16
    ensures IsUnreservedByte(c as int)
  {
    if d < 10 then ('0' as int + d) as char else ('A' as int + d - 10) as char
  }

  /** The value of an upper-case hexadecimal digit. */
  function HexValue(c: char): Option<nat> {
    if '0' <= c <= '9' then Some(c as int - '0' as int)
    else if 'A' <= c <= 'F' then Some(c as int - 'A' as int + 10)
    else None
  }

  /** How `quote_plus` writes one byte. */
  function QuoteByte(b: Byte): string {
    if IsUnreservedByte(b) then [b as char]
    else if b == 0x20 then "+"
    else ['%', HexDigit(b / 16), HexDigit(b % 16)]
  }

  /** `quote_plus` on bytes: the output is made only of unreserved characters, `+` and `%`. */
  function QuoteBytes(bs: seq<Byte>): (r: string)
    ensures forall k :: 0 <= k < |r| ==> IsQuotedChar(r[k])
  {
    if |bs| == 0 then "" else QuoteByte(bs[0]) + QuoteBytes(bs[1..])
  }

  /** Python's `quote_plus(s)` with its default empty `safe` set. */
  function QuotePlus(s: string): string {
    QuoteBytes(Utf8(s))
  }

  function Prepend(b: Byte, rest: Option<seq<Byte>>): Option<seq<Byte>> {
    match rest
    case Some(r) => Some([b] + r)
    case None => None
  }

  /** Reads back an encoded component: `+` is a space, `%XX` a byte, an unreserved character itself. */
  function UnquoteBytes(s: string): Option<seq<Byte>>
    decreases |s|
  {
    if |s| == 0 then Some([])
    else if s[0] == '+' then Prepend(0x20, UnquoteBytes(s[1..]))
    else if s[0] == '%' then
      if |s| >= 3 && HexValue(s[1]).Some? && HexValue(s[2]).Some? then
        Prepend(HexValue(s[1]).value * 16 + HexValue(s[2]).value, UnquoteBytes(s[3..]))
      else None
    else if IsUnreservedByte(s[0] as int) then Prepend(s[0] as int, UnquoteBytes(s[1..]))
    else None
  }

  /** Decoding reads one encoded byte off the front and goes on with the rest. */
  lemma UnquoteQuoteByte(b: Byte, tail: string)
    ensures UnquoteBytes(QuoteByte(b) + tail) == Prepend(b, UnquoteBytes(tail))
  {
    var s := QuoteByte(b) + tail;
    if IsUnreservedByte(b) {
      assert s[0] == b as char && s[1..] == tail;
    } else if b == 0x20 {
      assert s[0] == '+' && s[1..] == tail;
    } else {
      assert s[0] == '%' && s[1] == HexDigit(b / 16) && s[2] == HexDigit(b % 16);
      assert s[3..] == tail;
    }
  }

  /** Decoding an encoded component gives back the bytes that were encoded. */
  lemma {:induction false} UnquoteQuoteBytes(bs: seq<Byte>)
    ensures UnquoteBytes(QuoteBytes(bs)) == Some(bs)
  {
    if |bs| > 0 {
      UnquoteQuoteByte(bs[0], QuoteBytes(bs[1..]));
      UnquoteQuoteBytes(bs[1..]);
      assert bs == [bs[0]] + bs[1..];
    }
  }

  /** `quote_plus` loses nothing: decoding its output gives the UTF-8 bytes of the input. */
  lemma QuotePlusRoundTrip(s: string)
    ensures UnquoteBytes(QuotePlus(s)) == Some(Utf8(s))
  {
    UnquoteQuoteBytes(Utf8(s));
  }

  /** A value of the query dictionary: a string, or an integer that `urlencode` writes with `str`. */
  datatype QueryValue = Str(s: string) | Int(i: int)

  /** Python's `str(v)` on a query value. */
  function Render(v: QueryValue): string {
    match v
    case Str(s) => s
    case Int(i) => IntToDecimal(i)
  }

  /** An ordered query dictionary: its keys in insertion order, each with its value. */
  type Query = seq<(string, QueryValue)>

  function EncodePair(key: string, value: QueryValue): string {
    QuotePlus(key) + "=" + QuotePlus(Render(value))
  }

  function EncodedPairs(q: Query): (r: seq<string>)
    ensures |r| == |q|
    ensures forall k :: 0 <= k < |q| ==> r[k] == EncodePair(q[k].0, q[k].1)
  {
    seq(|q|, k requires 0 <= k < |q| => EncodePair(q[k].0, q[k].1))
  }

  /** Python's `urlencode(q, quote_via=quote_plus)`. */
  function UrlEncode(q: Query): string {
    Join(EncodedPairs(q), '&')
  }

  /** Reads one `key=value` piece back into the bytes of its key and value. */
  function DecodePair(piece: string): Option<(seq<Byte>, seq<Byte>)> {
    var kv := Split(piece, '=');
    if |kv| != 2 then None
    else
      match (UnquoteBytes(kv[0]), UnquoteBytes(kv[1]))
      case (Some(k), Some(v)) => Some((k, v))
      case _ => None
  }

  function DecodePairs(pieces: seq<string>): Option<seq<(seq<Byte>, seq<Byte>)>> {
    if |pieces| == 0 then Some([])
    else
      match (DecodePair(pieces[0]), DecodePairs(pieces[1..]))
      case (Some(p), Some(ps)) => Some([p] + ps)
      case _ => None
  }

  /** Reads an encoded query back into the bytes of its keys and values, in order. */
  function DecodeQuery(s: string): Option<seq<(seq<Byte>, seq<Byte>)>> {
    DecodePairs(Split(s, '&'))
  }

  /** The UTF-8 bytes of each key and of each rendered value, in query order. */
  function Utf8Pairs(q: Query): (r: seq<(seq<Byte>, seq<Byte>)>)
    ensures |r| == |q|
    ensures forall k :: 0 <= k < |q| ==> r[k] == (Utf8(q[k].0), Utf8(Render(q[k].1)))
  {
    seq(|q|, k requires 0 <= k < |q| => (Utf8(q[k].0), Utf8(Render(q[k].1))))
  }

  lemma QuotedLacks(s: string, c: char)
    requires !IsQuotedChar(c)
    ensures c !in QuotePlus(s)
  {
  }

  lemma DecodeEncodedPair(key: string, value: QueryValue)
    ensures DecodePair(EncodePair(key, value)) == Some((Utf8(key), Utf8(Render(value))))
  {
    var a, b := QuotePlus(key), QuotePlus(Render(value));
    QuotedLacks(key, '=');
    QuotedLacks(Render(value), '=');
    assert Join([a, b], '=') == EncodePair(key, value);
    SplitJoin([a, b], '=');
    QuotePlusRoundTrip(key);
    QuotePlusRoundTrip(Render(value));
  }

  lemma {:induction false} DecodeEncodedPairs(q: Query)
    ensures DecodePairs(EncodedPairs(q)) == Some(Utf8Pairs(q))
  {
    if |q| > 0 {
      DecodeEncodedPair(q[0].0, q[0].1);
      assert EncodedPairs(q)[1..] == EncodedPairs(q[1..]);
      DecodeEncodedPairs(q[1..]);
      assert Utf8Pairs(q) == [Utf8Pairs(q)[0]] + Utf8Pairs(q[1..]);
    }
  }

  /**
   * `urlencode` is unambiguous: a non-empty query string splits back into its
   * pairs, in order, and each key and value decodes to its UTF-8 bytes.
   */
  lemma UrlEncodeRoundTrip(q: Query)
    requires |q| > 0
    ensures DecodeQuery(UrlEncode(q)) == Some(Utf8Pairs(q))
  {
    var pieces := EncodedPairs(q);
    forall k | 0 <= k < |pieces| ensures '&' !in pieces[k] {
      QuotedLacks(q[k].0, '&');
      QuotedLacks(Render(q[k].1), '&');
    }
    SplitJoin(pieces, '&');
    DecodeEncodedPairs(q);
  }
}
