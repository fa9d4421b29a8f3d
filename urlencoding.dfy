/** Python's `urllib.parse.quote_plus(s)` with its defaults (`safe=''`,
    UTF-8): the characters of section 2.3 of RFC 3986 ("unreserved") are kept,
    a space becomes `+`, and every other character becomes the `%XX`
    escapes (section 2.1, upper-case hex) of its UTF-8 bytes. */
module UrlEncoding {
  import opened Ascii

  predicate IsUnreserved(c: char)
  {
    'A' <= c <= 'Z' || 'a' <= c <= 'z' || '0' <= c <= '9' || c == '_' || c == '.' || c == '-' || c == '~'
  }

  /** The UTF-8 encoding of one Unicode scalar value. */
  function Utf8(c: char): (r: seq<Byte>)
    ensures 1 <= |r| <= 4
  {
    var n := c as int;
    if n < 0x80 then [n]
    else if n < 0x800 then [0xC0 + n / 0x40, 0x80 + n % 0x40]
    else if n < 0x1_0000 then [0xE0 + n / 0x1000, 0x80 + (n / 0x40) % 0x40, 0x80 + n % 0x40]
    else [0xF0 + n / 0x4_0000, 0x80 + (n / 0x1000) % 0x40, 0x80 + (n / 0x40) % 0x40, 0x80 + n % 0x40]
  }

  const UpperHexDigits: string := "0123456789ABCDEF"

  function PercentEscapes(bs: seq<Byte>): (r: string)
    ensures |r| == 3 * |bs|
    ensures forall i :: 0 <= i < |r| ==> (r[i] == '%' <==> i % 3 == 0)
    ensures forall i :: 0 <= i < |r| && i % 3 != 0 ==> IsUpperHexChar(r[i])
  {
    if |bs| == 0 then ""
    else ['%', UpperHexDigits[bs[0] / 16], UpperHexDigits[bs[0] % 16]] + PercentEscapes(bs[1..])
  }

  function QuoteChar(c: char): string
  {
    if IsUnreserved(c) then [c]
    else if c == ' ' then "+"
    else PercentEscapes(Utf8(c))
  }

  /** Every character `quote_plus` emits is unreserved, `+` or the `%` of
      an escape, which two upper-case hex digits follow. */
  ghost predicate IsQuoted(s: string)
  {
    && (forall i :: 0 <= i < |s| ==> IsUnreserved(s[i]) || s[i] == '%' || s[i] == '+')
    && (forall i :: 0 <= i < |s| && s[i] == '%' ==>
          i + 2 < |s| && IsUpperHexChar(s[i + 1]) && IsUpperHexChar(s[i + 2]))
  }

  lemma QuotedConcat(a: string, b: string)
    requires IsQuoted(a) && IsQuoted(b)
    ensures IsQuoted(a + b)
  {
    forall i | 0 <= i < |a + b| && (a + b)[i] == '%'
      ensures i + 2 < |a + b| && IsUpperHexChar((a + b)[i + 1]) && IsUpperHexChar((a + b)[i + 2])
    {
      if i < |a| {
        assert a[i] == '%';
      } else {
        assert b[i - |a|] == '%';
      }
    }
  }

  lemma QuoteCharQuoted(c: char)
    ensures IsQuoted(QuoteChar(c))
  {
    if !IsUnreserved(c) && c != ' ' {
      var r := PercentEscapes(Utf8(c));
      forall i | 0 <= i < |r| && r[i] == '%'
        ensures i + 2 < |r| && IsUpperHexChar(r[i + 1]) && IsUpperHexChar(r[i + 2])
      {
        assert i % 3 == 0;
        assert (i + 1) % 3 == 1 && (i + 2) % 3 == 2;
      }
    }
  }

  /** `quote_plus(s)`: only unreserved characters, `+` and `%` escapes, and
      never shorter than `s`. */
  function QuotePlus(s: string): (r: string)
    ensures IsQuoted(r)
    ensures |r| >= |s|
  {
    if |s| == 0 then ""
    else
      QuoteCharQuoted(s[0]);
      QuotedConcat(QuoteChar(s[0]), QuotePlus(s[1..]));
      QuoteChar(s[0]) + QuotePlus(s[1..])
  }

  /** An encoded value never holds the separators of a query string. */
  lemma QuotePlusHasNoSeparators(s: string)
    ensures '&' !in QuotePlus(s) && '=' !in QuotePlus(s)
  {
  }

  /** Text made of unreserved characters only is left as it is. */
  lemma {:induction false} QuotePlusKeepsUnreserved(s: string)
    requires forall i :: 0 <= i < |s| ==> IsUnreserved(s[i])
    ensures QuotePlus(s) == s
  {
    if |s| > 0 {
      QuotePlusKeepsUnreserved(s[1..]);
      assert [s[0]] + s[1..] == s;
    }
  }
}
