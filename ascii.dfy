/** `str.upper()` / `str.lower()` and the hexadecimal digests they are applied to. */
module Ascii {

  function UpperChar(c: char): char
  {
    if 'a' <= c <= 'z' then (c as int - 32) as char else c
  }

  function LowerChar(c: char): char
  {
    if 'A' <= c <= 'Z' then (c as int + 32) as char else c
  }

  /** `s.upper()` on the ASCII letters: no lower-case letter is left, and
      every character that is not one is kept. */
  function Upper(s: string): (r: string)
    ensures |r| == |s|
    ensures forall i :: 0 <= i < |r| ==> !('a' <= r[i] <= 'z')
    ensures forall i :: 0 <= i < |s| && !('a' <= s[i] <= 'z') ==> r[i] == s[i]
  {
    seq(|s|, i requires 0 <= i < |s| => UpperChar(s[i]))
  }

  /** `s.lower()` on the ASCII letters; every other character is kept. */
  function Lower(s: string): string
  {
    seq(|s|, i requires 0 <= i < |s| => LowerChar(s[i]))
  }

  /** Case-insensitive comparison by upper-casing ignores a prior lower-casing. */
  lemma UpperOfLower(s: string)
    ensures Upper(Lower(s)) == Upper(s)
  {
  }

  /** Upper-cased strings are equal exactly when they agree up to ASCII case. */
  ghost predicate EqualIgnoringCase(a: string, b: string)
  {
    |a| == |b| && forall i :: 0 <= i < |a| ==> UpperChar(a[i]) == UpperChar(b[i])
  }

  lemma UpperEqualIff(a: string, b: string)
    ensures Upper(a) == Upper(b) <==> EqualIgnoringCase(a, b)
  {
    if EqualIgnoringCase(a, b) {
      forall i | 0 <= i < |a| ensures Upper(a)[i] == Upper(b)[i] {
        assert Upper(a)[i] == UpperChar(a[i]) && Upper(b)[i] == UpperChar(b[i]);
      }
      assert Upper(a) == Upper(b);
    }
    if Upper(a) == Upper(b) {
      assert |a| == |Upper(a)| == |Upper(b)| == |b|;
      forall i | 0 <= i < |a| ensures UpperChar(a[i]) == UpperChar(b[i]) {
        assert Upper(a)[i] == Upper(b)[i];
      }
    }
  }

  // ---------------------------------------------------------------------
  // Hexadecimal digests

  type Byte = b: int | 0 <= b < 256

  /** The 32-byte output of HMAC-SHA256. */
  type Digest = d: seq<Byte> | |d| == 32 witness seq(32, i => 0)

  /** HMAC-SHA256(key, message) over the UTF-8 bytes of both strings. */
  type Mac = (string, string) -> Digest

  const HexDigits: string := "0123456789abcdef"

  predicate IsLowerHexChar(c: char)
  {
    '0' <= c <= '9' || 'a' <= c <= 'f'
  }

  predicate IsUpperHexChar(c: char)
  {
    '0' <= c <= '9' || 'A' <= c <= 'F'
  }

  ghost predicate IsLowerHex(s: string)
  {
    forall i :: 0 <= i < |s| ==> IsLowerHexChar(s[i])
  }

  ghost predicate IsUpperHex(s: string)
  {
    forall i :: 0 <= i < |s| ==> IsUpperHexChar(s[i])
  }

  /** Python's `hexdigest()`: two lower-case hex digits per byte, high nibble first. */
  function HexDigest(d: seq<Byte>): (r: string)
    ensures |r| == 2 * |d|
    ensures IsLowerHex(r)
  {
    if |d| == 0 then ""
    else [HexDigits[d[0] / 16], HexDigits[d[0] % 16]] + HexDigest(d[1..])
  }

  /** Upper-casing a hex digest gives upper-case hex digits only. */
  lemma UpperOfLowerHex(s: string)
    requires IsLowerHex(s)
    ensures IsUpperHex(Upper(s))
    ensures |Upper(s)| == |s|
  {
  }

  /** An upper-case hex string is unchanged by upper-casing. */
  lemma UpperHexFixed(s: string)
    requires IsUpperHex(s)
    ensures Upper(s) == s
  {
  }

  /** A digest with a letter digit changes under upper-casing. */
  lemma UpperChangesLetter(s: string, i: int)
    requires IsLowerHex(s) && 0 <= i < |s| && 'a' <= s[i] <= 'f'
    ensures Upper(s) != s
  {
    assert Upper(s)[i] != s[i];
  }
}
