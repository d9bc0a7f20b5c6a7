/**
 * The lower-case hexadecimal rendering of a digest, as in `sha1Hex`
 * (functions/api/process.js:342): each byte becomes
 * `b.toString(16).padStart(2, "0")`, and the pieces are concatenated.
 */
module HexEncoding {
  import opened Outcomes

  newtype byte = x: int | 0 <= x < 256

  /** A digit of a lower-case hexadecimal numeral. */
  predicate IsLowerHex(c: char) {
    ('0' <= c <= '9') || ('a' <= c <= 'f')
  }

  function HexDigit(d: int): (c: char)
    requires 0 <= d < 16
    ensures IsLowerHex(c)
  {
    if d < 10 then ('0' as int + d) as char else ('a' as int + d - 10) as char
  }

  function DigitValue(c: char): (d: int)
    requires IsLowerHex(c)
    ensures 0 <= d < 16
    ensures HexDigit(d) == c
  {
    if '0' <= c <= '9' then c as int - '0' as int else c as int - 'a' as int + 10
  }

  /** One byte as exactly two digits, the high nibble first, padded with `0`. */
  function HexByte(b: byte): string {
    [HexDigit(b as int / 16), HexDigit(b as int % 16)]
  }

  /** The digest as text: two lower-case hexadecimal digits per byte. */
  function Hex(bytes: seq<byte>): (s: string)
    ensures |s| == 2 * |bytes|
    ensures forall i :: 0 <= i < |s| ==> IsLowerHex(s[i])
    decreases |bytes|
  {
    if |bytes| == 0 then "" else HexByte(bytes[0]) + Hex(bytes[1..])
  }

  /** Reads lower-case hexadecimal text back as bytes; `None` for an odd length or a non-digit. */
  function Unhex(s: string): Option<seq<byte>>
    decreases |s|
  {
    if |s| == 0 then Some([])
    else if |s| == 1 || !IsLowerHex(s[0]) || !IsLowerHex(s[1]) then None
    else
      match Unhex(s[2..])
      case None => None
      case Some(rest) => Some([(DigitValue(s[0]) * 16 + DigitValue(s[1])) as byte] + rest)
  }

  /** Decoding undoes the encoding. */
  lemma {:induction false} UnhexHex(bytes: seq<byte>)
    ensures Unhex(Hex(bytes)) == Some(bytes)
    decreases |bytes|
  {
    if |bytes| > 0 {
      var s := Hex(bytes);
      assert s[2..] == Hex(bytes[1..]);
      UnhexHex(bytes[1..]);
      var b := bytes[0] as int;
      assert DigitValue(s[0]) == b / 16 && DigitValue(s[1]) == b % 16 by {
        assert s[0] == HexDigit(b / 16) && s[1] == HexDigit(b % 16);
      }
      assert [bytes[0]] + bytes[1..] == bytes;
    }
  }

  /** Encoding undoes the decoding: every text that decodes is the encoding of what it decodes to. */
  lemma {:induction false} HexUnhex(s: string, bytes: seq<byte>)
    requires Unhex(s) == Some(bytes)
    ensures Hex(bytes) == s
    decreases |s|
  {
    if |s| > 0 {
      var rest := Unhex(s[2..]).value;
      HexUnhex(s[2..], rest);
      var b := DigitValue(s[0]) * 16 + DigitValue(s[1]);
      assert b / 16 == DigitValue(s[0]) && b % 16 == DigitValue(s[1]);
      assert bytes[1..] == rest;
      assert HexByte(bytes[0]) == s[..2];
      assert s == s[..2] + s[2..];
    }
  }

  /** Different digests never render the same. */
  lemma HexInjective(a: seq<byte>, b: seq<byte>)
    requires Hex(a) == Hex(b)
    ensures a == b
  {
    UnhexHex(a);
    UnhexHex(b);
  }
}
