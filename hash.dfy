/**
 * Dashboard.HashName of pkg/rpdac/dashboard.go: the first four characters of the lower-case hex
 * encoding (encoding/hex.EncodeToString) of the SHA-1 digest of the dashboard's name. The digest
 * function is a parameter.
 */
module Hash {

  newtype Byte = b: int | 0 <= b < 256

  /** A SHA-1 digest: 20 bytes. */
  type Digest = s: seq<Byte> | |s| == 20 witness seq(20, i => 0 as Byte)

  /** A lower-case hex digit, as hex.EncodeToString writes them. */
  predicate IsHexDigit(c: char) {
    '0' <= c <= '9' || 'a' <= c <= 'f'
  }

  /** The hex digit of a value below 16. */
  function HexDigit(n: int): (c: char)
    requires 0 <= n < 16
    ensures IsHexDigit(c)
  {
    if n < 10 then ('0' as int + n) as char else ('a' as int + n - 10) as char
  }

  /** The value of a hex digit, undoing HexDigit. */
  function HexValue(c: char): (n: int)
    requires IsHexDigit(c)
    ensures 0 <= n < 16 && HexDigit(n) == c
  {
    if '0' <= c <= '9' then c as int - '0' as int else c as int - 'a' as int + 10
  }

  /** The two hex digits of one byte, high nibble first. */
  function HexByte(b: Byte): (s: string)
    ensures |s| == 2 && IsHexDigit(s[0]) && IsHexDigit(s[1])
  {
    [HexDigit(b as int / 16), HexDigit(b as int % 16)]
  }

  /** hex.EncodeToString: the digits of every byte, in order. */
  function HexEncode(bytes: seq<Byte>): (s: string)
    ensures |s| == 2 * |bytes|
  {
    if |bytes| == 0 then [] else HexByte(bytes[0]) + HexEncode(bytes[1..])
  }

  /** Byte j of the input is encoded at positions 2j and 2j + 1. */
  lemma {:induction false} HexEncodeAt(bytes: seq<Byte>, j: nat)
    requires j < |bytes|
    ensures HexEncode(bytes)[2 * j..2 * j + 2] == HexByte(bytes[j])
  {
    var s := HexEncode(bytes);
    if j > 0 {
      HexEncodeAt(bytes[1..], j - 1);
      assert s[2..] == HexEncode(bytes[1..]);
      assert s[2 * j..2 * j + 2] == s[2..][2 * (j - 1)..2 * (j - 1) + 2];
    } else {
      assert s[..2] == HexByte(bytes[0]);
    }
  }

  /** Every character of a hex encoding is a hex digit. */
  lemma {:induction false} HexEncodeDigits(bytes: seq<Byte>)
    ensures forall i :: 0 <= i < |HexEncode(bytes)| ==> IsHexDigit(HexEncode(bytes)[i])
  {
    if |bytes| > 0 {
      HexEncodeDigits(bytes[1..]);
      ConcatHalves(HexByte(bytes[0]), HexEncode(bytes[1..]));
    }
  }

  /** The value of a byte's two digits is the byte. */
  lemma HexByteValue(b: Byte)
    ensures HexValue(HexByte(b)[0]) * 16 + HexValue(HexByte(b)[1]) == b as int
  {
    HexDigitInjective(HexValue(HexByte(b)[0]), b as int / 16);
    HexDigitInjective(HexValue(HexByte(b)[1]), b as int % 16);
  }

  lemma HexDigitInjective(a: int, b: int)
    requires 0 <= a < 16 && 0 <= b < 16 && HexDigit(a) == HexDigit(b)
    ensures a == b
  {
  }

  /** Two bytes with the same digits are the same byte. */
  lemma HexByteInjective(a: Byte, b: Byte)
    requires HexByte(a) == HexByte(b)
    ensures a == b
  {
    HexByteValue(a);
    HexByteValue(b);
  }

  /** Dashboard.HashName (dashboard.go:189-193), with `sha1` standing for crypto/sha1. */
  function HashName(name: string, sha1: string -> Digest): (h: string)
    ensures |h| == 4
    ensures forall i :: 0 <= i < 4 ==> IsHexDigit(h[i])
    ensures h == HexByte(sha1(name)[0]) + HexByte(sha1(name)[1])
  {
    var d := sha1(name);
    var full := HexEncode(d);
    HexEncodeAt(d, 0);
    HexEncodeAt(d, 1);
    assert full[..4] == full[0..2] + full[2..4];
    full[..4]
  }

  /**
   * The hash of dashboard_test.go:2089-2097: a name whose digest starts with the bytes 0x9e, 0xaf
   * hashes to "9eaf".
   */
  lemma HashNameExample(name: string, sha1: string -> Digest)
    requires sha1(name)[0] == 0x9e && sha1(name)[1] == 0xaf
    ensures HashName(name, sha1) == "9eaf"
  {
  }

  lemma ConcatHalves(x: string, y: string)
    requires |x| == 2
    ensures (x + y)[..2] == x && (x + y)[2..] == y
  {
  }

  /** The hash determines the first two bytes of the digest: equal hashes mean equal prefixes. */
  lemma HashNameDeterminesPrefix(a: string, b: string, sha1: string -> Digest)
    ensures HashName(a, sha1) == HashName(b, sha1) <==> sha1(a)[0] == sha1(b)[0] && sha1(a)[1] == sha1(b)[1]
  {
    var da, db := sha1(a), sha1(b);
    if HashName(a, sha1) == HashName(b, sha1) {
      ConcatHalves(HexByte(da[0]), HexByte(da[1]));
      ConcatHalves(HexByte(db[0]), HexByte(db[1]));
      HexByteInjective(da[0], db[0]);
      HexByteInjective(da[1], db[1]);
    }
  }
}
