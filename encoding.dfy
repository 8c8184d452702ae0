/** The byte and text encodings that session identifiers and tokens are made
    of: lower-case hexadecimal (section 8 of RFC 4648), lower-case unpadded
    base32 (section 6 of RFC 4648), the UTF-8 bytes `TextEncoder` produces,
    and ASCII case mapping. */
module Encoding {
  import opened Wrappers

  type byte = b: int | 0 <= b < 256

  /** A SHA-256 digest (FIPS 180-4) is always 32 bytes long. */
  type Digest = s: seq<byte> | |s| == 32 witness seq(32, _ => 0)

  /** SHA-256 itself is not modelled: every operation that hashes receives
      the hash function as a parameter of this type, so all that is assumed
      of it is that it is a function and that it yields 32 bytes. */
  type Sha256 = seq<byte> -> Digest

  // ---------------------------------------------------------------------
  // Hexadecimal, section 8 of RFC 4648, with the lower-case alphabet
  // ---------------------------------------------------------------------

  predicate IsLowerHexChar(c: char) {
    '0' <= c <= '9' || 'a' <= c <= 'f'
  }

  /** The alphabet symbol for the 4-bit value `v`. */
  function HexDigit(v: int): (c: char)
    requires 0 <= v < 16
    ensures IsLowerHexChar(c)
  {
    if v < 10 then ('0' as int + v) as char else ('a' as int + v - 10) as char
  }

  /** The 4-bit value of an alphabet symbol. */
  function HexValue(c: char): (v: int)
    requires IsLowerHexChar(c)
    ensures 0 <= v < 16 && HexDigit(v) == c
  {
    if c <= '9' then c as int - '0' as int else c as int - 'a' as int + 10
  }

  /** Two symbols per byte, high nibble first. */
  function EncodeHexLowerCase(data: seq<byte>): (s: string)
    ensures |s| == 2 * |data|
    ensures forall i :: 0 <= i < |s| ==> IsLowerHexChar(s[i])
  {
    if data == [] then ""
    else [HexDigit(data[0] / 16), HexDigit(data[0] % 16)] + EncodeHexLowerCase(data[1..])
  }

  /** The inverse encoding: `None` for an odd length or a symbol outside the
      lower-case alphabet. */
  function DecodeHexLowerCase(s: string): (r: Option<seq<byte>>)
    decreases |s|
  {
    if s == [] then Some([])
    else if |s| == 1 || !IsLowerHexChar(s[0]) || !IsLowerHexChar(s[1]) then None
    else match DecodeHexLowerCase(s[2..])
      case None => None
      case Some(rest) => Some([HexValue(s[0]) * 16 + HexValue(s[1])] + rest)
  }

  lemma {:induction false} HexRoundTrip(data: seq<byte>)
    ensures DecodeHexLowerCase(EncodeHexLowerCase(data)) == Some(data)
  {
    if data != [] {
      var s := EncodeHexLowerCase(data);
      assert s[2..] == EncodeHexLowerCase(data[1..]);
      HexRoundTrip(data[1..]);
      assert [data[0]] + data[1..] == data;
    }
  }

  /** Distinct byte strings never share a hexadecimal encoding. */
  lemma {:induction false} HexInjective(a: seq<byte>, b: seq<byte>)
    requires EncodeHexLowerCase(a) == EncodeHexLowerCase(b)
    ensures a == b
  {
    HexRoundTrip(a);
    HexRoundTrip(b);
  }

  // ---------------------------------------------------------------------
  // Base32, section 6 of RFC 4648, lower-case alphabet, no padding
  // ---------------------------------------------------------------------

  /** The lower-cased base32 alphabet: `a`-`z` then `2`-`7`. */
  predicate IsBase32LowerChar(c: char) {
    'a' <= c <= 'z' || '2' <= c <= '7'
  }

  /** The alphabet symbol for the 5-bit value `v`. */
  function Base32Digit(v: int): (c: char)
    requires 0 <= v < 32
    ensures IsBase32LowerChar(c)
  {
    if v < 26 then ('a' as int + v) as char else ('2' as int + v - 26) as char
  }

  /** The 40-bit value of a 5-byte quantum, most significant byte first. */
  function QuantumValue(q: seq<byte>): (v: int)
    requires |q| == 5
    ensures 0 <= v < 0x100_0000_0000
  {
    (((q[0] as int * 256 + q[1]) * 256 + q[2]) * 256 + q[3]) * 256 + q[4]
  }

  /** The `count` lowest base-32 digits of `v`, most significant first. */
  function Groups(v: nat, count: nat): (g: seq<int>)
    ensures |g| == count
    ensures forall i :: 0 <= i < count ==> 0 <= g[i] < 32
  {
    if count == 0 then [] else Groups(v / 32, count - 1) + [v % 32]
  }

  /** The first `n` of the eight 5-bit groups of a 40-bit value, most
      significant group first. */
  function QuantumChars(v: int, n: nat): (s: string)
    requires 0 <= v < 0x100_0000_0000 && n <= 8
    ensures |s| == n
    ensures forall i :: 0 <= i < n ==> IsBase32LowerChar(s[i])
  {
    var g := Groups(v, 8);
    seq(n, i requires 0 <= i < n => Base32Digit(g[i]))
  }

  /** Every full 5-byte quantum gives 8 symbols; a final partial quantum of
      1, 2, 3 or 4 bytes is padded with zero bits and gives 2, 4, 5 or 7
      symbols, and the `=` padding is left off. */
  function EncodeBase32LowerCaseNoPadding(data: seq<byte>): (s: string)
    ensures |s| == (8 * |data| + 4) / 5
    ensures forall i :: 0 <= i < |s| ==> IsBase32LowerChar(s[i])
    decreases |data|
  {
    if |data| == 0 then ""
    else if |data| >= 5 then
      QuantumChars(QuantumValue(data[..5]), 8) + EncodeBase32LowerCaseNoPadding(data[5..])
    else
      QuantumChars(QuantumValue(data + seq(5 - |data|, _ => 0)), [2, 4, 5, 7][|data| - 1])
  }

  // ---------------------------------------------------------------------
  // ASCII case mapping
  // ---------------------------------------------------------------------

  predicate IsAsciiUpper(c: char) {
    'A' <= c <= 'Z'
  }

  function LowerAscii(c: char): (d: char)
    ensures !IsAsciiUpper(d)
  {
    if IsAsciiUpper(c) then (c as int + 32) as char else c
  }

  /** `String.prototype.toLowerCase` restricted to the ASCII letters. */
  function ToLowerAscii(s: string): (r: string)
    ensures |r| == |s|
    ensures forall i :: 0 <= i < |s| ==> r[i] == LowerAscii(s[i])
    ensures forall i :: 0 <= i < |s| ==> !IsAsciiUpper(r[i])
  {
    seq(|s|, i requires 0 <= i < |s| => LowerAscii(s[i]))
  }

  /** Lower-casing a string that has no upper-case letter changes nothing. */
  lemma ToLowerAsciiIdentity(s: string)
    requires forall i :: 0 <= i < |s| ==> !IsAsciiUpper(s[i])
    ensures ToLowerAscii(s) == s
  {
  }

  /** Base32 output never contains an upper-case letter, so the extra
      `.toLowerCase()` on a generated token is the identity. */
  lemma {:induction false} LowerCaseBase32Unchanged(data: seq<byte>)
    ensures ToLowerAscii(EncodeBase32LowerCaseNoPadding(data)) == EncodeBase32LowerCaseNoPadding(data)
  {
    var s := EncodeBase32LowerCaseNoPadding(data);
    forall i | 0 <= i < |s|
      ensures !IsAsciiUpper(s[i])
    {
      assert IsBase32LowerChar(s[i]);
    }
    ToLowerAsciiIdentity(s);
  }

  // ---------------------------------------------------------------------
  // UTF-8 (RFC 3629), as `new TextEncoder().encode` produces it
  // ---------------------------------------------------------------------

  /** The one to four bytes of a Unicode scalar value. */
  function Utf8EncodeChar(c: char): (b: seq<byte>)
    ensures 1 <= |b| <= 4
    ensures |b| == 1 <==> c as int < 0x80
    ensures c as int < 0x80 ==> b == [c as int]
  {
    var n := c as int;
    if n < 0x80 then [n]
    else if n < 0x800 then [0xC0 + n / 0x40, 0x80 + n % 0x40]
    else if n < 0x1_0000 then [0xE0 + n / 0x1000, 0x80 + n / 0x40 % 0x40, 0x80 + n % 0x40]
    else [0xF0 + n / 0x4_0000, 0x80 + n / 0x1000 % 0x40, 0x80 + n / 0x40 % 0x40, 0x80 + n % 0x40]
  }

  function Utf8Encode(s: string): (b: seq<byte>)
    ensures |s| <= |b| <= 4 * |s|
  {
    if s == [] then [] else Utf8EncodeChar(s[0]) + Utf8Encode(s[1..])
  }

  predicate IsAscii(s: string) {
    forall i :: 0 <= i < |s| ==> s[i] as int < 0x80
  }

  /** An ASCII string encodes to one byte per character, that character's
      code. */
  lemma {:induction false} Utf8EncodeAscii(s: string)
    requires IsAscii(s)
    ensures |Utf8Encode(s)| == |s|
    ensures forall i :: 0 <= i < |s| ==> Utf8Encode(s)[i] == s[i] as int
  {
    if s != [] {
      assert IsAscii(s[1..]) by {
        forall i | 0 <= i < |s| - 1 ensures s[1..][i] as int < 0x80 {
          assert s[1..][i] == s[i + 1];
        }
      }
      Utf8EncodeAscii(s[1..]);
      assert Utf8Encode(s) == [s[0] as int] + Utf8Encode(s[1..]);
    }
  }
}
