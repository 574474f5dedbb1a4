/**
 * `bytes_to_hex`: the lowercase hexadecimal rendering of a byte string that
 * the service embeds in a patch rejection reason. Each byte is printed with
 * Rust's `{:02x}`: two lowercase digits, high nibble first, zero-padded.
 */
module Hex {
  import opened Proto

  predicate IsLowerHexDigit(c: char) {
    '0' <= c <= '9' || 'a' <= c <= 'f'
  }

  /** The digit `{:x}` prints for a nibble. */
  function HexDigit(n: nat): (c: char)
    requires n < 16
    ensures IsLowerHexDigit(c)
  {
    if n < 10 then ('0' as int + n) as char else ('a' as int + n - 10) as char
  }

  /** The nibble a lowercase hex digit stands for: the inverse of `HexDigit`. */
  function DigitValue(c: char): (n: nat)
    requires IsLowerHexDigit(c)
    ensures n < 16 && HexDigit(n) == c
  {
    if c <= '9' then c as int - '0' as int else c as int - 'a' as int + 10
  }

  /** `format!("{:02x}", b)`. */
  function ByteHex(b: byte): (s: string)
    ensures |s| == 2 && IsLowerHexDigit(s[0]) && IsLowerHexDigit(s[1])
    ensures DigitValue(s[0]) * 16 + DigitValue(s[1]) == b
  {
    [HexDigit(b / 16), HexDigit(b % 16)]
  }

  /** The specification of `bytes_to_hex`: the digits of the bytes before the last, then the last. */
  function HexOf(bytes: seq<byte>): (s: string)
    ensures |s| == 2 * |bytes|
    ensures forall j :: 0 <= j < |s| ==> IsLowerHexDigit(s[j])
  {
    if bytes == [] then "" else HexOf(bytes[..|bytes| - 1]) + ByteHex(bytes[|bytes| - 1])
  }

  /** Parses a lowercase hex string of even length back into bytes. */
  function UnHex(s: string): (bytes: seq<byte>)
    requires |s| % 2 == 0
    requires forall i :: 0 <= i < |s| ==> IsLowerHexDigit(s[i])
    ensures 2 * |bytes| == |s|
  {
    seq(|s| / 2, (i: int) requires 0 <= i < |s| / 2 => DigitValue(s[2 * i]) * 16 + DigitValue(s[2 * i + 1]))
  }

  /** Characters `2i` and `2i+1` of the rendering are the high and low nibble of byte `i`. */
  lemma {:induction false} HexOfAt(bytes: seq<byte>, i: nat)
    requires i < |bytes|
    ensures HexOf(bytes)[2 * i] == HexDigit(bytes[i] / 16)
    ensures HexOf(bytes)[2 * i + 1] == HexDigit(bytes[i] % 16)
  {
    var n := |bytes| - 1;
    if i < n {
      HexOfAt(bytes[..n], i);
      assert bytes[..n][i] == bytes[i];
    }
  }

  /** Parsing the rendering gives the bytes back. */
  lemma HexRoundTrip(bytes: seq<byte>)
    ensures UnHex(HexOf(bytes)) == bytes
  {
    var back := UnHex(HexOf(bytes));
    forall i | 0 <= i < |bytes|
      ensures back[i] == bytes[i]
    {
      HexOfAt(bytes, i);
    }
  }

  /** Distinct byte strings have distinct renderings. */
  lemma HexInjective(a: seq<byte>, b: seq<byte>)
    requires HexOf(a) == HexOf(b)
    ensures a == b
  {
    HexRoundTrip(a);
    HexRoundTrip(b);
  }

  /** `bytes_to_hex`: appends the two digits of each byte in turn. */
  method BytesToHex(bytes: seq<byte>) returns (out: string)
    ensures out == HexOf(bytes)
    ensures |out| == 2 * |bytes|
  {
    out := "";
    for i := 0 to |bytes|
      invariant out == HexOf(bytes[..i])
    {
      assert bytes[..i + 1][..i] == bytes[..i];
      out := out + ByteHex(bytes[i]);
    }
    assert bytes[..|bytes|] == bytes;
  }
}
