/**
 * `u8aToHex` (and so `blake2AsHex`): bytes as "0x" followed by two lower-case hexadecimal
 * digits per byte. The decoder `HexToU8a` is its inverse.
 */
module Hex {
  import opened Wrappers
  import opened Base
  import opened JsText

  function HexDigit(d: nat): (c: char)
    requires d < 16
    ensures DigitValue(c, 16) == Some(d)
    ensures d < 10 ==> '0' <= c <= '9'
    ensures d >= 10 ==> 'a' <= c <= 'f'
  {
    if d < 10 then ('0' as int + d) as char else ('a' as int + d - 10) as char
  }

  /** The digits of `u8aToHex` without the "0x" prefix. */
  function HexBody(bs: Bytes): (s: string)
    ensures |s| == 2 * |bs|
  {
    if bs == [] then [] else [HexDigit(bs[0] / 16), HexDigit(bs[0] % 16)] + HexBody(bs[1..])
  }

  function U8aToHex(bs: Bytes): (s: string)
    ensures |s| == 2 + 2 * |bs| && s[..2] == "0x"
  {
    "0x" + HexBody(bs)
  }

  /** Reads pairs of hexadecimal digits (either case); None for an odd length or a non-digit. */
  function DecodeHexBody(s: string): Option<Bytes>
    decreases |s|
  {
    if s == [] then Some([])
    else if |s| == 1 then None
    else
      var hi :- DigitValue(s[0], 16);
      var lo :- DigitValue(s[1], 16);
      var rest :- DecodeHexBody(s[2..]);
      Some([hi * 16 + lo] + rest)
  }

  /** `hexToU8a`: the inverse of `u8aToHex`. */
  function HexToU8a(s: string): Option<Bytes> {
    if |s| >= 2 && s[..2] == "0x" then DecodeHexBody(s[2..]) else None
  }

  lemma {:induction false} HexBodyRoundTrip(bs: Bytes)
    ensures DecodeHexBody(HexBody(bs)) == Some(bs)
  {
    if bs != [] {
      var s := HexBody(bs);
      HexBodyRoundTrip(bs[1..]);
      assert s[2..] == HexBody(bs[1..]);
      assert s[0] == HexDigit(bs[0] / 16) && s[1] == HexDigit(bs[0] % 16);
      assert [bs[0]] + bs[1..] == bs;
    }
  }

  /** Decoding what `u8aToHex` printed gives back the bytes. */
  lemma U8aToHexRoundTrip(bs: Bytes)
    ensures HexToU8a(U8aToHex(bs)) == Some(bs)
  {
    var s := U8aToHex(bs);
    assert s[2..] == HexBody(bs);
    HexBodyRoundTrip(bs);
  }

  /** Different byte strings never print alike. */
  lemma U8aToHexInjective(a: Bytes, b: Bytes)
    ensures U8aToHex(a) == U8aToHex(b) ==> a == b
  {
    U8aToHexRoundTrip(a);
    U8aToHexRoundTrip(b);
  }
}
