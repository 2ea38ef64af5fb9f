/**
 * Upper-case hexadecimal formatting of byte strings, the way a Tendermint
 * `HexBytes` value prints itself, together with its inverse.
 */
module Hex {
  import opened Wrappers

  newtype byte = x: int | 0 <= x < 256

  /** The characters a formatted digest may contain: `0`-`9` and `A`-`F`. */
  predicate IsHexChar(c: char) {
    '0' <= c <= '9' || 'A' <= c <= 'F'
  }

  /** The value of one hexadecimal digit, or -1 for any other character. */
  function DigitValue(c: char): (n: int)
    ensures -1 <= n < 16
    ensures n == -1 <==> !IsHexChar(c)
  {
    if '0' <= c <= '9' then c as int - '0' as int
    else if 'A' <= c <= 'F' then c as int - 'A' as int + 10
    else -1
  }

  /** The upper-case digit for a value below 16. */
  function HexDigit(n: int): (c: char)
    requires 0 <= n < 16
    ensures IsHexChar(c) && c != '/'
    ensures DigitValue(c) == n
  {
    if n < 10 then ('0' as int + n) as char else ('A' as int + n - 10) as char
  }

  /** Two digits per byte, high nibble first. */
  function HexEncode(bs: seq<byte>): (s: string)
    ensures |s| == 2 * |bs|
    ensures forall i :: 0 <= i < |s| ==> IsHexChar(s[i])
  {
    if bs == [] then []
    else [HexDigit(bs[0] as int / 16), HexDigit(bs[0] as int % 16)] + HexEncode(bs[1..])
  }

  /** Parses upper-case hexadecimal text back into bytes. */
  function HexDecode(s: string): (r: Option<seq<byte>>)
    ensures r.Some? ==> 2 * |r.value| == |s|
    decreases |s|
  {
    if s == [] then Some([])
    else if |s| == 1 then None
    else
      var hi, lo := DigitValue(s[0]), DigitValue(s[1]);
      if hi < 0 || lo < 0 then None
      else match HexDecode(s[2..])
        case None => None
        case Some(rest) => Some([(hi * 16 + lo) as byte] + rest)
  }

  /** Formatting loses nothing: decoding the text gives the bytes back. */
  lemma {:induction false} DecodeEncode(bs: seq<byte>)
    ensures HexDecode(HexEncode(bs)) == Some(bs)
  {
    if bs != [] {
      var s := HexEncode(bs);
      var b := bs[0] as int;
      assert s[2..] == HexEncode(bs[1..]);
      assert DigitValue(s[0]) == b / 16 && DigitValue(s[1]) == b % 16;
      DecodeEncode(bs[1..]);
      assert [bs[0]] + bs[1..] == bs;
    }
  }

  /** Distinct byte strings print differently. */
  lemma EncodeInjective(a: seq<byte>, b: seq<byte>)
    ensures HexEncode(a) == HexEncode(b) <==> a == b
  {
    DecodeEncode(a);
    DecodeEncode(b);
  }
}
