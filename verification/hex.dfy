/**
 * `hex.EncodeToString`: lowercase, two digits per byte, high nibble first;
 * with the decoder that inverts it.
 */
module Hex {
  import opened Wrappers

  type Byte = b: int | 0 <= b < 256

  /** A SHA-1 digest: twenty bytes. */
  type Digest = d: seq<Byte> | |d| == 20 witness seq(20, i => 0)

  predicate IsDigit(c: char)
  {
    '0' <= c <= '9' || 'a' <= c <= 'f'
  }

  /** The lowercase digit of a nibble; `Value` reads it back. */
  function Digit(n: int): (c: char)
    requires 0 <= n < 16
    ensures IsDigit(c) && Value(c) == n
  {
    if n < 10 then ('0' as int + n) as char else ('a' as int + n - 10) as char
  }

  function Value(c: char): (n: int)
    requires IsDigit(c)
    ensures 0 <= n < 16
  {
    if c <= '9' then c as int - '0' as int else c as int - 'a' as int + 10
  }

  /** `hex.EncodeToString`. */
  function Encode(d: seq<Byte>): (h: string)
    ensures |h| == 2 * |d|
    ensures forall i :: 0 <= i < |h| ==> IsDigit(h[i])
  {
    if d == [] then "" else [Digit(d[0] / 16), Digit(d[0] % 16)] + Encode(d[1..])
  }

  /** Lowercase hex decoding; `None` for an odd length or a character that is not a lowercase digit. */
  function Decode(h: string): Option<seq<Byte>>
  {
    if h == [] then Some([])
    else if |h| < 2 || !IsDigit(h[0]) || !IsDigit(h[1]) then None
    else match Decode(h[2..])
      case None => None
      case Some(rest) => Some([Value(h[0]) * 16 + Value(h[1])] + rest)
  }

  /** Decoding undoes encoding: no two digests share a signature string. */
  lemma {:induction false} DecodeEncode(d: seq<Byte>)
    ensures Decode(Encode(d)) == Some(d)
  {
    if d != [] {
      var h := Encode(d);
      assert h[2..] == Encode(d[1..]);
      DecodeEncode(d[1..]);
      assert h[0] == Digit(d[0] / 16) && h[1] == Digit(d[0] % 16);
      assert Value(h[0]) * 16 + Value(h[1]) == d[0];
      assert [d[0]] + d[1..] == d;
    }
  }
}
