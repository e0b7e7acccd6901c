/**
 * Identifiers: random bytes spelled in lower-case hexadecimal, as Go's
 * `hex.EncodeToString` spells them. A session id comes from 4 random bytes, a
 * receiver id from 8. The random source is not modelled: the bytes are a parameter.
 */
module HexId {

  newtype byte = x: int | 0 <= x < 256

  const HexDigits: string := "0123456789abcdef"

  /** Two hex characters per byte, high nibble first. */
  function HexEncode(bytes: seq<byte>): (r: string)
    ensures |r| == 2 * |bytes|
    ensures forall i :: 0 <= i < |r| ==> r[i] in HexDigits
  {
    if bytes == [] then []
    else
      var b := bytes[0] as int;
      [HexDigits[b / 16], HexDigits[b % 16]] + HexEncode(bytes[1..])
  }

  lemma HexDigitsDistinct(i: nat, j: nat)
    requires i < 16 && j < 16 && HexDigits[i] == HexDigits[j]
    ensures i == j
  {
  }

  /** Different random bytes give different ids: the encoding loses nothing. */
  lemma {:induction false} HexEncodeInjective(a: seq<byte>, b: seq<byte>)
    requires HexEncode(a) == HexEncode(b)
    ensures a == b
  {
    assert |a| == |b|;
    if a != [] {
      var x, y := a[0] as int, b[0] as int;
      var ea, eb := HexEncode(a), HexEncode(b);
      assert ea == [HexDigits[x / 16], HexDigits[x % 16]] + HexEncode(a[1..]);
      assert eb == [HexDigits[y / 16], HexDigits[y % 16]] + HexEncode(b[1..]);
      assert ea[0] == eb[0] && ea[1] == eb[1];
      HexDigitsDistinct(x / 16, y / 16);
      HexDigitsDistinct(x % 16, y % 16);
      assert x == y;
      assert HexEncode(a[1..]) == ea[2..] == eb[2..] == HexEncode(b[1..]);
      HexEncodeInjective(a[1..], b[1..]);
      assert a == [a[0]] + a[1..];
      assert b == [b[0]] + b[1..];
    }
  }

  /** `generateID`: the 8-character public rendezvous code of a session. */
  function SessionId(random: seq<byte>): (id: string)
    requires |random| == 4
    ensures |id| == 8 && forall i :: 0 <= i < |id| ==> id[i] in HexDigits
  {
    HexEncode(random)
  }

  /** `generateReceiverID`: the 16-character id of a receiver. */
  function ReceiverId(random: seq<byte>): (id: string)
    requires |random| == 8
    ensures |id| == 16 && forall i :: 0 <= i < |id| ==> id[i] in HexDigits
  {
    HexEncode(random)
  }
}
