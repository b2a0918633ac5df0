/** Octet strings, as Go's []byte. */
module Bytes {

  type byte = bv8

  /** n zero bytes, as make([]byte, n) or bytes.Repeat([]byte{0}, n). */
  function Zeros(n: nat): (r: seq<byte>)
    ensures |r| == n && forall i :: 0 <= i < n ==> r[i] == 0
  {
    seq(n, _ => 0)
  }

  /** Byte-wise exclusive or of two strings of equal length. */
  function Xor(a: seq<byte>, b: seq<byte>): (r: seq<byte>)
    requires |a| == |b|
    ensures |r| == |a|
    ensures forall i :: 0 <= i < |a| ==> r[i] == a[i] ^ b[i]
  {
    seq(|a|, i requires 0 <= i < |a| => a[i] ^ b[i])
  }

  /** Xor with the same mask twice gives back the input: CBC decryption relies on it. */
  lemma XorTwice(a: seq<byte>, b: seq<byte>)
    requires |a| == |b|
    ensures Xor(Xor(a, b), b) == a
  {
    var x := Xor(Xor(a, b), b);
    forall i | 0 <= i < |a| ensures x[i] == a[i] {
      assert x[i] == (a[i] ^ b[i]) ^ b[i];
    }
  }

  /** Go's string(b): one character per byte. */
  function AsString(b: seq<byte>): (s: string)
    ensures |s| == |b| && forall i :: 0 <= i < |b| ==> s[i] as int == b[i] as int
  {
    seq(|b|, i requires 0 <= i < |b| => b[i] as char)
  }
}
