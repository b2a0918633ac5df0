/** Cipher block chaining (section 6.2 of NIST SP 800-38A) over a 16-byte block cipher,
    as Go's cipher.NewCBCEncrypter / NewCBCDecrypter and CryptBlocks compute it, and the
    key-size check of aes.NewCipher.

    The AES block function itself (FIPS 197) is not part of this model: every operation
    takes the block cipher as a parameter of type BlockCipher, a pair of functions of
    which the only thing known is that decryption inverts encryption under every key. */
module Cbc {
  import opened Bytes
  import opened Errors
  import opened Text

  const BlockSize: nat := 16

  type Block = b: seq<byte> | |b| == BlockSize witness seq(16, _ => 0)

  datatype CipherPair = CipherPair(encrypt: (seq<byte>, Block) -> Block, decrypt: (seq<byte>, Block) -> Block)

  ghost predicate Inverts(c: CipherPair) {
    forall key: seq<byte>, b: Block :: c.decrypt(key, c.encrypt(key, b)) == b
  }

  /** A block cipher: decryption undoes encryption for every key and block. */
  type BlockCipher = c: CipherPair | Inverts(c)
    witness CipherPair((key: seq<byte>, b: Block) => b, (key: seq<byte>, b: Block) => b)

  /** aes.NewCipher: only 16-, 24- and 32-byte keys make a cipher; any other length is
      rejected with aes.KeySizeError. None means the cipher was made. */
  function NewCipher(key: seq<byte>): (err: Option<Error>)
    ensures err.None? <==> |key| == 16 || |key| == 24 || |key| == 32
  {
    if |key| == 16 || |key| == 24 || |key| == 32 then None
    else Some(Plain("crypto/aes: invalid key size " + NatToDecimal(|key|)))
  }

  /** CBC encryption of whole blocks: each plaintext block is xored with the previous
      ciphertext block (the IV for the first) before it is enciphered. */
  function Encrypt(c: BlockCipher, key: seq<byte>, iv: Block, data: seq<byte>): (r: seq<byte>)
    requires |data| % BlockSize == 0
    ensures |r| == |data|
    decreases |data|
  {
    if data == [] then []
    else
      var x: Block := c.encrypt(key, Xor(data[..BlockSize], iv));
      x + Encrypt(c, key, x, data[BlockSize..])
  }

  /** CBC decryption of whole blocks. */
  function Decrypt(c: BlockCipher, key: seq<byte>, iv: Block, data: seq<byte>): (r: seq<byte>)
    requires |data| % BlockSize == 0
    ensures |r| == |data|
    decreases |data|
  {
    if data == [] then []
    else
      var x: Block := data[..BlockSize];
      Xor(c.decrypt(key, x), iv) + Decrypt(c, key, x, data[BlockSize..])
  }

  /** Decrypting with the same key and IV gives back the plaintext. */
  lemma {:induction false} RoundTrip(c: BlockCipher, key: seq<byte>, iv: Block, data: seq<byte>)
    requires |data| % BlockSize == 0
    ensures Decrypt(c, key, iv, Encrypt(c, key, iv, data)) == data
    decreases |data|
  {
    if data != [] {
      var p := data[..BlockSize];
      var x: Block := c.encrypt(key, Xor(p, iv));
      var rest := Encrypt(c, key, x, data[BlockSize..]);
      var ct := x + rest;
      assert ct[..BlockSize] == x && ct[BlockSize..] == rest;
      assert c.decrypt(key, x) == Xor(p, iv);
      XorTwice(p, iv);
      RoundTrip(c, key, x, data[BlockSize..]);
      assert p + data[BlockSize..] == data;
    }
  }

  /** With a fixed IV, equal plaintext prefixes of whole blocks give equal ciphertext
      prefixes: identical messages under one key encrypt identically, and messages that
      share their first blocks share the first blocks of their ciphertexts. */
  lemma {:induction false} CommonPrefix(c: BlockCipher, key: seq<byte>, iv: Block, p1: seq<byte>, p2: seq<byte>, n: nat)
    requires |p1| % BlockSize == 0 && |p2| % BlockSize == 0
    requires n % BlockSize == 0 && n <= |p1| && n <= |p2|
    requires p1[..n] == p2[..n]
    ensures Encrypt(c, key, iv, p1)[..n] == Encrypt(c, key, iv, p2)[..n]
    decreases n
  {
    if n > 0 {
      assert p1[..BlockSize] == p1[..n][..BlockSize] == p2[..BlockSize];
      var x: Block := c.encrypt(key, Xor(p1[..BlockSize], iv));
      var m := n - BlockSize;
      assert p1[BlockSize..][..m] == p1[BlockSize..n] == p2[BlockSize..n] == p2[BlockSize..][..m];
      CommonPrefix(c, key, x, p1[BlockSize..], p2[BlockSize..], m);
      var r1 := Encrypt(c, key, iv, p1);
      var r2 := Encrypt(c, key, iv, p2);
      assert r1 == x + Encrypt(c, key, x, p1[BlockSize..]);
      assert r2 == x + Encrypt(c, key, x, p2[BlockSize..]);
      assert r1[..n] == x + Encrypt(c, key, x, p1[BlockSize..])[..m];
      assert r2[..n] == x + Encrypt(c, key, x, p2[BlockSize..])[..m];
    }
  }

  /** One block further into a CBC encryption: if `done` is what precedes position pos,
      then `done` and the next ciphertext block x precede position pos + 16. */
  lemma EncryptStep(c: BlockCipher, key: seq<byte>, iv: Block, src: seq<byte>, done: seq<byte>, prev: Block, pos: nat)
    requires |src| % BlockSize == 0 && pos + BlockSize <= |src| && (|src| - pos) % BlockSize == 0
    requires done + Encrypt(c, key, prev, src[pos..]) == Encrypt(c, key, iv, src)
    ensures var x: Block := c.encrypt(key, Xor(src[pos..pos + BlockSize], prev));
            (done + x) + Encrypt(c, key, x, src[pos + BlockSize..]) == Encrypt(c, key, iv, src)
  {
    var rest := src[pos..];
    assert rest[..BlockSize] == src[pos..pos + BlockSize];
    assert rest[BlockSize..] == src[pos + BlockSize..];
    var x: Block := c.encrypt(key, Xor(rest[..BlockSize], prev));
    assert Encrypt(c, key, prev, rest) == x + Encrypt(c, key, x, rest[BlockSize..]);
  }

  /** One block further into a CBC decryption. */
  lemma DecryptStep(c: BlockCipher, key: seq<byte>, iv: Block, src: seq<byte>, done: seq<byte>, prev: Block, pos: nat)
    requires |src| % BlockSize == 0 && pos + BlockSize <= |src| && (|src| - pos) % BlockSize == 0
    requires done + Decrypt(c, key, prev, src[pos..]) == Decrypt(c, key, iv, src)
    ensures var x: Block := src[pos..pos + BlockSize];
            (done + Xor(c.decrypt(key, x), prev)) + Decrypt(c, key, x, src[pos + BlockSize..]) == Decrypt(c, key, iv, src)
  {
    var rest := src[pos..];
    assert rest[..BlockSize] == src[pos..pos + BlockSize];
    assert rest[BlockSize..] == src[pos + BlockSize..];
    var x: Block := rest[..BlockSize];
    assert Decrypt(c, key, prev, rest) == Xor(c.decrypt(key, x), prev) + Decrypt(c, key, x, rest[BlockSize..]);
  }

  // ---------------------------------------------------------------------------
  // CryptBlocks: the in-place fill of a destination buffer
  // ---------------------------------------------------------------------------

  /** Copies one block into dst at pos, leaving the bytes before it as they were. */
  method WriteBlock(dst: array<byte>, pos: nat, x: Block)
    requires pos + BlockSize <= dst.Length
    modifies dst
    ensures dst[..pos] == old(dst[..pos])
    ensures dst[pos..pos + BlockSize] == x
  {
    forall j | 0 <= j < BlockSize {
      dst[pos + j] := x[j];
    }
  }

  /** cipher.NewCBCEncrypter(block, iv).CryptBlocks(dst, src): dst is filled block by
      block with the CBC encryption of src. */
  method EncryptBlocks(c: BlockCipher, key: seq<byte>, iv: Block, dst: array<byte>, src: seq<byte>)
    requires |src| % BlockSize == 0 && dst.Length == |src|
    modifies dst
    ensures dst[..] == Encrypt(c, key, iv, src)
  {
    var pos := 0;
    var prev: Block := iv;
    while pos < |src|
      invariant 0 <= pos <= |src| && (|src| - pos) % BlockSize == 0
      invariant dst[..pos] + Encrypt(c, key, prev, src[pos..]) == Encrypt(c, key, iv, src)
      decreases |src| - pos
    {
      var x: Block := c.encrypt(key, Xor(src[pos..pos + BlockSize], prev));
      EncryptStep(c, key, iv, src, dst[..pos], prev, pos);
      ghost var done := dst[..pos];
      WriteBlock(dst, pos, x);
      assert dst[..pos + BlockSize] == done + x by {
        assert dst[..pos + BlockSize] == dst[..pos] + dst[pos..pos + BlockSize];
      }
      pos, prev := pos + BlockSize, x;
    }
    assert dst[..pos] == dst[..];
  }

  /** cipher.NewCBCDecrypter(block, iv).CryptBlocks(dst, src): dst is filled block by
      block with the CBC decryption of src. */
  method DecryptBlocks(c: BlockCipher, key: seq<byte>, iv: Block, dst: array<byte>, src: seq<byte>)
    requires |src| % BlockSize == 0 && dst.Length == |src|
    modifies dst
    ensures dst[..] == Decrypt(c, key, iv, src)
  {
    var pos := 0;
    var prev: Block := iv;
    while pos < |src|
      invariant 0 <= pos <= |src| && (|src| - pos) % BlockSize == 0
      invariant dst[..pos] + Decrypt(c, key, prev, src[pos..]) == Decrypt(c, key, iv, src)
      decreases |src| - pos
    {
      var x: Block := src[pos..pos + BlockSize];
      var p: Block := Xor(c.decrypt(key, x), prev);
      DecryptStep(c, key, iv, src, dst[..pos], prev, pos);
      ghost var done := dst[..pos];
      WriteBlock(dst, pos, p);
      assert dst[..pos + BlockSize] == done + p by {
        assert dst[..pos + BlockSize] == dst[..pos] + dst[pos..pos + BlockSize];
      }
      pos, prev := pos + BlockSize, x;
    }
    assert dst[..pos] == dst[..];
  }
}
