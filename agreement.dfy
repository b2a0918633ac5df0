/** aes.go and encryption.go implement the same envelope twice. Where the two agree and
    where they part ways. */
module Agreement {
  import opened Bytes
  import opened Errors
  import opened Http
  import Base64
  import Cbc
  import Aes
  import Encryption

  /** Encrypting with encryption.go under the key validateKeyLength produces gives the
      same text as aes.go's AESEncrypt under the raw key. */
  lemma EncryptAgrees(c: Cbc.BlockCipher, key: seq<byte>, data: seq<byte>)
    ensures Encryption.AesEncrypt(c, Aes.NormalizeKey(key), data) == Aes.AESEncrypt(c, key, data)
  {
  }

  /** Text encrypted by encryption.go under a validated key decrypts with aes.go under
      the raw key, and the other way round. */
  lemma CrossDecrypt(c: Cbc.BlockCipher, key: seq<byte>, data: seq<byte>)
    ensures Aes.AESDecrypt(c, key, Encryption.AesEncrypt(c, Aes.NormalizeKey(key), data).value) == Ok(data)
    ensures Encryption.AesDecrypt(c, Aes.NormalizeKey(key), Aes.AESEncrypt(c, key, data).value) == Ok(data)
  {
    EncryptAgrees(c, key, data);
    Aes.AESRoundTrip(c, key, data);
    Encryption.AesRoundTrip(c, Aes.NormalizeKey(key), data);
  }

  /** On Base64 text that decodes to a non-empty whole number of blocks, the two
      decryptions agree. */
  lemma DecryptAgreesOnWholeBlocks(c: Cbc.BlockCipher, key: seq<byte>, s: string)
    requires Base64.Decode(s).Some?
    requires |Base64.Decode(s).value| % 16 == 0 && |Base64.Decode(s).value| > 0
    ensures Encryption.AesDecrypt(c, Aes.NormalizeKey(key), s) == Aes.AESDecrypt(c, key, s)
  {
  }

  /** Where they differ, on a key aes.NewCipher accepts: a ciphertext that is not whole
      blocks is an error in aes.go but a panic in encryption.go; an empty one is an error
      in both, with different texts. */
  lemma DecryptDiffers(c: Cbc.BlockCipher, key: seq<byte>, s: string)
    requires Encryption.ValidKeySize(key) && Base64.Decode(s).Some?
    ensures |Base64.Decode(s).value| % 16 != 0 ==>
              Aes.AESDecrypt(c, key, s) == Err(Plain("ciphertext is not a multiple of the block size")) &&
              Encryption.AesDecrypt(c, key, s) == Panic("crypto/cipher: input not full blocks")
    ensures Base64.Decode(s).value == [] ==>
              Aes.AESDecrypt(c, key, s) == Err(Plain("invalid padding size")) &&
              Encryption.AesDecrypt(c, key, s) == Err(Plain("empty encrypted data"))
  {
  }

  /** The header values differ: encryption.go marks an encrypted request with "1",
      while aes.go's PostEncrypted sends "true" and decrypts a response only when it is
      marked "true". A response carrying encryption.go's headers passes through aes.go's
      response handling undecrypted. (encryption.go's own decryptResponse reads a field
      of the body, never a header.) */
  lemma HeaderValuesDiffer(
    enc: Option<Encryption.EncryptionConfig>, c: Cbc.BlockCipher, key: seq<byte>, body: seq<byte>,
    unmarshal: seq<byte> -> (map<string, string>, Option<Error>))
    requires Encryption.Enabled(enc)
    ensures Get(Encryption.RequestHeader(enc), EncryptedHeader) == "1"
    ensures Get(Aes.EncryptedPostHeader, EncryptedHeader) == "true"
    ensures Get(Encryption.RequestHeader(enc), EncryptedHeader) != Get(Aes.EncryptedPostHeader, EncryptedHeader)
    ensures Aes.DecodeResponse(c, key, Encryption.RequestHeader(enc), body, unmarshal) == Ok(body)
  {
  }
}
