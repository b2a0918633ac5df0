/** aes.go: PKCS#7 padding (section 6.3 of RFC 5652), the key normalisation of
    AESEncrypt and AESDecrypt, AES-CBC with the first 16 key bytes as the IV, Base64
    text, and the request/response logic of AESClient.PostEncrypted. */
module Aes {
  import opened Bytes
  import opened Errors
  import opened Http
  import Base64
  import Cbc

  // ---------------------------------------------------------------------------
  // PKCS#7
  // ---------------------------------------------------------------------------

  /** The arithmetic of padding: the count lies in 1..blockSize and takes the length to
      the next multiple of blockSize. */
  lemma PaddedLength(len: nat, blockSize: nat)
    requires blockSize >= 1
    ensures 1 <= blockSize - len % blockSize <= blockSize
    ensures len + (blockSize - len % blockSize) == blockSize * (len / blockSize + 1)
  {
    assert len == blockSize * (len / blockSize) + len % blockSize;
    assert blockSize * (len / blockSize + 1) == blockSize * (len / blockSize) + blockSize;
  }

  /** pkcs7Padding: between one and blockSize bytes are appended so that the length
      becomes the next multiple of blockSize, each holding their count (as a byte). */
  function Pkcs7Padding(data: seq<byte>, blockSize: nat): (r: seq<byte>)
    requires blockSize >= 1
    ensures |data| < |r| <= |data| + blockSize
    ensures |r| == blockSize * (|data| / blockSize + 1)
    ensures r[..|data|] == data
    ensures forall i :: |data| <= i < |r| ==> r[i] == ((|r| - |data|) % 256) as byte
  {
    var n := blockSize - |data| % blockSize;
    PaddedLength(|data|, blockSize);
    var padByte := (n % 256) as byte;
    var r := data + seq(n, _ => padByte);
    assert r[..|data|] == data;
    r
  }

  /** pkcs7UnPadding: reads the count from the last byte and strips that many bytes;
      it checks only that the count does not exceed the length. */
  function Pkcs7UnPadding(data: seq<byte>): (r: Result<seq<byte>>)
    ensures !r.Panic?
    ensures |data| == 0 ==> r == Err(Plain("invalid padding size"))
    ensures |data| > 0 && data[|data| - 1] as int > |data| ==> r == Err(Plain("invalid padding"))
    ensures r.Ok? <==> |data| > 0 && data[|data| - 1] as int <= |data|
    ensures r.Ok? ==> |r.value| + data[|data| - 1] as int == |data| && r.value == data[..|r.value|]
  {
    if |data| == 0 then Err(Plain("invalid padding size"))
    else
      var unpadding := data[|data| - 1] as int;
      if unpadding > |data| then Err(Plain("invalid padding"))
      else Ok(data[..|data| - unpadding])
  }

  /** Unpadding undoes padding for every block size a byte can count. */
  lemma UnpadPad(data: seq<byte>, blockSize: nat)
    requires 1 <= blockSize <= 255
    ensures Pkcs7UnPadding(Pkcs7Padding(data, blockSize)) == Ok(data)
  {
    var r := Pkcs7Padding(data, blockSize);
    var n := |r| - |data|;
    assert r[|r| - 1] == (n % 256) as byte;
    ByteOfCount(n);
    assert r[..|r| - n] == data;
  }

  lemma ByteOfCount(n: nat)
    requires n < 256
    ensures ((n % 256) as byte) as int == n
  {
  }

  /** The bytes before the last are never inspected: a final byte 2 strips two bytes
      even when the byte before it is 0, and a final byte 0 strips nothing. */
  lemma UnpadIgnoresPadContents()
    ensures Pkcs7UnPadding([7, 0, 2]) == Ok([7])
    ensures Pkcs7UnPadding([5, 0]) == Ok([5, 0])
  {
    assert [7, 0, 2][..1] == [7 as byte];
    assert [5, 0][..2] == [5 as byte, 0];
  }

  // ---------------------------------------------------------------------------
  // Key normalisation
  // ---------------------------------------------------------------------------

  /** The key adjustment at the start of AESEncrypt and AESDecrypt: longer keys are cut
      to the largest AES key size that fits, shorter ones are zero-filled to 16 bytes. */
  function NormalizeKey(key: seq<byte>): (k: seq<byte>)
    ensures |k| == 16 || |k| == 24 || |k| == 32
    ensures |key| >= 32 ==> k == key[..32]
    ensures 24 <= |key| < 32 ==> k == key[..24]
    ensures 16 <= |key| < 24 ==> k == key[..16]
    ensures |key| < 16 ==> |k| == 16 && k[..|key|] == key && forall i :: |key| <= i < 16 ==> k[i] == 0
  {
    if |key| == 16 || |key| == 24 || |key| == 32 then key
    else if |key| < 16 then key + Zeros(16 - |key|)
    else if |key| > 32 then key[..32]
    else if |key| > 24 then key[..24]
    else key[..16]
  }

  /** A normalised key is left as it is, so normalising twice changes nothing. */
  lemma NormalizeKeyIdempotent(key: seq<byte>)
    ensures NormalizeKey(NormalizeKey(key)) == NormalizeKey(key)
  {
  }

  // ---------------------------------------------------------------------------
  // AESEncrypt / AESDecrypt
  // ---------------------------------------------------------------------------

  /** AESEncrypt: the Base64 text of the AES-CBC encryption of the PKCS#7-padded
      plaintext under the normalised key, with the key's first 16 bytes as the IV.
      Normalisation leaves aes.NewCipher nothing to reject, so it always succeeds. */
  function AESEncrypt(c: Cbc.BlockCipher, key: seq<byte>, plaintext: seq<byte>): (r: Result<string>)
    ensures r.Ok?
  {
    var k := NormalizeKey(key);
    match Cbc.NewCipher(k)
    case Some(e) => Err(e)
    case None =>
      var padded := Pkcs7Padding(plaintext, Cbc.BlockSize);
      Ok(Base64.Encode(Cbc.Encrypt(c, k, k[..Cbc.BlockSize], padded)))
  }

  /** AESDecrypt. Its checks come in this order: the Base64 text must decode, the key
      must make a cipher (it always does once normalised), the ciphertext must be whole
      blocks, and the decrypted text must unpad. It never panics. */
  function AESDecrypt(c: Cbc.BlockCipher, key: seq<byte>, ciphertextBase64: string): (r: Result<seq<byte>>)
    ensures !r.Panic?
  {
    var k := NormalizeKey(key);
    match Base64.Decode(ciphertextBase64)
    case None => Err(Base64.CorruptInput)
    case Some(ciphertext) =>
      match Cbc.NewCipher(k)
      case Some(e) => Err(e)
      case None =>
        if |ciphertext| % Cbc.BlockSize != 0 then Err(Plain("ciphertext is not a multiple of the block size"))
        else Pkcs7UnPadding(Cbc.Decrypt(c, k, k[..Cbc.BlockSize], ciphertext))
  }

  /** The ciphertext behind AESEncrypt's text is one block longer than the whole blocks
      of the plaintext, and CBC-decrypts, under the normalised key and the IV taken from
      it, to the padded plaintext. */
  lemma AESEncryptLayout(c: Cbc.BlockCipher, key: seq<byte>, plaintext: seq<byte>)
    ensures Base64.Decode(AESEncrypt(c, key, plaintext).value).Some?
    ensures var ct := Base64.Decode(AESEncrypt(c, key, plaintext).value).value;
            var k := NormalizeKey(key);
            |ct| == (|plaintext| / 16 + 1) * 16 &&
            Cbc.Decrypt(c, k, k[..16], ct) == Pkcs7Padding(plaintext, 16)
  {
    var k := NormalizeKey(key);
    var padded := Pkcs7Padding(plaintext, 16);
    var ct := Cbc.Encrypt(c, k, k[..16], padded);
    Base64.RoundTrip(ct);
    Cbc.RoundTrip(c, k, k[..16], padded);
  }

  /** With the IV fixed by the key, two plaintexts that share their first n bytes (n a
      whole number of blocks) produce ciphertexts that share their first n bytes. */
  lemma AESEncryptSharesPrefix(c: Cbc.BlockCipher, key: seq<byte>, p1: seq<byte>, p2: seq<byte>, n: nat)
    requires n % 16 == 0 && n <= |p1| && n <= |p2| && p1[..n] == p2[..n]
    ensures var d1, d2 := Base64.Decode(AESEncrypt(c, key, p1).value), Base64.Decode(AESEncrypt(c, key, p2).value);
            d1.Some? && d2.Some? && n <= |d1.value| && n <= |d2.value| && d1.value[..n] == d2.value[..n]
  {
    var k := NormalizeKey(key);
    var q1, q2 := Pkcs7Padding(p1, 16), Pkcs7Padding(p2, 16);
    assert q1[..n] == p1[..n] by {
      assert q1[..|p1|] == p1;
    }
    assert q2[..n] == p2[..n] by {
      assert q2[..|p2|] == p2;
    }
    var ct1, ct2 := Cbc.Encrypt(c, k, k[..16], q1), Cbc.Encrypt(c, k, k[..16], q2);
    assert AESEncrypt(c, key, p1).value == Base64.Encode(ct1);
    assert AESEncrypt(c, key, p2).value == Base64.Encode(ct2);
    Base64.RoundTrip(ct1);
    Base64.RoundTrip(ct2);
    Cbc.CommonPrefix(c, k, k[..16], q1, q2, n);
  }

  /** The failures of AESDecrypt: text that is not Base64, a ciphertext that is not whole
      blocks, and an empty ciphertext (rejected by unpadding). */
  lemma AESDecryptFailures(c: Cbc.BlockCipher, key: seq<byte>, s: string)
    ensures Base64.Decode(s).None? ==> AESDecrypt(c, key, s) == Err(Base64.CorruptInput)
    ensures Base64.Decode(s).Some? && |Base64.Decode(s).value| % 16 != 0 ==>
              AESDecrypt(c, key, s) == Err(Plain("ciphertext is not a multiple of the block size"))
    ensures Base64.Decode(s) == Some([]) ==> AESDecrypt(c, key, s) == Err(Plain("invalid padding size"))
  {
  }

  /** Decryption undoes encryption, for keys of every length. */
  lemma AESRoundTrip(c: Cbc.BlockCipher, key: seq<byte>, plaintext: seq<byte>)
    ensures AESDecrypt(c, key, AESEncrypt(c, key, plaintext).value) == Ok(plaintext)
  {
    var k := NormalizeKey(key);
    var padded := Pkcs7Padding(plaintext, 16);
    var ct := Cbc.Encrypt(c, k, k[..16], padded);
    Base64.RoundTrip(ct);
    Cbc.RoundTrip(c, k, k[..16], padded);
    UnpadPad(plaintext, 16);
  }

  // ---------------------------------------------------------------------------
  // AESClient.PostEncrypted
  // ---------------------------------------------------------------------------

  /** AESClient: the server's base URL and the shared secret. */
  datatype AESClient = AESClient(baseURL: string, secretKey: seq<byte>)

  /** The headers PostEncrypted sets on its request. */
  const EncryptedPostHeader: Header :=
    map[ContentType := JsonMediaType, EncryptedHeader := "true", ResponseEncryptHeader := "true"]

  /** The request PostEncrypted sends: to baseURL + path, marked as encrypted, carrying
      {"data": text} where text decrypts under the client's secret to the JSON data. */
  function EncryptedPost(c: Cbc.BlockCipher, client: AESClient, path: string, jsonData: seq<byte>): (req: Outgoing)
    ensures req.url == client.baseURL + path
    ensures Get(req.header, EncryptedHeader) == "true" && Get(req.header, ResponseEncryptHeader) == "true"
    ensures req.body.DataEnvelope? && AESDecrypt(c, client.secretKey, req.body.data) == Ok(jsonData)
  {
    AESRoundTrip(c, client.secretKey, jsonData);
    Outgoing(client.baseURL + path, EncryptedPostHeader, DataEnvelope(AESEncrypt(c, client.secretKey, jsonData).value))
  }

  /** The part of PostEncrypted that handles a response read in full: the body is
      decrypted when X-Encrypted is "true" and returned as it came otherwise.
      unmarshal is json.Unmarshal into a string map. */
  function DecodeResponse(
    c: Cbc.BlockCipher, secretKey: seq<byte>, header: Header, body: seq<byte>,
    unmarshal: seq<byte> -> (map<string, string>, Option<Error>)): (r: Result<seq<byte>>)
    ensures !r.Panic?
  {
    if Get(header, EncryptedHeader) == "true" then
      var (fields, unmarshalErr) := unmarshal(body);
      if unmarshalErr.Some? then Err(Wrapped("unmarshal encrypted response error", unmarshalErr.value))
      else
        var decrypted := AESDecrypt(c, secretKey, Get(fields, "data"));
        if decrypted.Err? then Err(Wrapped("decrypt response error", decrypted.error))
        else decrypted
    else Ok(body)
  }

  /** AESClient.PostEncrypted. The JSON encoding of the data (bytes and error, as
      json.Marshal returns them), the round trip with the server and the JSON decoding
      of the response into a string map are supplied by the caller. */
  function PostEncrypted(
    c: Cbc.BlockCipher, client: AESClient, path: string,
    marshalled: (seq<byte>, Option<Error>),
    exchange: Outgoing -> Exchange,
    unmarshal: seq<byte> -> (map<string, string>, Option<Error>)): (r: Result<seq<byte>>)
    ensures !r.Panic?
  {
    var (jsonData, marshalErr) := marshalled;
    if marshalErr.Some? then Err(Wrapped("marshal data error", marshalErr.value))
    else
      match exchange(EncryptedPost(c, client, path, jsonData))
      case BadRequest(e) => Err(Wrapped("create request error", e))
      case SendFailed(e) => Err(Wrapped("send request error", e))
      case Response(_, header, body, readErr) =>
        if readErr.Some? then Err(Wrapped("read response error", readErr.value))
        else DecodeResponse(c, client.secretKey, header, body, unmarshal)
  }

  /** The outcomes of PostEncrypted: each failure before the response is read is wrapped
      with its own prefix (a marshalling error means no request is issued), and a
      response read in full is handed to DecodeResponse, whatever its status. */
  lemma PostEncryptedSteps(
    c: Cbc.BlockCipher, client: AESClient, path: string,
    marshalled: (seq<byte>, Option<Error>),
    exchange: Outgoing -> Exchange,
    unmarshal: seq<byte> -> (map<string, string>, Option<Error>))
    ensures var r := PostEncrypted(c, client, path, marshalled, exchange, unmarshal);
            (marshalled.1.Some? ==> r == Err(Wrapped("marshal data error", marshalled.1.value))) &&
            (marshalled.1.None? ==>
               var resp := exchange(EncryptedPost(c, client, path, marshalled.0));
               (resp.BadRequest? ==> r == Err(Wrapped("create request error", resp.err))) &&
               (resp.SendFailed? ==> r == Err(Wrapped("send request error", resp.err))) &&
               (resp.Response? && resp.readErr.Some? ==> r == Err(Wrapped("read response error", resp.readErr.value))) &&
               (resp.Response? && resp.readErr.None? ==> r == DecodeResponse(c, client.secretKey, resp.header, resp.body, unmarshal)))
  {
  }

  /** The response decision: the body is decrypted exactly when X-Encrypted is "true",
      with decoding and decryption errors wrapped under their own prefixes, and is
      returned as it came otherwise. It never panics. */
  lemma DecodeResponseCases(
    c: Cbc.BlockCipher, secretKey: seq<byte>, header: Header, body: seq<byte>,
    unmarshal: seq<byte> -> (map<string, string>, Option<Error>))
    ensures var r := DecodeResponse(c, secretKey, header, body, unmarshal);
            var (fields, err) := unmarshal(body);
            var d := AESDecrypt(c, secretKey, Get(fields, "data"));
            !r.Panic? &&
            (Get(header, EncryptedHeader) != "true" ==> r == Ok(body)) &&
            (Get(header, EncryptedHeader) == "true" && err.Some? ==>
               r == Err(Wrapped("unmarshal encrypted response error", err.value))) &&
            (Get(header, EncryptedHeader) == "true" && err.None? ==>
               (d.Ok? ==> r == d) && (d.Err? ==> r == Err(Wrapped("decrypt response error", d.error))))
  {
  }

  /** A marked response whose "data" field is the encryption of p under the client's
      secret yields p. */
  lemma DecodeResponseRoundTrip(
    c: Cbc.BlockCipher, secretKey: seq<byte>, header: Header, body: seq<byte>,
    unmarshal: seq<byte> -> (map<string, string>, Option<Error>), p: seq<byte>)
    requires Get(header, EncryptedHeader) == "true"
    requires unmarshal(body).1.None? && Get(unmarshal(body).0, "data") == AESEncrypt(c, secretKey, p).value
    ensures DecodeResponse(c, secretKey, header, body, unmarshal) == Ok(p)
  {
    AESRoundTrip(c, secretKey, p);
  }

  /** A marked response without a "data" field decrypts "" and fails in unpadding. */
  lemma DecodeResponseMissingData(
    c: Cbc.BlockCipher, secretKey: seq<byte>, header: Header, body: seq<byte>,
    unmarshal: seq<byte> -> (map<string, string>, Option<Error>))
    requires Get(header, EncryptedHeader) == "true"
    requires unmarshal(body).1.None? && "data" !in unmarshal(body).0
    ensures DecodeResponse(c, secretKey, header, body, unmarshal) ==
            Err(Wrapped("decrypt response error", Plain("invalid padding size")))
  {
    DecryptEmpty(c, secretKey);
  }

  /** The empty text decodes to no bytes, which unpadding rejects. */
  lemma DecryptEmpty(c: Cbc.BlockCipher, key: seq<byte>)
    ensures AESDecrypt(c, key, "") == Err(Plain("invalid padding size"))
  {
    assert Base64.Decode("") == Some([]);
  }
}
