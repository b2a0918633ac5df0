/** encryption.go: the Client's own encryption layer. validateKeyLength, aesEncrypt and
    aesDecrypt with their own PKCS#7 helpers, the request and response envelopes, the
    encryption headers, and the branch and status logic of sendRequest.

    Unlike aes.go, aesEncrypt and aesDecrypt take the key as it is (aes.NewCipher
    rejects lengths other than 16, 24 and 32), and aesDecrypt hands the decoded text to
    CryptBlocks without checking that it is whole blocks, which makes CryptBlocks panic. */
module Encryption {
  import opened Bytes
  import opened Errors
  import opened Http
  import opened Text
  import Base64
  import Cbc
  import Aes

  /** EncryptionConfig; the Client holds it behind a pointer that may be nil. */
  datatype EncryptionConfig = EncryptionConfig(enabled: bool, secretKey: seq<byte>)

  /** c.encryption != nil && c.encryption.Enabled */
  predicate Enabled(enc: Option<EncryptionConfig>) {
    enc.Some? && enc.value.enabled
  }

  // ---------------------------------------------------------------------------
  // Keys and padding
  // ---------------------------------------------------------------------------

  /** validateKeyLength: the same key sizes as the normalisation in aes.go, reached by
      testing the longest size first; a short key is copied into a fresh zeroed
      16-byte buffer. */
  method ValidateKeyLength(key: seq<byte>) returns (r: seq<byte>)
    ensures r == Aes.NormalizeKey(key)
  {
    if |key| >= 32 {
      r := key[..32];
    } else if |key| >= 24 {
      r := key[..24];
    } else if |key| >= 16 {
      r := key[..16];
    } else {
      var paddedKey := new byte[16](_ => 0);
      var i := 0;
      while i < |key|
        invariant 0 <= i <= |key|
        invariant paddedKey[..i] == key[..i]
        invariant forall j :: i <= j < 16 ==> paddedKey[j] == 0
      {
        paddedKey[i] := key[i];
        i := i + 1;
      }
      r := paddedKey[..];
      var k := Aes.NormalizeKey(key);
      assert forall j :: 0 <= j < 16 ==> r[j] == k[j] by {
        assert r[..|key|] == key == k[..|key|];
        assert forall j :: 0 <= j < |key| ==> r[j] == r[..|key|][j] && k[j] == k[..|key|][j];
      }
    }
  }

  /** pkcs7Padding of encryption.go, the same computation as aes.go's. */
  function Pkcs7Padding(data: seq<byte>, blockSize: nat): (r: seq<byte>)
    requires blockSize >= 1
    ensures r == Aes.Pkcs7Padding(data, blockSize)
  {
    var padding := blockSize - |data| % blockSize;
    var padByte := (padding % 256) as byte;
    data + seq(padding, _ => padByte)
  }

  /** pkcs7UnPadding of encryption.go: aes.go's, except for the text of the error on
      empty input. */
  function Pkcs7UnPadding(data: seq<byte>): (r: Result<seq<byte>>)
    ensures |data| == 0 ==> r == Err(Plain("empty encrypted data"))
    ensures |data| > 0 ==> r == Aes.Pkcs7UnPadding(data)
  {
    if |data| == 0 then Err(Plain("empty encrypted data"))
    else
      var unPadding := data[|data| - 1] as int;
      if unPadding > |data| then Err(Plain("invalid padding"))
      else Ok(data[..|data| - unPadding])
  }

  // ---------------------------------------------------------------------------
  // aesEncrypt / aesDecrypt
  // ---------------------------------------------------------------------------

  predicate ValidKeySize(key: seq<byte>) {
    |key| == 16 || |key| == 24 || |key| == 32
  }

  /** aesEncrypt: AES-CBC under the key as given, IV = its first 16 bytes. */
  function AesEncrypt(c: Cbc.BlockCipher, key: seq<byte>, data: seq<byte>): (r: Result<string>)
    ensures !r.Panic?
    ensures r.Ok? <==> ValidKeySize(key)
    ensures r.Err? ==> r.error == Cbc.NewCipher(key).value
  {
    match Cbc.NewCipher(key)
    case Some(e) => Err(e)
    case None =>
      var padded := Pkcs7Padding(data, Cbc.BlockSize);
      assert |padded| == 16 * (|data| / 16 + 1);
      Ok(Base64.Encode(Cbc.Encrypt(c, key, key[..Cbc.BlockSize], padded)))
  }

  /** aesDecrypt. The key is checked first, then the Base64 text; a decoded text that is
      not whole blocks reaches CryptBlocks, which panics. */
  function AesDecrypt(c: Cbc.BlockCipher, key: seq<byte>, dataStr: string): (r: Result<seq<byte>>)
  {
    match Cbc.NewCipher(key)
    case Some(e) => Err(e)
    case None =>
      match Base64.Decode(dataStr)
      case None => Err(Base64.CorruptInput)
      case Some(data) =>
        if |data| % Cbc.BlockSize != 0 then Panic("crypto/cipher: input not full blocks")
        else Pkcs7UnPadding(Cbc.Decrypt(c, key, key[..Cbc.BlockSize], data))
  }

  /** The outcomes of aesDecrypt: a bad key size is reported before anything else; it
      panics exactly when a well-sized key meets Base64 text that decodes to a length
      that is not a multiple of 16; an empty ciphertext fails in unpadding. */
  lemma AesDecryptOutcomes(c: Cbc.BlockCipher, key: seq<byte>, s: string)
    ensures !ValidKeySize(key) ==> AesDecrypt(c, key, s) == Err(Cbc.NewCipher(key).value)
    ensures ValidKeySize(key) && Base64.Decode(s).None? ==> AesDecrypt(c, key, s) == Err(Base64.CorruptInput)
    ensures AesDecrypt(c, key, s).Panic? <==>
              ValidKeySize(key) && Base64.Decode(s).Some? && |Base64.Decode(s).value| % 16 != 0
    ensures ValidKeySize(key) && Base64.Decode(s) == Some([]) ==>
              AesDecrypt(c, key, s) == Err(Plain("empty encrypted data"))
  {
  }

  /** For a key of a valid size, aesDecrypt undoes aesEncrypt. */
  lemma AesRoundTrip(c: Cbc.BlockCipher, key: seq<byte>, data: seq<byte>)
    requires ValidKeySize(key)
    ensures AesDecrypt(c, key, AesEncrypt(c, key, data).value) == Ok(data)
  {
    var padded := Pkcs7Padding(data, 16);
    var ct := Cbc.Encrypt(c, key, key[..16], padded);
    Base64.RoundTrip(ct);
    Cbc.RoundTrip(c, key, key[..16], padded);
    Aes.UnpadPad(data, 16);
  }

  // ---------------------------------------------------------------------------
  // Envelopes
  // ---------------------------------------------------------------------------

  /** encryptRequest: the payload unchanged when encryption is off; otherwise the
      envelope {"data": <aesEncrypt text>, "timestamp": now}. The clock reading is a
      parameter. */
  function EncryptRequest(enc: Option<EncryptionConfig>, data: seq<byte>, now: int, c: Cbc.BlockCipher): (r: Result<Body>)
    ensures !r.Panic?
  {
    if !Enabled(enc) then Ok(Raw(data))
    else
      var encrypted := AesEncrypt(c, enc.value.secretKey, data);
      if encrypted.Err? then Err(Wrapped("encrypt request", encrypted.error))
      else Ok(StampedEnvelope(encrypted.value, now))
  }

  /** The response envelope decryptResponse looks for. */
  datatype ResponseEnvelope = ResponseEnvelope(encrypted: bool, data: string, timestamp: int)

  /** decryptResponse. parse is json.Unmarshal into the envelope (None when the body
      does not parse as one). */
  function DecryptResponse(
    enc: Option<EncryptionConfig>, body: seq<byte>,
    parse: seq<byte> -> Option<ResponseEnvelope>, c: Cbc.BlockCipher): (r: Result<seq<byte>>)
  {
    if !Enabled(enc) then Ok(body)
    else match parse(body)
      case None => Ok(body)
      case Some(envelope) =>
        if !envelope.encrypted then Ok(body)
        else
          var decrypted := AesDecrypt(c, enc.value.secretKey, envelope.data);
          if decrypted.Err? then Err(Wrapped("decrypt response", decrypted.error))
          else decrypted
  }

  /** encryptRequest: off means the payload goes as it is; on, it either fails with the
      key error under "encrypt request" or yields an envelope stamped with the clock
      reading whose data decrypts back to the payload. */
  lemma EncryptRequestCases(enc: Option<EncryptionConfig>, data: seq<byte>, now: int, c: Cbc.BlockCipher)
    ensures !Enabled(enc) ==> EncryptRequest(enc, data, now, c) == Ok(Raw(data))
    ensures Enabled(enc) && !ValidKeySize(enc.value.secretKey) ==>
              EncryptRequest(enc, data, now, c) == Err(Wrapped("encrypt request", Cbc.NewCipher(enc.value.secretKey).value))
    ensures Enabled(enc) && ValidKeySize(enc.value.secretKey) ==>
              var r := EncryptRequest(enc, data, now, c);
              r.Ok? && r.value.StampedEnvelope? && r.value.timestamp == now &&
              AesDecrypt(c, enc.value.secretKey, r.value.data) == Ok(data)
  {
    if Enabled(enc) && ValidKeySize(enc.value.secretKey) {
      AesRoundTrip(c, enc.value.secretKey, data);
    }
  }

  /** decryptResponse: the body passes through unchanged when encryption is off, when it
      is not an envelope, or when the envelope is not marked encrypted; otherwise it is
      replaced by the decryption of the envelope's data, whose errors are wrapped as
      "decrypt response". */
  lemma DecryptResponseCases(
    enc: Option<EncryptionConfig>, body: seq<byte>,
    parse: seq<byte> -> Option<ResponseEnvelope>, c: Cbc.BlockCipher)
    ensures !Enabled(enc) || parse(body).None? || !parse(body).value.encrypted ==>
              DecryptResponse(enc, body, parse, c) == Ok(body)
    ensures Enabled(enc) && parse(body).Some? && parse(body).value.encrypted ==>
              var d := AesDecrypt(c, enc.value.secretKey, parse(body).value.data);
              var r := DecryptResponse(enc, body, parse, c);
              (d.Err? ==> r == Err(Wrapped("decrypt response", d.error))) && (!d.Err? ==> r == d)
  {
  }

  /** An encrypted envelope made by encryptRequest, returned by the server, decrypts to
      the original payload. */
  lemma EnvelopeRoundTrip(
    enc: Option<EncryptionConfig>, data: seq<byte>, now: int, body: seq<byte>,
    parse: seq<byte> -> Option<ResponseEnvelope>, c: Cbc.BlockCipher)
    requires Enabled(enc) && ValidKeySize(enc.value.secretKey)
    requires EncryptRequest(enc, data, now, c).Ok?
    requires parse(body) == Some(ResponseEnvelope(true, EncryptRequest(enc, data, now, c).value.data, now))
    ensures DecryptResponse(enc, body, parse, c) == Ok(data)
  {
    EncryptRequestCases(enc, data, now, c);
  }

  // ---------------------------------------------------------------------------
  // Headers and sendRequest
  // ---------------------------------------------------------------------------

  /** addEncryptionHeaders: with encryption on, both encryption headers are set to "1";
      otherwise the request is left alone. */
  method AddEncryptionHeaders(enc: Option<EncryptionConfig>, req: Request)
    modifies req
    ensures Enabled(enc) ==> req.header == old(req.header)[EncryptedHeader := "1"][ResponseEncryptHeader := "1"]
    ensures !Enabled(enc) ==> req.header == old(req.header)
  {
    if Enabled(enc) {
      req.Set(EncryptedHeader, "1");
      req.Set(ResponseEncryptHeader, "1");
    }
  }

  /** The headers sendRequest sends: the JSON content type, and the two encryption
      headers set to "1" exactly when encryption is on. */
  function RequestHeader(enc: Option<EncryptionConfig>): (h: Header)
    ensures Get(h, ContentType) == JsonMediaType
    ensures Enabled(enc) <==> EncryptedHeader in h
    ensures Enabled(enc) <==> ResponseEncryptHeader in h
    ensures Enabled(enc) ==> h[EncryptedHeader] == "1" && h[ResponseEncryptHeader] == "1"
  {
    var h := map[ContentType := JsonMediaType];
    if Enabled(enc) then h[EncryptedHeader := "1"][ResponseEncryptHeader := "1"] else h
  }

  /** The error sendRequest returns for a status other than 200: a plain message that
      wraps no sentinel, so isRetryableError rejects it, 5xx statuses included. */
  function StatusError(status: int, body: seq<byte>): (e: Error)
    ensures !IsRetryable(Some(e)) && !Is(Some(e), ServerResponse)
  {
    Plain("server returned status " + IntToDecimal(status) + ": " + AsString(body))
  }

  /** What sendRequest returns: Ok(()) for nil, Err for an error, Panic when decrypting
      the response panicked. The request body is the (possibly encrypted) payload and
      the request carries RequestHeader(enc). */
  function SendOutcome(
    enc: Option<EncryptionConfig>, c: Cbc.BlockCipher, url: string, payload: seq<byte>, now: int,
    exchange: Outgoing -> Exchange, parse: seq<byte> -> Option<ResponseEnvelope>): Result<()>
  {
    var requestData := EncryptRequest(enc, payload, now, c);
    if requestData.Err? then Err(requestData.error)
    else match exchange(Outgoing(url, RequestHeader(enc), requestData.value))
      case BadRequest(e) => Err(e)
      case SendFailed(e) => Err(e)
      case Response(status, _, body, readErr) =>
        if readErr.Some? then Err(readErr.value)
        else
          var decrypted := DecryptResponse(enc, body, parse, c);
          if decrypted.Err? then Err(decrypted.error)
          else if decrypted.Panic? then Panic(decrypted.reason)
          else if status != 200 then Err(StatusError(status, decrypted.value))
          else Ok(())
  }

  /** sendRequest: builds the request, sets its headers in place, and interprets the
      exchange. */
  method SendRequest(
    enc: Option<EncryptionConfig>, c: Cbc.BlockCipher, url: string, payload: seq<byte>, now: int,
    exchange: Outgoing -> Exchange, parse: seq<byte> -> Option<ResponseEnvelope>) returns (r: Result<()>)
    ensures r == SendOutcome(enc, c, url, payload, now, exchange, parse)
  {
    var requestData: Body := Raw(payload);
    if Enabled(enc) {
      var encrypted := EncryptRequest(enc, payload, now, c);
      if encrypted.Err? {
        return Err(encrypted.error);
      }
      requestData := encrypted.value;
    }
    var req := new Request(url, requestData);
    req.Set(ContentType, JsonMediaType);
    AddEncryptionHeaders(enc, req);
    assert req.header == RequestHeader(enc);
    var outcome := exchange(req.Sent());
    match outcome {
      case BadRequest(e) =>
        return Err(e);
      case SendFailed(e) =>
        return Err(e);
      case Response(status, _, body, readErr) =>
        if readErr.Some? {
          return Err(readErr.value);
        }
        var received := body;
        if Enabled(enc) {
          var decrypted := DecryptResponse(enc, body, parse, c);
          if decrypted.Err? {
            return Err(decrypted.error);
          } else if decrypted.Panic? {
            return Panic(decrypted.reason);
          }
          received := decrypted.value;
        }
        if status != 200 {
          return Err(StatusError(status, received));
        }
        return Ok(());
    }
  }

  /** Once the request is sent and the response read and decrypted, the outcome depends
      on the status alone: 200 succeeds, every other status (201 and 204 included) is a
      plain error quoting status and body, which is not retryable. */
  lemma SendOutcomeStatus(
    enc: Option<EncryptionConfig>, c: Cbc.BlockCipher, url: string, payload: seq<byte>, now: int,
    exchange: Outgoing -> Exchange, parse: seq<byte> -> Option<ResponseEnvelope>)
    requires EncryptRequest(enc, payload, now, c).Ok?
    requires var resp := exchange(Outgoing(url, RequestHeader(enc), EncryptRequest(enc, payload, now, c).value));
             resp.Response? && resp.readErr.None? && DecryptResponse(enc, resp.body, parse, c).Ok?
    ensures var resp := exchange(Outgoing(url, RequestHeader(enc), EncryptRequest(enc, payload, now, c).value));
            var r := SendOutcome(enc, c, url, payload, now, exchange, parse);
            (r.Ok? <==> resp.status == 200) &&
            (resp.status != 200 ==>
               r == Err(StatusError(resp.status, DecryptResponse(enc, resp.body, parse, c).value)) &&
               !IsRetryable(Some(r.error)))
  {
  }

  /** A response that fails to decrypt is reported as such whatever its status. */
  lemma SendOutcomeDecryptFirst(
    enc: Option<EncryptionConfig>, c: Cbc.BlockCipher, url: string, payload: seq<byte>, now: int,
    exchange: Outgoing -> Exchange, parse: seq<byte> -> Option<ResponseEnvelope>)
    requires EncryptRequest(enc, payload, now, c).Ok?
    requires var resp := exchange(Outgoing(url, RequestHeader(enc), EncryptRequest(enc, payload, now, c).value));
             resp.Response? && resp.readErr.None? && DecryptResponse(enc, resp.body, parse, c).Err?
    ensures var resp := exchange(Outgoing(url, RequestHeader(enc), EncryptRequest(enc, payload, now, c).value));
            SendOutcome(enc, c, url, payload, now, exchange, parse) == Err(DecryptResponse(enc, resp.body, parse, c).error)
  {
  }

  /** With encryption on and a key aes.NewCipher rejects, nothing is sent: the outcome
      is the key error under "encrypt request", whatever the network would do. */
  lemma SendOutcomeBadKey(
    enc: Option<EncryptionConfig>, c: Cbc.BlockCipher, url: string, payload: seq<byte>, now: int,
    exchange: Outgoing -> Exchange, parse: seq<byte> -> Option<ResponseEnvelope>)
    requires Enabled(enc) && !ValidKeySize(enc.value.secretKey)
    ensures SendOutcome(enc, c, url, payload, now, exchange, parse) ==
            Err(Wrapped("encrypt request", Cbc.NewCipher(enc.value.secretKey).value))
  {
  }
}
