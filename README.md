# go-analysis-client core in Dafny

This project models the core of the Go analytics client in four files: `analytics.go`, `aes.go`, `encryption.go` and `errors.go`. The core has four parts.

- **Event client.** A bounded event channel that `Track`, `TrackEvent` and `TrackBatch` feed without blocking. A background loop (`processEvents`) gathers events into batches. It sends a batch when the batch reaches `batchSize`, when the flush ticker fires, and at shutdown. At shutdown it flushes the batch and then drains the channel. `sendEvents` posts one batch, encrypted or not.
- **aes.go envelope.** PKCS#7 padding (section 6.3 of RFC 5652) and key normalisation. Then AES-CBC (section 6.2 of NIST SP 800-38A), using the first 16 key bytes as the IV, and Base64 text (section 4 of RFC 4648). The same file holds the request and response logic of `AESClient.PostEncrypted`.
- **encryption.go layer.** The client's second copy of that envelope:
  - `validateKeyLength`, `aesEncrypt` and `aesDecrypt`, with their own padding helpers;
  - the request and response envelopes;
  - the `X-Encrypted` and `X-Response-Encrypt` headers;
  - the status logic of `sendRequest`.
- **Error values.** The package's sentinel errors, `ClientError` and `NetworkError`, and the cause chain that `errors.Is` and `errors.As` walk. The two classifiers `isRetryableError` and `wrapError` work over that chain.

Modules:

- `Text`: decimal rendering.
- `Bytes`: bytes as `bv8`.
- `Base64`: Go's `StdEncoding`.
- `Cbc`: CBC over a block cipher passed in as a parameter, plus `aes.NewCipher`'s key-size check.
- `Errors`: errors.go.
- `Http`: headers, bodies and the request object, as values.
- `Aes`: aes.go.
- `Encryption`: encryption.go.
- `Agreement`: where aes.go and encryption.go agree and where they differ.
- `Analytics`: analytics.go.

The AES block function is not modelled. `Cbc.BlockCipher` is any pair of functions in which decryption inverts encryption under every key, so every round-trip property holds for every such cipher.

The HTTP exchange is a function the caller supplies, and so are JSON encoding and decoding. Every property about a request or response holds whatever the server and the network do.

The goroutine in `processEvents` is modelled as one method per `select` branch: `Client.ReceiveStep`, `Client.TickStep` and `Client.QuitStep`. Any schedule is a sequence of calls to these methods and to the Track methods. The ghost field `accepted` records every event the channel took. The class invariant `Client.Valid` states three things while the loop runs:

- the sent batches, then the current batch, then the channel, are exactly the accepted events, in order;
- the batch is shorter than `batchSize`;
- no sent batch is empty.

Behaviour of the code worth knowing (the model reproduces it):

- `processEvents` ignores what `sendEvents` returns, and `sendEvents` treats any HTTP response as success, whatever its status.
- `sendRequest` rejects every status other than 200, 201 and 204 included, with a plain error. The error does not wrap `ErrServerResponse`, so `isRetryableError` classifies it as not retryable. That includes 5xx responses, which the comment above `isRetryableError` (errors.go:171-177) lists as retryable.
- The quit branch sends the batch it holds but does not reset it. A non-empty batch at shutdown is therefore sent twice: once alone, and again at the head of the drained channel contents. No event is lost, but those events are not sent exactly once.
- Nothing stops `Track` after `Close`: the event is still queued (it just stays in the channel). A second `Close` panics, because it closes `quit` again, so `Client.Close` requires `!closed`.
- The package declares `EncryptionConfig`, `ClientOption` and `WithEncryption` in both analytics.go and encryption.go, and the padding helpers in both aes.go and encryption.go, so it does not compile as shown. Each copy is modelled in its own module. The two `WithEncryption` variants are `ClientOption.WithEncryption` (the key as given) and `ClientOption.WithValidatedEncryption` (the key after `validateKeyLength`).
- encryption.go's `aesDecrypt` does not check that the ciphertext is whole blocks. `CryptBlocks` then panics, and this is modelled as the `Panic` outcome of `Result`.

## Model

| member | source | states |
|---|---|---|
| Errors.ChainFrom | errors.go:89-91 | The chain starts with the error itself and continues with the chain of its `Unwrap`; an error without a cause is alone on its chain |
| Errors.Is | errors.go:190 | `errors.Is` for a sentinel target, which never holds of nil; `Errors.IsMeansOnChain` proves it holds iff the sentinel lies on the chain |
| Errors.AsNetworkError | errors.go:184-186 | What `errors.As` finds for `*NetworkError` is always a NetworkError |
| Errors.AsClientError | errors.go:207-209 | What `errors.As` finds for `*ClientError` is always a ClientError; `Errors.AsClientIsOutermost` proves it is the outermost one, and that nothing is found iff the chain holds none |
| Errors.NewClientError | errors.go:144-149 | A ClientError with the given Op, no context, and `Unwrap` equal to the cause; `errors.Is` answers for it exactly as for its cause |
| Errors.NewClientErrorWithContext | errors.go:152-158 | The same, with the context stored as given |
| Errors.NewNetworkError | errors.go:161-169 | Op, URL and status code are stored as given, `Unwrap` is the cause, `errors.Is` sees through it, and its retryability is exactly the flag passed in |
| Errors.IsMeansOnChain | errors.go:190 | `errors.Is(err, sentinel)` holds iff the sentinel lies on the cause chain |
| Errors.AsNetworkIsOutermost | errors.go:184-187 | `errors.As` for `*NetworkError` finds nothing iff the chain holds no NetworkError; otherwise it finds the outermost one |
| Errors.AsClientIsOutermost | errors.go:206-209 | `errors.As` for `*ClientError` finds nothing iff the chain holds no ClientError; otherwise it finds the outermost one |
| Errors.RetryableByChain | errors.go:178-195 | `isRetryableError(nil)` is false; if the chain holds a NetworkError, the answer is the Retryable flag of the outermost one, whatever lies deeper; otherwise it is true iff the chain holds ErrNetworkTimeout or ErrNetworkFailure |
| Errors.IsRetryable | errors.go:178-195 | `isRetryableError` is false for nil; `Errors.RetryableByChain` states the whole decision over the chain |
| Errors.WrapError | errors.go:201-215 | nil stays nil; the result is always an error that `errors.As` finds as a ClientError or a NetworkError; `Errors.WrapErrorByChain` and `Errors.WrapErrorCases` state the cases |
| Errors.WrapErrorByChain | errors.go:201-215 | Stated over the chain: an error whose chain holds a ClientError or a NetworkError comes back unchanged; any other error becomes `ClientError{Op: op, Err: err}` with no context |
| Errors.WrapErrorCases | errors.go:201-215 | Stated through `errors.As`: nil stays nil; an error in which `errors.As` finds a ClientError or a NetworkError is returned unchanged, so the original Op survives; any other error becomes a ClientError with the given Op whose `Unwrap` is the original |
| Errors.WrapErrorIdempotent | errors.go:206-211 | Wrapping an already wrapped error changes nothing, whatever the second Op |
| Errors.WrapErrorPreservesClassification | errors.go:213-214 | Wrapping preserves `errors.Is` for every sentinel and preserves retryability |
| Errors.ClientMessageContext | errors.go:81-86 | `ClientError.Error()` is "Op: cause", with " (context: map[...])" appended exactly when the context is non-empty |
| Errors.NetworkMessageStatus | errors.go:127-132 | `NetworkError.Error()` is "Op URL: cause", with "status N: " inserted before the cause exactly when StatusCode > 0 |
| Errors.Message | errors.go:81-132 | The `Error()` texts of both error types and of fmt's wrapping; `Errors.ClientMessageContext` and `Errors.NetworkMessageStatus` state their shapes |
| Errors.ClientMessageExample | errors_test.go:15-21 | The message the tests expect of a ClientError without context |
| Errors.RetryableExamples | errors_test.go:129-168 | The classifications the tests expect, plus a non-retryable NetworkError wrapping ErrNetworkTimeout, which stays non-retryable |
| Text.NatToDecimal | errors.go:129 | `%d` of a non-negative number: decimal digits, no leading zero, denoting the number |
| Bytes.AsString | encryption.go:227 | `string(body)`: one character per byte, with the byte's code |
| Base64.Encode | aes.go:128 | The encoded text has a length that is a multiple of 4 and holds no line breaks |
| Base64.RoundTrip | aes.go:155-158 | `DecodeString(EncodeToString(b))` gives back `b` |
| Base64.Decode | aes.go:155-158 | `DecodeString`; `Base64.RoundTrip` proves it undoes `Base64.Encode` for every byte string |
| Cbc.NewCipher | aes.go:113-116 | `aes.NewCipher` accepts a key iff it is 16, 24 or 32 bytes long |
| Cbc.Encrypt | aes.go:124-126 | CBC encryption of whole blocks keeps the length |
| Cbc.RoundTrip | aes.go:169-173 | CBC decryption with the same key and IV gives back the plaintext |
| Cbc.Decrypt | aes.go:169-173 | CBC decryption of whole blocks keeps the length; `Cbc.RoundTrip` proves it undoes `Cbc.Encrypt` |
| Cbc.CommonPrefix | aes.go:122-126 | With a fixed IV, plaintexts that share their first whole blocks give ciphertexts that share those blocks, so encryption is deterministic |
| Cbc.EncryptBlocks | aes.go:124-126 | `CryptBlocks` filling the destination buffer in place leaves it holding the CBC encryption of the source |
| Cbc.DecryptBlocks | aes.go:169-173 | The same for decryption |
| Http.Request.constructor | encryption.go:194 | A new request holds the URL and body and no headers |
| Http.Request.Set | encryption.go:199 | `Header.Set` replaces the value under one key and leaves the rest |
| Aes.Pkcs7Padding | aes.go:64-68 | The input is a prefix of the output; 1 to blockSize bytes are added, taking the length to the next multiple of blockSize; each added byte holds their count |
| Aes.Pkcs7UnPadding | aes.go:74-84 | Empty input fails with "invalid padding size"; a last byte larger than the length fails with "invalid padding"; otherwise the result is the input without as many trailing bytes as the last byte says; it never panics |
| Aes.UnpadPad | aes.go:64-84 | Unpadding undoes padding for every block size from 1 to 255 |
| Aes.UnpadIgnoresPadContents | aes.go:79-83 | Only the last byte is inspected: [7,0,2] unpads to [7] and [5,0] to [5,0] |
| Aes.NormalizeKey | aes.go:99-111 | The key becomes 16, 24 or 32 bytes: longer keys are cut to the largest size that fits and shorter ones are zero-filled to 16, so 16, 24 and 32 bytes are kept |
| Aes.NormalizeKeyIdempotent | aes.go:100 | Normalising a normalised key changes nothing |
| Aes.AESEncrypt | aes.go:97-129 | AESEncrypt never returns an error |
| Aes.AESDecrypt | aes.go:140-177 | AESDecrypt never panics |
| Aes.AESEncryptLayout | aes.go:119-128 | The text decodes to a ciphertext one block longer than the plaintext's whole blocks, which CBC-decrypts, under the normalised key and its first 16 bytes as IV, to the padded plaintext |
| Aes.AESEncryptSharesPrefix | aes.go:122-126 | Plaintexts sharing their first n bytes (n a whole number of blocks) give ciphertexts sharing their first n bytes: the IV is fixed by the key |
| Aes.AESDecryptFailures | aes.go:155-177 | Non-Base64 text, a ciphertext that is not whole blocks, and an empty ciphertext are each rejected with their own error |
| Aes.AESRoundTrip | aes.go:97-177 | `AESDecrypt(k, AESEncrypt(k, p)) == p` for keys of every length and every plaintext |
| Aes.EncryptedPost | aes.go:205-231 | The request goes to baseURL + path, carries both encryption headers set to "true", and its `data` field decrypts under the client's secret to the JSON data |
| Aes.PostEncrypted | aes.go:198-263 | `PostEncrypted` never panics; `Aes.PostEncryptedSteps` states each outcome |
| Aes.PostEncryptedSteps | aes.go:199-244 | Marshalling, request-creation, send and read failures are each wrapped with their own prefix; a marshalling error means no request is issued; a response read in full goes to the response decision whatever its status |
| Aes.DecodeResponse | aes.go:246-263 | The response decision never panics; `Aes.DecodeResponseCases`, `Aes.DecodeResponseRoundTrip` and `Aes.DecodeResponseMissingData` state what it returns |
| Aes.DecodeResponseCases | aes.go:246-263 | A response is decrypted exactly when X-Encrypted is "true"; unmarshalling and decryption errors are wrapped as "unmarshal encrypted response error" and "decrypt response error"; otherwise the body is returned as it came; it never panics |
| Aes.DecodeResponseRoundTrip | aes.go:247-260 | A marked response whose `data` is the encryption of p yields p |
| Aes.DecodeResponseMissingData | aes.go:249-258 | A marked response without a `data` field decrypts "" and fails with "invalid padding size", wrapped as a decryption error |
| Encryption.ValidateKeyLength | encryption.go:163-179 | The byte-copying loop yields exactly aes.go's normalised key, so its result is 16, 24 or 32 bytes and is left unchanged when validated again |
| Encryption.Pkcs7Padding | encryption.go:143-147 | The same padding as aes.go's |
| Encryption.Pkcs7UnPadding | encryption.go:150-160 | Empty input fails with "empty encrypted data"; on any other input it agrees with aes.go's |
| Encryption.AesEncrypt | encryption.go:96-112 | It succeeds iff the key is 16, 24 or 32 bytes, fails with aes.NewCipher's error otherwise, and never panics |
| Encryption.AesDecrypt | encryption.go:115-140 | `aesDecrypt`; `Encryption.AesDecryptOutcomes` states its outcomes and `Encryption.AesRoundTrip` that it undoes `aesEncrypt` |
| Encryption.AesDecryptOutcomes | encryption.go:115-140 | A bad key size is reported first, then bad Base64; it panics exactly when a good key meets a decoded length that is not a multiple of 16; an empty ciphertext fails with "empty encrypted data" |
| Encryption.AesRoundTrip | encryption.go:96-140 | For a 16-, 24- or 32-byte key, aesDecrypt undoes aesEncrypt |
| Encryption.EncryptRequest | encryption.go:36-54 | encryptRequest never panics |
| Encryption.EncryptRequestCases | encryption.go:36-54 | Off: the payload unchanged. On with a bad key: the key error wrapped as "encrypt request". On with a good key: an envelope stamped with the clock reading whose data decrypts to the payload |
| Encryption.DecryptResponse | encryption.go:57-85 | `decryptResponse`; `Encryption.DecryptResponseCases` states its cases and `Encryption.EnvelopeRoundTrip` that it undoes `encryptRequest` |
| Encryption.DecryptResponseCases | encryption.go:57-85 | The body passes through unchanged when encryption is off, when it is not an envelope, or when the envelope is not marked encrypted; otherwise the result is the decryption of `data`, with errors wrapped as "decrypt response" |
| Encryption.EnvelopeRoundTrip | encryption.go:36-85 | An envelope made by encryptRequest and returned marked as encrypted decrypts to the original payload |
| Encryption.AddEncryptionHeaders | encryption.go:88-93 | With encryption on, both headers are set to "1"; otherwise the headers are untouched |
| Encryption.RequestHeader | encryption.go:199-202 | The request carries the JSON content type, and carries both encryption headers, set to "1", iff encryption is on |
| Encryption.SendRequest | encryption.go:182-231 | Building the request and setting its headers in place yields exactly the outcome SendOutcome describes |
| Encryption.SendOutcome | encryption.go:182-231 | What `sendRequest` returns; `Encryption.SendOutcomeStatus`, `Encryption.SendOutcomeDecryptFirst` and `Encryption.SendOutcomeBadKey` state it |
| Encryption.StatusError | encryption.go:226-228 | The error for a status other than 200 wraps no sentinel, so it is not retryable and `errors.Is(err, ErrServerResponse)` is false |
| Encryption.SendOutcomeStatus | encryption.go:225-230 | After a response is read and decrypted, the call succeeds iff the status is 200; any other status gives "server returned status N: body", which is not retryable |
| Encryption.SendOutcomeDecryptFirst | encryption.go:217-223 | A decryption failure is reported whatever the status |
| Encryption.SendOutcomeBadKey | encryption.go:186-191 | With encryption on and a bad key size, nothing is sent and the key error is returned |
| Agreement.EncryptAgrees | encryption.go:96-112 | aesEncrypt under the validated key produces the same text as AESEncrypt under the raw key |
| Agreement.CrossDecrypt | encryption.go:115-140 | Each file's decryption undoes the other's encryption |
| Agreement.DecryptAgreesOnWholeBlocks | encryption.go:127-139 | On a non-empty whole-block ciphertext the two decryptions agree |
| Agreement.DecryptDiffers | encryption.go:127-131 | On a ciphertext that is not whole blocks, aes.go returns an error and encryption.go panics; on an empty one their error texts differ |
| Agreement.HeaderValuesDiffer | encryption.go:88-93 | encryption.go marks requests with "1" and aes.go with "true"; a response carrying encryption.go's headers passes through aes.go's response handling undecrypted, as its body |
| Analytics.ApplySetsOneKnob | analytics.go:79-144 | Each option sets its own setting to its value and leaves every other setting alone |
| Analytics.Configure | analytics.go:179-182 | The options applied in order; `Analytics.LastOptionWins` and `Analytics.UnsetKnobKeepsDefault` state the resulting settings |
| Analytics.LastOptionWins | analytics.go:179-182 | Options apply in order, so the last option that sets a setting decides its value |
| Analytics.UnsetKnobKeepsDefault | analytics.go:165-177 | A setting no option touches keeps NewClient's default |
| Analytics.DrainSendsAll | analytics.go:326-336 | The drain loop sends every event it starts with, in order, exactly once |
| Analytics.DrainBatchesNonEmpty | analytics.go:326-336 | The drain loop never sends an empty batch |
| Analytics.DrainBatchSizes | analytics.go:326-336 | Starting below batchSize, every drained batch but the last has exactly batchSize events, and the last at most that many |
| Analytics.DrainStartsWith | analytics.go:326-332 | The first drained batch begins with the batch held at quit |
| Analytics.DrainBatches | analytics.go:326-336 | The batches the drain loop sends; `Analytics.DrainSendsAll`, `Analytics.DrainBatchesNonEmpty`, `Analytics.DrainBatchSizes` and `Analytics.DrainStartsWith` state them |
| Analytics.QuitSendsAll | analytics.go:320-337 | At quit, the events sent are the held batch twice, then the channel in FIFO order, and no sent batch is empty |
| Analytics.QuitOutcome | analytics.go:320-337 | Appending the quit batches to the sent log keeps every batch non-empty; the log's events are the earlier ones, then the batch twice, then the channel |
| Analytics.QuitResendsAccumulator | analytics.go:322-330 | A non-empty batch at quit is sent alone and again at the head of the next batch |
| Analytics.QuitScenario | analytics.go:320-337 | With batchSize 2, batch [a] and channel [b, c], the quit branch sends [a], [a, b], [c] |
| Analytics.QuitBatches | analytics.go:320-337 | The batches the quit branch sends; `Analytics.QuitSendsAll` and `Analytics.QuitResendsAccumulator` state them |
| Analytics.SendEventsCases | analytics.go:356-427 | No events: no request and nil. A marshal error: wrapped as "marshal events". Otherwise one POST to serverURL + "/api/events/batch" with the JSON content type, whose body is the payload or an envelope that decrypts to it, and any response counts as success |
| Analytics.SendEvents | analytics.go:356-427 | `sendEvents`; `Analytics.SendEventsCases` states its cases |
| Analytics.Stamped | analytics.go:268-270 | TrackBatch's copies keep every field but the timestamp, which is the clock reading |
| Analytics.Client.constructor | analytics.go:164-192 | The settings are the defaults (10 s, 20, 5 s, 1000) with the options applied in order; the channel, batch and sent log start empty |
| Analytics.Client.Offer | analytics.go:206-213 | The event joins the tail of the channel iff it has room; a full channel drops it and keeps its contents; the class invariant is kept |
| Analytics.Client.Track | analytics.go:199-214 | Offers an event with the name, clock reading and properties |
| Analytics.Client.TrackEvent | analytics.go:228-246 | Offers an event named after the action with the category, action, label and value set |
| Analytics.Client.TrackBatch | analytics.go:267-281 | The stamped copies are offered one by one in input order; the ones queued are the longest prefix the free room allows |
| Analytics.Client.ReceiveStep | analytics.go:339-344 | The oldest event moves from the channel to the batch; a batch reaching batchSize is sent and reset, so a size-triggered batch has exactly batchSize events; the invariant is kept |
| Analytics.Client.TickStep | analytics.go:346-351 | A non-empty batch is sent and reset; an empty one causes no send |
| Analytics.Client.SignalQuit | analytics.go:304 | Closes the quit channel, which must be open |
| Analytics.Client.QuitStep | analytics.go:320-337 | Returns with the channel and the batch empty; the sent log grows by exactly the quit batches; every accepted event is sent, and the held batch's events are sent twice |
| Analytics.Client.DrainOne | analytics.go:326-332 | One turn of the drain loop shortens the channel and keeps the sent log plus the batches still to drain equal to what they were |
| Analytics.Client.Close | analytics.go:302-307 | Closes quit and waits for the loop: on return every accepted event has been sent |
| Analytics.Client.SetUserID | analytics.go:461-464 | Sets the user ID |
| Analytics.Client.TrackSync | analytics.go:256-264 | Sends one event at once through sendEvents, which never skips it as empty |

## Left out

- Network I/O: `http.Client.Post` and `Do`, `http.NewRequest` and `io.ReadAll` are replaced by a caller-supplied function from the outgoing request to an exchange outcome. `resp.Body.Close` is not modelled.
- JSON: `json.Marshal` and `json.Unmarshal` are inputs (their bytes and error), and the body shapes are datatypes rather than JSON text. Properties values and the float `Value` field are opaque payload: a string per property and a `real`.
- The AES block function (FIPS 197) is a parameter. The only thing known about it is that decryption inverts encryption.
- Time:
  - clock readings (`time.Now().Unix()`) are parameters;
  - the ticker is the `TickStep` method;
  - `Flush` (analytics.go:283-300) is left out: it only polls the channel length against the wall clock.
- Goroutines and the WaitGroup: no concurrency is modelled. A schedule is a sequence of method calls, and `Close` runs the quit branch to completion.
- `generateDeviceID`, the session UUID, `sessionStarted`, `getLocalIPs`, `getPublicIP`, `marshalJSON` and `marshalSHA256`: host and identity collection. The device and session IDs are constructor parameters.
- `Logger`, `WithLogger` and every debug log line.
- `AESClient.PostPlain` and `NewAESClient`: plain HTTP plumbing with no decision logic. install.go is not part of this model.
- `WithTimeout` is stored as a setting only; the HTTP timeout has no effect in the model.
- Aes.AESDecrypt: for text that is not Base64, the error does not carry the byte offset Go reports.
- Encryption.AesDecrypt: same omission as Aes.AESDecrypt.
- Errors.Message: the context map is a list of entries in the order fmt prints them. Go sorts map keys when printing, and that sorting is not modelled. Values are text rather than `%v` of arbitrary Go values.
- Encryption.StatusError: the body is rendered one character per byte; UTF-8 decoding is not modelled.
- Analytics.Client.Offer: with bufferSize 0 the Go channel is unbuffered, and a non-blocking send succeeds when the loop is waiting to receive. The model has no such hand-off and treats the channel as always full.
- Analytics.Client.constructor: negative sizes (which make `make` panic) and a non-positive flush interval (which makes `time.NewTicker` panic) are excluded by its preconditions.
- Several Go error branches cannot happen in the model, so they are not modelled:
  - AESEncrypt normalises the key, so the "encrypt data error" and "encrypt events" branches never run;
  - marshalling a map of strings cannot fail, so "marshal encrypted request error" and "marshal encrypted payload" cannot happen.
- The ClientError and NetworkError `Unwrap` methods are modelled by `Errors.Unwrap`, which has no contract of its own. The chain properties above state what follows from it.
