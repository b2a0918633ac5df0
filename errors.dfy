/** The error values of the client (errors.go): the package's sentinel errors, the two
    structured error types ClientError and NetworkError, the cause chain that
    errors.Is and errors.As walk through Unwrap, and the two classifiers built on that
    chain, isRetryableError and wrapError.

    Go's `error` interface is modelled as the datatype `Error`; a Go `error` variable,
    which may be nil, is an `Option<Error>`. */
module Errors {
  import opened Text

  datatype Option<+T> = None | Some(value: T)

  /** The package-level sentinel errors declared at errors.go:13-52. Each is a distinct
      value, so errors.Is compares against them by identity. */
  datatype Sentinel =
    | InvalidConfig | InvalidServerURL | InvalidProductName
    | NetworkTimeout | NetworkFailure
    | EncryptionFailed | DecryptionFailed | InvalidKey
    | MarshalFailed | UnmarshalFailed
    | ServerResponse | ClientClosed | BufferFull

  function SentinelText(s: Sentinel): string {
    match s
    case InvalidConfig => "invalid configuration"
    case InvalidServerURL => "invalid server URL"
    case InvalidProductName => "invalid product name"
    case NetworkTimeout => "network timeout"
    case NetworkFailure => "network request failed"
    case EncryptionFailed => "encryption failed"
    case DecryptionFailed => "decryption failed"
    case InvalidKey => "invalid encryption key"
    case MarshalFailed => "failed to marshal data"
    case UnmarshalFailed => "failed to unmarshal data"
    case ServerResponse => "server response error"
    case ClientClosed => "client is closed"
    case BufferFull => "event buffer is full"
  }

  /** An error value.
      - Known: one of the sentinels above.
      - Plain: an error without a cause (errors.New, or fmt.Errorf without %w).
      - Wrapped: fmt.Errorf("<prefix>: %w", cause).
      - ClientError: errors.go:69-78; the context map is kept as its entries in the
        order fmt prints them.
      - NetworkError: errors.go:109-124. */
  datatype Error =
    | Known(which: Sentinel)
    | Plain(msg: string)
    | Wrapped(prefix: string, cause: Error)
    | ClientError(op: string, err: Option<Error>, context: seq<(string, string)>)
    | NetworkError(op: string, url: string, statusCode: int, err: Option<Error>, retryable: bool)

  /** What a call that returns `(T, error)` produced. Panic stands for a Go runtime panic,
      which is not an error value but ends the goroutine. */
  datatype Result<+T> = Ok(value: T) | Err(error: Error) | Panic(reason: string)

  /** The Unwrap methods (errors.go:89-91, 135-137) and that of fmt's wrapping error. */
  function Unwrap(e: Error): Option<Error> {
    match e
    case Known(_) => None
    case Plain(_) => None
    case Wrapped(_, c) => Some(c)
    case ClientError(_, c, _) => c
    case NetworkError(_, _, _, c, _) => c
  }

  // ---------------------------------------------------------------------------
  // The cause chain and errors.Is / errors.As
  // ---------------------------------------------------------------------------

  /** The errors errors.Is and errors.As visit, outermost first: e, Unwrap(e), ... */
  function ChainFrom(e: Error): (c: seq<Error>)
    ensures |c| >= 1 && c[0] == e
    ensures Unwrap(e).None? ==> c == [e]
    ensures Unwrap(e).Some? ==> c == [e] + ChainFrom(Unwrap(e).value)
  {
    match e
    case Wrapped(_, c) => [e] + ChainFrom(c)
    case ClientError(_, Some(c), _) => [e] + ChainFrom(c)
    case NetworkError(_, _, _, Some(c), _) => [e] + ChainFrom(c)
    case _ => [e]
  }

  function Chain(err: Option<Error>): seq<Error> {
    match err
    case None => []
    case Some(e) => ChainFrom(e)
  }

  function IsFrom(e: Error, target: Sentinel): bool {
    e == Known(target) ||
    match e
    case Wrapped(_, c) => IsFrom(c, target)
    case ClientError(_, Some(c), _) => IsFrom(c, target)
    case NetworkError(_, _, _, Some(c), _) => IsFrom(c, target)
    case _ => false
  }

  /** errors.Is(err, target) for a sentinel target. */
  function Is(err: Option<Error>, target: Sentinel): bool {
    err.Some? && IsFrom(err.value, target)
  }

  function AsNetworkFrom(e: Error): (r: Option<Error>)
    ensures r.Some? ==> r.value.NetworkError?
  {
    match e
    case NetworkError(_, _, _, _, _) => Some(e)
    case Wrapped(_, c) => AsNetworkFrom(c)
    case ClientError(_, Some(c), _) => AsNetworkFrom(c)
    case _ => None
  }

  /** errors.As(err, &netErr) with netErr a *NetworkError: the outermost NetworkError
      of the chain, if any. */
  function AsNetworkError(err: Option<Error>): (r: Option<Error>)
    ensures r.Some? ==> r.value.NetworkError?
  {
    if err.None? then None else AsNetworkFrom(err.value)
  }

  function AsClientFrom(e: Error): (r: Option<Error>)
    ensures r.Some? ==> r.value.ClientError?
  {
    match e
    case ClientError(_, _, _) => Some(e)
    case Wrapped(_, c) => AsClientFrom(c)
    case NetworkError(_, _, _, Some(c), _) => AsClientFrom(c)
    case _ => None
  }

  /** errors.As(err, &clientErr) with clientErr a *ClientError. */
  function AsClientError(err: Option<Error>): (r: Option<Error>)
    ensures r.Some? ==> r.value.ClientError?
  {
    if err.None? then None else AsClientFrom(err.value)
  }

  // ---------------------------------------------------------------------------
  // Constructors (errors.go:144-169)
  // ---------------------------------------------------------------------------

  /** newClientError: the new error unwraps to `err`, so errors.Is sees through it. */
  function NewClientError(op: string, err: Option<Error>): (r: Error)
    ensures r.ClientError? && r.op == op && r.context == []
    ensures Unwrap(r) == err
    ensures forall t :: Is(Some(r), t) <==> Is(err, t)
  {
    ClientError(op, err, [])
  }

  /** newClientErrorWithContext. */
  function NewClientErrorWithContext(op: string, err: Option<Error>, context: seq<(string, string)>): (r: Error)
    ensures r.ClientError? && r.op == op && r.context == context
    ensures Unwrap(r) == err
    ensures forall t :: Is(Some(r), t) <==> Is(err, t)
  {
    ClientError(op, err, context)
  }

  /** newNetworkError: the fields are stored as given; the error unwraps to `err`, and
      its retryability is exactly the flag passed in, whatever `err` is. */
  function NewNetworkError(op: string, url: string, statusCode: int, err: Option<Error>, retryable: bool): (r: Error)
    ensures r.NetworkError? && r.op == op && r.url == url && r.statusCode == statusCode
    ensures Unwrap(r) == err
    ensures forall t :: Is(Some(r), t) <==> Is(err, t)
    ensures IsRetryable(Some(r)) == retryable
  {
    NetworkError(op, url, statusCode, err, retryable)
  }

  // ---------------------------------------------------------------------------
  // Classification (errors.go:178-215)
  // ---------------------------------------------------------------------------

  /** isRetryableError. */
  function IsRetryable(err: Option<Error>): (r: bool)
    ensures r ==> err.Some?
  {
    if err.None? then false
    else match AsNetworkError(err)
      case Some(n) => n.retryable
      case None => Is(err, NetworkTimeout) || Is(err, NetworkFailure)
  }

  /** wrapError. */
  function WrapError(op: string, err: Option<Error>): (r: Option<Error>)
    ensures r.None? <==> err.None?
    ensures r.Some? ==> AsClientError(r).Some? || AsNetworkError(r).Some?
  {
    if err.None? then None
    else if AsClientError(err).Some? || AsNetworkError(err).Some? then err
    else Some(NewClientError(op, err))
  }

  // ---------------------------------------------------------------------------
  // Error() strings (errors.go:81-86, 127-132)
  // ---------------------------------------------------------------------------

  /** fmt's `%v` of an error variable: "<nil>" for nil, else its Error() text. */
  function ErrorText(err: Option<Error>): string {
    match err
    case None => "<nil>"
    case Some(e) => Message(e)
  }

  function Entries(context: seq<(string, string)>): string {
    if context == [] then ""
    else if |context| == 1 then context[0].0 + ":" + context[0].1
    else context[0].0 + ":" + context[0].1 + " " + Entries(context[1..])
  }

  /** The Error() method of each kind of error. */
  function Message(e: Error): string {
    match e
    case Known(s) => SentinelText(s)
    case Plain(m) => m
    case Wrapped(p, c) => p + ": " + Message(c)
    case ClientError(op, c, ctx) =>
      op + ": " + (match c case None => "<nil>" case Some(x) => Message(x))
      + (if |ctx| > 0 then " (context: map[" + Entries(ctx) + "])" else "")
    case NetworkError(op, url, code, c, _) =>
      op + " " + url + ": "
      + (if code > 0 then "status " + NatToDecimal(code) + ": " else "")
      + (match c case None => "<nil>" case Some(x) => Message(x))
  }

  // ---------------------------------------------------------------------------
  // Properties
  // ---------------------------------------------------------------------------

  /** errors.Is finds a sentinel exactly when it lies on the cause chain. */
  lemma {:induction false} IsMeansOnChain(err: Option<Error>, t: Sentinel)
    ensures Is(err, t) <==> Known(t) in Chain(err)
  {
    if err.Some? {
      IsFromMeansOnChain(err.value, t);
    }
  }

  lemma {:induction false} IsFromMeansOnChain(e: Error, t: Sentinel)
    ensures IsFrom(e, t) <==> Known(t) in ChainFrom(e)
  {
    match e
    case Wrapped(_, c) => IsFromMeansOnChain(c, t);
    case ClientError(_, Some(c), _) => IsFromMeansOnChain(c, t);
    case NetworkError(_, _, _, Some(c), _) => IsFromMeansOnChain(c, t);
    case _ =>
  }

  /** No NetworkError on the chain among its first i errors. */
  ghost predicate NoNetworkBefore(chain: seq<Error>, i: int)
    requires i <= |chain|
  {
    forall j :: 0 <= j < i ==> !chain[j].NetworkError?
  }

  /** errors.As for *NetworkError returns the outermost NetworkError of the chain, and
      nothing when there is none. */
  lemma {:induction false} AsNetworkIsOutermost(err: Option<Error>)
    ensures AsNetworkError(err).None? <==> NoNetworkBefore(Chain(err), |Chain(err)|)
    ensures AsNetworkError(err).Some? ==>
      exists i :: 0 <= i < |Chain(err)| && Chain(err)[i] == AsNetworkError(err).value
                  && NoNetworkBefore(Chain(err), i)
  {
    if err.Some? {
      AsNetworkFromIsOutermost(err.value);
    }
  }

  lemma {:induction false} AsNetworkFromIsOutermost(e: Error)
    ensures AsNetworkFrom(e).None? <==> NoNetworkBefore(ChainFrom(e), |ChainFrom(e)|)
    ensures AsNetworkFrom(e).Some? ==>
      exists i :: 0 <= i < |ChainFrom(e)| && ChainFrom(e)[i] == AsNetworkFrom(e).value
                  && NoNetworkBefore(ChainFrom(e), i)
  {
    var chain := ChainFrom(e);
    if e.NetworkError? {
      assert chain[0] == e && NoNetworkBefore(chain, 0);
    } else if Unwrap(e).Some? {
      var c := Unwrap(e).value;
      AsNetworkFromIsOutermost(c);
      var tail := ChainFrom(c);
      assert chain == [e] + tail;
      assert AsNetworkFrom(e) == AsNetworkFrom(c);
      NoNetworkBeforeCons(e, tail, |tail|);
      if AsNetworkFrom(c).Some? {
        var i :| 0 <= i < |tail| && tail[i] == AsNetworkFrom(c).value && NoNetworkBefore(tail, i);
        NoNetworkBeforeCons(e, tail, i);
        assert chain[i + 1] == tail[i];
      }
    } else {
      assert chain == [e];
    }
  }

  /** Putting an error that is not a NetworkError in front of a chain shifts the
      network-free prefix by one. */
  lemma NoNetworkBeforeCons(e: Error, tail: seq<Error>, i: nat)
    requires !e.NetworkError? && i <= |tail|
    ensures NoNetworkBefore([e] + tail, i + 1) <==> NoNetworkBefore(tail, i)
  {
    var chain := [e] + tail;
    if NoNetworkBefore(tail, i) {
      forall j | 0 <= j < i + 1 ensures !chain[j].NetworkError? {
        if j > 0 { assert chain[j] == tail[j - 1]; }
      }
    }
    if NoNetworkBefore(chain, i + 1) {
      forall j | 0 <= j < i ensures !tail[j].NetworkError? {
        assert tail[j] == chain[j + 1];
      }
    }
  }

  /** No ClientError on the chain among its first i errors. */
  ghost predicate NoClientBefore(chain: seq<Error>, i: int)
    requires i <= |chain|
  {
    forall j :: 0 <= j < i ==> !chain[j].ClientError?
  }

  /** errors.As for *ClientError returns the outermost ClientError of the chain, and
      nothing when there is none. */
  lemma {:induction false} AsClientIsOutermost(err: Option<Error>)
    ensures AsClientError(err).None? <==> NoClientBefore(Chain(err), |Chain(err)|)
    ensures AsClientError(err).Some? ==>
      exists i :: 0 <= i < |Chain(err)| && Chain(err)[i] == AsClientError(err).value
                  && NoClientBefore(Chain(err), i)
  {
    if err.Some? {
      AsClientFromIsOutermost(err.value);
    }
  }

  lemma {:induction false} AsClientFromIsOutermost(e: Error)
    ensures AsClientFrom(e).None? <==> NoClientBefore(ChainFrom(e), |ChainFrom(e)|)
    ensures AsClientFrom(e).Some? ==>
      exists i :: 0 <= i < |ChainFrom(e)| && ChainFrom(e)[i] == AsClientFrom(e).value
                  && NoClientBefore(ChainFrom(e), i)
  {
    var chain := ChainFrom(e);
    if e.ClientError? {
      assert chain[0] == e && NoClientBefore(chain, 0);
    } else if Unwrap(e).Some? {
      var c := Unwrap(e).value;
      AsClientFromIsOutermost(c);
      var tail := ChainFrom(c);
      assert chain == [e] + tail;
      assert AsClientFrom(e) == AsClientFrom(c);
      NoClientBeforeCons(e, tail, |tail|);
      if AsClientFrom(c).Some? {
        var i :| 0 <= i < |tail| && tail[i] == AsClientFrom(c).value && NoClientBefore(tail, i);
        NoClientBeforeCons(e, tail, i);
        assert chain[i + 1] == tail[i];
      }
    } else {
      assert chain == [e];
    }
  }

  /** Putting an error that is not a ClientError in front of a chain shifts the
      ClientError-free prefix by one. */
  lemma NoClientBeforeCons(e: Error, tail: seq<Error>, i: nat)
    requires !e.ClientError? && i <= |tail|
    ensures NoClientBefore([e] + tail, i + 1) <==> NoClientBefore(tail, i)
  {
    var chain := [e] + tail;
    if NoClientBefore(tail, i) {
      forall j | 0 <= j < i + 1 ensures !chain[j].ClientError? {
        if j > 0 { assert chain[j] == tail[j - 1]; }
      }
    }
    if NoClientBefore(chain, i + 1) {
      forall j | 0 <= j < i ensures !tail[j].ClientError? {
        assert tail[j] == chain[j + 1];
      }
    }
  }

  /** isRetryableError, stated over the chain: when the chain holds a NetworkError the
      answer is the Retryable flag of the outermost one, whatever sentinels lie deeper;
      otherwise it is true exactly when the chain holds ErrNetworkTimeout or
      ErrNetworkFailure. A nil error is not retryable. */
  lemma RetryableByChain(err: Option<Error>)
    ensures err.None? ==> !IsRetryable(err)
    ensures forall i :: 0 <= i < |Chain(err)| && Chain(err)[i].NetworkError? && NoNetworkBefore(Chain(err), i) ==>
              (IsRetryable(err) <==> Chain(err)[i].retryable)
    ensures NoNetworkBefore(Chain(err), |Chain(err)|) ==>
              (IsRetryable(err) <==> Known(NetworkTimeout) in Chain(err) || Known(NetworkFailure) in Chain(err))
  {
    AsNetworkIsOutermost(err);
    IsMeansOnChain(err, NetworkTimeout);
    IsMeansOnChain(err, NetworkFailure);
    var chain := Chain(err);
    forall i | 0 <= i < |chain| && chain[i].NetworkError? && NoNetworkBefore(chain, i)
      ensures IsRetryable(err) <==> chain[i].retryable
    {
      var k :| 0 <= k < |chain| && chain[k] == AsNetworkError(err).value && NoNetworkBefore(chain, k);
      assert chain[k].NetworkError?;
      assert k == i;
    }
  }

  /** wrapError keeps nil as nil, returns an error that already holds a ClientError or
      a NetworkError unchanged (so the original Op survives), and otherwise wraps it in a
      ClientError carrying `op` whose Unwrap is the original error. */
  lemma WrapErrorCases(op: string, err: Option<Error>)
    ensures err.None? ==> WrapError(op, err).None?
    ensures AsClientError(err).Some? || AsNetworkError(err).Some? ==> WrapError(op, err) == err
    ensures AsClientError(err).Some? ==> AsClientError(WrapError(op, err)) == AsClientError(err)
    ensures err.Some? && AsClientError(err).None? && AsNetworkError(err).None? ==>
              WrapError(op, err).Some? && WrapError(op, err).value.ClientError? &&
              WrapError(op, err).value.op == op && Unwrap(WrapError(op, err).value) == err
  {
  }

  /** wrapError stated over the chain: an error whose chain holds a ClientError or a
      NetworkError comes back as it is; any other error becomes a new ClientError with
      the operation name, whose cause is the error. */
  lemma WrapErrorByChain(op: string, err: Option<Error>)
    ensures err.Some? && (!NoClientBefore(Chain(err), |Chain(err)|) || !NoNetworkBefore(Chain(err), |Chain(err)|)) ==>
              WrapError(op, err) == err
    ensures err.Some? && NoClientBefore(Chain(err), |Chain(err)|) && NoNetworkBefore(Chain(err), |Chain(err)|) ==>
              WrapError(op, err) == Some(ClientError(op, err, []))
  {
    AsClientIsOutermost(err);
    AsNetworkIsOutermost(err);
  }

  /** Wrapping twice is wrapping once, whatever the second operation name. */
  lemma WrapErrorIdempotent(op1: string, op2: string, err: Option<Error>)
    ensures WrapError(op2, WrapError(op1, err)) == WrapError(op1, err)
  {
  }

  /** Wrapping preserves errors.Is for every sentinel and preserves retryability. */
  lemma WrapErrorPreservesClassification(op: string, err: Option<Error>)
    ensures forall t :: Is(WrapError(op, err), t) <==> Is(err, t)
    ensures IsRetryable(WrapError(op, err)) == IsRetryable(err)
  {
  }

  /** ClientError's text is "Op: <cause>", with " (context: map[...])" appended exactly
      when the context is non-empty. */
  lemma ClientMessageContext(op: string, err: Option<Error>, ctx: seq<(string, string)>)
    ensures ctx == [] ==> Message(ClientError(op, err, ctx)) == op + ": " + ErrorText(err)
    ensures ctx != [] ==>
      Message(ClientError(op, err, ctx)) == Message(ClientError(op, err, [])) + " (context: map[" + Entries(ctx) + "])"
  {
  }

  /** NetworkError's text differs from the one with no status code exactly by the
      segment "status N: " after "Op URL: ", present only when StatusCode > 0. */
  lemma NetworkMessageStatus(e: Error)
    requires e.NetworkError?
    ensures var base := Message(e.(statusCode := 0));
            var head := e.op + " " + e.url + ": ";
            && base == head + ErrorText(e.err)
            && (e.statusCode <= 0 ==> Message(e) == base)
            && (e.statusCode > 0 ==>
                  Message(e) == head + "status " + NatToDecimal(e.statusCode) + ": " + base[|head|..])
  {
    var head := e.op + " " + e.url + ": ";
    var base := Message(e.(statusCode := 0));
    assert base == head + ErrorText(e.err);
    assert base[|head|..] == ErrorText(e.err);
  }

  /** The message errors_test.go:15-21 expects of a ClientError without context. */
  lemma ClientMessageExample()
    ensures Message(ClientError("Track", Some(Known(NetworkTimeout)), [])) == "Track: network timeout"
  {
  }

  /** The classifications the package's tests expect (errors_test.go:129-168). */
  lemma RetryableExamples()
    ensures !IsRetryable(None)
    ensures IsRetryable(Some(Known(NetworkTimeout)))
    ensures IsRetryable(Some(Known(NetworkFailure)))
    ensures IsRetryable(Some(NetworkError("POST", "http://example.com", 0, Some(Known(ServerResponse)), true)))
    ensures !IsRetryable(Some(NetworkError("POST", "http://example.com", 0, Some(Known(ServerResponse)), false)))
    ensures !IsRetryable(Some(Plain("some error")))
    ensures !IsRetryable(Some(NetworkError("POST", "u", 0, Some(Known(NetworkTimeout)), false)))
  {
  }
}
