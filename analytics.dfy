/** analytics.go: the Client. It holds its configuration (defaults, then the options in
    order), the bounded event channel that Track, TrackEvent and TrackBatch feed without
    blocking, and the background loop processEvents, which gathers events into batches
    and hands them to sendEvents.

    The goroutine and its select statement are modelled by one method per branch:
    ReceiveStep (an event arrives), TickStep (the flush ticker fires) and QuitStep (the
    quit channel is closed). Any interleaving the Go scheduler may produce is a sequence
    of calls to these methods and to the Track methods. A batch handed to sendEvents is
    recorded in `sent`; what the network does with it is the business of SendEvents, a
    separate function, because processEvents ignores the result. */
module Analytics {
  import opened Bytes
  import opened Errors
  import opened Http
  import Cbc
  import Aes
  import Encryption

  /** Event.Properties; each value stands for the JSON text of the Go value. */
  type Properties = map<string, string>

  datatype Event = Event(
    name: string, timestamp: int, properties: Properties,
    category: string, action: string, eventLabel: string, value: real)

  /** time.Duration is a count of nanoseconds. */
  const Second: int := 1_000_000_000

  // ---------------------------------------------------------------------------
  // Configuration
  // ---------------------------------------------------------------------------

  /** The ClientOption closures, as data. WithEncryption is declared twice in the
      package: analytics.go stores the key as given, encryption.go stores the result of
      validateKeyLength; the second is WithValidatedEncryption here. WithLogger is not
      modelled. */
  datatype ClientOption =
    | WithDeviceID(deviceID: string)
    | WithUserID(userID: string)
    | WithTimeout(timeout: int)
    | WithBatchSize(batchSize: int)
    | WithFlushInterval(flushInterval: int)
    | WithBufferSize(bufferSize: int)
    | WithDebug(debug: bool)
    | WithEncryption(secretKey: seq<byte>)
    | WithValidatedEncryption(secretKey: seq<byte>)

  /** The Client fields the options write. */
  datatype Settings = Settings(
    deviceID: string, userID: string, timeout: int, batchSize: int,
    flushInterval: int, bufferSize: int, debug: bool,
    encryption: Option<Encryption.EncryptionConfig>)

  /** The values NewClient starts from; deviceID is what generateDeviceID returned. */
  function Defaults(deviceID: string): Settings {
    Settings(deviceID, "", 10 * Second, 20, 5 * Second, 1000, false, None)
  }

  /** What running one option closure does to the settings. */
  function Apply(s: Settings, o: ClientOption): Settings {
    match o
    case WithDeviceID(d) => s.(deviceID := d)
    case WithUserID(u) => s.(userID := u)
    case WithTimeout(t) => s.(timeout := t)
    case WithBatchSize(n) => s.(batchSize := n)
    case WithFlushInterval(d) => s.(flushInterval := d)
    case WithBufferSize(n) => s.(bufferSize := n)
    case WithDebug(b) => s.(debug := b)
    case WithEncryption(k) => s.(encryption := Some(Encryption.EncryptionConfig(true, k)))
    case WithValidatedEncryption(k) => s.(encryption := Some(Encryption.EncryptionConfig(true, Aes.NormalizeKey(k))))
  }

  /** The options applied in order, as NewClient's loop applies them. */
  function Configure(s: Settings, opts: seq<ClientOption>): Settings
    decreases |opts|
  {
    if opts == [] then s else Apply(Configure(s, opts[..|opts| - 1]), opts[|opts| - 1])
  }

  /** The configuration knobs, one per Settings field. */
  datatype Knob = DeviceIDKnob | UserIDKnob | TimeoutKnob | BatchSizeKnob
                | FlushIntervalKnob | BufferSizeKnob | DebugKnob | EncryptionKnob

  /** The value of a knob, whatever its type. */
  datatype Setting =
    | StringSetting(s: string)
    | IntSetting(n: int)
    | BoolSetting(b: bool)
    | EncryptionSetting(enc: Option<Encryption.EncryptionConfig>)

  function Read(s: Settings, k: Knob): Setting {
    match k
    case DeviceIDKnob => StringSetting(s.deviceID)
    case UserIDKnob => StringSetting(s.userID)
    case TimeoutKnob => IntSetting(s.timeout)
    case BatchSizeKnob => IntSetting(s.batchSize)
    case FlushIntervalKnob => IntSetting(s.flushInterval)
    case BufferSizeKnob => IntSetting(s.bufferSize)
    case DebugKnob => BoolSetting(s.debug)
    case EncryptionKnob => EncryptionSetting(s.encryption)
  }

  /** The knob an option sets. */
  function KnobOf(o: ClientOption): Knob {
    match o
    case WithDeviceID(_) => DeviceIDKnob
    case WithUserID(_) => UserIDKnob
    case WithTimeout(_) => TimeoutKnob
    case WithBatchSize(_) => BatchSizeKnob
    case WithFlushInterval(_) => FlushIntervalKnob
    case WithBufferSize(_) => BufferSizeKnob
    case WithDebug(_) => DebugKnob
    case WithEncryption(_) => EncryptionKnob
    case WithValidatedEncryption(_) => EncryptionKnob
  }

  /** The value an option gives its knob. */
  function ValueOf(o: ClientOption): Setting {
    match o
    case WithDeviceID(d) => StringSetting(d)
    case WithUserID(u) => StringSetting(u)
    case WithTimeout(t) => IntSetting(t)
    case WithBatchSize(n) => IntSetting(n)
    case WithFlushInterval(d) => IntSetting(d)
    case WithBufferSize(n) => IntSetting(n)
    case WithDebug(b) => BoolSetting(b)
    case WithEncryption(k) => EncryptionSetting(Some(Encryption.EncryptionConfig(true, k)))
    case WithValidatedEncryption(k) => EncryptionSetting(Some(Encryption.EncryptionConfig(true, Aes.NormalizeKey(k))))
  }

  /** An option sets its own knob to its value and leaves every other knob alone. */
  lemma ApplySetsOneKnob(s: Settings, o: ClientOption, k: Knob)
    ensures Read(Apply(s, o), k) == if k == KnobOf(o) then ValueOf(o) else Read(s, k)
  {
  }

  /** The last option that sets a knob decides its value. */
  lemma {:induction false} LastOptionWins(s: Settings, opts: seq<ClientOption>, i: nat)
    requires i < |opts|
    requires forall j :: i < j < |opts| ==> KnobOf(opts[j]) != KnobOf(opts[i])
    ensures Read(Configure(s, opts), KnobOf(opts[i])) == ValueOf(opts[i])
    decreases |opts|
  {
    var last := |opts| - 1;
    ApplySetsOneKnob(Configure(s, opts[..last]), opts[last], KnobOf(opts[i]));
    if i < last {
      LastOptionWins(s, opts[..last], i);
    }
  }

  /** A knob no option sets keeps its default. */
  lemma {:induction false} UnsetKnobKeepsDefault(s: Settings, opts: seq<ClientOption>, k: Knob)
    requires forall j :: 0 <= j < |opts| ==> KnobOf(opts[j]) != k
    ensures Read(Configure(s, opts), k) == Read(s, k)
    decreases |opts|
  {
    if opts != [] {
      var last := |opts| - 1;
      ApplySetsOneKnob(Configure(s, opts[..last]), opts[last], k);
      UnsetKnobKeepsDefault(s, opts[..last], k);
    }
  }

  // ---------------------------------------------------------------------------
  // Batches
  // ---------------------------------------------------------------------------

  function Flatten<T>(batches: seq<seq<T>>): seq<T> {
    if batches == [] then [] else batches[0] + Flatten(batches[1..])
  }

  lemma {:induction false} FlattenConcat<T>(a: seq<seq<T>>, b: seq<seq<T>>)
    ensures Flatten(a + b) == Flatten(a) + Flatten(b)
  {
    if a == [] {
      assert a + b == b;
    } else {
      assert (a + b)[0] == a[0];
      assert (a + b)[1..] == a[1..] + b;
      FlattenConcat(a[1..], b);
    }
  }

  /** The batches the drain loop of the quit branch sends, starting from accumulator acc
      and channel contents buf: each event is appended, a batch is sent as soon as it
      holds batchSize events, and what remains at the end is sent if non-empty. */
  function DrainBatches(acc: seq<Event>, buf: seq<Event>, batchSize: int): seq<seq<Event>>
    decreases |buf|
  {
    if buf == [] then (if |acc| > 0 then [acc] else [])
    else
      var acc' := acc + [buf[0]];
      if |acc'| >= batchSize then [acc'] + DrainBatches([], buf[1..], batchSize)
      else DrainBatches(acc', buf[1..], batchSize)
  }

  /** Everything the quit branch sends: the accumulator, if non-empty, and then the
      drain batches, which start from that same accumulator since it is not reset. */
  function QuitBatches(acc: seq<Event>, buf: seq<Event>, batchSize: int): seq<seq<Event>> {
    (if |acc| > 0 then [acc] else []) + DrainBatches(acc, buf, batchSize)
  }

  /** One turn of the drain loop. */
  lemma DrainUnfold(acc: seq<Event>, buf: seq<Event>, batchSize: int)
    requires buf != []
    ensures DrainBatches(acc, buf, batchSize) ==
            if |acc + [buf[0]]| >= batchSize then [acc + [buf[0]]] + DrainBatches([], buf[1..], batchSize)
            else DrainBatches(acc + [buf[0]], buf[1..], batchSize)
  {
  }

  /** The drain loop sends every event it starts with, in order, exactly once. */
  lemma {:induction false} DrainSendsAll(acc: seq<Event>, buf: seq<Event>, batchSize: int)
    ensures Flatten(DrainBatches(acc, buf, batchSize)) == acc + buf
    decreases |buf|
  {
    if buf != [] {
      var acc' := acc + [buf[0]];
      assert acc' + buf[1..] == acc + buf;
      if |acc'| >= batchSize {
        DrainSendsAll([], buf[1..], batchSize);
        FlattenConcat([acc'], DrainBatches([], buf[1..], batchSize));
      } else {
        DrainSendsAll(acc', buf[1..], batchSize);
      }
    }
  }

  /** The drain loop never sends an empty batch. */
  lemma {:induction false} DrainBatchesNonEmpty(acc: seq<Event>, buf: seq<Event>, batchSize: int)
    ensures forall i :: 0 <= i < |DrainBatches(acc, buf, batchSize)| ==> |DrainBatches(acc, buf, batchSize)[i]| > 0
    decreases |buf|
  {
    if buf != [] {
      var acc' := acc + [buf[0]];
      if |acc'| >= batchSize {
        DrainBatchesNonEmpty([], buf[1..], batchSize);
      } else {
        DrainBatchesNonEmpty(acc', buf[1..], batchSize);
      }
    }
  }

  /** Every batch holds at most n events, and every one but the last exactly n. */
  ghost predicate FullBatches(d: seq<seq<Event>>, n: int) {
    forall i :: 0 <= i < |d| ==> |d[i]| <= n && (i < |d| - 1 ==> |d[i]| == n)
  }

  /** Starting from an accumulator shorter than batchSize, every drain batch but the
      last holds exactly batchSize events, and the last at most that many. */
  lemma {:induction false} DrainBatchSizes(acc: seq<Event>, buf: seq<Event>, batchSize: int)
    requires batchSize >= 1 && |acc| < batchSize
    ensures FullBatches(DrainBatches(acc, buf, batchSize), batchSize)
    decreases |buf|
  {
    if buf != [] {
      DrainUnfold(acc, buf, batchSize);
      var acc' := acc + [buf[0]];
      if |acc'| >= batchSize {
        var rest := DrainBatches([], buf[1..], batchSize);
        DrainBatchSizes([], buf[1..], batchSize);
        var d := [acc'] + rest;
        forall i | 0 <= i < |d|
          ensures |d[i]| <= batchSize && (i < |d| - 1 ==> |d[i]| == batchSize)
        {
          if i > 0 {
            assert d[i] == rest[i - 1];
          }
        }
      } else {
        DrainBatchSizes(acc', buf[1..], batchSize);
      }
    }
  }

  /** At quit every event of the accumulator and the channel is sent, the channel's in
      FIFO order, no batch is empty, and the accumulator's events are sent twice. */
  lemma QuitSendsAll(acc: seq<Event>, buf: seq<Event>, batchSize: int)
    ensures Flatten(QuitBatches(acc, buf, batchSize)) == acc + acc + buf
    ensures forall i :: 0 <= i < |QuitBatches(acc, buf, batchSize)| ==> |QuitBatches(acc, buf, batchSize)[i]| > 0
  {
    DrainSendsAll(acc, buf, batchSize);
    DrainBatchesNonEmpty(acc, buf, batchSize);
    FlattenConcat(if |acc| > 0 then [acc] else [], DrainBatches(acc, buf, batchSize));
    if |acc| > 0 {
      assert Flatten([acc]) == acc + Flatten([]);
    }
  }

  /** Appending batches to a log of batches: no empty batch appears, and the events of
      the log are followed by those of the new batches. */
  lemma AppendBatches(sent: seq<seq<Event>>, q: seq<seq<Event>>)
    requires forall i :: 0 <= i < |sent| ==> |sent[i]| > 0
    requires forall i :: 0 <= i < |q| ==> |q[i]| > 0
    ensures forall i :: 0 <= i < |sent + q| ==> |(sent + q)[i]| > 0
    ensures Flatten(sent + q) == Flatten(sent) + Flatten(q)
  {
    FlattenConcat(sent, q);
    forall i | 0 <= i < |sent + q|
      ensures |(sent + q)[i]| > 0
    {
      if i >= |sent| {
        assert (sent + q)[i] == q[i - |sent|];
      }
    }
  }

  /** The sent log after the quit branch: still no empty batch, and its events are the
      earlier ones, then the accumulator twice, then the channel contents. */
  lemma QuitOutcome(sent: seq<seq<Event>>, acc: seq<Event>, buf: seq<Event>, batchSize: int)
    requires forall i :: 0 <= i < |sent| ==> |sent[i]| > 0
    ensures forall i :: 0 <= i < |sent + QuitBatches(acc, buf, batchSize)| ==>
              |(sent + QuitBatches(acc, buf, batchSize))[i]| > 0
    ensures Flatten(sent + QuitBatches(acc, buf, batchSize)) == Flatten(sent) + (acc + acc + buf)
    ensures multiset(Flatten(sent + QuitBatches(acc, buf, batchSize))) ==
            multiset(Flatten(sent) + acc + buf) + multiset(acc)
  {
    var q := QuitBatches(acc, buf, batchSize);
    QuitSendsAll(acc, buf, batchSize);
    AppendBatches(sent, q);
    RepeatedMiddle(Flatten(sent), acc, buf);
  }

  /** Counting the events of f + a + a + b: those of f + a + b, and a once more. */
  lemma RepeatedMiddle<T>(f: seq<T>, a: seq<T>, b: seq<T>)
    ensures multiset(f + (a + a + b)) == multiset(f + a + b) + multiset(a)
  {
    calc {
      multiset(f + (a + a + b));
      multiset(f) + multiset(a) + multiset(a) + multiset(b);
      multiset(f + a + b) + multiset(a);
    }
  }

  /** The first event of a non-empty accumulator at quit is sent in two batches. */
  lemma QuitResendsAccumulator(acc: seq<Event>, buf: seq<Event>, batchSize: int)
    requires |acc| > 0
    ensures |QuitBatches(acc, buf, batchSize)| >= 2
    ensures QuitBatches(acc, buf, batchSize)[0] == acc
    ensures |QuitBatches(acc, buf, batchSize)[1]| >= |acc| && QuitBatches(acc, buf, batchSize)[1][..|acc|] == acc
  {
    var d := DrainBatches(acc, buf, batchSize);
    DrainStartsWith(acc, buf, batchSize);
    assert QuitBatches(acc, buf, batchSize) == [acc] + d;
  }

  /** A shutdown with batchSize 2, one event a gathered and events b, c queued: a is
      sent alone, then again at the head of the first drained batch, then c alone. */
  lemma QuitScenario(a: Event, b: Event, c: Event)
    ensures QuitBatches([a], [b, c], 2) == [[a], [a, b], [c]]
  {
    DrainUnfold([a], [b, c], 2);
    assert [a] + [[b, c][0]] == [a, b] && [b, c][1..] == [c];
    DrainUnfold([], [c], 2);
    assert [] + [[c][0]] == [c] && [c][1..] == [];
  }

  /** The first drain batch begins with the accumulator the loop starts from. */
  lemma {:induction false} DrainStartsWith(acc: seq<Event>, buf: seq<Event>, batchSize: int)
    requires |acc| > 0
    ensures |DrainBatches(acc, buf, batchSize)| >= 1
    ensures |DrainBatches(acc, buf, batchSize)[0]| >= |acc|
    ensures DrainBatches(acc, buf, batchSize)[0][..|acc|] == acc
    decreases |buf|
  {
    if buf != [] {
      var acc' := acc + [buf[0]];
      assert acc'[..|acc|] == acc;
      if |acc'| < batchSize {
        DrainStartsWith(acc', buf[1..], batchSize);
        assert DrainBatches(acc', buf[1..], batchSize)[0][..|acc|] == DrainBatches(acc', buf[1..], batchSize)[0][..|acc'|][..|acc|];
      }
    }
  }

  // ---------------------------------------------------------------------------
  // sendEvents
  // ---------------------------------------------------------------------------

  /** The JSON object sendEvents marshals. */
  datatype Payload = Payload(product: string, deviceID: string, userID: string, sessionID: string, events: seq<Event>)

  /** The Client fields sendEvents reads. */
  datatype Sender = Sender(
    serverURL: string, productName: string, deviceID: string, userID: string,
    sessionID: string, encryption: Option<Encryption.EncryptionConfig>)

  /** What sendEvents did: returned before issuing any request, or issued the request
      (to http.Client.Post) and returned what Post returned. */
  datatype Delivery =
    | Skipped(err: Option<Error>)
    | Requested(request: Outgoing, err: Option<Error>)

  const BatchPath := "/api/events/batch"

  /** sendEvents. marshal is json.Marshal on the payload; post is the round trip of
      http.Client.Post. With encryption on, aes.go's AESEncrypt (which normalises the
      key and cannot fail) produces the {"data": ...} envelope. */
  function SendEvents(
    t: Sender, events: seq<Event>, c: Cbc.BlockCipher,
    marshal: Payload -> (seq<byte>, Option<Error>), post: Outgoing -> Exchange): Delivery
  {
    if |events| == 0 then Skipped(None)
    else
      var (data, err) := marshal(Payload(t.productName, t.deviceID, t.userID, t.sessionID, events));
      if err.Some? then Skipped(Some(Wrapped("marshal events", err.value)))
      else
        var body :=
          if Encryption.Enabled(t.encryption)
          then DataEnvelope(Aes.AESEncrypt(c, t.encryption.value.secretKey, data).value)
          else Raw(data);
        var req := Outgoing(t.serverURL + BatchPath, map[ContentType := JsonMediaType], body);
        match post(req)
        case BadRequest(e) => Requested(req, Some(e))
        case SendFailed(e) => Requested(req, Some(e))
        case Response(_, _, _, _) => Requested(req, None)
  }

  /** sendEvents: an empty slice issues no request and returns nil; a marshal error is
      wrapped as "marshal events"; otherwise one POST to <serverURL>/api/events/batch
      carries the payload (inside an envelope that decrypts to it when encryption is on),
      and any response counts as success, whatever its status. */
  lemma SendEventsCases(
    t: Sender, events: seq<Event>, c: Cbc.BlockCipher,
    marshal: Payload -> (seq<byte>, Option<Error>), post: Outgoing -> Exchange)
    ensures events == [] ==> SendEvents(t, events, c, marshal, post) == Skipped(None)
    ensures var (data, err) := marshal(Payload(t.productName, t.deviceID, t.userID, t.sessionID, events));
            var d := SendEvents(t, events, c, marshal, post);
            (events != [] && err.Some? ==> d == Skipped(Some(Wrapped("marshal events", err.value)))) &&
            (events != [] && err.None? ==>
               d.Requested? && d.request.url == t.serverURL + BatchPath &&
               Get(d.request.header, ContentType) == JsonMediaType &&
               (!Encryption.Enabled(t.encryption) ==> d.request.body == Raw(data)) &&
               (Encryption.Enabled(t.encryption) ==>
                  d.request.body.DataEnvelope? &&
                  Aes.AESDecrypt(c, t.encryption.value.secretKey, d.request.body.data) == Ok(data)) &&
               (post(d.request).Response? ==> d.err.None?))
  {
    var (data, err) := marshal(Payload(t.productName, t.deviceID, t.userID, t.sessionID, events));
    if Encryption.Enabled(t.encryption) {
      Aes.AESRoundTrip(c, t.encryption.value.secretKey, data);
    }
  }

  // ---------------------------------------------------------------------------
  // The client
  // ---------------------------------------------------------------------------

  function Stamped(events: seq<Event>, times: seq<int>): (r: seq<Event>)
    requires |times| == |events|
    ensures |r| == |events|
    ensures forall i :: 0 <= i < |events| ==> r[i] == events[i].(timestamp := times[i])
  {
    seq(|events|, i requires 0 <= i < |events| => events[i].(timestamp := times[i]))
  }

  function Min(a: int, b: int): int {
    if a <= b then a else b
  }

  /** Growing a prefix capped at room by one position adds s[i] exactly while i is
      below the cap. */
  lemma PrefixStep<T>(s: seq<T>, i: int, room: int)
    requires 0 <= i < |s| && room >= 0
    ensures s[..Min(i + 1, room)] == if i < room then s[..Min(i, room)] + [s[i]] else s[..Min(i, room)]
  {
    if i < room {
      assert s[..i + 1] == s[..i] + [s[i]];
    }
  }

  class Client {
    const serverURL: string
    const productName: string
    const sessionID: string
    var deviceID: string
    var userID: string
    var timeout: int
    var batchSize: int
    var flushInterval: int
    var bufferSize: int
    var debug: bool
    var encryption: Option<Encryption.EncryptionConfig>

    /** The events channel: queued events, oldest first, at most bufferSize of them. */
    var buffer: seq<Event>
    /** processEvents' batch variable. */
    var batch: seq<Event>
    /** The batches processEvents has handed to sendEvents, in order. */
    var sent: seq<seq<Event>>
    /** Every event a Track method has put into the channel, in order. */
    ghost var accepted: seq<Event>
    /** The quit channel has been closed. */
    var closed: bool
    /** processEvents has returned. */
    var stopped: bool

    function Config(): Settings
      reads this
    {
      Settings(deviceID, userID, timeout, batchSize, flushInterval, bufferSize, debug, encryption)
    }

    function CurrentSender(): Sender
      reads this
    {
      Sender(serverURL, productName, deviceID, userID, sessionID, encryption)
    }

    /** While processEvents runs, the sent batches, the batch being gathered and the
        channel together hold exactly the accepted events, in order; the batch stays
        shorter than batchSize; no empty batch is ever sent. */
    ghost predicate Valid()
      reads this
    {
      batchSize >= 0 && bufferSize >= 0 && flushInterval > 0 &&
      |buffer| <= bufferSize &&
      (forall i :: 0 <= i < |sent| ==> |sent[i]| > 0) &&
      (stopped ==> closed && batch == []) &&
      (!stopped ==> (batch == [] || |batch| < batchSize) && Flatten(sent) + batch + buffer == accepted)
    }

    /** NewClient: the defaults, then each option in order; the channel gets the
        capacity bufferSize holds after the options. generateDeviceID's result and the
        session UUID are parameters. Negative sizes make Go's make panic and a
        non-positive interval makes time.NewTicker panic, so they are excluded. */
    constructor (serverURL: string, productName: string, deviceID: string, sessionID: string, opts: seq<ClientOption>)
      requires Configure(Defaults(deviceID), opts).batchSize >= 0
      requires Configure(Defaults(deviceID), opts).bufferSize >= 0
      requires Configure(Defaults(deviceID), opts).flushInterval > 0
      ensures Config() == Configure(Defaults(deviceID), opts)
      ensures this.serverURL == serverURL && this.productName == productName && this.sessionID == sessionID
      ensures buffer == [] && batch == [] && sent == [] && accepted == [] && !closed && !stopped
      ensures Valid()
    {
      var s := Defaults(deviceID);
      for i := 0 to |opts|
        invariant s == Configure(Defaults(deviceID), opts[..i])
      {
        assert opts[..i + 1][..i] == opts[..i];
        match opts[i] {
          case WithValidatedEncryption(key) =>
            var validated := Encryption.ValidateKeyLength(key);
            s := s.(encryption := Some(Encryption.EncryptionConfig(true, validated)));
          case _ =>
            s := Apply(s, opts[i]);
        }
      }
      assert opts[..|opts|] == opts;
      this.serverURL := serverURL;
      this.productName := productName;
      this.sessionID := sessionID;
      this.deviceID := s.deviceID;
      userID := s.userID;
      timeout := s.timeout;
      batchSize := s.batchSize;
      flushInterval := s.flushInterval;
      bufferSize := s.bufferSize;
      debug := s.debug;
      encryption := s.encryption;
      buffer := [];
      batch := [];
      sent := [];
      accepted := [];
      closed := false;
      stopped := false;
    }

    /** The non-blocking send `select { case c.events <- e: default: }`: the event joins
        the tail of the channel when there is room, and is dropped otherwise, leaving the
        queued events as they were. */
    method Offer(e: Event) returns (queued: bool)
      requires Valid()
      modifies this`buffer, this`accepted
      ensures Valid()
      ensures queued <==> old(|buffer|) < bufferSize
      ensures buffer == if queued then old(buffer) + [e] else old(buffer)
      ensures accepted == if queued then old(accepted) + [e] else old(accepted)
    {
      queued := |buffer| < bufferSize;
      if queued {
        buffer := buffer + [e];
        accepted := accepted + [e];
      }
    }

    /** Track: an event with the name, the clock reading and the properties. */
    method Track(eventName: string, properties: Properties, now: int)
      requires Valid()
      modifies this`buffer, this`accepted
      ensures Valid()
      ensures var e := Event(eventName, now, properties, "", "", "", 0.0);
              buffer == (if old(|buffer|) < bufferSize then old(buffer) + [e] else old(buffer)) &&
              accepted == (if old(|buffer|) < bufferSize then old(accepted) + [e] else old(accepted))
    {
      var _ := Offer(Event(eventName, now, properties, "", "", "", 0.0));
    }

    /** TrackEvent: an event named after the action, with the category fields set. */
    method TrackEvent(category: string, action: string, eventLabel: string, value: real, now: int)
      requires Valid()
      modifies this`buffer, this`accepted
      ensures Valid()
      ensures var e := Event(action, now, map[], category, action, eventLabel, value);
              buffer == (if old(|buffer|) < bufferSize then old(buffer) + [e] else old(buffer)) &&
              accepted == (if old(|buffer|) < bufferSize then old(accepted) + [e] else old(accepted))
    {
      var _ := Offer(Event(action, now, map[], category, action, eventLabel, value));
    }

    /** TrackBatch: copies of the events, in order, each stamped with its own clock
        reading and offered on its own; as nothing drains the channel meanwhile, the
        ones that fit are the longest prefix the free room allows. */
    method TrackBatch(events: seq<Event>, times: seq<int>)
      requires Valid() && |times| == |events|
      modifies this`buffer, this`accepted
      ensures Valid()
      ensures var taken := Stamped(events, times)[..Min(|events|, bufferSize - old(|buffer|))];
              buffer == old(buffer) + taken && accepted == old(accepted) + taken
    {
      var stamped := Stamped(events, times);
      var room := bufferSize - |buffer|;
      var i := 0;
      while i < |events|
        invariant 0 <= i <= |events|
        invariant Valid()
        invariant buffer == old(buffer) + stamped[..Min(i, room)]
        invariant accepted == old(accepted) + stamped[..Min(i, room)]
      {
        assert stamped[i] == events[i].(timestamp := times[i]);
        PrefixStep(stamped, i, room);
        var _ := Offer(stamped[i]);
        i := i + 1;
      }
    }

    /** The receive branch: the oldest event moves from the channel to the batch; a batch
        that reaches batchSize is sent and restarted. */
    method ReceiveStep()
      requires Valid() && !stopped && |buffer| > 0
      modifies this`buffer, this`batch, this`sent
      ensures Valid()
      ensures buffer == old(buffer[1..])
      ensures |old(batch)| + 1 >= batchSize ==> sent == old(sent) + [old(batch) + [old(buffer[0])]] && batch == []
      ensures |old(batch)| + 1 < batchSize ==> sent == old(sent) && batch == old(batch) + [old(buffer[0])]
      ensures batchSize >= 1 && |sent| > |old(sent)| ==> |sent[|sent| - 1]| == batchSize
    {
      var event := buffer[0];
      buffer := buffer[1..];
      batch := batch + [event];
      if |batch| >= batchSize {
        FlattenConcat(sent, [batch]);
        assert Flatten([batch]) == batch + Flatten([]);
        sent := sent + [batch];
        batch := [];
      }
    }

    /** The ticker branch: a non-empty batch is sent and restarted; an empty one causes no
        send. */
    method TickStep()
      requires Valid() && !stopped
      modifies this`batch, this`sent
      ensures Valid()
      ensures batch == []
      ensures sent == if old(batch) != [] then old(sent) + [old(batch)] else old(sent)
    {
      if |batch| > 0 {
        FlattenConcat(sent, [batch]);
        assert Flatten([batch]) == batch + Flatten([]);
        sent := sent + [batch];
        batch := [];
      }
    }

    /** close(c.quit); closing it a second time would panic. */
    method SignalQuit()
      requires Valid() && !closed
      modifies this`closed
      ensures Valid() && closed
    {
      closed := true;
    }

    /** The quit branch: it sends the batch if non-empty (without restarting it), drains
        the channel into batches that start from that same batch, sends the remainder,
        and returns. */
    method QuitStep()
      requires Valid() && closed && !stopped
      modifies this`buffer, this`batch, this`sent, this`stopped
      ensures Valid() && stopped && buffer == [] && batch == []
      ensures sent == old(sent) + QuitBatches(old(batch), old(buffer), batchSize)
      ensures Flatten(sent) == Flatten(old(sent)) + old(batch) + old(batch) + old(buffer)
      ensures multiset(Flatten(sent)) == multiset(old(accepted)) + multiset(old(batch))
    {
      ghost var sent0, batch0, buffer0 := sent, batch, buffer;
      if |batch| > 0 {
        sent := sent + [batch];
      }
      while |buffer| > 0
        invariant sent + DrainBatches(batch, buffer, batchSize) == sent0 + QuitBatches(batch0, buffer0, batchSize)
        decreases |buffer|
      {
        DrainOne();
      }
      if |batch| > 0 {
        sent := sent + [batch];
        batch := [];
      }
      assert sent == sent0 + QuitBatches(batch0, buffer0, batchSize);
      stopped := true;
      QuitOutcome(sent0, batch0, buffer0, batchSize);
      ghost var f := Flatten(sent);
      assert f == Flatten(sent0) + (batch0 + batch0 + buffer0);
      assert old(accepted) == Flatten(sent0) + batch0 + buffer0;
      assert multiset(f) == multiset(old(accepted)) + multiset(batch0);
    }

    /** One turn of the drain loop: the oldest event joins the batch, and a batch that
        reaches batchSize is sent and restarted. What is sent from here to the end of the
        drain is unchanged. */
    method DrainOne()
      requires |buffer| > 0
      modifies this`buffer, this`batch, this`sent
      ensures |buffer| < old(|buffer|)
      ensures sent + DrainBatches(batch, buffer, batchSize) ==
              old(sent) + DrainBatches(old(batch), old(buffer), batchSize)
    {
      DrainUnfold(batch, buffer, batchSize);
      var event := buffer[0];
      buffer := buffer[1..];
      batch := batch + [event];
      if |batch| >= batchSize {
        sent := sent + [batch];
        batch := [];
      }
    }

    /** Close: closes quit and waits for processEvents to return; calling it twice
        panics. On return every event accepted before it has been sent: the batch being
        gathered at that moment is sent twice, once alone and once at the head of the
        drained channel contents. */
    method Close()
      requires Valid() && !closed
      modifies this`buffer, this`batch, this`sent, this`stopped, this`closed
      ensures Valid() && closed && stopped && buffer == [] && batch == []
      ensures sent == old(sent) + QuitBatches(old(batch), old(buffer), batchSize)
      ensures Flatten(sent) == Flatten(old(sent)) + old(batch) + old(batch) + old(buffer)
      ensures multiset(Flatten(sent)) == multiset(old(accepted)) + multiset(old(batch))
    {
      SignalQuit();
      QuitStep();
    }

    /** SetUserID. */
    method SetUserID(userID: string)
      modifies this`userID
      ensures this.userID == userID
    {
      this.userID := userID;
    }

    function GetDeviceID(): string
      reads this
    {
      deviceID
    }

    function GetSessionID(): string
      reads this
    {
      sessionID
    }

    /** TrackSync: one event sent at once through sendEvents, bypassing the channel. A
        single event is never skipped for emptiness. */
    method TrackSync(
      eventName: string, properties: Properties, now: int, c: Cbc.BlockCipher,
      marshal: Payload -> (seq<byte>, Option<Error>), post: Outgoing -> Exchange) returns (d: Delivery)
      ensures d == SendEvents(CurrentSender(), [Event(eventName, now, properties, "", "", "", 0.0)], c, marshal, post)
      ensures d != Skipped(None)
    {
      d := SendEvents(CurrentSender(), [Event(eventName, now, properties, "", "", "", 0.0)], c, marshal, post);
    }
  }
}
