/** The slice of net/http the client touches, as values: header maps, the body a request
    carries, an outgoing request, and what an exchange with the server produced.

    No network traffic is modelled. A round trip with the server is a function of type
    Outgoing -> Exchange that the caller supplies, so every property proved about a
    caller holds for whatever the server and the network do. */
module Http {
  import opened Bytes
  import opened Errors

  /** http.Header with canonical keys and one value per key. */
  type Header = map<string, string>

  const ContentType := "Content-Type"
  const JsonMediaType := "application/json"
  const EncryptedHeader := "X-Encrypted"
  const ResponseEncryptHeader := "X-Response-Encrypt"

  /** http.Header.Get: the value under the key, or "" when the key is absent. */
  function Get(h: Header, key: string): string {
    if key in h then h[key] else ""
  }

  /** What a request body holds. The JSON text of each shape is not modelled; the
      shapes themselves are:
      - Raw: bytes sent as they are (already-marshalled JSON);
      - DataEnvelope: the object {"data": <data>};
      - StampedEnvelope: the object {"data": <data>, "timestamp": <timestamp>}. */
  datatype Body =
    | Raw(bytes: seq<byte>)
    | DataEnvelope(data: string)
    | StampedEnvelope(data: string, timestamp: int)

  /** A POST request as it is handed to the HTTP client. */
  datatype Outgoing = Outgoing(url: string, header: Header, body: Body)

  /** What one round trip produced:
      - BadRequest: http.NewRequest failed (a malformed URL);
      - SendFailed: the client's Do or Post failed (network error or timeout);
      - Response: a status, the response headers and the body read from it, with the
        error io.ReadAll returned if reading the body failed. */
  datatype Exchange =
    | BadRequest(err: Error)
    | SendFailed(err: Error)
    | Response(status: int, header: Header, body: seq<byte>, readErr: Option<Error>)

  /** An *http.Request under construction: its headers change in place through Set. */
  class Request {
    const url: string
    const body: Body
    var header: Header

    constructor (url: string, body: Body)
      ensures this.url == url && this.body == body && header == map[]
    {
      this.url := url;
      this.body := body;
      header := map[];
    }

    /** Header.Set: replaces any value held under the key. */
    method Set(key: string, value: string)
      modifies this
      ensures header == old(header)[key := value]
    {
      header := header[key := value];
    }

    /** The request as the client sends it. */
    function Sent(): Outgoing
      reads this
    {
      Outgoing(url, header, body)
    }
  }
}
