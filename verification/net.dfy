/** What the streaming ingestion hands to and receives from the network side:
    URLs, the library functions that build them, the payload, the request,
    the transport that sends it and the response body it returns. */
module Net {
  import opened Wrappers
  import opened KustoErrors
  import opened Multimap

  /** A parsed URL. `origin` stands for everything this code leaves alone
      (scheme, user information, host, fragment); `query` is the key/value
      content that `RawQuery` encodes. */
  datatype Url = Url(origin: string, path: string, query: Entries)

  /** The `net/url` functions the code calls, given as behaviour rather than
      defined: `url.Parse`, `url.JoinPath` with two extra segments, and
      `URL.String`. A `Failure` carries the library error's text. */
  datatype UrlLib = UrlLib(
    parse: string -> Result<Url, string>,
    joinPath: (string, string, string) -> Result<string, string>,
    show: Url -> string)

  /** The caller's payload stream and whether it already has a `Close`. */
  datatype Payload = Payload(bytes: seq<bv8>, hasClose: bool)

  /** The payload as the request carries it: as given, or wrapped so that
      closing it does nothing. */
  datatype ReadCloser = AsGiven(source: Payload) | NopCloser(source: Payload)

  /** The `io.ReadCloser` check: a payload with a `Close` is used as it is,
      any other is wrapped by `io.NopCloser`. */
  function AsReadCloser(p: Payload): (rc: ReadCloser)
    ensures rc.source == p
    ensures rc.NopCloser? <==> !p.hasClose
  {
    if p.hasClose then AsGiven(p) else NopCloser(p)
  }

  /** One call of the transport: operation tag, target, body, headers and the
      diagnostic label. */
  datatype Request = Request(op: Op, url: Url, payload: ReadCloser, headers: Entries, details: string)

  /** What the transport answers: whether a response body came back, what
      closing that body reports, and the transport error, if any. */
  datatype Reply = Reply(hasBody: bool, closeError: Option<string>, err: Option<string>)

  /** A response body; `closes` counts the calls to `Close`. */
  class Body {
    const closeError: Option<string>
    var closes: nat

    constructor (closeError: Option<string>)
      ensures this.closeError == closeError && closes == 0
    {
      this.closeError := closeError;
      closes := 0;
    }

    method Close() returns (err: Option<string>)
      modifies this
      ensures closes == old(closes) + 1
      ensures err == closeError
    {
      closes := closes + 1;
      err := closeError;
    }
  }

  /** The connection's request executor (`doRequestImpl`), known only by the
      reply it gives to each request. It records every request it is asked to
      send and every response body it hands out. */
  class Transport {
    const reply: Request -> Reply
    var sent: seq<Request>
    var bodies: seq<Body>

    constructor (reply: Request -> Reply)
      ensures this.reply == reply && sent == [] && bodies == []
    {
      this.reply := reply;
      sent := [];
      bodies := [];
    }

    method DoRequest(req: Request) returns (body: Body?, err: Option<string>)
      modifies this
      ensures sent == old(sent) + [req]
      ensures err == reply(req).err
      ensures (body != null) == reply(req).hasBody
      ensures body != null ==> fresh(body) && body.closes == 0 && bodies == old(bodies) + [body]
      ensures body != null ==> body.closeError == reply(req).closeError
      ensures body == null ==> bodies == old(bodies)
    {
      sent := sent + [req];
      err := reply(req).err;
      if reply(req).hasBody {
        body := new Body(reply(req).closeError);
        bodies := bodies + [body];
      } else {
        body := null;
      }
    }
  }
}
