/** Streaming ingestion on a Kusto connection: compose the target URL, pick
    the correlation id, shape the headers, send the payload and classify
    whatever failed. */
module Ingest {
  import opened Wrappers
  import opened Text
  import opened Formats
  import opened KustoErrors
  import opened Multimap
  import opened Net
  import Uuid

  const CorrelationPrefix: string := "KGC.executeStreaming;"
  const MappingNameKey: string := "mappingName"
  const StreamFormatKey: string := "streamFormat"
  const ContentType: string := "Content-Type"
  const ContentEncoding: string := "Content-Encoding"
  const Gzip: string := "gzip"

  /** The request properties handed to header construction; only the client
      request id is set, every other property keeps its zero value. */
  datatype RequestProperties = RequestProperties(clientRequestId: string)

  /** What the connection brings to a call: its stream endpoint (in its
      `String()` form), the URL library and its header builder `getHeaders`. */
  datatype ConnConfig = ConnConfig(
    endStreamIngest: string,
    urls: UrlLib,
    getHeaders: RequestProperties -> Entries)

  /** The arguments of one `StreamIngest` call (the context is left out). */
  datatype IngestArgs = IngestArgs(
    db: string,
    table: string,
    payload: Payload,
    format: DataFormat,
    mappingName: string,
    clientRequestId: string)

  // ---------------------------------------------------------------------
  // Errors

  /** The endpoint could not be parsed: a client-argument error that a retry
      cannot cure, naming the endpoint and the library's complaint. */
  function ParseError(endpoint: string, cause: string): (e: Error)
    ensures e.op == OpIngestStream && e.kind == KClientArgs && e.noRetry
    ensures Mentions(e.message, endpoint) && Mentions(e.message, cause)
  {
    var a, b := "could not parse the stream endpoint(", "): ";
    MentionsEnd(a, endpoint);
    MentionsExtend(a + endpoint, endpoint, b);
    MentionsExtend(a + endpoint + b, endpoint, cause);
    MentionsEnd(a + endpoint + b, cause);
    SetNoRetry(ES(OpIngestStream, KClientArgs, a + endpoint + b + cause))
  }

  /** The endpoint's path could not be joined with db and table: a
      client-argument error that a retry cannot cure, naming endpoint, db,
      table and the library's complaint. */
  function JoinError(endpoint: string, db: string, table: string, cause: string): (e: Error)
    ensures e.op == OpIngestStream && e.kind == KClientArgs && e.noRetry
    ensures Mentions(e.message, endpoint) && Mentions(e.message, db)
    ensures Mentions(e.message, table) && Mentions(e.message, cause)
  {
    var a, b, c, d := "could not join the stream endpoint(", ") with the db(", ") and table(", "): ";
    MentionsEnd(a, endpoint);
    MentionsExtend(a + endpoint, endpoint, b);
    MentionsExtend(a + endpoint + b, endpoint, db);
    MentionsEnd(a + endpoint + b, db);
    var m := a + endpoint + b + db;
    MentionsExtend(m, endpoint, c);
    MentionsExtend(m, db, c);
    MentionsExtend(m + c, endpoint, table);
    MentionsExtend(m + c, db, table);
    MentionsEnd(m + c, table);
    var n := m + c + table;
    MentionsExtend(n, endpoint, d);
    MentionsExtend(n, db, d);
    MentionsExtend(n, table, d);
    MentionsExtend(n + d, endpoint, cause);
    MentionsExtend(n + d, db, cause);
    MentionsExtend(n + d, table, cause);
    MentionsEnd(n + d, cause);
    SetNoRetry(ES(OpIngestStream, KClientArgs, a + endpoint + b + db + c + table + d + cause))
  }

  /** The transport reported a failure: a transport error, retryable, naming
      the composed URL and the transport's complaint. */
  function TransportError(shownUrl: string, cause: string): (e: Error)
    ensures e.op == OpIngestStream && e.kind == KHTTPError && !e.noRetry
    ensures Mentions(e.message, shownUrl) && Mentions(e.message, cause)
  {
    var a, b := "streaming ingestion failed: endpoint(", "): ";
    MentionsEnd(a, shownUrl);
    MentionsExtend(a + shownUrl, shownUrl, b);
    MentionsExtend(a + shownUrl + b, shownUrl, cause);
    MentionsEnd(a + shownUrl + b, cause);
    ES(OpIngestStream, KHTTPError, a + shownUrl + b + cause)
  }

  // ---------------------------------------------------------------------
  // Address composition

  /** The query of the request, built from an empty `url.Values`. */
  function StreamQuery(format: DataFormat, mappingName: string): (q: Entries)
    ensures q.Keys <= {MappingNameKey, StreamFormatKey}
    ensures MappingNameKey in q <==> mappingName != ""
    ensures mappingName != "" ==> q[MappingNameKey] == [mappingName]
    ensures StreamFormatKey in q && q[StreamFormatKey] == [CamelCase(KnownOrDefault(format))]
  {
    var qv: Entries := if mappingName != "" then Appended(map[], MappingNameKey, mappingName) else map[];
    Appended(qv, StreamFormatKey, CamelCase(KnownOrDefault(format)))
  }

  /** The URL to send to, or the client-argument error that stops the call. */
  function ComposeUrl(cfg: ConnConfig, db: string, table: string, format: DataFormat, mappingName: string)
    : (r: Result<Url, Error>)
    ensures var parsed := cfg.urls.parse(cfg.endStreamIngest);
      r.Success? <==> parsed.Success? && cfg.urls.joinPath(parsed.value.path, db, table).Success?
    ensures r.Failure? ==> r.error.op == OpIngestStream && r.error.kind == KClientArgs && r.error.noRetry
    ensures r.Success? ==>
      var parsed := cfg.urls.parse(cfg.endStreamIngest).value;
      && r.value.origin == parsed.origin
      && r.value.path == cfg.urls.joinPath(parsed.path, db, table).value
      && r.value.query == StreamQuery(format, mappingName)
  {
    match cfg.urls.parse(cfg.endStreamIngest)
    case Failure(cause) => Failure(ParseError(cfg.endStreamIngest, cause))
    case Success(parsed) =>
      match cfg.urls.joinPath(parsed.path, db, table)
      case Failure(cause) => Failure(JoinError(cfg.endStreamIngest, db, table, cause))
      case Success(path) => Success(parsed.(path := path, query := StreamQuery(format, mappingName)))
  }

  // ---------------------------------------------------------------------
  // Correlation id and headers

  /** The caller's id when given, otherwise one synthesised from `token`. */
  function CorrelationId(clientRequestId: string, token: string): (id: string)
    ensures clientRequestId != "" ==> id == clientRequestId
    ensures clientRequestId == "" ==> id == CorrelationPrefix + token
    ensures id != ""
  {
    if clientRequestId == "" then CorrelationPrefix + token else clientRequestId
  }

  /** The headers from `getHeaders` after `Del("Content-Type")` and
      `Add("Content-Encoding", "gzip")`. */
  function ShapeHeaders(h: Entries): (r: Entries)
    ensures ContentType !in r
    ensures ContentEncoding in r && Gzip in r[ContentEncoding]
    ensures r[ContentEncoding] == ValuesOf(h, ContentEncoding) + [Gzip]
    ensures r.Keys == h.Keys - {ContentType} + {ContentEncoding}
    ensures forall k :: k in h && k != ContentType && k != ContentEncoding ==> k in r && r[k] == h[k]
  {
    Appended(Removed(h, ContentType), ContentEncoding, Gzip)
  }

  /** The diagnostic label handed to the transport; it names db, table,
      mapping name and correlation id. */
  function Label(db: string, table: string, mappingName: string, id: string): (l: string)
    ensures Mentions(l, db) && Mentions(l, table)
    ensures Mentions(l, mappingName) && Mentions(l, id)
  {
    var a, b, c, d := "With db: ", ", table: ", ", mappingName: ", ", clientRequestId: ";
    MentionsEnd(a, db);
    MentionsExtend(a + db, db, b);
    MentionsExtend(a + db + b, db, table);
    MentionsEnd(a + db + b, table);
    var m := a + db + b + table;
    MentionsExtend(m, db, c);
    MentionsExtend(m, table, c);
    MentionsExtend(m + c, db, mappingName);
    MentionsExtend(m + c, table, mappingName);
    MentionsEnd(m + c, mappingName);
    var n := m + c + mappingName;
    MentionsExtend(n, db, d);
    MentionsExtend(n, table, d);
    MentionsExtend(n, mappingName, d);
    MentionsExtend(n + d, db, id);
    MentionsExtend(n + d, table, id);
    MentionsExtend(n + d, mappingName, id);
    MentionsEnd(n + d, id);
    a + db + b + table + c + mappingName + d + id
  }

  // ---------------------------------------------------------------------
  // The whole call

  /** The request the call sends, or the construction error that stops it
      before anything is sent. `token` is the UUID that would be drawn. */
  function BuildRequest(cfg: ConnConfig, args: IngestArgs, token: string): (r: Result<Request, Error>)
    ensures var url := ComposeUrl(cfg, args.db, args.table, args.format, args.mappingName);
      && (r.Failure? <==> url.Failure?)
      && (r.Failure? ==> r.error == url.error)
      && (r.Success? ==> r.value.op == OpIngestStream && r.value.url == url.value)
    ensures r.Success? ==>
      var id := CorrelationId(args.clientRequestId, token);
      && r.value.payload == AsReadCloser(args.payload)
      && r.value.headers == ShapeHeaders(cfg.getHeaders(RequestProperties(id)))
      && r.value.details == Label(args.db, args.table, args.mappingName, id)
  {
    match ComposeUrl(cfg, args.db, args.table, args.format, args.mappingName)
    case Failure(e) => Failure(e)
    case Success(url) =>
      var id := CorrelationId(args.clientRequestId, token);
      Success(Request(OpIngestStream, url, AsReadCloser(args.payload),
                      ShapeHeaders(cfg.getHeaders(RequestProperties(id))),
                      Label(args.db, args.table, args.mappingName, id)))
  }

  /** The final classification of what the transport reported. */
  function Classify(transportError: Option<string>, shownUrl: string): (r: Option<Error>)
    ensures r.None? <==> transportError.None?
    ensures r.Some? ==> r.value.op == OpIngestStream && r.value.kind == KHTTPError && !r.value.noRetry
  {
    match transportError
    case None => None
    case Some(cause) => Some(TransportError(shownUrl, cause))
  }

  /** What `StreamIngest` returns, given how the transport replies. */
  function Outcome(cfg: ConnConfig, reply: Request -> Reply, args: IngestArgs, token: string): (r: Option<Error>)
    ensures r.None? ==> BuildRequest(cfg, args, token).Success?
    ensures r.Some? ==> r.value.op == OpIngestStream && (r.value.noRetry <==> r.value.kind == KClientArgs)
  {
    match BuildRequest(cfg, args, token)
    case Failure(e) => Some(e)
    case Success(req) => Classify(reply(req).err, cfg.urls.show(req.url))
  }

  // ---------------------------------------------------------------------
  // Properties of the call

  /** An endpoint that does not parse ends the call with a non-retryable
      client-argument error naming the endpoint, whatever the transport would do. */
  lemma ParseFailureIsFinal(cfg: ConnConfig, reply: Request -> Reply, args: IngestArgs, token: string)
    requires cfg.urls.parse(cfg.endStreamIngest).Failure?
    ensures var e := Outcome(cfg, reply, args, token);
      && e == Some(ParseError(cfg.endStreamIngest, cfg.urls.parse(cfg.endStreamIngest).error))
      && e.value.op == OpIngestStream && e.value.kind == KClientArgs && e.value.noRetry
      && Mentions(e.value.message, cfg.endStreamIngest)
  {
  }

  /** A path that cannot be joined ends the call with a non-retryable
      client-argument error naming endpoint, db and table. */
  lemma JoinFailureIsFinal(cfg: ConnConfig, reply: Request -> Reply, args: IngestArgs, token: string)
    requires cfg.urls.parse(cfg.endStreamIngest).Success?
    requires cfg.urls.joinPath(cfg.urls.parse(cfg.endStreamIngest).value.path, args.db, args.table).Failure?
    ensures var e := Outcome(cfg, reply, args, token);
      && e.Some? && e.value.op == OpIngestStream && e.value.kind == KClientArgs && e.value.noRetry
      && Mentions(e.value.message, cfg.endStreamIngest)
      && Mentions(e.value.message, args.db)
      && Mentions(e.value.message, args.table)
  {
  }

  /** The query sent carries exactly the `streamFormat` of a concrete format,
      and `mappingName` exactly when the caller gave one. */
  lemma QueryOfSentRequest(cfg: ConnConfig, args: IngestArgs, token: string)
    requires BuildRequest(cfg, args, token).Success?
    ensures var q := BuildRequest(cfg, args, token).value.url.query;
      && (MappingNameKey in q <==> args.mappingName != "")
      && (args.mappingName != "" ==> q[MappingNameKey] == [args.mappingName])
      && StreamFormatKey in q && |q[StreamFormatKey]| == 1
      && FormatNamed(q[StreamFormatKey][0]) == Some(KnownOrDefault(args.format))
  {
    WireNameIsKnown(args.format);
  }

  /** One correlation id is used both for header construction and in the
      transport's label. */
  lemma CorrelationIdIsShared(cfg: ConnConfig, args: IngestArgs, token: string)
    requires BuildRequest(cfg, args, token).Success?
    ensures var req := BuildRequest(cfg, args, token).value;
      var id := CorrelationId(args.clientRequestId, token);
      && req.headers == ShapeHeaders(cfg.getHeaders(RequestProperties(id)))
      && Mentions(req.details, id)
  {
  }

  /** A request that is sent fails exactly when the transport fails, and then
      with a retryable transport error naming the composed URL. */
  lemma TransportFailureIsClassified(cfg: ConnConfig, reply: Request -> Reply, args: IngestArgs, token: string)
    requires BuildRequest(cfg, args, token).Success?
    ensures var req := BuildRequest(cfg, args, token).value;
      var e := Outcome(cfg, reply, args, token);
      && (e.None? <==> reply(req).err.None?)
      && (e.Some? ==> e.value.kind == KHTTPError && !e.value.noRetry
                      && Mentions(e.value.message, cfg.urls.show(req.url))
                      && Mentions(e.value.message, reply(req).err.value))
  {
  }

  /** Whether an error may be retried is decided by the stage that failed:
      construction failures never, transport failures always. */
  lemma RetryFlagByStage(cfg: ConnConfig, reply: Request -> Reply, args: IngestArgs, token: string)
    requires Outcome(cfg, reply, args, token).Some?
    ensures var e := Outcome(cfg, reply, args, token).value;
      && (e.noRetry <==> BuildRequest(cfg, args, token).Failure?)
      && (e.kind == KClientArgs <==> BuildRequest(cfg, args, token).Failure?)
      && e.op == OpIngestStream
  {
  }

  // ---------------------------------------------------------------------
  // The connection

  class Conn {
    const config: ConnConfig
    const transport: Transport
    /** The process-wide UUID generator as this connection sees it. */
    const uuids: Uuid.Generator

    constructor (config: ConnConfig, transport: Transport, uuids: Uuid.Generator)
      ensures this.config == config && this.transport == transport && this.uuids == uuids
    {
      this.config := config;
      this.transport := transport;
      this.uuids := uuids;
    }

    /** The address step of `StreamIngest`: parse the endpoint, join db and
        table onto its path and fill a fresh query. */
    method ComposeStreamUrl(db: string, table: string, format: DataFormat, mappingName: string)
      returns (r: Result<Url, Error>)
      ensures r == ComposeUrl(config, db, table, format, mappingName)
    {
      var parsed := config.urls.parse(config.endStreamIngest);
      if parsed.Failure? {
        return Failure(ParseError(config.endStreamIngest, parsed.error));
      }
      var streamUrl := parsed.value;
      var joined := config.urls.joinPath(streamUrl.path, db, table);
      if joined.Failure? {
        return Failure(JoinError(config.endStreamIngest, db, table, joined.error));
      }
      streamUrl := streamUrl.(path := joined.value);

      var qv := new MultiMap.Empty();
      if mappingName != "" {
        qv.Add(MappingNameKey, mappingName);
      }
      qv.Add(StreamFormatKey, CamelCase(KnownOrDefault(format)));
      streamUrl := streamUrl.(query := qv.entries);
      return Success(streamUrl);
    }

    /** The header step of `StreamIngest`: the headers `getHeaders` builds for the
        correlation id, without a content type and declaring gzip. */
    method OutboundHeaders(id: string) returns (h: Entries)
      ensures h == ShapeHeaders(config.getHeaders(RequestProperties(id)))
    {
      var properties := RequestProperties(id);
      var headers := new MultiMap.Of(config.getHeaders(properties));
      headers.Del(ContentType);
      headers.Add(ContentEncoding, Gzip);
      h := headers.entries;
    }

    /** `StreamIngest`. The transport is asked at most once and only when the
        URL could be built; a UUID is drawn only then and only when the caller
        gave no id; a returned response body is closed exactly once. */
    method StreamIngest(db: string, table: string, payload: Payload, format: DataFormat,
                        mappingName: string, clientRequestId: string)
      returns (err: Option<Error>)
      modifies transport, uuids
      ensures var args := IngestArgs(db, table, payload, format, mappingName, clientRequestId);
        err == Outcome(config, transport.reply, args, old(uuids.Next()))
      ensures var planned := BuildRequest(config, IngestArgs(db, table, payload, format, mappingName, clientRequestId), old(uuids.Next()));
        && transport.sent == old(transport.sent) + (if planned.Success? then [planned.value] else [])
        && uuids.issued == old(uuids.issued) + (if planned.Success? && clientRequestId == "" then [old(uuids.Next())] else [])
        && |transport.bodies| == |old(transport.bodies)|
             + (if planned.Success? && transport.reply(planned.value).hasBody then 1 else 0)
      ensures old(transport.bodies) <= transport.bodies
      ensures forall i | |old(transport.bodies)| <= i < |transport.bodies| :: transport.bodies[i].closes == 1
    {
      ghost var next := uuids.Next();
      ghost var args := IngestArgs(db, table, payload, format, mappingName, clientRequestId);

      var composed := ComposeStreamUrl(db, table, format, mappingName);
      if composed.Failure? {
        return Some(composed.error);
      }
      var streamUrl := composed.value;

      var closeablePayload := AsReadCloser(payload);

      var id := clientRequestId;
      if id == "" {
        var token := uuids.New();
        id := CorrelationPrefix + token;
      }

      var headers := OutboundHeaders(id);
      var req := Request(OpIngestStream, streamUrl, closeablePayload, headers,
                         Label(db, table, mappingName, id));
      assert BuildRequest(config, args, next) == Success(req);
      var body, transportErr := transport.DoRequest(req);
      if body != null {
        var _ := body.Close();
      }

      if transportErr.Some? {
        return Some(TransportError(config.urls.show(streamUrl), transportErr.value));
      }
      return None;
    }
  }
}
