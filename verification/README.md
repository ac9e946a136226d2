# Streaming ingestion request for a Kusto connection

A model of `Conn.StreamIngest` from the Go Kusto client
(`kusto/conn_streaming_ingest.go`). The call uploads a payload stream into
one database table. It does five things in order:

1. **Address composition.** It parses the connection's stream endpoint and
   joins `db` and `table` onto its path. It then fills a fresh query with an
   optional `mappingName` and a mandatory `streamFormat`.
2. **Correlation id.** It uses the caller's client request id as given. An
   empty one becomes `"KGC.executeStreaming;" + uuid`.
3. **Header shaping.** It asks the connection for headers built with that
   id, deletes `Content-Type` and adds `Content-Encoding: gzip`.
4. **Transport call.** It sends the request through the connection's
   executor and closes the response body when one comes back.
5. **Error classification.** Construction failures become non-retryable
   `KClientArgs` errors, returned before anything is sent. Transport
   failures become `KHTTPError` errors with the retry marker left unset.

Modules, one per concern:

- `Formats` (`formats.dfy`): the format capability as a closed datatype, with `KnownOrDefault`, `CamelCase` and its inverse `FormatNamed`.
- `KustoErrors` (`kusto_errors.dfy`): operation tag, failure kind, and `ES` / `SetNoRetry`.
- `Multimap` (`multimap.dfy`): Go's `map[string][]string`, the shape of both `url.Values` and `http.Header`. It is a class changed in place by `Add` and `Del`, specified by the value functions `Appended` and `Removed`.
- `Net` (`net.dfy`): URLs and the URL library as supplied behaviour, the payload, the request, and the transport and response body as recording objects.
- `Uuid` (`uuid.dfy`): the UUID generator, given as the sequence of tokens it hands out.
- `Ingest` (`ingest.dfy`): the pipeline as specification functions (`ComposeUrl`, `CorrelationId`, `ShapeHeaders`, `BuildRequest`, `Classify`, `Outcome`), the lemmas about them, and class `Conn`. The methods of `Conn` are proved against those functions.
- `Text` (`text.dfy`) and `Wrappers` (`wrappers.dfy`) are helpers: "a message mentions a string", plus `Option` and `Result`.

`StreamIngest` is split into three methods. `ComposeStreamUrl` covers lines
18-33, `OutboundHeaders` covers lines 45-49, and `StreamIngest` covers the
rest. Each is proved against the specification function for its part.

## Model

| member | source | states |
|---|---|---|
| KustoErrors.ES | kusto/conn_streaming_ingest.go:20 | `errors.ES` keeps the operation, kind and message it is given, and a new error is retryable |
| KustoErrors.SetNoRetry | kusto/conn_streaming_ingest.go:20 | `SetNoRetry` sets the no-retry marker and changes nothing else |
| Formats.KnownOrDefault | kusto/conn_streaming_ingest.go:14 | the result is never the unset format; a chosen format is kept and the unset one becomes the default (CSV) |
| Formats.CamelCase | kusto/conn_streaming_ingest.go:13 | only the unset format renders as the empty name; every other name starts with a capital letter |
| Formats.FormatNamed | kusto/conn_streaming_ingest.go:12-15 | reading a wire name back never yields the unset format |
| Formats.CamelCaseRoundTrip | kusto/conn_streaming_ingest.go:12-15 | reading back `CamelCase(f)` gives `f` for every chosen format, and nothing for the unset one |
| Formats.CamelCaseInjective | kusto/conn_streaming_ingest.go:12-15 | two formats with the same wire name are the same format |
| Formats.WireNameIsKnown | kusto/conn_streaming_ingest.go:32 | the `streamFormat` value `CamelCase(KnownOrDefault(f))` is non-empty and names a concrete format, the normalised `f` |
| Multimap.Appended | kusto/conn_streaming_ingest.go:30-32 | `Add` appends the value to the key's list (so the value is present, not necessarily alone); other keys are untouched |
| Multimap.Removed | kusto/conn_streaming_ingest.go:48 | `Del` removes the key with all its values; other keys are untouched |
| Multimap.MultiMap.Add | kusto/conn_streaming_ingest.go:30-32 | the map after `Add` is `Appended` of the map before |
| Multimap.MultiMap.Empty | kusto/conn_streaming_ingest.go:28 | `url.Values{}` starts with no keys |
| Multimap.MultiMap.Del | kusto/conn_streaming_ingest.go:48 | the map after `Del` is `Removed` of the map before |
| Net.AsReadCloser | kusto/conn_streaming_ingest.go:35-39 | the payload is carried unchanged; it is wrapped with a no-op close exactly when it has no `Close` of its own |
| Net.Transport.DoRequest | kusto/conn_streaming_ingest.go:51 | the executor records the request and returns its reply's error; when the reply has a body, the body is fresh, not yet closed, carries the reply's close error, and is recorded |
| Net.Body.Close | kusto/conn_streaming_ingest.go:52-54 | closing counts one more close and reports the body's close error |
| Uuid.Generator.New | kusto/conn_streaming_ingest.go:42 | returns the generator's next token and records it as issued |
| Ingest.ParseError | kusto/conn_streaming_ingest.go:20 | the parse error is an `OpIngestStream`/`KClientArgs` error marked no-retry, whose message (line 20's format with `%s` filled in) contains the endpoint and the library's error text |
| Ingest.JoinError | kusto/conn_streaming_ingest.go:24 | the join error is an `OpIngestStream`/`KClientArgs` error marked no-retry, whose message (line 24's format) contains the endpoint, the db, the table and the library's error text |
| Ingest.TransportError | kusto/conn_streaming_ingest.go:57 | the transport error is an `OpIngestStream`/`KHTTPError` error with the retry marker unset, whose message (line 57's format) contains the composed URL's text and the transport's error text |
| Ingest.StreamQuery | kusto/conn_streaming_ingest.go:28-33 | the query has no keys besides `mappingName` and `streamFormat`; `mappingName` is present iff the argument is non-empty, and then holds exactly that value; `streamFormat` holds exactly `CamelCase(KnownOrDefault(format))` |
| Ingest.ComposeUrl | kusto/conn_streaming_ingest.go:18-33 | succeeds iff parsing and joining both succeed; a failure is a non-retryable `OpIngestStream`/`KClientArgs` error; a success keeps the parsed origin, takes the joined path and carries `StreamQuery` |
| Ingest.CorrelationId | kusto/conn_streaming_ingest.go:41-43 | a non-empty caller id is used unchanged; an empty one becomes the `KGC.executeStreaming;` prefix plus the token; the id is never empty |
| Ingest.ShapeHeaders | kusto/conn_streaming_ingest.go:47-49 | `Content-Type` is absent; `gzip` is among the `Content-Encoding` values, appended after any earlier ones; every other header is unchanged |
| Ingest.Label | kusto/conn_streaming_ingest.go:51 | the diagnostic label (line 51's `Sprintf`) contains db, table, mapping name and correlation id |
| Ingest.BuildRequest | kusto/conn_streaming_ingest.go:17-51 | fails exactly when URL composition fails, with that error; otherwise the request has the composed URL, the payload as a closable reader, the shaped headers built from the correlation id, and the label naming that same id |
| Ingest.Classify | kusto/conn_streaming_ingest.go:56-60 | no error iff the transport reported none; otherwise an `OpIngestStream`/`KHTTPError` error with the retry marker unset |
| Ingest.Outcome | kusto/conn_streaming_ingest.go:17-61 | the value `StreamIngest` returns: no error only when a request was built; every error is tagged `OpIngestStream` and is marked no-retry exactly when it is a `KClientArgs` error |
| Ingest.ParseFailureIsFinal | kusto/conn_streaming_ingest.go:18-21 | an endpoint that does not parse gives the parse error, whatever the transport and the UUID would be; it is a non-retryable `KClientArgs` error that names the endpoint |
| Ingest.JoinFailureIsFinal | kusto/conn_streaming_ingest.go:22-25 | a failed path join gives a non-retryable `KClientArgs` error naming endpoint, db and table, whatever the transport would do |
| Ingest.QueryOfSentRequest | kusto/conn_streaming_ingest.go:28-33 | the sent query holds `mappingName` iff it was given, and then exactly the caller's value; it holds exactly one `streamFormat`, and that value names the normalised format |
| Ingest.CorrelationIdIsShared | kusto/conn_streaming_ingest.go:41-51 | the one correlation id is used both for header construction and in the transport's label |
| Ingest.TransportFailureIsClassified | kusto/conn_streaming_ingest.go:51-60 | once the request is sent, the call fails iff the transport fails; it then fails with a retryable `KHTTPError` error whose message names the composed URL and the transport's error |
| Ingest.RetryFlagByStage | kusto/conn_streaming_ingest.go:18-60 | an error is marked no-retry iff it came from construction, and it is `KClientArgs` iff it came from construction; every error is tagged `OpIngestStream` |
| Ingest.Conn.ComposeStreamUrl | kusto/conn_streaming_ingest.go:18-33 | the method that parses, joins and fills the query in place returns exactly `ComposeUrl` |
| Ingest.Conn.OutboundHeaders | kusto/conn_streaming_ingest.go:45-49 | the method that deletes and adds on the header map returns exactly `ShapeHeaders` of `getHeaders` for the id |
| Ingest.Conn.StreamIngest | kusto/conn_streaming_ingest.go:17-61 | returns `Outcome`. The transport is called once with `BuildRequest`'s request when construction succeeds, and never otherwise. A UUID is drawn only then, and only when the caller gave no id. Earlier response bodies stay as they were. A body returned by this call is closed exactly once, and its close error is ignored |

## Left out

- `url.Parse`, `url.JoinPath` and `URL.String` are library code. They appear as the functions of `Net.UrlLib`, each returning success or a failure text. Percent-escaping and the path cleaning done by `JoinPath` are not modelled.
- `url.Values.Encode` is not modelled. `RawQuery` is kept as the key/value map it would encode, so key ordering and escaping are left out.
- The connection's endpoint is a `*url.URL`. The model keeps only its `String()` text, which is what the code parses and quotes in messages.
- `uuid.New()` is a supplied sequence of tokens. Uniqueness across calls and the 36-character form are promises of the UUID library, not of this code.
- The bodies of `getHeaders` and `doRequestImpl` are not part of this model. `getHeaders` is a function of the request properties. `doRequestImpl` is a transport known only by its reply to each request. Its first result, which this code discards, is not modelled.
- `http.Header` canonicalises key spelling on `Del` and `Add`. The model compares keys exactly. The two keys this code uses are already canonical.
- Context cancellation and deadlines, and the reading and closing of the payload stream by the transport, are I/O and concurrency. They are left out.
- Gzip compression is left out. The code only declares the encoding, and the caller compresses the payload.
- The concrete list of formats is defined outside `conn_streaming_ingest.go`. The model uses Kusto's ingestion formats, with the wire names in the form the streaming endpoint accepts (`Csv`, `Json`, …) and CSV as the default.
- Formats.CamelCase, Formats.WireNameIsKnown, Ingest.QueryOfSentRequest: in the Go code `DataFormatForStreaming` (lines 12-15) is an open interface, and the implementing type decides what `KnownOrDefault().CamelCase()` returns. "The `streamFormat` value names a concrete format", the capital first letter and the distinct names all follow from the closed set of formats fixed here, not from line 32.
- Messages are built with `%s` substitution of the arguments and the error's text. Error messages include only what the code puts in them. The mapping name and the correlation id appear only in the transport's diagnostic label.
- Request properties other than the client request id keep their zero values and are not modelled.
