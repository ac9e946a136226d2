/** The classified errors of the Kusto client: an operation tag, a failure
    kind, a message and a "do not retry" marker. */
module KustoErrors {

  /** The operation an error belongs to; streaming ingestion is the only one here. */
  datatype Op = OpIngestStream

  /** The failure kinds this operation produces. */
  datatype Kind =
    | KClientArgs   // the caller's arguments could not be turned into a request
    | KHTTPError    // the request was sent and the transport reported a failure

  datatype Error = Error(op: Op, kind: Kind, message: string, noRetry: bool)

  /** `errors.ES`: a new error, retryable until marked otherwise. */
  function ES(op: Op, kind: Kind, message: string): (e: Error)
    ensures e.op == op && e.kind == kind && e.message == message
    ensures !e.noRetry
  {
    Error(op, kind, message, false)
  }

  /** `SetNoRetry`: mark an error as one that a retry cannot cure. */
  function SetNoRetry(e: Error): (r: Error)
    ensures r.noRetry
    ensures r.op == e.op && r.kind == e.kind && r.message == e.message
  {
    e.(noRetry := true)
  }
}
