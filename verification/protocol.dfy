/**
 * The JSON-RPC 2.0 envelope pieces the server writes itself, and the
 * tool-result shape shared by the tools.
 */
module Protocol {

  datatype Option<+T> = None | Some(value: T)

  /** A JSON-RPC request id: a number, a string or null. */
  datatype RequestId = NullId | NumberId(n: int) | StringId(s: string)

  const JsonRpcVersion: string := "2.0"

  // Error codes, after section 5.1 (Error object) of the JSON-RPC 2.0
  // specification: -32603 is the reserved "Internal error"; -32099..-32000
  // is left to implementations as "Server error".
  const InternalErrorCode: int := -32603
  const MethodNotAllowedCode: int := -32000
  const UnauthorizedCode: int := -32001
  const ServerErrorLow: int := -32099
  const ServerErrorHigh: int := -32000

  predicate IsServerErrorCode(code: int) {
    ServerErrorLow <= code <= ServerErrorHigh
  }

  datatype ErrorObject = ErrorObject(code: int, message: string)

  /** `{ jsonrpc, error: { code, message }, id }` */
  datatype ErrorResponse = ErrorResponse(jsonrpc: string, error: ErrorObject, id: RequestId)

  /** Every error body this server writes names version 2.0 and has id null. */
  function ServerError(code: int, message: string): ErrorResponse {
    ErrorResponse(JsonRpcVersion, ErrorObject(code, message), NullId)
  }

  /**
   * An error body that conforms to JSON-RPC 2.0 for a reply that cannot be
   * correlated with a request: version "2.0", id null, and a code that is
   * either the reserved internal error or in the server-error range.
   */
  predicate WellFormedError(e: ErrorResponse) {
    && e.jsonrpc == JsonRpcVersion
    && e.id == NullId
    && (e.error.code == InternalErrorCode || IsServerErrorCode(e.error.code))
    && e.error.message != ""
  }

  /** One item of a result's `content` list: `{ type: "text", text }`. */
  datatype Content = Text(text: string)

  /** `CallToolResult`: `{ content: [...] }`. */
  datatype ToolResult = ToolResult(content: seq<Content>)
}
