/**
 * The JSON-RPC 2.0 response envelope the server returns, and the tool-call
 * result (`ToolResult`) that travels inside it.
 */
module McpResponse {
  import opened Wrappers
  import opened JavaLang

  /** The protocol version every response carries (section 5 of the JSON-RPC 2.0 specification). */
  const JsonRpcVersion: string := "2.0"

  /** The `data` of an error: any JSON value, kept as its serialized text. */
  datatype ErrorData = ErrorData(json: string)

  /** The error member of a response; `data` stays null unless a caller sets it. */
  datatype McpError = McpError(code: Int32, message: Option<string>, data: Option<ErrorData>)

  /**
   * A response. Members that are null are left out of the serialized JSON,
   * so `None` here means "absent on the wire".
   */
  datatype Response<R> = Response(
    jsonrpc: string,
    id: Option<string>,
    result: Option<R>,
    error: Option<McpError>)

  /** One content item of a tool result; `kind` is serialized as "type". */
  datatype Content = Content(kind: string, text: string)

  /** The payload of a tools/call response. */
  datatype ToolResult = ToolResult(content: seq<Content>, isError: bool)

  /**
   * Section 5 of the JSON-RPC 2.0 specification: `jsonrpc` is exactly "2.0",
   * and exactly one of `result` and `error` is present.
   */
  predicate WellFormed<R>(r: Response<R>) {
    r.jsonrpc == JsonRpcVersion && (r.result.Some? != r.error.Some?)
  }

  /** `McpResponse.builder().build()`: only the version has a default. */
  function Builder<R>(): (r: Response<R>)
    ensures r.jsonrpc == JsonRpcVersion
    ensures r.id.None? && r.result.None? && r.error.None?
  {
    Response(JsonRpcVersion, None, None, None)
  }

  /** `McpResponse.success(id, result)`. */
  function Success<R>(id: Option<string>, result: Option<R>): (r: Response<R>)
    ensures r.jsonrpc == JsonRpcVersion && r.id == id
    ensures r.result == result && r.error.None?
  {
    Builder().(id := id, result := result)
  }

  /** `McpResponse.error(id, code, message)`. */
  function Error<R>(id: Option<string>, code: Int32, message: Option<string>): (r: Response<R>)
    ensures r.jsonrpc == JsonRpcVersion && r.id == id && r.result.None?
    ensures r.error.Some? && r.error.value.code == code && r.error.value.message == message
    ensures r.error.value.data.None?
  {
    Builder().(id := id, error := Some(McpError(code, message, None)))
  }

  /**
   * Both factories produce conforming responses, except a success whose
   * result is null: then neither member is present.
   */
  lemma FactoriesWellFormed<R>(id: Option<string>, result: Option<R>, code: Int32, message: Option<string>)
    ensures WellFormed(Success(id, result)) <==> result.Some?
    ensures WellFormed(Error<R>(id, code, message))
  {
  }

  /** A single text item; the only content shape the dispatcher produces. */
  function TextResult(text: string, isError: bool): (r: ToolResult)
    ensures |r.content| == 1 && r.content[0].kind == "text" && r.content[0].text == text
    ensures r.isError == isError
  {
    ToolResult([Content("text", text)], isError)
  }
}
