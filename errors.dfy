/**
 * The framework's error type, its display text and its JSON-RPC error code.
 * The four codes of section 5.1 of the JSON-RPC 2.0 specification are used
 * for the matching variants; the others are the framework's own.
 */
module Errors {

  datatype Error =
    | InvalidRequest(msg: string)
    | InvalidParams(msg: string)
    | MethodNotFound(msg: string)
    | InternalError(msg: string)
    | ServerError(msg: string)
    | ToolNotFound(msg: string)
    | ResourceNotFound(msg: string)
    | SerializationError(msg: string)   // carries the text of the serde_json error
    | RequestError(msg: string)
    | Timeout
    | ConnectionError(msg: string)
    | LLMError(msg: string)
    | Unknown(msg: string)

  /** `Result<T>` of the crate: a value or an `Error`. */
  datatype Result<+T> = Ok(value: T) | Err(error: Error)

  /** Standard codes of section 5.1 of the JSON-RPC 2.0 specification. */
  const INVALID_REQUEST: int := -32600
  const METHOD_NOT_FOUND: int := -32601
  const INVALID_PARAMS: int := -32602
  const INTERNAL_ERROR: int := -32603

  /** The framework's own codes, in the implementation-defined server-error range. */
  const SERVER_ERROR: int := -32000
  const TOOL_NOT_FOUND: int := -32001
  const RESOURCE_NOT_FOUND: int := -32002
  const TIMEOUT: int := -32604
  const CONNECTION_ERROR: int := -32605
  const LLM_ERROR: int := -32606

  /** Variants that share the internal-error code. */
  predicate IsInternalKind(e: Error) {
    e.InternalError? || e.SerializationError? || e.RequestError? || e.Unknown?
  }

  /** `Error::error_code`: total, always negative, and -32603 exactly for the internal kinds. */
  function ErrorCode(e: Error): (code: int)
    ensures code < 0
    ensures code == INTERNAL_ERROR <==> IsInternalKind(e)
    ensures -32606 <= code <= -32000
  {
    match e
    case InvalidRequest(_) => -32600
    case InvalidParams(_) => -32602
    case MethodNotFound(_) => -32601
    case InternalError(_) => -32603
    case ServerError(_) => -32000
    case ToolNotFound(_) => -32001
    case ResourceNotFound(_) => -32002
    case SerializationError(_) => -32603
    case RequestError(_) => -32603
    case Timeout => -32604
    case ConnectionError(_) => -32605
    case LLMError(_) => -32606
    case Unknown(_) => -32603
  }

  /** The `Display` text of an error (`e.to_string()`), as the `#[error]` attributes give it. */
  function Display(e: Error): string {
    match e
    case InvalidRequest(m) => "Invalid request: " + m
    case InvalidParams(m) => "Invalid params: " + m
    case MethodNotFound(m) => "Method not found: " + m
    case InternalError(m) => "Internal error: " + m
    case ServerError(m) => "Server error: " + m
    case ToolNotFound(m) => "Tool not found: " + m
    case ResourceNotFound(m) => "Resource not found: " + m
    case SerializationError(m) => "Serialization error: " + m
    case RequestError(m) => "Request error: " + m
    case Timeout => "Timeout"
    case ConnectionError(m) => "Connection error: " + m
    case LLMError(m) => "LLM error: " + m
    case Unknown(m) => "Unknown error: " + m
  }

  /** The variants that carry a standard JSON-RPC 2.0 code get exactly that code. */
  lemma StandardCodes(m: string)
    ensures ErrorCode(InvalidRequest(m)) == INVALID_REQUEST
    ensures ErrorCode(MethodNotFound(m)) == METHOD_NOT_FOUND
    ensures ErrorCode(InvalidParams(m)) == INVALID_PARAMS
    ensures ErrorCode(InternalError(m)) == INTERNAL_ERROR
  {
  }

  /** The framework's own variants get its own codes; the internal kinds share -32603. */
  lemma FrameworkCodes(m: string)
    ensures ErrorCode(ServerError(m)) == SERVER_ERROR
    ensures ErrorCode(ToolNotFound(m)) == TOOL_NOT_FOUND
    ensures ErrorCode(ResourceNotFound(m)) == RESOURCE_NOT_FOUND
    ensures ErrorCode(Timeout) == TIMEOUT
    ensures ErrorCode(ConnectionError(m)) == CONNECTION_ERROR
    ensures ErrorCode(LLMError(m)) == LLM_ERROR
    ensures ErrorCode(SerializationError(m)) == ErrorCode(RequestError(m)) == ErrorCode(Unknown(m)) == INTERNAL_ERROR
  {
  }

  /**
   * Outside the internal kinds the code identifies the variant: two errors
   * share a code only if they are the same variant (payloads aside).
   */
  lemma {:induction false} CodeIdentifiesVariant(a: Error, b: Error)
    requires !IsInternalKind(a)
    requires ErrorCode(a) == ErrorCode(b)
    ensures a.InvalidRequest? == b.InvalidRequest? && a.InvalidParams? == b.InvalidParams?
    ensures a.MethodNotFound? == b.MethodNotFound? && a.ServerError? == b.ServerError?
    ensures a.ToolNotFound? == b.ToolNotFound? && a.ResourceNotFound? == b.ResourceNotFound?
    ensures a.Timeout? == b.Timeout? && a.ConnectionError? == b.ConnectionError? && a.LLMError? == b.LLMError?
  {
    match a
    case InvalidRequest(_) =>
    case InvalidParams(_) =>
    case MethodNotFound(_) =>
    case ServerError(_) =>
    case ToolNotFound(_) =>
    case ResourceNotFound(_) =>
    case Timeout =>
    case ConnectionError(_) =>
    case LLMError(_) =>
  }
}
