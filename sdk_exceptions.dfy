/**
 * The SDK's error taxonomy (sdk/python/cloud_sandbox/exceptions.py) as a closed
 * tagged variant: one base kind and five specialisations that add no fields.
 */
module SdkErrors {
  import opened Wrappers
  import opened Json

  /** Which class was raised. `Base` is SandboxError itself. */
  datatype Kind = Base | Auth | Timeout | NotFound | RateLimit | ServiceUnavailable

  /**
   * A raised SandboxError (or subclass). The message is whatever the raiser passed:
   * for the generic HTTP error it is a value taken from the response body, so it is
   * kept as a JSON value rather than forced to text.
   */
  datatype SandboxError = SandboxError(
    kind: Kind,
    message: Json,
    statusCode: Option<int>,
    response: Option<Json>)

  /** `Cls(message)` with `status_code` and `response` left at their defaults. */
  function Raise(kind: Kind, message: string): (e: SandboxError)
    ensures e.kind == kind && e.message == JStr(message)
    ensures e.statusCode.None? && e.response.None?
  {
    SandboxError(kind, JStr(message), None, None)
  }

  /** `Cls(message, status_code)`: the form the dispatcher uses for the four mapped codes. */
  function RaiseWithStatus(kind: Kind, message: string, status: int): (e: SandboxError)
    ensures e.kind == kind && e.message == JStr(message)
    ensures e.statusCode == Some(status) && e.response.None?
  {
    SandboxError(kind, JStr(message), Some(status), None)
  }

  /**
   * Any exception that escapes an SDK call: either a SandboxError, or a Python
   * built-in (AttributeError, KeyError, TypeError) raised when a response is not
   * shaped the way the SDK expects. The SDK never catches the latter.
   */
  datatype Raised = Sdk(err: SandboxError) | Fault(detail: string)

  type Outcome<T> = Result<T, Raised>
}
