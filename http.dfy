/**
 * The answer of an awaited HTTP call, the failure message rule and the result
 * value every asynchronous session operation returns.
 */
module Http {
  import opened Values

  /** The parsed body of an error response; `message` may be absent. */
  datatype ErrorBody = ErrorBody(message: Option<string>)

  /** An error response; it may carry no body. */
  datatype ErrorResponse = ErrorResponse(data: Option<ErrorBody>)

  /** A rejected call: a network failure or a timeout carries no response at all. */
  datatype HttpError = HttpError(response: Option<ErrorResponse>)

  /** What an awaited request yields: its payload, or the error it was rejected with. */
  datatype Reply<+T> = Ok(payload: T) | Err(error: HttpError)

  /** `{ success: true }` or `{ success: false, message }`. */
  datatype AuthResult = Success | Failure(message: string)

  /** The fixed per-operation fallback messages. */
  const LoginFallback := "Login failed"
  const RegisterFallback := "Registration failed"
  const UpdateProfileFallback := "Failed to update profile"
  const ChangePasswordFallback := "Failed to change password"

  /** Optional chaining from the error to its response, its body and its message. */
  function DeclaredMessage(e: HttpError): Option<string>
  {
    match e.response
    case None => None
    case Some(resp) =>
      match resp.data
      case None => None
      case Some(body) => body.message
  }

  /** The server declared a usable message: present and non-empty (truthy). */
  predicate HasDeclaredMessage(e: HttpError)
  {
    DeclaredMessage(e).Some? && DeclaredMessage(e).value != ""
  }

  /** The `||` fallback: the declared message when it is truthy, otherwise `fallback`. */
  function ErrorMessage(e: HttpError, fallback: string): (m: string)
    ensures HasDeclaredMessage(e) ==> m == DeclaredMessage(e).value
    ensures !HasDeclaredMessage(e) ==> m == fallback
    ensures fallback != "" ==> m != ""
  {
    match DeclaredMessage(e)
    case None => fallback
    case Some(msg) => if msg == "" then fallback else msg
  }

  /** The value an operation reports for a reply: success exactly when the call succeeded. */
  function ResultOf<T>(reply: Reply<T>, fallback: string): (r: AuthResult)
    ensures r.Success? <==> reply.Ok?
    ensures reply.Err? ==> r == Failure(ErrorMessage(reply.error, fallback))
  {
    match reply
    case Ok(_) => Success
    case Err(e) => Failure(ErrorMessage(e, fallback))
  }

  /** A reported failure always carries a non-empty message, whatever the server sent. */
  lemma FailureMessagesNonEmpty<T>(reply: Reply<T>)
    ensures ResultOf(reply, LoginFallback).Failure? ==> ResultOf(reply, LoginFallback).message != ""
    ensures ResultOf(reply, RegisterFallback).Failure? ==> ResultOf(reply, RegisterFallback).message != ""
    ensures ResultOf(reply, UpdateProfileFallback).Failure? ==> ResultOf(reply, UpdateProfileFallback).message != ""
    ensures ResultOf(reply, ChangePasswordFallback).Failure? ==> ResultOf(reply, ChangePasswordFallback).message != ""
  {
  }

  /** A rejection with `{ message: "Invalid credentials" }` reports that message. */
  lemma DeclaredMessageWins()
    ensures ErrorMessage(HttpError(Some(ErrorResponse(Some(ErrorBody(Some("Invalid credentials")))))), LoginFallback)
            == "Invalid credentials"
  {
  }

  /** A network failure, an empty body and an empty message all fall back. */
  lemma MissingMessageFallsBack(fallback: string)
    ensures ErrorMessage(HttpError(None), fallback) == fallback
    ensures ErrorMessage(HttpError(Some(ErrorResponse(None))), fallback) == fallback
    ensures ErrorMessage(HttpError(Some(ErrorResponse(Some(ErrorBody(None))))), fallback) == fallback
    ensures ErrorMessage(HttpError(Some(ErrorResponse(Some(ErrorBody(Some("")))))), fallback) == fallback
  {
  }
}
