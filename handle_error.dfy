/** Mapping of an error raised by a cloud SDK call to the HTTP response the
    controllers send (src/handle_error.ts). */
module HandleError {
  import opened Wrappers

  /** A thrown error: its `name` and its `message`. */
  datatype AwsError = AwsError(name: string, message: string)

  /** The body `{ error, message? }` sent with a status code. */
  datatype ErrorResponse = ErrorResponse(status: int, error: string, message: Option<string>)

  /** What a controller answers: 200 with a body, or an error response. */
  datatype Reply<+T> = Ok(body: T) | Err(response: ErrorResponse)

  /** The error names recognised as credential problems, each with the text sent back. */
  const CredentialErrors: map<string, string> :=
    map["InvalidAccessKeyId" := "Invalid AWS access key",
        "SignatureDoesNotMatch" := "Invalid AWS secret key"]

  /** The ordered if-chain on `error.name`: the first matching branch answers. */
  function HandleAwsError(e: AwsError): (r: ErrorResponse)
    ensures r.status == 401 || r.status == 500
    ensures r.status == 401 <==> e.name in CredentialErrors
    ensures r.status == 401 ==> r.error == CredentialErrors[e.name] && r.message == None
    ensures r.status == 500 ==> r.error == "AWS service error" && r.message == Some(e.message)
  {
    if e.name == "InvalidAccessKeyId" then
      ErrorResponse(401, "Invalid AWS access key", None)
    else if e.name == "SignatureDoesNotMatch" then
      ErrorResponse(401, "Invalid AWS secret key", None)
    else
      ErrorResponse(500, "AWS service error", Some(e.message))
  }

  /** A table-driven reading of the same rule: a credential error answers 401
      with its own text, anything else is a generic 500 carrying the message. */
  function TableResponse(e: AwsError): ErrorResponse {
    if e.name in CredentialErrors then ErrorResponse(401, CredentialErrors[e.name], None)
    else ErrorResponse(500, "AWS service error", Some(e.message))
  }

  /** The if-chain and the table agree on every error. */
  lemma HandleAwsErrorMatchesTable(e: AwsError)
    ensures HandleAwsError(e) == TableResponse(e)
  {
  }

  /** Every handled error is answered with exactly one of the three responses;
      the access-key branch is tried first and the branches never overlap. */
  lemma ExactlyOneBranch(e: AwsError)
    ensures var r := HandleAwsError(e);
      (r == ErrorResponse(401, "Invalid AWS access key", None) <==> e.name == "InvalidAccessKeyId")
      && (r == ErrorResponse(401, "Invalid AWS secret key", None) <==> e.name == "SignatureDoesNotMatch")
      && (r == ErrorResponse(500, "AWS service error", Some(e.message)) <==>
          e.name != "InvalidAccessKeyId" && e.name != "SignatureDoesNotMatch")
  {
  }

  /** How a controller turns the outcome of its service call into a reply:
      success is 200 with the value, a thrown error goes through HandleAwsError. */
  function Respond<T>(outcome: Result<T, AwsError>): (r: Reply<T>)
    ensures outcome.Success? <==> r.Ok?
    ensures outcome.Success? ==> r.body == outcome.value
    ensures outcome.Failure? ==> r.response == HandleAwsError(outcome.error)
  {
    match outcome
    case Success(v) => Ok(v)
    case Failure(e) => Err(HandleAwsError(e))
  }
}
