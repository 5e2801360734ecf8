/**
 * The Express error middleware: it turns a thrown error into the JSON error
 * record sent back and the HTTP status it is sent with, and the 404 handler
 * that raises the error for an unknown route.
 */
module ErrorHandler {
  import opened Wrappers
  import opened JsValues

  /**
   * The properties of a thrown error that the handler reads: `message`,
   * `statusCode`, the MySQL driver's `code`, `name` and the validator's
   * `details`.
   */
  datatype Failure = Failure(message: Option<string>, statusCode: Value, code: Option<string>, name: Option<string>, details: Value)

  /** The JSON body of an error response; `errors` is present only for validation errors. */
  datatype ErrorRecord = ErrorRecord(success: bool, message: string, statusCode: Value, errors: Option<Value>)

  /** What `res.status(...).json(...)` sends. */
  datatype Response = Response(status: Value, body: ErrorRecord)

  const DUPLICATE_ENTRY := "ER_DUP_ENTRY"
  const CONNECTION_REFUSED := "ECONNREFUSED"
  const VALIDATION_ERROR := "ValidationError"

  /** `err.statusCode || 500`. */
  function StatusOr(statusCode: Value): (r: Value)
    ensures Truthy(r)
    ensures r == statusCode || r == Num(500)
    ensures Truthy(statusCode) ==> r == statusCode
    ensures !Truthy(statusCode) ==> r == Num(500)
  {
    if Truthy(statusCode) then statusCode else Num(500)
  }

  /**
   * The record the handler sends, by priority: a validation error wins, then
   * a refused connection, then a duplicate entry; anything else keeps the
   * error's own message and status, or the defaults.
   */
  function Classify(err: Failure): ErrorRecord
  {
    if err.name == Some(VALIDATION_ERROR) then ErrorRecord(false, "Validation failed", Num(400), Some(err.details))
    else if err.code == Some(CONNECTION_REFUSED) then ErrorRecord(false, "Database connection failed", Num(503), None)
    else if err.code == Some(DUPLICATE_ENTRY) then ErrorRecord(false, "Duplicate entry found", Num(400), None)
    else ErrorRecord(false, MessageOr(err.message, "Internal Server Error"), StatusOr(err.statusCode), None)
  }

  /**
   * `errorHandler`: starts from the default record and lets each matching
   * rule overwrite it in turn; the response carries the record's status.
   */
  method HandleError(err: Failure) returns (res: Response)
    ensures res.body == Classify(err)
    ensures res.status == res.body.statusCode
    ensures !res.body.success
  {
    var error := ErrorRecord(false, MessageOr(err.message, "Internal Server Error"), StatusOr(err.statusCode), None);
    if err.code == Some(DUPLICATE_ENTRY) {
      error := error.(message := "Duplicate entry found", statusCode := Num(400));
    }
    if err.code == Some(CONNECTION_REFUSED) {
      error := error.(message := "Database connection failed", statusCode := Num(503));
    }
    if err.name == Some(VALIDATION_ERROR) {
      error := error.(message := "Validation failed", statusCode := Num(400), errors := Some(err.details));
    }
    res := Response(error.statusCode, error);
  }

  /** The rules one by one, as the handler documents them. */
  lemma ClassifySpec(err: Failure)
    ensures !Classify(err).success
    ensures err.name == Some(VALIDATION_ERROR) ==>
      Classify(err) == ErrorRecord(false, "Validation failed", Num(400), Some(err.details))
    ensures err.name != Some(VALIDATION_ERROR) && err.code == Some(DUPLICATE_ENTRY) ==>
      Classify(err) == ErrorRecord(false, "Duplicate entry found", Num(400), None)
    ensures err.name != Some(VALIDATION_ERROR) && err.code == Some(CONNECTION_REFUSED) ==>
      Classify(err) == ErrorRecord(false, "Database connection failed", Num(503), None)
    ensures err.name != Some(VALIDATION_ERROR) && err.code != Some(DUPLICATE_ENTRY) && err.code != Some(CONNECTION_REFUSED) ==>
      && Classify(err).errors == None
      && (err.message.Some? && err.message.value != "" ==> Classify(err).message == err.message.value)
      && (err.message == None || err.message == Some("") ==> Classify(err).message == "Internal Server Error")
      && (Truthy(err.statusCode) ==> Classify(err).statusCode == err.statusCode)
      && (!Truthy(err.statusCode) ==> Classify(err).statusCode == Num(500))
    ensures Classify(err).errors.Some? <==> err.name == Some(VALIDATION_ERROR)
  {
  }

  /** `notFound`: the error it passes on for an unmatched `originalUrl`. */
  function NotFound(originalUrl: string): (err: Failure)
    ensures err.statusCode == Num(404)
    ensures err.message == Some("Route not found - " + originalUrl)
  {
    Failure(Some("Route not found - " + originalUrl), Num(404), None, Some("Error"), Undefined)
  }

  /** An unknown route ends as a 404 response naming the URL. */
  lemma NotFoundResponse(originalUrl: string)
    ensures Classify(NotFound(originalUrl)) == ErrorRecord(false, "Route not found - " + originalUrl, Num(404), None)
  {
    assert ("Route not found - " + originalUrl)[0] == 'R';
  }
}
