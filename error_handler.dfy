/**
 * The central error handler: a first-match classification of the error a
 * handler passed to `next(err)` into a status code and a JSON reply that
 * always has `success: false`.
 */
module ErrorHandler {
  import opened Builtins

  /**
   * The parts of a thrown error the handler looks at: `name`, `code`, the
   * keys of `keyValue` in order, the messages of the values of `errors` in
   * order, `path` and `value` as they print in a template string,
   * `statusCode` and `message`.
   */
  datatype Error = Error(
    name: string,
    code: Option<int>,
    keyValueKeys: seq<string>,
    errorMessages: seq<string>,
    path: string,
    value: string,
    statusCode: Option<int>,
    message: Option<string>)

  /** `{success, message, errors?}` with its status code. */
  datatype Reply = Reply(status: int, success: bool, message: string, errors: Option<seq<string>>)

  /** Which rule of the handler applies, in the order the handler tries them. */
  datatype Kind = MongooseValidation | DuplicateKey | BadCast | Other

  function KindOf(err: Error): Kind {
    if err.name == "ValidationError" then MongooseValidation
    else if err.code == Some(11000) then DuplicateKey
    else if err.name == "CastError" then BadCast
    else Other
  }

  /** `Object.keys(err.keyValue)[0]` in a template string: "undefined" when there are no keys. */
  function FirstKey(err: Error): string {
    if |err.keyValueKeys| == 0 then "undefined" else err.keyValueKeys[0]
  }

  /** `err.statusCode || 500`. */
  function StatusOf(err: Error): int {
    if err.statusCode.Some? && err.statusCode.value != 0 then err.statusCode.value else 500
  }

  /**
   * `errorHandler`: a validation error is a 400 listing every message and
   * wins over every other rule; a duplicate key is a 409 naming the first
   * key; a cast error is a 400 naming the path and value; anything else
   * keeps its own status code (500 when it has none) and message ("Internal
   * Server Error" when it has none). Only a validation error carries a list
   * of messages, and no reply ever reports success.
   */
  function Handle(err: Error): (r: Reply)
    ensures !r.success
    ensures r.errors.Some? <==> err.name == "ValidationError"
    ensures err.name == "ValidationError" ==> r.status == 400 && r.message == "Validation Error" && r.errors == Some(err.errorMessages)
    ensures KindOf(err) == DuplicateKey ==>
              r.status == 409 && r.message == "Duplicate value for '" + FirstKey(err) + "'. This " + FirstKey(err) + " is already taken."
    ensures KindOf(err) == BadCast ==> r.status == 400 && r.message == "Invalid " + err.path + ": " + err.value
    ensures KindOf(err) == Other ==> r.status == StatusOf(err) && r.message == OrElse(err.message, "Internal Server Error")
  {
    if err.name == "ValidationError" then
      Reply(400, false, "Validation Error", Some(err.errorMessages))
    else if err.code == Some(11000) then
      var field := FirstKey(err);
      Reply(409, false, "Duplicate value for '" + field + "'. This " + field + " is already taken.", None)
    else if err.name == "CastError" then
      Reply(400, false, "Invalid " + err.path + ": " + err.value, None)
    else
      Reply(StatusOf(err), false, OrElse(err.message, "Internal Server Error"), None)
  }

  /** A validation error takes precedence: its duplicate-key code, status code and message are ignored. */
  lemma ValidationErrorFirst(err: Error, code: Option<int>, statusCode: Option<int>, message: Option<string>)
    requires err.name == "ValidationError"
    ensures Handle(err.(code := code, statusCode := statusCode, message := message)) == Handle(err)
  {
  }
}
