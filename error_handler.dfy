/**
 * The centralized error-handling middleware of the API: it maps an error value to an
 * HTTP status and a user-facing message, then builds the JSON body of the response.
 * The Express request, `next` and the response object are not modelled; the handler's
 * outcome is the status and body it would send.
 */
module ErrorHandler {
  import opened Wrappers
  import CommaJoin

  /** One entry of a validation error's `details` list. */
  datatype Detail = Detail(message: string)

  /**
   * The error value the handler receives (`CustomError`, an `Error` with extra fields).
   * `statusCode` 0 stands for an absent or zero status, `message` "" for an absent or
   * empty message; `keyValueKeys` are the keys of `keyValue` in `Object.keys` order;
   * `stack` is the runtime's stack trace, carried uninterpreted.
   */
  datatype CustomError = CustomError(
    name: string,
    message: string,
    stack: string,
    statusCode: int,
    code: Option<int>,
    details: Option<seq<Detail>>,
    keyValueKeys: seq<string>,
    value: Option<string>)

  /** The HTTP status and message the handler settles on. */
  datatype Verdict = Verdict(status: int, message: string)

  /** The `stack` member of the JSON body: the trace, or an empty object `{}`. */
  datatype StackField = StackTrace(trace: string) | EmptyObject

  /** The JSON body `{success, status, message, stack}`. */
  datatype Body = Body(success: bool, status: int, message: string, stack: StackField)

  /** What the handler sends: the status line's code and the JSON body. */
  datatype Response = Response(httpStatus: int, body: Body)

  const INTERNAL_SERVER_ERROR: string := "Internal Server Error"
  const TOKEN_EXPIRED_NAME: string := "TokenExpiredError"
  const VALIDATION_ERROR_NAME: string := "ValidationError"
  const CAST_ERROR_NAME: string := "CastError"
  const DUPLICATE_KEY_CODE: int := 11000
  const TOKEN_EXPIRED_MESSAGE: string := "Token expired, please login again"
  /** How a template literal renders a missing value. */
  const UNDEFINED_TEXT: string := "undefined"

  /** `err.statusCode || 500`. */
  function DefaultStatus(err: CustomError): int
  {
    if err.statusCode == 0 then 500 else err.statusCode
  }

  /** `err.message || "Internal Server Error"`. */
  function DefaultMessage(err: CustomError): string
  {
    if err.message == "" then INTERNAL_SERVER_ERROR else err.message
  }

  /** `err.code && err.code === 11000`: a duplicate-key error from the database. */
  predicate IsDuplicateKey(err: CustomError)
  {
    err.code == Some(DUPLICATE_KEY_CODE)
  }

  /** True when at least one of the four override rules applies to `err`. */
  predicate Overridden(err: CustomError)
  {
    err.name == TOKEN_EXPIRED_NAME || err.name == VALIDATION_ERROR_NAME
    || err.name == CAST_ERROR_NAME || IsDuplicateKey(err)
  }

  /** `details.map(d => d.message)`. */
  function DetailMessages(details: seq<Detail>): seq<string>
  {
    seq(|details|, i requires 0 <= i < |details| => details[i].message)
  }

  /** The first key of `keyValue`, or "undefined" when it has none. */
  function FirstKeyText(keys: seq<string>): string
  {
    if |keys| == 0 then UNDEFINED_TEXT else keys[0]
  }

  /** An optional string as a template literal renders it. */
  function ValueText(value: Option<string>): string
  {
    match value
    case Some(v) => v
    case None => UNDEFINED_TEXT
  }

  function DuplicateKeyMessage(keys: seq<string>): string
  {
    "Duplicate value entered for " + FirstKeyText(keys) + " field, please choose another value"
  }

  function CastMessage(value: Option<string>): string
  {
    "No item found with id: " + ValueText(value)
  }

  /**
   * The status and message for `err`. The body follows the handler's statements: the
   * defaults, then the four checks in source order, each overwriting what came before.
   * The contract gives the resolved outcome: a cast error wins over everything, a
   * duplicate key over the name-based rules, and with no rule the defaults stand.
   */
  function Classify(err: CustomError): (r: Verdict)
    ensures !Overridden(err) ==> r == Verdict(DefaultStatus(err), DefaultMessage(err))
    ensures !Overridden(err) && err.statusCode == 0 && err.message == ""
      ==> r == Verdict(500, INTERNAL_SERVER_ERROR)
    ensures err.name == TOKEN_EXPIRED_NAME && !IsDuplicateKey(err)
      ==> r == Verdict(401, TOKEN_EXPIRED_MESSAGE)
    ensures err.name == VALIDATION_ERROR_NAME ==> r.status == 400
    ensures err.name == VALIDATION_ERROR_NAME && !IsDuplicateKey(err)
      ==> r.message == match err.details
                       case Some(ds) => CommaJoin.Join(DetailMessages(ds))
                       case None => DefaultMessage(err)
    ensures err.name == VALIDATION_ERROR_NAME && !IsDuplicateKey(err) && err.details == Some([])
      ==> r == Verdict(400, "")
    ensures err.name != CAST_ERROR_NAME && IsDuplicateKey(err)
      ==> r == Verdict(400, DuplicateKeyMessage(err.keyValueKeys))
    ensures err.name == CAST_ERROR_NAME ==> r == Verdict(404, CastMessage(err.value))
    ensures r.status in {err.statusCode, 500, 400, 401, 404} && r.status != 0
    ensures Overridden(err) ==> r.status in {400, 401, 404}
  {
    var defaults := Verdict(DefaultStatus(err), DefaultMessage(err));
    var afterToken :=
      if err.name == TOKEN_EXPIRED_NAME then Verdict(401, TOKEN_EXPIRED_MESSAGE) else defaults;
    var afterValidation :=
      if err.name == VALIDATION_ERROR_NAME then
        Verdict(400, match err.details
                     case Some(ds) => CommaJoin.Join(DetailMessages(ds))
                     case None => afterToken.message)
      else afterToken;
    var afterDuplicate :=
      if IsDuplicateKey(err) then Verdict(400, DuplicateKeyMessage(err.keyValueKeys))
      else afterValidation;
    if err.name == CAST_ERROR_NAME then Verdict(404, CastMessage(err.value))
    else afterDuplicate
  }

  /**
   * The response the handler sends for `err`; `isDevelopment` stands for
   * `process.env.NODE_ENV === "development"`. The body never reports success, its
   * status is the status sent, and the stack trace appears only in development.
   */
  function Respond(err: CustomError, isDevelopment: bool): (r: Response)
    ensures !r.body.success
    ensures r.httpStatus == r.body.status
    ensures Verdict(r.body.status, r.body.message) == Classify(err)
    ensures isDevelopment ==> r.body.stack == StackTrace(err.stack)
    ensures !isDevelopment ==> r.body.stack == EmptyObject
  {
    var verdict := Classify(err);
    Response(verdict.status,
             Body(false, verdict.status, verdict.message,
                  if isDevelopment then StackTrace(err.stack) else EmptyObject))
  }

  /**
   * Outside development the response reveals nothing about the stack trace: two errors
   * that differ only in their stack get the same response.
   */
  lemma StackHiddenOutsideDevelopment(e1: CustomError, e2: CustomError)
    requires e1.(stack := e2.stack) == e2
    ensures Respond(e1, false) == Respond(e2, false)
  {
  }

  /**
   * A validation error's message carries its detail messages: when there is at least
   * one detail and none holds a comma, splitting the message at its commas gives back
   * exactly the detail messages, in order.
   */
  lemma ValidationMessagesRecoverable(err: CustomError)
    requires err.name == VALIDATION_ERROR_NAME && !IsDuplicateKey(err)
    requires err.details.Some? && |err.details.value| > 0
    requires CommaJoin.CommaFree(DetailMessages(err.details.value))
    ensures CommaJoin.Split(Classify(err).message) == DetailMessages(err.details.value)
  {
    CommaJoin.SplitJoin(DetailMessages(err.details.value));
  }

  /** A validation error with the details "a" and "b" gets status 400 and message "a,b". */
  lemma ValidationDetailsExample()
    ensures Classify(CustomError(VALIDATION_ERROR_NAME, "", "", 0, None,
                                 Some([Detail("a"), Detail("b")]), [], None))
            == Verdict(400, "a,b")
  {
    var ds := [Detail("a"), Detail("b")];
    assert DetailMessages(ds) == ["a", "b"];
    assert CommaJoin.Join(["a", "b"]) == "a" + [CommaJoin.COMMA] + CommaJoin.Join(["b"]);
  }

  /** A duplicate-key error whose `keyValue` is `{email: ...}` names the field "email". */
  lemma DuplicateKeyExample()
    ensures Classify(CustomError("MongoServerError", "E11000", "", 0, Some(11000), None,
                                 ["email"], None))
            == Verdict(400, "Duplicate value entered for " + "email"
                            + " field, please choose another value")
  {
  }

  /**
   * The missing values are not guarded: a duplicate-key error with an empty `keyValue`
   * names the field "undefined", and a cast error without a `value` reports the id
   * "undefined".
   */
  lemma MissingValuesRenderAsUndefined(err: CustomError)
    ensures IsDuplicateKey(err) && err.name != CAST_ERROR_NAME && err.keyValueKeys == []
      ==> Classify(err).message
          == "Duplicate value entered for " + "undefined" + " field, please choose another value"
    ensures err.name == CAST_ERROR_NAME && err.value == None
      ==> Classify(err).message == "No item found with id: " + "undefined"
  {
  }

  /** A cast error with value "abc123" gets status 404, even with the duplicate-key code. */
  lemma CastErrorExample()
    ensures Classify(CustomError(CAST_ERROR_NAME, "Cast failed", "", 500, Some(11000), None,
                                 ["email"], Some("abc123")))
            == Verdict(404, "No item found with id: abc123")
  {
  }
}
