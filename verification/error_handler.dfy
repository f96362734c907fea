/**
 * `src/middleware/errorHandler.js`: the last-resort translation of a thrown
 * error into a JSON error envelope, and the 404 handler.
 */
module ErrorHandler {
  import opened Wrappers
  import opened Http

  /** One entry of `err.errors`: the offending path and its message. */
  datatype InnerError = InnerError(path: string, message: string)

  /**
   * The fields of a thrown error the handler reads. An empty `message` is the
   * falsy case; a `status` of None or 0 is the falsy case.
   */
  datatype AppError = AppError(
    name: string,
    message: string,
    status: Option<int>,
    errors: seq<InnerError>,
    stack: Option<string>)

  const ValidationErrorName := "SequelizeValidationError"
  const UniqueConstraintErrorName := "SequelizeUniqueConstraintError"
  const DatabaseErrorName := "SequelizeDatabaseError"
  const ConnectionErrorName := "SequelizeConnectionError"

  /** The category the handler derives from `err.name`. */
  datatype Category = Validation | UniqueConstraint | DatabaseFailure | ConnectionFailure | Unclassified

  function Classify(name: string): Category {
    if name == ValidationErrorName then Validation
    else if name == UniqueConstraintErrorName then UniqueConstraint
    else if name == DatabaseErrorName then DatabaseFailure
    else if name == ConnectionErrorName then ConnectionFailure
    else Unclassified
  }

  /** `err.errors.map(e => ({ field: e.path, message: e.message }))`. */
  function ValidationEntries(errs: seq<InnerError>): (r: seq<FieldMessage>)
    ensures |r| == |errs|
    ensures forall k | 0 <= k < |errs| :: r[k] == FieldMessage(errs[k].path, errs[k].message)
  {
    if |errs| == 0 then []
    else [FieldMessage(errs[0].path, errs[0].message)] + ValidationEntries(errs[1..])
  }

  /** `err.errors.map(e => ({ field: e.path, message: `${e.path} already exists` }))`. */
  function DuplicateEntries(errs: seq<InnerError>): (r: seq<FieldMessage>)
    ensures |r| == |errs|
    ensures forall k | 0 <= k < |errs| :: r[k] == FieldMessage(errs[k].path, errs[k].path + " already exists")
  {
    if |errs| == 0 then []
    else [FieldMessage(errs[0].path, errs[0].path + " already exists")] + DuplicateEntries(errs[1..])
  }

  /**
   * `errorHandler(err, …)` (src/middleware/errorHandler.js:9-64), with
   * `development` standing for `process.env.NODE_ENV === 'development'`.
   * Every envelope has `success = false`. Validation errors give 400 and one
   * entry per inner error, uniqueness errors 409 with "<path> already exists"
   * per inner error, database errors 500 and connection errors 503 echoing the
   * message; anything else gets `err.status` when truthy, else 500, its message
   * or "Internal server error", and the stack only in development.
   */
  function HandleError(err: AppError, development: bool): (r: Response)
    ensures !r.body.success
    ensures Classify(err.name) == Validation ==>
              && r.status == 400 && r.body.message == "Validation error"
              && r.body.errors.Some? && |r.body.errors.value| == |err.errors|
              && (forall k | 0 <= k < |err.errors| ::
                    r.body.errors.value[k] == FieldMessage(err.errors[k].path, err.errors[k].message))
    ensures Classify(err.name) == UniqueConstraint ==>
              && r.status == 409 && r.body.message == "Duplicate entry"
              && r.body.errors.Some? && |r.body.errors.value| == |err.errors|
              && (forall k | 0 <= k < |err.errors| ::
                    r.body.errors.value[k].field == err.errors[k].path &&
                    r.body.errors.value[k].message == err.errors[k].path + " already exists")
    ensures Classify(err.name) == DatabaseFailure ==>
              r.status == 500 && r.body.message == "Database error" && r.body.error == Some(err.message)
    ensures Classify(err.name) == ConnectionFailure ==>
              r.status == 503 && r.body.message == "Database connection error" && r.body.error == Some(err.message)
    ensures Classify(err.name) == Unclassified ==>
              && r.status == (if err.status.Some? && err.status.value != 0 then err.status.value else 500)
              && r.body.message == (if err.message != "" then err.message else "Internal server error")
              && r.body.errors.None? && r.body.error.None?
    ensures r.body.stack.Some? ==> development && Classify(err.name) == Unclassified
    ensures Classify(err.name) == Unclassified && development ==> r.body.stack == err.stack
  {
    match Classify(err.name)
    case Validation =>
      Response(400, Body(false, "Validation error", Some(ValidationEntries(err.errors)), None, None, None))
    case UniqueConstraint =>
      Response(409, Body(false, "Duplicate entry", Some(DuplicateEntries(err.errors)), None, None, None))
    case DatabaseFailure =>
      Response(500, Body(false, "Database error", None, Some(err.message), None, None))
    case ConnectionFailure =>
      Response(503, Body(false, "Database connection error", None, Some(err.message), None, None))
    case Unclassified =>
      var status := if err.status.Some? && err.status.value != 0 then err.status.value else 500;
      var message := if err.message != "" then err.message else "Internal server error";
      Response(status, Body(false, message, None, None, if development then err.stack else None, None))
  }

  /**
   * `notFoundHandler(req, res)` (src/middleware/errorHandler.js:69-75): 404 with
   * the requested path echoed.
   */
  function NotFound(path: string): (r: Response)
    ensures r.status == 404 && !r.body.success && r.body.path == Some(path)
    ensures r.body.message == "Route not found" && r.body.errors.None? && r.body.stack.None?
  {
    Response(404, Body(false, "Route not found", None, None, None, Some(path)))
  }
}
