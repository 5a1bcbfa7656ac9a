/**
 * The request-validation middleware (backend/src/middleware/validation.ts):
 * run a schema over the body or the route parameters, then either hand the
 * parsed value on, answer 400 with the schema's issues, or forward any other
 * error to the error handler.
 */
module Validation {
  import opened Wrappers
  import opened BackendErrors

  /**
   * What a middleware does with a request: replace the body (or parameters)
   * by the parsed value and call `next()`, write a response itself, or call
   * `next(error)`.
   */
  datatype Step<T> = Continue(value: T) | Respond(reply: ErrorReply) | Forward(err: Thrown)

  const INVALID_PARAMETERS := "Invalid parameters"

  /** The shared shape of both middlewares, differing only in the 400 message. */
  function Validate<T>(parsed: Result<T, Thrown>, message: string): (s: Step<T>)
    ensures parsed.Ok? <==> s.Continue?
    ensures parsed.Ok? ==> s.value == parsed.value
    ensures parsed.Err? && parsed.error.Zod? ==>
      && s.Respond? && s.reply.status == 400
      && s.reply.body == ErrorBody(VALIDATION_ERROR, message, Some(IssuesToErrors(parsed.error.issues)))
    ensures parsed.Err? && !parsed.error.Zod? ==> s == Forward(parsed.error)
  {
    match parsed
    case Ok(v) => Continue(v)
    case Err(e) =>
      if e.Zod? then Respond(ErrorReply(400, ErrorBody(VALIDATION_ERROR, message, Some(IssuesToErrors(e.issues)))))
      else Forward(e)
  }

  /** `validateBody(schema)` given the outcome of `schema.parse(req.body)`. */
  function ValidateBody<T>(parsed: Result<T, Thrown>): (s: Step<T>)
    ensures parsed.Ok? ==> s == Continue(parsed.value)
    ensures parsed.Err? && !parsed.error.Zod? ==> s == Forward(parsed.error)
    ensures parsed.Err? && parsed.error.Zod? ==> s.Respond? && s.reply.body.message == VALIDATION_FAILED
  {
    Validate(parsed, VALIDATION_FAILED)
  }

  /** `validateParams(schema)` given the outcome of `schema.parse(req.params)`. */
  function ValidateParams<T>(parsed: Result<T, Thrown>): (s: Step<T>)
    ensures parsed.Ok? ==> s == Continue(parsed.value)
    ensures parsed.Err? && !parsed.error.Zod? ==> s == Forward(parsed.error)
    ensures parsed.Err? && parsed.error.Zod? ==> s.Respond? && s.reply.body.message == INVALID_PARAMETERS
  {
    Validate(parsed, INVALID_PARAMETERS)
  }

  /**
   * A body the schema rejects gets the very response the error handler would
   * give the same `ZodError`, in any environment.
   */
  lemma BodyRejectionMatchesErrorHandler<T>(issues: seq<Issue>, production: bool)
    ensures ValidateBody<T>(Err(Zod(issues))) == Respond(ErrorHandler(Zod(issues), production))
  {
  }

  /** Rejected parameters differ from a rejected body only in the message. */
  lemma ParamsRejectionDiffersOnlyInMessage<T>(issues: seq<Issue>)
    ensures var b := ValidateBody<T>(Err(Zod(issues)));
            var p := ValidateParams<T>(Err(Zod(issues)));
            b.Respond? && p.Respond? && p.reply == b.reply.(body := b.reply.body.(message := INVALID_PARAMETERS))
  {
  }

  /** Whatever the middleware forwards reaches the error handler unchanged, so its answer is the handler's. */
  lemma ForwardedErrorsReachHandler<T>(parsed: Result<T, Thrown>, production: bool)
    requires ValidateBody(parsed).Forward?
    ensures parsed.Err? && !parsed.error.Zod?
    ensures ErrorHandler(ValidateBody(parsed).err, production) == ErrorHandler(parsed.error, production)
  {
  }
}
