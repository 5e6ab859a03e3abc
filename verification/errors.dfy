/** Failure values and small wrappers shared by the scheduler model. */
module Errors {

  /** Which of the two body producers a send needed. */
  datatype Producer = NormalBody | FallbackBody

  /** The failures the scheduler can report. The Go code joins error values
      with explanatory text; the model keeps which failure happened and the
      cause reported by the collaborator that failed. */
  datatype Error =
    | InvalidOptions                 // mail or SMTP options missing at construction
    | ScheduleError(reason: string)  // the cron engine refused the expression
    | NoProducer(which: Producer)    // the needed body producer is not configured
    | BodyBuildError(cause: string)  // the normal body producer returned an error
    | TransportError(cause: string)  // dialling or sending the message failed

  /** The `error` result of a send: nil or a failure. */
  datatype Outcome = Ok | Fail(error: Error)

  /** A possibly absent value: a nil options reference or a nil function. */
  datatype Option<T> = None | Some(value: T)

  /** A value or the failure that prevented it. */
  datatype Result<T> = Success(value: T) | Failure(error: Error)
}
