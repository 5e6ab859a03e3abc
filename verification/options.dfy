/** The configuration types of options.go. */
module Options {
  import opened Errors

  /** The two documented body content types. */
  datatype MailBodyType = Plain | Html

  /** The MIME tag each body type stands for; the two tags are distinct. */
  function ContentType(t: MailBodyType): (tag: string)
    ensures tag == "text/plain" || tag == "text/html"
    ensures tag == "text/html" <==> t == Html
  {
    match t
    case Plain => "text/plain"
    case Html => "text/html"
  }

  /** What one call of the normal body producer yields: a body or an error.
      When the Go producer returns an error its body is ignored, so a result
      carrying both is a `BuildFailed`. */
  datatype BuildResult = Built(body: string) | BuildFailed(cause: string)

  /** A normal body producer. The Go producer is a closure without arguments
      whose answer may differ from call to call; here it receives the number of
      earlier calls, so every such closure is one of these functions. */
  type MailBodyBuildFunc = nat -> BuildResult

  /** A fallback body producer: it always yields a body and has no error channel. */
  type MailFallbackBodyBuildFunc = nat -> string

  /** Mail options: envelope, content type and the two optional producers. */
  datatype MailOptions = MailOptions(
    from: string,
    to: seq<string>,
    subject: string,
    bodyType: MailBodyType,
    bodyBuildFunc: Option<MailBodyBuildFunc>,
    fallbackBodyBuildFunc: Option<MailFallbackBodyBuildFunc>)

  /** SMTP server options; only handed on to the dialer. */
  datatype SmtpOptions = SmtpOptions(host: string, port: int, username: string, credential: string)
}
