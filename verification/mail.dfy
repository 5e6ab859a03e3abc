/** The parts of the mail library the scheduler uses: a message with a fixed
    envelope and a replaceable body, a dialer, and the outcome of a delivery. */
module Mail {
  import opened Errors
  import opened Options

  /** A body part: its content type and text. */
  datatype Part = Part(contentType: string, text: string)

  /** A message: envelope headers and at most one body. */
  datatype Message = Message(from: string, to: seq<string>, subject: string, body: Option<Part>)

  /** Two messages carry the same From, To and Subject headers. */
  predicate SameEnvelope(a: Message, b: Message)
  {
    a.from == b.from && a.to == b.to && a.subject == b.subject
  }

  /** The message built at construction: the configured headers and no body.
      Neither body producer is consulted. */
  function GenMailMessage(o: MailOptions): (m: Message)
    ensures m.from == o.from && m.to == o.to && m.subject == o.subject
    ensures m.body.None?
  {
    Message(o.from, o.to, o.subject, None)
  }

  /** Replaces the body; the envelope is untouched and no earlier body survives. */
  function SetBody(m: Message, contentType: string, text: string): (m': Message)
    ensures SameEnvelope(m, m')
    ensures m'.body == Some(Part(contentType, text))
  {
    m.(body := Some(Part(contentType, text)))
  }

  /** The connection parameters of an SMTP dialer. */
  datatype Dialer = Dialer(host: string, port: int, username: string, password: string)

  /** The dialer built from the SMTP options, field for field. */
  function GenSmtpDialer(o: SmtpOptions): (d: Dialer)
    ensures d.host == o.host && d.port == o.port
    ensures d.username == o.username && d.password == o.credential
  {
    Dialer(o.host, o.port, o.username, o.credential)
  }

  /** What one dial-and-send cycle reports. */
  datatype Delivery = Delivered | Undelivered(cause: string)

  /** The network: the answer of the k-th dial-and-send cycle, counting from 0. */
  type Network = nat -> Delivery
}
