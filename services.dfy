/**
 * The outside world both scripts talk to, reduced to the values their logic
 * looks at: the three environment variables, the outcome of one chat
 * completion request and the outcome of one SMTP session.
 */
module Services {

  import opened Wrappers
  import opened PyText

  /** `OPENAI_API_KEY`, `EMAIL_ADDRESS` and `EMAIL_PASSWORD` as read from the environment. */
  datatype Environment = Environment(apiKey: Option<string>, address: Option<string>, password: Option<string>)

  /** The entry-point gate `OPENAI_API_KEY and EMAIL_ADDRESS and EMAIL_PASSWORD`. */
  predicate AllCredentials(env: Environment) {
    Truthy(env.apiKey) && Truthy(env.address) && Truthy(env.password)
  }

  /**
   * What `client.chat.completions.create(...)` produced for one prompt: the
   * first choice's message content, or the message of the exception raised
   * anywhere in the call or while reading its result.
   */
  datatype Completion = Completed(content: string) | Raised(message: string)

  /**
   * One call of a script's GPT function: the prompt it sent (`None` when it
   * sent nothing) and the string it returned.
   */
  datatype Exchange = Exchange(request: Option<string>, answer: string)

  /** The message that `MIMEText` is given: From, To, Subject and plain-text body. */
  datatype Email = Email(sender: string, recipient: string, subject: string, body: string)

  /** How the `SMTP_SSL` session (connect, `login`, `send_message`) ended. */
  datatype SmtpResult = SmtpOk | SmtpError(message: string)

  /** What `send_email` did. Every branch returns normally: SMTP errors are printed and swallowed. */
  datatype MailOutcome = Skipped | Delivered(email: Email) | DeliveryFailed(email: Email, error: string) {
    predicate Attempted() { !Skipped? }
  }

  /**
   * `send_email(subject, body)`, identical in app.py and report_coin.py apart
   * from its console output. `smtp` is what the mail session does with the
   * message it is handed.
   */
  function SendEmail(address: Option<string>, password: Option<string>, subject: string, body: string,
                     smtp: Email -> SmtpResult): (m: MailOutcome)
    ensures m.Skipped? <==> address.None? || password.None?
    ensures m.Attempted() ==> m.email == Email(address.value, address.value, subject, body)
    ensures m.Delivered? <==> m.Attempted() && smtp(m.email) == SmtpOk
  {
    if address.None? || password.None? then Skipped
    else
      var msg := Email(address.value, address.value, subject, body);
      match smtp(msg)
      case SmtpOk => Delivered(msg)
      case SmtpError(e) => DeliveryFailed(msg, e)
  }

  /**
   * The guard tests `is None`, not truthiness: an empty address or password
   * still reaches the SMTP session.
   */
  lemma EmptyCredentialsStillAttempt(subject: string, body: string, smtp: Email -> SmtpResult)
    ensures SendEmail(Some(""), Some(""), subject, body, smtp).Attempted()
    ensures SendEmail(Some(""), Some(""), subject, body, smtp).email.recipient == ""
  {
  }

  /** Under the entry points' credential gate the guard always lets the mail through, addressed to self. */
  lemma GatedMailIsAttempted(env: Environment, subject: string, body: string, smtp: Email -> SmtpResult)
    requires AllCredentials(env)
    ensures SendEmail(env.address, env.password, subject, body, smtp).Attempted()
    ensures SendEmail(env.address, env.password, subject, body, smtp).email
         == Email(env.address.value, env.address.value, subject, body)
  {
  }
}
