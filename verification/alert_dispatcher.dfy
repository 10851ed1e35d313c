/**
 * The alert dispatcher (`send_email_alert`): a configuration gate, then one
 * send attempt whose failure is caught. The mail transport is an input: the
 * result of the single attempt (connect, log in, submit, close the session)
 * is given.
 */
module AlertDispatcher {
  import opened ForecastData

  /** The three delivery settings read from the environment. */
  datatype MailConfig = MailConfig(sender: Option<string>, password: Option<string>, receiver: Option<string>)

  /** Python truthiness of a setting: unset and the empty string both count as missing. */
  predicate IsSet(v: Option<string>) {
    v.Some? && v.value != ""
  }

  /** Sender address, sender password and receiver address are all set. */
  predicate Configured(cfg: MailConfig) {
    IsSet(cfg.sender) && IsSet(cfg.password) && IsSet(cfg.receiver)
  }

  /**
   * The body text of a heat alert, kept as the two values it is rendered
   * from: the period's maximum temperature and its formatted date.
   */
  datatype AlertBody = HighTemperature(maxTempC: real, date: string)

  /** The message composed for one alert. */
  datatype Email = Email(from: string, to: string, subject: string, body: AlertBody)

  /** What the transport does with one attempt: accepts the message, or raises. */
  datatype SmtpResult = Accepted | Raised(cause: string)

  /**
   * The three outcomes of one call, all of them returned normally: skipped
   * with a notice, sent, or failed with the caught exception's text.
   */
  datatype Delivery = Skipped | Sent(email: Email) | Failed(email: Email, cause: string)

  /**
   * `send_email_alert`: nothing is composed unless all three settings are
   * set; otherwise the message goes from the sender to the receiver with
   * the given subject and body, and the attempt's exception, if any, is
   * caught and reported.
   */
  function SendEmailAlert(cfg: MailConfig, subject: string, body: AlertBody, attempt: SmtpResult): (d: Delivery)
    ensures d.Skipped? <==> !Configured(cfg)
    ensures !d.Skipped? ==> d.email == Email(cfg.sender.value, cfg.receiver.value, subject, body)
    ensures d.Sent? <==> Configured(cfg) && attempt.Accepted?
    ensures d.Failed? ==> attempt.Raised? && d.cause == attempt.cause
  {
    if !Configured(cfg) then Skipped
    else
      var msg := Email(cfg.sender.value, cfg.receiver.value, subject, body);
      match attempt
      case Accepted => Sent(msg)
      case Raised(cause) => Failed(msg, cause)
  }
}
