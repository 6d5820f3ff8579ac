/** The checks `notifiy` makes before it encodes anything. */
module Validation {
  import opened Wrappers
  import opened Notifications
  import Levels

  /** The three fatal diagnostics, in the order they are checked. */
  datatype ValidationError = InvalidLevel | MissingHost | MissingMessage

  /** The message each failure prints before the process exits. */
  function Diagnostic(e: ValidationError): (text: string)
    ensures text != ""
  {
    match e
    case InvalidLevel => "invalid level"
    case MissingHost => "missing host"
    case MissingMessage => "missing message"
  }

  /** No two failures print the same diagnostic. */
  lemma DiagnosticsDistinct(a: ValidationError, b: ValidationError)
    ensures Diagnostic(a) == Diagnostic(b) <==> a == b
  {
  }

  /** Checks the level first, then that a host is present, then that a message is
      present; on success yields the level that matched. */
  function Validate(n: Notification): (r: Result<Levels.Level, ValidationError>)
    ensures r == Failure(InvalidLevel) <==> n.level !in Levels.Table
    ensures r == Failure(MissingHost) <==> n.level in Levels.Table && n.host.None?
    ensures r == Failure(MissingMessage) <==>
              n.level in Levels.Table && n.host.Some? && n.message.None?
    ensures r.Success? <==> n.level in Levels.Table && n.host.Some? && n.message.Some?
    ensures r.Success? ==> Levels.Name(r.value) == n.level
  {
    match Levels.Parse(n.level)
    case None => Failure(InvalidLevel)
    case Some(l) =>
      if n.host.None? then Failure(MissingHost)
      else if n.message.None? then Failure(MissingMessage)
      else Success(l)
  }

  /** Only absence is rejected: an empty host or an empty message passes, and
      nothing but level, host and message is looked at. */
  lemma EmptyFieldsPass(n: Notification)
    requires n.level in Levels.Table
    requires n.host == Some("") && n.message == Some("")
    ensures Validate(n).Success?
  {
  }

  /** An invalid level is reported whatever host and message hold. */
  lemma LevelCheckedFirst(n: Notification, host: Option<string>, message: Option<string>)
    requires Validate(n) == Failure(InvalidLevel)
    ensures Validate(n.(host := host, message := message)) == Failure(InvalidLevel)
  {
  }

  /** A missing host is reported whether or not the message is present. */
  lemma HostCheckedBeforeMessage(n: Notification, message: Option<string>)
    requires Validate(n) == Failure(MissingHost)
    ensures Validate(n.(message := message)) == Failure(MissingHost)
  {
  }
}
