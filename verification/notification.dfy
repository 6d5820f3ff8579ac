/** The one record of the client: the fields of `notification_t` in notify.c. */
module Notifications {
  import opened Wrappers

  /** A notification as it is built by the option loop. `host`, `message` and
      `tag` start as NULL in the source and are therefore optional here; `source`,
      `level` and `title` always point at some string. The port is the integer
      already produced by `atoi`. */
  datatype Notification = Notification(
    host: Option<string>,
    port: int,
    source: string,
    level: string,
    title: string,
    message: Option<string>,
    tag: Option<string>)

  const DefaultPort: int := 5050
  const DefaultLevel: string := "normal"
  const DefaultTitle: string := ""

  /** The record before any option is applied. `source` is whatever the parent
      process lookup produced (its command line, or "default" when that cannot
      be opened); the lookup itself is not modelled. */
  function Defaults(source: string): Notification
  {
    Notification(None, DefaultPort, source, DefaultLevel, DefaultTitle, None, None)
  }
}
