# notify client — Dafny model

`notify` is a one-shot command-line client. It builds a notification record from
defaults and command-line options (host, port, source, level, title, message,
tag, fork). It checks the level against the fixed table `low`/`normal`/`critical`
and checks that a host and a message were given. It then encodes the record as a
JSON object and writes it over one TCP connection to a notification server. With
`--fork` the invoking process exits with success at once, and a detached copy
does the checking and the sending.

This project models that path from decoded options to payload and exit status:

- `Notifications` (notification.dfy) holds the `notification_t` record and its defaults.
- `Options` (options.dfy) is the option loop of `main`. Every option overwrites one
  setting. The loop is a left fold, and the first unrecognised option ends it
  with a usage failure.
- `Levels` (levels.dfy) holds the `__levels` table, a closed `Level` type, and the
  table-scanning loop as a method.
- `Validation` (validation.dfy) holds the three ordered, fatal checks of `notifiy`.
- `Encoding` (encoding.dfy) treats the JSON payload as a map from keys to strings.
  A receiver-side `Decode` serves as its partner.
- `Dispatch` (dispatch.dfy) covers `notifiy` and the end of `main`: which process
  exits with which status, with and without background mode.
- `Wrappers` (wrappers.dfy) defines `Option` (in place of NULL) and `Result`.

A few facts about the code that the model keeps:

- The host and message checks (notify.c:178-182) test only for NULL, so an
  empty host or message passes validation.
- The `tag` key is emitted whenever the tag pointer is non-NULL, including for
  an empty tag (notify.c:148-149).
- The long-option table pairs `--tag` with `g` and `--fork` with `f`, but the
  short-option string at notify.c:230 does not accept `-g ARG` or `-f` (see
  "Left out").

## Model

| member | source | states |
|---|---|---|
| Levels.Parse | notify.c:46 | a level string is accepted exactly when it is one of the three table entries, and the accepted level is spelled exactly like the input |
| Levels.TableSpellsLevels | notify.c:46 | the table spells every level, its entries are pairwise distinct, and reading a level's spelling gives back that level |
| Levels.ParseIsExact | notify.c:167-170 | the comparison is exact and case-sensitive: only `low`, `normal` and `critical` pass, and `Low`, `NORMAL` and `critical ` do not |
| Levels.FindLevel | notify.c:167-173 | the loop that scans the whole table finds a match exactly when the level is in the table, the match equals the input, and the loop agrees with `Parse` |
| Validation.Diagnostic | notify.c:172-182 | each validation failure prints a non-empty diagnostic |
| Validation.DiagnosticsDistinct | notify.c:172-182 | two failures print the same diagnostic only when they are the same failure |
| Validation.Validate | notify.c:167-182 | an invalid level is reported first. A missing host is reported only after the level passes, and a missing message only after both pass. Success holds exactly when the level is in the table and host and message are both present, and it yields the matching level |
| Validation.EmptyFieldsPass | notify.c:178-182 | an empty host and an empty message pass, because only absence is checked |
| Validation.LevelCheckedFirst | notify.c:167-182 | an invalid level is reported whatever host and message hold |
| Validation.HostCheckedBeforeMessage | notify.c:178-182 | a missing host is reported whether or not the message is present |
| Encoding.Encode | notify.c:142-149 | the payload has the keys source, title, message and level, carrying the record's values. It has `tag` exactly when the tag is present, including an empty tag. It never has `host` or `port` |
| Encoding.Decode | notify.c:142-149 | a receiver can read a payload exactly when the four fixed keys are present, and it reads a tag exactly when the `tag` key is present |
| Encoding.DecodeEncode | notify.c:142-149 | decoding an encoded record gives back source, title, message, level and tag field for field |
| Encoding.EncodeDecode | notify.c:142-149 | a payload with no foreign keys is exactly the encoding of what it decodes to, for any host and port |
| Encoding.EncodeIgnoresAddress | notify.c:142-149 | two records encode to the same payload exactly when they agree on the travelling fields, so host and port never affect it |
| Options.SettingsDetermineInvocation | notify.c:32-41 | the eight settings cover the record and the background flag: invocations that agree on every setting are equal |
| Options.Apply | notify.c:235-243 | a recognised option sets its own setting to its value and leaves every other setting unchanged |
| Options.Fold | notify.c:229-252 | the option loop ends in a usage failure exactly when an unrecognised option occurs |
| Options.LastOccurrenceWins | notify.c:235-243 | with only recognised options, each setting ends with the value of the last option targeting it, or keeps its starting value when no option targets it |
| Options.NoOptionsGiveDefaults | notify.c:216-224 | with no options, the record has port 5050, level "normal", an empty title, no host, message or tag, the given source, and background mode off |
| Options.BackgroundIffFork | notify.c:243 | background mode is on exactly when `--fork` occurs among the options |
| Options.ForkOnlySetsBackground | notify.c:235-243 | the record built with `--fork` options equals the one built with them removed |
| Dispatch.Prepare | notify.c:160-200 | a request exists exactly when validation passes, and otherwise the validation error is returned. The request targets the record's host and port, and its payload decodes to the record's travelling fields |
| Dispatch.Notify | notify.c:160-208 | the step-by-step procedure (table loop, ordered checks, encoding) computes the same result as `Prepare` |
| Dispatch.Deliver | notify.c:199-208 | a sending process succeeds exactly when validation passes and the transport goes through. A validation failure is reported whatever the transport would do |
| Dispatch.Main | notify.c:229-263 | the caller sees a usage failure exactly when an unrecognised option occurs, even after a `--fork`. With `--fork` and no unrecognised option the caller sees success, and a detached process exists exactly when `fork()` also succeeded |
| Dispatch.FailedForkSendsNothing | notify.c:254-260 | when `fork()` fails in background mode (it returns -1, which `if(fork())` treats as the parent), the caller still exits with success and no process sends the notification |
| Dispatch.ExitCode | notify.c:51-59 | the exit status is 0 exactly for success and 1 (`EXIT_FAILURE`) for every failure |
| Dispatch.BackgroundCallerSucceeds | notify.c:254-260 | in background mode the caller's exit status is 0, whatever the record contains, whether or not `fork()` succeeded and whether or not the send works |
| Dispatch.DetachedMatchesForeground | notify.c:254-263 | when `fork()` succeeds, the detached process ends exactly as the same command without `--fork` would end in the foreground |
| Dispatch.ForegroundReportsDelivery | notify.c:254-263 | without `--fork`, the caller's status is the validation and transport outcome for the parsed record |
| Dispatch.SendExample | notify.c:211-263 | with host, port, message "hi" and level "critical", the payload carries that level and message, and the caller succeeds when the send goes through |
| Dispatch.InvalidLevelExample | notify.c:167-173 | level "urgent" fails with "invalid level" in the foreground, whether or not a send would have worked |

## Left out

- `parent()` (notify.c:61-82) reads `/proc/<ppid>/cmdline` to find the default source. That is file I/O, so the default source is an input string. Also not modelled: `fread` may fill all 1024 bytes with no terminator, `cmdline` is NUL-separated, and a failed `fread` is fatal.
- `transfert()` (notify.c:104-133) does name lookup, socket, connect and one `send` whose error return is checked but whose short write is not. This is network I/O. The model reduces it to whether it went through (`sent`). A short write is not represented. `htons` truncates the port to 16 bits, and the model does not represent that either: `Request.port` is the integer from the record.
- `fork()` itself is not modelled. Background mode is the `background` flag, and whether `fork()` created a copy is the `forked` input of `Dispatch.Main`.
- JSON text serialisation (indentation, escaping, key order) belongs to the JSON library and is not modelled. Neither is the "encoding failed" exit when `json_dumps` returns NULL (notify.c:199-200). The payload is modelled as a map from keys to values.
- Encoding.Encode: does not model `json_string` rejecting a value that is not valid UTF-8. It then returns NULL, `json_object_set_new` returns -1 and leaves that key out, and the payload is sent without it. So "always the four keys" holds only when every value is valid UTF-8; strings here are sequences of characters with no encoding.
- `Encoding.Encode` requires the message to be present. Its only caller runs after the presence check, and what the JSON library does with a NULL string is not modelled.
- Argument scanning by `getopt_long` is not modelled: options arrive already decoded. The short-option string at notify.c:230, "h:p:s:l:t:m:g", has no `:` after `g` and no `f`. So `-g` takes no argument, and `-f` ends in the usage failure. Because `getopt` leaves `optarg` NULL for an option without an argument, `-g` runs `notification.tag = optarg` (notify.c:242) with NULL and clears any earlier `--tag`. The decoded `Options.Tag`, which always carries a string, cannot express that. Only the long forms `--tag` and `--fork` behave as the option table describes.
- `atoi` on the port is not modelled. The `Port` option carries the integer it produced.
- The `default: abort()` arm (notify.c:249-250) has no model, because it cannot be reached with the decoded options.
- The `__DEBUG__` print blocks and the text of the usage message (notify.c:87-99) are output only. The model keeps the usage exit's failure status.
