/** `notifiy` and the tail of `main`: validate, encode, hand the payload to the
    transport, and decide which process reports which exit status. The transport
    itself (name lookup, connect, send) is reduced to whether it went through. */
module Dispatch {
  import opened Wrappers
  import opened Notifications
  import Levels
  import opened Validation
  import Encoding
  import Options

  /** What `transfert` is handed: where to connect and what to write. */
  datatype Request = Request(host: string, port: int, payload: map<string, string>)

  /** Why a process ended with failure status. */
  datatype Reason = Usage | Invalid(error: ValidationError) | TransportFailed

  /** The exit of one process. */
  datatype Outcome = Succeeded | Failed(reason: Reason)

  /** The two processes of one run: the one the caller waits for, and the
      detached copy that exists in background mode. */
  datatype Run = Run(caller: Outcome, detached: Option<Outcome>)

  /** Everything `notifiy` does before the transport: the checks, then the
      payload. Nothing is sent for a record that fails a check. */
  function Prepare(n: Notification): (r: Result<Request, ValidationError>)
    ensures r.Success? <==> Validate(n).Success?
    ensures r.Failure? ==> r.error == Validate(n).error
    ensures r.Success? ==> r.value.host == n.host.value && r.value.port == n.port
    ensures r.Success? ==> Encoding.Decode(r.value.payload) == Some(Encoding.View(n))
  {
    match Validate(n)
    case Failure(e) => Failure(e)
    case Success(_) =>
      Encoding.DecodeEncode(n);
      Success(Request(n.host.value, n.port, Encoding.Encode(n)))
  }

  /** `notifiy` step by step: the table loop, the presence checks in order, then
      the encoding. */
  method Notify(n: Notification) returns (r: Result<Request, ValidationError>)
    ensures r == Prepare(n)
  {
    var level := Levels.FindLevel(n.level);
    if level.None? {
      return Failure(InvalidLevel);
    }
    if n.host.None? {
      return Failure(MissingHost);
    }
    if n.message.None? {
      return Failure(MissingMessage);
    }
    return Success(Request(n.host.value, n.port, Encoding.Encode(n)));
  }

  /** The exit status of a process that runs `notifiy` on `n`, when the
      transport goes through exactly if `sent`. */
  function Deliver(n: Notification, sent: bool): (r: Outcome)
    ensures r.Succeeded? <==> Validate(n).Success? && sent
    ensures Validate(n).Failure? ==> r == Failed(Invalid(Validate(n).error))
    ensures Validate(n).Success? && !sent ==> r == Failed(TransportFailed)
  {
    match Prepare(n)
    case Failure(e) => Failed(Invalid(e))
    case Success(_) => if sent then Succeeded else Failed(TransportFailed)
  }

  /** `main`: parse, then either send in this process or detach. The decision to
      detach is taken before any check, so the caller of a background run always
      sees success; an unrecognised option fails before any detaching. `forked`
      says whether `fork()` created a copy: when it fails (returns -1) the caller
      takes the parent branch all the same and exits with success, and nothing
      is sent. */
  function Main(source: string, opts: seq<Options.Opt>, forked: bool, sent: bool): (r: Run)
    ensures r.caller == Failed(Usage) <==> Options.Unknown in opts
    ensures r.detached.Some? <==> Options.Unknown !in opts && Options.Fork in opts && forked
    ensures Options.Unknown !in opts && Options.Fork in opts ==> r.caller == Succeeded
  {
    match Options.Parse(source, opts)
    case Failure(_) => Run(Failed(Usage), None)
    case Success(inv) =>
      Options.BackgroundIffFork(source, opts);
      if inv.background then
        Run(Succeeded, if forked then Some(Deliver(inv.notification, sent)) else None)
      else Run(Deliver(inv.notification, sent), None)
  }

  /** The process status as a C exit code: `EXIT_SUCCESS` or `EXIT_FAILURE`. */
  function ExitCode(o: Outcome): (code: int)
    ensures code == 0 <==> o.Succeeded?
    ensures code == 0 || code == 1
  {
    if o.Succeeded? then 0 else 1
  }

  /** In background mode the caller sees success whatever the record holds,
      whether or not the copy could be created and whether or not the send works. */
  lemma BackgroundCallerSucceeds(source: string, opts: seq<Options.Opt>, forked: bool, sent: bool)
    requires Options.Unknown !in opts && Options.Fork in opts
    ensures ExitCode(Main(source, opts, forked, sent).caller) == 0
  {
  }

  /** The detached process ends exactly as the same command without `--fork`
      would have ended in the foreground: same checks, same payload. */
  lemma DetachedMatchesForeground(source: string, opts: seq<Options.Opt>, forked: bool, sent: bool)
    requires Options.Unknown !in opts && Options.Fork in opts && forked
    ensures Main(source, opts, forked, sent).detached ==
            Some(Main(source, Options.WithoutFork(opts), forked, sent).caller)
  {
    var init := Options.Initial(source);
    Options.ForkOnlySetsBackground(init, init, opts);
    Options.BackgroundIffFork(source, Options.WithoutFork(opts));
  }

  /** When `fork()` fails in background mode the caller still exits with
      success, but no process is left to send the notification. */
  lemma FailedForkSendsNothing(source: string, opts: seq<Options.Opt>, sent: bool)
    requires Options.Unknown !in opts && Options.Fork in opts
    ensures Main(source, opts, false, sent) == Run(Succeeded, None)
  {
  }

  /** Without `--fork` the caller's status is the outcome of validation and
      transport. */
  lemma ForegroundReportsDelivery(source: string, opts: seq<Options.Opt>, forked: bool, sent: bool)
    requires Options.Unknown !in opts && Options.Fork !in opts
    ensures Options.Parse(source, opts).Success?
    ensures Main(source, opts, forked, sent).caller == Deliver(Options.Parse(source, opts).value.notification, sent)
  {
    Options.BackgroundIffFork(source, opts);
  }

  /** A sample run: host, port, message and level given; the payload carries the
      level and message, and the caller succeeds when the send goes through. */
  lemma SendExample(source: string)
    ensures var opts := [Options.Host("localhost"), Options.Port(5050),
                         Options.Message("hi"), Options.Level("critical")];
            var n := Options.Parse(source, opts).value.notification;
            && Prepare(n).Success?
            && Prepare(n).value.payload["level"] == "critical"
            && Prepare(n).value.payload["message"] == "hi"
            && Main(source, opts, true, true).caller == Succeeded
  {
  }

  /** A level outside the table fails in the foreground whether or not the send
      would have worked, since it is rejected before any connection. */
  lemma InvalidLevelExample(source: string, forked: bool, sent: bool)
    ensures Main(source, [Options.Host("localhost"), Options.Message("hi"), Options.Level("urgent")], forked, sent).caller
            == Failed(Invalid(InvalidLevel))
  {
    assert "urgent" !in Levels.Table;
  }
}
