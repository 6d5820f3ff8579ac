/** The option loop of `main`: defaults first, then each decoded option
    overwrites one field. Options arrive already decoded (the scanning that
    `getopt_long` does is not modelled). */
module Options {
  import opened Wrappers
  import opened Notifications

  /** One decoded option, as `getopt_long` reports it: `Unknown` is its `'?'`. */
  datatype Opt =
    | Host(arg: string)
    | Port(number: int)
    | Source(arg: string)
    | Level(arg: string)
    | Title(arg: string)
    | Message(arg: string)
    | Tag(arg: string)
    | Fork
    | Unknown

  /** What the loop builds: the record and the background flag. */
  datatype Invocation = Invocation(notification: Notification, background: bool)

  /** An unrecognised option: usage is printed and the process fails. */
  datatype UsageError = UsageError

  /** The settings an option can overwrite. */
  datatype Setting = HostSetting | PortSetting | SourceSetting | LevelSetting
                   | TitleSetting | MessageSetting | TagSetting | BackgroundSetting

  /** A uniform view of a setting's value, so that all settings can be compared
      at once. An absent (NULL) field reads as `Absent`. */
  datatype Value = Absent | Text(text: string) | Number(number: int) | Flag(on: bool)

  function OptionalText(s: Option<string>): Value
  {
    match s
    case None => Absent
    case Some(t) => Text(t)
  }

  /** The value of setting `s` in `inv`. */
  function Get(inv: Invocation, s: Setting): Value
  {
    var n := inv.notification;
    match s
    case HostSetting => OptionalText(n.host)
    case PortSetting => Number(n.port)
    case SourceSetting => Text(n.source)
    case LevelSetting => Text(n.level)
    case TitleSetting => Text(n.title)
    case MessageSetting => OptionalText(n.message)
    case TagSetting => OptionalText(n.tag)
    case BackgroundSetting => Flag(inv.background)
  }

  /** The settings cover the whole invocation: two invocations that agree on
      every setting are equal. */
  lemma SettingsDetermineInvocation(a: Invocation, b: Invocation)
    requires forall s :: Get(a, s) == Get(b, s)
    ensures a == b
  {
    assert Get(a, HostSetting) == Get(b, HostSetting);
    assert Get(a, PortSetting) == Get(b, PortSetting);
    assert Get(a, SourceSetting) == Get(b, SourceSetting);
    assert Get(a, LevelSetting) == Get(b, LevelSetting);
    assert Get(a, TitleSetting) == Get(b, TitleSetting);
    assert Get(a, MessageSetting) == Get(b, MessageSetting);
    assert Get(a, TagSetting) == Get(b, TagSetting);
    assert Get(a, BackgroundSetting) == Get(b, BackgroundSetting);
  }

  /** The setting a recognised option targets. */
  function Target(o: Opt): Setting
    requires o != Unknown
  {
    match o
    case Host(_) => HostSetting
    case Port(_) => PortSetting
    case Source(_) => SourceSetting
    case Level(_) => LevelSetting
    case Title(_) => TitleSetting
    case Message(_) => MessageSetting
    case Tag(_) => TagSetting
    case Fork => BackgroundSetting
  }

  /** The value a recognised option stores. */
  function Stored(o: Opt): Value
    requires o != Unknown
  {
    match o
    case Host(a) => Text(a)
    case Port(p) => Number(p)
    case Source(a) => Text(a)
    case Level(a) => Text(a)
    case Title(a) => Text(a)
    case Message(a) => Text(a)
    case Tag(a) => Text(a)
    case Fork => Flag(true)
  }

  /** The invocation before any option: the default record, in the foreground. */
  function Initial(source: string): Invocation
  {
    Invocation(Defaults(source), false)
  }

  /** One arm of the `switch`: the option's own setting takes the option's value
      and every other setting is left as it was. */
  function Apply(inv: Invocation, o: Opt): (r: Invocation)
    requires o != Unknown
    ensures forall s :: Get(r, s) == if s == Target(o) then Stored(o) else Get(inv, s)
  {
    var n := inv.notification;
    match o
    case Host(a) => inv.(notification := n.(host := Some(a)))
    case Port(p) => inv.(notification := n.(port := p))
    case Source(a) => inv.(notification := n.(source := a))
    case Level(a) => inv.(notification := n.(level := a))
    case Title(a) => inv.(notification := n.(title := a))
    case Message(a) => inv.(notification := n.(message := Some(a)))
    case Tag(a) => inv.(notification := n.(tag := Some(a)))
    case Fork => inv.(background := true)
  }

  /** The loop: options are applied in order; the first unrecognised one ends the
      process with usage, so nothing after it is applied. */
  function Fold(inv: Invocation, opts: seq<Opt>): (r: Result<Invocation, UsageError>)
    ensures r.Failure? <==> Unknown in opts
    decreases |opts|
  {
    if |opts| == 0 then Success(inv)
    else if opts[0] == Unknown then Failure(UsageError)
    else Fold(Apply(inv, opts[0]), opts[1..])
  }

  /** The whole of `main`'s argument handling. */
  function Parse(source: string, opts: seq<Opt>): Result<Invocation, UsageError>
  {
    Fold(Initial(source), opts)
  }

  /** The last recognised option that targets setting `s`, if any. */
  function LastFor(opts: seq<Opt>, s: Setting): (r: Option<Opt>)
    ensures r.Some? ==> r.value in opts && r.value != Unknown && Target(r.value) == s
  {
    if |opts| == 0 then None
    else if opts[|opts| - 1] != Unknown && Target(opts[|opts| - 1]) == s then Some(opts[|opts| - 1])
    else LastFor(opts[..|opts| - 1], s)
  }

  /** Seen from the front: the last option for `s` in `o :: rest` is the last one
      in `rest`, or `o` itself when `rest` has none. */
  lemma {:induction false} LastForCons(o: Opt, rest: seq<Opt>, s: Setting)
    requires o != Unknown
    ensures LastFor([o] + rest, s) ==
              if LastFor(rest, s).Some? then LastFor(rest, s)
              else if Target(o) == s then Some(o)
              else None
    decreases |rest|
  {
    var all := [o] + rest;
    if |rest| == 0 {
      assert all[..|all| - 1] == [];
    } else {
      var z := rest[|rest| - 1];
      assert all[|all| - 1] == z;
      if z != Unknown && Target(z) == s {
      } else {
        assert all[..|all| - 1] == [o] + rest[..|rest| - 1];
        LastForCons(o, rest[..|rest| - 1], s);
      }
    }
  }

  /** When an option is repeated the last occurrence wins: every setting ends up
      with the value of the last option targeting it, or keeps its starting value
      when no option targets it. */
  lemma {:induction false} LastOccurrenceWins(inv: Invocation, opts: seq<Opt>, s: Setting)
    requires Unknown !in opts
    ensures Fold(inv, opts).Success?
    ensures Get(Fold(inv, opts).value, s) ==
              match LastFor(opts, s)
              case Some(o) => Stored(o)
              case None => Get(inv, s)
    decreases |opts|
  {
    if |opts| > 0 {
      var o := opts[0];
      assert opts == [o] + opts[1..];
      LastForCons(o, opts[1..], s);
      LastOccurrenceWins(Apply(inv, o), opts[1..], s);
    }
  }

  /** With no options at all the record holds the defaults: port 5050, level
      "normal", empty title, no host, message or tag, and no background mode. */
  lemma NoOptionsGiveDefaults(source: string)
    ensures Parse(source, []).Success?
    ensures var inv := Parse(source, []).value;
            var n := inv.notification;
            && n.port == 5050 && n.level == "normal" && n.title == ""
            && n.host.None? && n.message.None? && n.tag.None?
            && n.source == source && !inv.background
  {
  }

  /** Background mode is on exactly when some `--fork` was given. */
  lemma BackgroundIffFork(source: string, opts: seq<Opt>)
    requires Unknown !in opts
    ensures Parse(source, opts).Success?
    ensures Parse(source, opts).value.background <==> Fork in opts
  {
    LastOccurrenceWins(Initial(source), opts, BackgroundSetting);
    if Fork in opts {
      var i :| 0 <= i < |opts| && opts[i] == Fork;
      LastForFindsEvery(opts, i);
    }
  }

  /** Any recognised option in the list is seen by `LastFor` for its setting. */
  lemma {:induction false} LastForFindsEvery(opts: seq<Opt>, i: int)
    requires 0 <= i < |opts| && opts[i] != Unknown
    ensures LastFor(opts, Target(opts[i])).Some?
    decreases |opts|
  {
    var last := |opts| - 1;
    if i < last && !(opts[last] != Unknown && Target(opts[last]) == Target(opts[i])) {
      assert opts[..last][i] == opts[i];
      LastForFindsEvery(opts[..last], i);
    }
  }

  /** `opts` without its `--fork` options. */
  function WithoutFork(opts: seq<Opt>): (r: seq<Opt>)
    ensures Fork !in r
    ensures forall o :: o in r <==> o in opts && o != Fork
  {
    if |opts| == 0 then []
    else (if opts[0] == Fork then [] else [opts[0]]) + WithoutFork(opts[1..])
  }

  /** `--fork` changes nothing but the background flag: the record built with
      it is the record built without it, from any starting flag. */
  lemma {:induction false} ForkOnlySetsBackground(a: Invocation, b: Invocation, opts: seq<Opt>)
    requires a.notification == b.notification
    requires Unknown !in opts
    ensures Fold(a, opts).Success? && Fold(b, WithoutFork(opts)).Success?
    ensures Fold(a, opts).value.notification == Fold(b, WithoutFork(opts)).value.notification
    decreases |opts|
  {
    if |opts| > 0 {
      var o := opts[0];
      assert o in opts;
      assert WithoutFork(opts) == (if o == Fork then [] else [o]) + WithoutFork(opts[1..]);
      if o == Fork {
        assert WithoutFork(opts) == WithoutFork(opts[1..]);
        ForkOnlySetsBackground(Apply(a, o), b, opts[1..]);
      } else {
        var rest := WithoutFork(opts[1..]);
        assert ([o] + rest)[0] == o && ([o] + rest)[1..] == rest;
        ForkOnlySetsBackground(Apply(a, o), Apply(b, o), opts[1..]);
      }
    }
  }
}
