/**
 * The Windows service executable's command line (WinConsole::run).
 *
 * The executable takes a verb and, for the driver verbs, a sub-verb; it
 * picks a log file, runs the selected service or driver operation and turns
 * the result, or a caught system error, into the process exit code.
 *
 * The service and driver operations live outside this component: their
 * results are the fields of a World value, and every call the dispatcher
 * makes is recorded, in order, in a list of Calls.
 */
module WinConsole {
  import opened Wrappers

  // ---------------------------------------------------------------------
  // Commands and the verb parser
  // ---------------------------------------------------------------------

  datatype ServiceVerb = InstallService | UninstallService | StartService | StopService
  datatype TapVerb = TapInstall | TapUninstall | TapReinstall
  datatype TunVerb = TunUninstall | TunCreate
  datatype CalloutVerb = CalloutInstall | CalloutUninstall | CalloutReinstall

  /** The closed set of commands the dispatcher can select. */
  datatype Command =
    | Help
    | RunDaemon
    | Service(service: ServiceVerb)
    | Tap(tap: TapVerb)
    | Tun(tun: TunVerb)
    | Callout(callout: CalloutVerb)
    | Unrecognized
  {
    /** The commands that need a sub-verb. */
    predicate HasSubVerb() {
      Tap? || Tun? || Callout?
    }
  }

  /** Case folding of one character (ASCII letters only). */
  function FoldChar(c: char): char {
    if 'A' <= c <= 'Z' then (c as int + 32) as char else c
  }

  /** Case folding of a string, character by character. */
  function Fold(s: string): string {
    seq(|s|, i requires 0 <= i < |s| => FoldChar(s[i]))
  }

  /** The comparison of an argument with a verb, ignoring case. */
  predicate Matches(arg: string, text: string) {
    Fold(arg) == Fold(text)
  }

  /** A string without upper-case ASCII letters, as every verb is written. */
  predicate IsLowerCase(s: string) {
    forall i :: 0 <= i < |s| ==> !('A' <= s[i] <= 'Z')
  }

  /** Folding leaves exactly the lower-case strings unchanged. */
  lemma FoldLowerCase(s: string)
    ensures Fold(s) == s <==> IsLowerCase(s)
  {
    if !IsLowerCase(s) {
      var i :| 0 <= i < |s| && 'A' <= s[i] <= 'Z';
      assert Fold(s)[i] != s[i];
    }
  }

  /** Against a lower-case verb, matching is comparing the folded argument. */
  lemma MatchesLowerCase(arg: string, text: string)
    requires IsLowerCase(text)
    ensures Matches(arg, text) <==> Fold(arg) == text
  {
    FoldLowerCase(text);
  }

  /**
   * The command selected by a folded verb and, if present, a folded
   * sub-verb.  The driver verbs are unrecognized without a sub-verb.
   */
  function SelectCommand(verb: string, subVerb: Option<string>): Command {
    if verb == "help" || verb == "/?" then Help
    else if verb == "run" then RunDaemon
    else if verb == "install" then Service(InstallService)
    else if verb == "uninstall" then Service(UninstallService)
    else if verb == "start" then Service(StartService)
    else if verb == "stop" then Service(StopService)
    else if verb == "tap" && subVerb.Some? then
      if subVerb.value == "install" then Tap(TapInstall)
      else if subVerb.value == "uninstall" then Tap(TapUninstall)
      else if subVerb.value == "reinstall" then Tap(TapReinstall)
      else Unrecognized
    else if verb == "tun" && subVerb.Some? then
      if subVerb.value == "uninstall" then Tun(TunUninstall)
      else if subVerb.value == "create" then Tun(TunCreate)
      else Unrecognized
    else if verb == "callout" && subVerb.Some? then
      if subVerb.value == "install" then Callout(CalloutInstall)
      else if subVerb.value == "uninstall" then Callout(CalloutUninstall)
      else if subVerb.value == "reinstall" then Callout(CalloutReinstall)
      else Unrecognized
    else Unrecognized
  }

  /**
   * The command the arguments select.  args[0] is the program; without a
   * verb the command is help.  args[1] is the verb and args[2], when there
   * is one, the sub-verb; both are compared without regard to case, and
   * any further arguments are ignored.
   */
  function ParseCommand(args: seq<string>): (c: Command)
    ensures |args| <= 1 ==> c == Help
    ensures c.HasSubVerb() ==> |args| > 2
  {
    if |args| <= 1 then Help
    else SelectCommand(Fold(args[1]), if |args| > 2 then Some(Fold(args[2])) else None)
  }

  /** The verb and sub-verb (in lower case) that select a recognised command. */
  function CommandLine(c: Command): seq<string>
    requires c != Unrecognized
  {
    match c
    case Help => ["help"]
    case RunDaemon => ["run"]
    case Service(InstallService) => ["install"]
    case Service(UninstallService) => ["uninstall"]
    case Service(StartService) => ["start"]
    case Service(StopService) => ["stop"]
    case Tap(TapInstall) => ["tap", "install"]
    case Tap(TapUninstall) => ["tap", "uninstall"]
    case Tap(TapReinstall) => ["tap", "reinstall"]
    case Tun(TunUninstall) => ["tun", "uninstall"]
    case Tun(TunCreate) => ["tun", "create"]
    case Callout(CalloutInstall) => ["callout", "install"]
    case Callout(CalloutUninstall) => ["callout", "uninstall"]
    case Callout(CalloutReinstall) => ["callout", "reinstall"]
  }

  /** A lower-case verb alone selects what SelectCommand gives it. */
  lemma ParseVerb(program: string, verb: string)
    requires IsLowerCase(verb)
    ensures ParseCommand([program, verb]) == SelectCommand(verb, None)
  {
    FoldLowerCase(verb);
  }

  /** A lower-case verb and sub-verb select what SelectCommand gives them. */
  lemma ParseVerbAndSubVerb(program: string, verb: string, subVerb: string)
    requires IsLowerCase(verb) && IsLowerCase(subVerb)
    ensures ParseCommand([program, verb, subVerb]) == SelectCommand(verb, Some(subVerb))
  {
    FoldLowerCase(verb);
    FoldLowerCase(subVerb);
  }

  /** Every recognised command is selected by its own verbs, after any program name. */
  lemma ParseCommandLine(program: string, c: Command)
    requires c != Unrecognized
    ensures ParseCommand([program] + CommandLine(c)) == c
  {
    match c {
      case Help =>
        assert [program] + CommandLine(c) == [program, "help"];
        ParseVerb(program, "help");
      case RunDaemon =>
        assert [program] + CommandLine(c) == [program, "run"];
        ParseVerb(program, "run");
      case Service(v) => ParseServiceLine(program, v);
      case Tap(v) => ParseTapLine(program, v);
      case Tun(v) => ParseTunLine(program, v);
      case Callout(v) => ParseCalloutLine(program, v);
    }
  }

  /** ParseCommandLine for each service verb. */
  lemma ParseServiceLine(program: string, v: ServiceVerb)
    ensures ParseCommand([program] + CommandLine(Service(v))) == Service(v)
  {
    var line := [program] + CommandLine(Service(v));
    match v {
      case InstallService =>
        assert line == [program, "install"];
        ParseVerb(program, "install");
      case UninstallService =>
        assert line == [program, "uninstall"];
        ParseVerb(program, "uninstall");
      case StartService =>
        assert line == [program, "start"];
        ParseVerb(program, "start");
      case StopService =>
        assert line == [program, "stop"];
        ParseVerb(program, "stop");
    }
  }

  /** ParseCommandLine for each tap sub-verb. */
  lemma ParseTapLine(program: string, v: TapVerb)
    ensures ParseCommand([program] + CommandLine(Tap(v))) == Tap(v)
  {
    var line := [program] + CommandLine(Tap(v));
    match v {
      case TapInstall =>
        assert line == [program, "tap", "install"];
        ParseVerbAndSubVerb(program, "tap", "install");
      case TapUninstall =>
        assert line == [program, "tap", "uninstall"];
        ParseVerbAndSubVerb(program, "tap", "uninstall");
      case TapReinstall =>
        assert line == [program, "tap", "reinstall"];
        ParseVerbAndSubVerb(program, "tap", "reinstall");
    }
  }

  /** ParseCommandLine for each tun sub-verb. */
  lemma ParseTunLine(program: string, v: TunVerb)
    ensures ParseCommand([program] + CommandLine(Tun(v))) == Tun(v)
  {
    var line := [program] + CommandLine(Tun(v));
    match v {
      case TunUninstall =>
        assert line == [program, "tun", "uninstall"];
        ParseVerbAndSubVerb(program, "tun", "uninstall");
      case TunCreate =>
        assert line == [program, "tun", "create"];
        ParseVerbAndSubVerb(program, "tun", "create");
    }
  }

  /** ParseCommandLine for each callout sub-verb. */
  lemma ParseCalloutLine(program: string, v: CalloutVerb)
    ensures ParseCommand([program] + CommandLine(Callout(v))) == Callout(v)
  {
    var line := [program] + CommandLine(Callout(v));
    match v {
      case CalloutInstall =>
        assert line == [program, "callout", "install"];
        ParseVerbAndSubVerb(program, "callout", "install");
      case CalloutUninstall =>
        assert line == [program, "callout", "uninstall"];
        ParseVerbAndSubVerb(program, "callout", "uninstall");
      case CalloutReinstall =>
        assert line == [program, "callout", "reinstall"];
        ParseVerbAndSubVerb(program, "callout", "reinstall");
    }
  }

  /**
   * The converse of ParseCommandLine: a recognised command comes only from
   * its own verb line.  An unknown verb, or an unknown or missing sub-verb
   * after tap, tun or callout, is unrecognized.
   */
  lemma ParseCommandOnlyOwnLine(args: seq<string>)
    requires |args| > 1 && ParseCommand(args) != Unrecognized
    ensures ParseCommand(args) == Help ==> Fold(args[1]) == "help" || Fold(args[1]) == "/?"
    ensures ParseCommand(args) != Help ==>
              var line := CommandLine(ParseCommand(args));
              |args| > |line| && forall i :: 0 <= i < |line| ==> Fold(args[i + 1]) == line[i]
  {
  }

  /** Folding twice is folding once: a folded string is lower case. */
  lemma FoldIdempotent(s: string)
    ensures IsLowerCase(Fold(s))
    ensures Fold(Fold(s)) == Fold(s)
  {
    FoldLowerCase(Fold(s));
  }

  /** The arguments with every letter folded. */
  function FoldAll(args: seq<string>): seq<string> {
    seq(|args|, i requires 0 <= i < |args| => Fold(args[i]))
  }

  /** Verbs are compared without regard to case. */
  lemma ParseCommandIgnoresCase(args: seq<string>)
    ensures ParseCommand(FoldAll(args)) == ParseCommand(args)
  {
    if |args| > 1 {
      FoldIdempotent(args[1]);
    }
    if |args| > 2 {
      FoldIdempotent(args[2]);
    }
  }

  /** Both "help" and "/?" select help, in any case. */
  lemma HelpVerbs(args: seq<string>)
    requires |args| > 1 && (Matches(args[1], "help") || Matches(args[1], "/?"))
    ensures ParseCommand(args) == Help
  {
    MatchesLowerCase(args[1], "help");
    MatchesLowerCase(args[1], "/?");
  }

  /** A driver verb without its sub-verb is unrecognized. */
  lemma DriverVerbNeedsSubVerb(program: string, verb: string)
    requires Matches(verb, "tap") || Matches(verb, "tun") || Matches(verb, "callout")
    ensures ParseCommand([program, verb]) == Unrecognized
  {
    MatchesLowerCase(verb, "tap");
    MatchesLowerCase(verb, "tun");
    MatchesLowerCase(verb, "callout");
  }

  /** Only the verb and the sub-verb decide the command. */
  lemma ParseCommandIgnoresTrailingArgs(args: seq<string>, extra: seq<string>)
    requires |args| >= 3
    ensures ParseCommand(args + extra) == ParseCommand(args)
  {
    assert (args + extra)[1] == args[1] && (args + extra)[2] == args[2];
  }

  // ---------------------------------------------------------------------
  // Log file and exit codes
  // ---------------------------------------------------------------------

  /** Path::DaemonLogFile and Path::ConfigLogFile. */
  datatype LogFile = DaemonLogFile | ConfigLogFile

  /**
   * The log file opened before dispatch: none without a verb, the daemon's
   * log for "run" and the setup log for every other verb.
   */
  function LogFileFor(args: seq<string>): (log: Option<LogFile>)
    ensures log.None? <==> |args| <= 1
    ensures log == Some(DaemonLogFile) <==> ParseCommand(args) == RunDaemon
  {
    if |args| <= 1 then None
    else if Fold(args[1]) == "run" then Some(DaemonLogFile)
    else Some(ConfigLogFile)
  }

  /**
   * The system code of a caught Error.  The seven named codes are the
   * ERROR_* constants run distinguishes; OtherSystemError stands for every
   * other code, which run does not tell apart.
   */
  datatype SystemError =
    | ServiceExists
    | ServiceDoesNotExist
    | ServiceAlreadyRunning
    | ServiceNotActive
    | ServiceMarkedForDelete
    | AuthenticodePublisherNotTrusted
    | AuthenticodeTrustNotEstablished
    | OtherSystemError
  {
    /** The service was in the wrong state for the request. */
    predicate IsServiceStateError() {
      ServiceExists? || ServiceDoesNotExist? || ServiceAlreadyRunning? || ServiceNotActive?
    }

    /** The request needs a reboot or a trusted driver signature. */
    predicate IsPendingOrUntrusted() {
      ServiceMarkedForDelete? || AuthenticodePublisherNotTrusted? || AuthenticodeTrustNotEstablished?
    }
  }

  /**
   * The exit code for a caught error: 2 for a service in the wrong state, 3
   * for a service pending deletion or an untrusted driver signature, 1 for
   * everything else.  Never 0, the success code.
   */
  function ExitCodeForError(e: SystemError): (code: int)
    ensures 1 <= code <= 3
    ensures code == 2 <==> e.IsServiceStateError()
    ensures code == 3 <==> e.IsPendingOrUntrusted()
    ensures code == 1 <==> e.OtherSystemError?
  {
    match e
    case ServiceExists | ServiceDoesNotExist | ServiceAlreadyRunning | ServiceNotActive => 2
    case ServiceMarkedForDelete | AuthenticodePublisherNotTrusted | AuthenticodeTrustNotEstablished => 3
    case OtherSystemError => 1
  }

  // ---------------------------------------------------------------------
  // External operations
  // ---------------------------------------------------------------------

  /**
   * The DriverStatus values these operations name.  OtherDriverStatus(code)
   * is any other value; its code is none of the six named statuses.
   */
  datatype DriverStatus =
    | DriverInstalled
    | DriverInstalledReboot
    | DriverInstallFailed
    | DriverUninstalled
    | DriverUninstalledReboot
    | DriverUninstallFailed
    | OtherDriverStatus(code: int)

  /** What an external operation did: returned a value or threw an Error. */
  datatype Outcome<+T> = Returned(value: T) | Threw(error: SystemError)

  /** The external calls the dispatcher makes. */
  datatype Call =
    | RunDaemonCall
    | ServiceCall(verb: ServiceVerb)
    | InstallTapDriver(force: bool)
    | UninstallTapDriver(flag1: bool, flag2: bool)
    | DeleteWintunDriver
    | RecreateWintunAdapter
    | InstallCalloutDriver
    | UninstallCalloutDriver
    | SendCheckDriverHint

  /**
   * The results the external operations give.  installTapDriver is keyed by
   * its force flag and uninstallTapDriver by its two flags; the WinTUN
   * operations report whether the driver was deleted and whether an adapter
   * was created.  The daemon returns nothing but may throw.
   */
  datatype World = World(
    runDaemon: Outcome<()>,
    service: ServiceVerb -> Outcome<int>,
    installTapDriver: bool -> Outcome<DriverStatus>,
    uninstallTapDriver: (bool, bool) -> Outcome<DriverStatus>,
    deleteWintunDriver: Outcome<bool>,
    recreateWintunAdapter: Outcome<bool>,
    installCalloutDriver: Outcome<DriverStatus>,
    uninstallCalloutDriver: Outcome<DriverStatus>)

  // ---------------------------------------------------------------------
  // Driver helpers
  // ---------------------------------------------------------------------

  /**
   * reinstallTapDriver: uninstall, ignore what it reports, then install
   * with force.  Only an Error thrown by the uninstall stops it.
   */
  method ReinstallTapDriver(w: World) returns (r: Outcome<DriverStatus>, calls: seq<Call>)
    ensures w.uninstallTapDriver(false, false).Threw? ==>
              r == w.uninstallTapDriver(false, false) && calls == [UninstallTapDriver(false, false)]
    ensures w.uninstallTapDriver(false, false).Returned? ==>
              r == w.installTapDriver(true) && calls == [UninstallTapDriver(false, false), InstallTapDriver(true)]
  {
    calls := [UninstallTapDriver(false, false)];
    var uninstalled := w.uninstallTapDriver(false, false);
    if uninstalled.Threw? {
      return uninstalled, calls;
    }
    calls := calls + [InstallTapDriver(true)];
    r := w.installTapDriver(true);
  }

  /**
   * uninstallWintunDriver: DriverUninstallFailed if the deletion fails,
   * DriverUninstalled otherwise.  Its reboot flags are constant false, so it
   * never reports DriverUninstalledReboot.
   */
  method UninstallWintunDriver(w: World) returns (r: Outcome<DriverStatus>, calls: seq<Call>)
    ensures calls == [DeleteWintunDriver]
    ensures r != Returned(DriverUninstalledReboot)
    ensures w.deleteWintunDriver == Returned(false) <==> r == Returned(DriverUninstallFailed)
    ensures w.deleteWintunDriver == Returned(true) <==> r == Returned(DriverUninstalled)
    ensures w.deleteWintunDriver.Threw? ==> r == Threw(w.deleteWintunDriver.error)
  {
    calls := [DeleteWintunDriver];
    var rebootRequiredWireGuard, rebootRequiredOpenVpn, rebootRequiredUninstall := false, false, false;
    match w.deleteWintunDriver {
      case Threw(e) =>
        r := Threw(e);
      case Returned(deleted) =>
        if !deleted {
          r := Returned(DriverUninstallFailed);
        } else if rebootRequiredWireGuard || rebootRequiredOpenVpn || rebootRequiredUninstall {
          r := Returned(DriverUninstalledReboot);
        } else {
          r := Returned(DriverUninstalled);
        }
    }
  }

  /**
   * createWintunAdapter: DriverInstallFailed without an adapter,
   * DriverInstalled with one.  Its reboot flag is constant false, so it never
   * reports DriverInstalledReboot.
   */
  method CreateWintunAdapter(w: World) returns (r: Outcome<DriverStatus>, calls: seq<Call>)
    ensures calls == [RecreateWintunAdapter]
    ensures r != Returned(DriverInstalledReboot)
    ensures w.recreateWintunAdapter == Returned(false) <==> r == Returned(DriverInstallFailed)
    ensures w.recreateWintunAdapter == Returned(true) <==> r == Returned(DriverInstalled)
    ensures w.recreateWintunAdapter.Threw? ==> r == Threw(w.recreateWintunAdapter.error)
  {
    calls := [RecreateWintunAdapter];
    var rebootRequired := false;
    match w.recreateWintunAdapter {
      case Threw(e) =>
        r := Threw(e);
      case Returned(created) =>
        if !created {
          r := Returned(DriverInstallFailed);
        } else if rebootRequired {
          r := Returned(DriverInstalledReboot);
        } else {
          r := Returned(DriverInstalled);
        }
    }
  }

  /**
   * reinstallCalloutDriver: uninstall; when that reports it needs a reboot,
   * stop and report it (the driver file is still in use), otherwise install
   * and report the install's result.
   */
  method ReinstallCalloutDriver(w: World) returns (r: Outcome<DriverStatus>, calls: seq<Call>)
    ensures |calls| >= 1 && calls[0] == UninstallCalloutDriver
    ensures InstallCalloutDriver in calls <==>
              w.uninstallCalloutDriver.Returned? && w.uninstallCalloutDriver.value != DriverUninstalledReboot
    ensures InstallCalloutDriver in calls ==> r == w.installCalloutDriver && calls == [UninstallCalloutDriver, InstallCalloutDriver]
    ensures InstallCalloutDriver !in calls ==> r == w.uninstallCalloutDriver && calls == [UninstallCalloutDriver]
  {
    calls := [UninstallCalloutDriver];
    var uninstallResult := w.uninstallCalloutDriver;
    if uninstallResult.Threw? || uninstallResult.value == DriverUninstalledReboot {
      return uninstallResult, calls;
    }
    calls := calls + [InstallCalloutDriver];
    r := w.installCalloutDriver;
  }

  // ---------------------------------------------------------------------
  // The dispatcher
  // ---------------------------------------------------------------------

  /** The process exit code: a plain code, or the integer value of a DriverStatus. */
  datatype ExitValue = ExitCode(code: int) | ExitStatus(status: DriverStatus)

  /** The catch clause of run: a thrown Error becomes its exit code. */
  function Caught(o: Outcome<ExitValue>): (exit: ExitValue)
    ensures o.Returned? ==> exit == o.value
    ensures o.Threw? ==> exit.ExitCode? && exit.code != 0
  {
    match o
    case Returned(v) => v
    case Threw(e) => ExitCode(ExitCodeForError(e))
  }

  /** A driver operation's result as an exit value. */
  function DriverExit(o: Outcome<DriverStatus>): Outcome<ExitValue> {
    match o
    case Returned(s) => Returned(ExitStatus(s))
    case Threw(e) => Threw(e)
  }

  /** The check-driver hint that follows a callout action, sent unless the action threw. */
  function HintAfter(o: Outcome<DriverStatus>): seq<Call> {
    if o.Returned? then [SendCheckDriverHint] else []
  }

  /**
   * The callout branch of run: the action for the sub-verb, then the
   * check-driver hint unless the action threw.
   */
  method RunCallout(verb: CalloutVerb, w: World) returns (r: Outcome<DriverStatus>, calls: seq<Call>)
    ensures verb == CalloutInstall ==>
              r == w.installCalloutDriver && calls == [InstallCalloutDriver] + HintAfter(r)
    ensures verb == CalloutUninstall ==>
              r == w.uninstallCalloutDriver && calls == [UninstallCalloutDriver] + HintAfter(r)
    ensures verb == CalloutReinstall ==>
              var u := w.uninstallCalloutDriver;
              (u.Threw? ==> r == u && calls == [UninstallCalloutDriver])
              && (u == Returned(DriverUninstalledReboot) ==> r == u && calls == [UninstallCalloutDriver, SendCheckDriverHint])
              && (u.Returned? && u.value != DriverUninstalledReboot ==>
                    r == w.installCalloutDriver && calls == [UninstallCalloutDriver, InstallCalloutDriver] + HintAfter(r))
    ensures SendCheckDriverHint in calls <==> r.Returned?
    ensures SendCheckDriverHint in calls ==>
              |calls| >= 2 && calls[|calls| - 1] == SendCheckDriverHint && SendCheckDriverHint !in calls[..|calls| - 1]
  {
    match verb {
      case CalloutInstall =>
        r, calls := w.installCalloutDriver, [InstallCalloutDriver];
      case CalloutUninstall =>
        r, calls := w.uninstallCalloutDriver, [UninstallCalloutDriver];
      case CalloutReinstall =>
        r, calls := ReinstallCalloutDriver(w);
    }
    if r.Returned? {
      calls := calls + [SendCheckDriverHint];
    }
  }

  /**
   * run: chooses the log file, dispatches on the verb and maps a caught
   * Error to an exit code.  A recognised callout sub-verb sends the
   * check-driver hint after its action, unless the action threw.
   */
  method Run(args: seq<string>, w: World) returns (exit: ExitValue, log: Option<LogFile>, calls: seq<Call>)
    ensures log == LogFileFor(args)
    ensures |args| <= 1 ==> exit == ExitCode(0) && calls == []
    ensures ParseCommand(args) == Help ==> exit == ExitCode(0) && calls == []
    ensures ParseCommand(args) == Unrecognized ==> exit == ExitCode(1) && calls == []
    ensures ParseCommand(args) == RunDaemon ==>
              calls == [RunDaemonCall] && exit == Caught(if w.runDaemon.Threw? then Threw(w.runDaemon.error) else Returned(ExitCode(0)))
    ensures ParseCommand(args).Service? ==>
              var o := w.service(ParseCommand(args).service);
              calls == [ServiceCall(ParseCommand(args).service)]
              && exit == Caught(if o.Threw? then Threw(o.error) else Returned(ExitCode(o.value)))
    ensures ParseCommand(args) == Tap(TapInstall) ==>
              calls == [InstallTapDriver(false)] && exit == Caught(DriverExit(w.installTapDriver(false)))
    ensures ParseCommand(args) == Tap(TapUninstall) ==>
              calls == [UninstallTapDriver(true, false)] && exit == Caught(DriverExit(w.uninstallTapDriver(true, false)))
    ensures ParseCommand(args) == Tap(TapReinstall) ==>
              var u := w.uninstallTapDriver(false, false);
              (u.Threw? ==> calls == [UninstallTapDriver(false, false)] && exit == ExitCode(ExitCodeForError(u.error)))
              && (u.Returned? ==>
                    calls == [UninstallTapDriver(false, false), InstallTapDriver(true)]
                    && exit == Caught(DriverExit(w.installTapDriver(true))))
    ensures ParseCommand(args) == Tun(TunUninstall) ==>
              calls == [DeleteWintunDriver]
              && exit != ExitStatus(DriverUninstalledReboot)
              && (w.deleteWintunDriver == Returned(true) <==> exit == ExitStatus(DriverUninstalled))
              && (w.deleteWintunDriver == Returned(false) <==> exit == ExitStatus(DriverUninstallFailed))
              && (w.deleteWintunDriver.Threw? ==> exit == ExitCode(ExitCodeForError(w.deleteWintunDriver.error)))
    ensures ParseCommand(args) == Tun(TunCreate) ==>
              calls == [RecreateWintunAdapter]
              && exit != ExitStatus(DriverInstalledReboot)
              && (w.recreateWintunAdapter == Returned(true) <==> exit == ExitStatus(DriverInstalled))
              && (w.recreateWintunAdapter == Returned(false) <==> exit == ExitStatus(DriverInstallFailed))
              && (w.recreateWintunAdapter.Threw? ==> exit == ExitCode(ExitCodeForError(w.recreateWintunAdapter.error)))
    ensures ParseCommand(args) == Callout(CalloutInstall) ==>
              calls == [InstallCalloutDriver] + HintAfter(w.installCalloutDriver)
              && exit == Caught(DriverExit(w.installCalloutDriver))
    ensures ParseCommand(args) == Callout(CalloutUninstall) ==>
              calls == [UninstallCalloutDriver] + HintAfter(w.uninstallCalloutDriver)
              && exit == Caught(DriverExit(w.uninstallCalloutDriver))
    ensures ParseCommand(args) == Callout(CalloutReinstall) ==>
              var u := w.uninstallCalloutDriver;
              (u.Threw? ==> calls == [UninstallCalloutDriver] && exit == ExitCode(ExitCodeForError(u.error)))
              && (u == Returned(DriverUninstalledReboot) ==>
                    calls == [UninstallCalloutDriver, SendCheckDriverHint] && exit == ExitStatus(DriverUninstalledReboot))
              && (u.Returned? && u.value != DriverUninstalledReboot ==>
                    calls == [UninstallCalloutDriver, InstallCalloutDriver] + HintAfter(w.installCalloutDriver)
                    && exit == Caught(DriverExit(w.installCalloutDriver)))
    ensures ParseCommand(args).Callout? ==>
              (SendCheckDriverHint in calls <==> exit.ExitStatus?)
              && (SendCheckDriverHint in calls ==> |calls| >= 2 && calls[|calls| - 1] == SendCheckDriverHint
                                                   && SendCheckDriverHint !in calls[..|calls| - 1])
    ensures !ParseCommand(args).Callout? ==> SendCheckDriverHint !in calls
  {
    log := LogFileFor(args);
    var command := ParseCommand(args);
    var outcome: Outcome<ExitValue>;
    match command {
      case Help =>
        outcome, calls := Returned(ExitCode(0)), [];
      case RunDaemon =>
        calls := [RunDaemonCall];
        outcome := if w.runDaemon.Threw? then Threw(w.runDaemon.error) else Returned(ExitCode(0));
      case Service(verb) =>
        calls := [ServiceCall(verb)];
        var o := w.service(verb);
        outcome := if o.Threw? then Threw(o.error) else Returned(ExitCode(o.value));
      case Tap(verb) =>
        var r: Outcome<DriverStatus>;
        match verb {
          case TapInstall =>
            r, calls := w.installTapDriver(false), [InstallTapDriver(false)];
          case TapUninstall =>
            r, calls := w.uninstallTapDriver(true, false), [UninstallTapDriver(true, false)];
          case TapReinstall =>
            r, calls := ReinstallTapDriver(w);
        }
        outcome := DriverExit(r);
      case Tun(verb) =>
        var r: Outcome<DriverStatus>;
        match verb {
          case TunUninstall =>
            r, calls := UninstallWintunDriver(w);
          case TunCreate =>
            r, calls := CreateWintunAdapter(w);
        }
        outcome := DriverExit(r);
      case Callout(verb) =>
        var r: Outcome<DriverStatus>;
        r, calls := RunCallout(verb, w);
        outcome := DriverExit(r);
      case Unrecognized =>
        outcome, calls := Returned(ExitCode(1)), [];
    }
    exit := Caught(outcome);
  }
}
