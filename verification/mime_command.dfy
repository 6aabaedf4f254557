/** The `mime` subcommand of the qtxdg-mat tool: validation of the parsed
    command line into a get or set request, and the run that turns that
    request into facade calls, output lines and an exit code.

    The model starts from what the command-line parser reports: whether
    `-d`/`--default-app` was given, its value, and the positional arguments
    (the first of which is the subcommand name). */
module MimeCommand {
  import opened Wrappers
  import opened Desktop
  import opened MimeApps

  /** The parser's outputs after `process`. */
  datatype ParsedArgs = ParsedArgs(defAppSet: bool, defAppValue: string, positional: seq<string>)

  datatype Mode = GetDefApp | SetDefApp

  /** `MimeData`: what a successful parse produces. */
  datatype MimeData = MimeData(mode: Mode, defAppName: string, mimeTypes: seq<string>)

  /** The three ways validation fails, in the order they are checked. */
  datatype ParseError = NoApplicationName | MimeTypeMissing | OnlyOneMimeType

  function ErrorMessage(e: ParseError): string {
    match e
    case NoApplicationName => "no application name"
    case MimeTypeMissing => "mimeType missing"
    case OnlyOneMimeType => "only one mimeType, please"
  }

  /** The shape every request handed to `run` has: at least one MIME type;
      get mode with no application name and exactly one MIME type; set mode
      with a non-empty application name. */
  predicate WellFormed(d: MimeData) {
    && |d.mimeTypes| >= 1
    && (d.mode == GetDefApp <==> d.defAppName == [])
    && (d.mode == GetDefApp ==> |d.mimeTypes| == 1)
  }

  /** `parseCommandLine` after `process`. Errors are checked in a fixed order:
      an empty application name, then too few positional arguments, then
      more than one MIME type in get mode. On success the subcommand name is
      dropped from the positional list. */
  function ParseCommandLine(a: ParsedArgs): (r: Result<MimeData, ParseError>)
    ensures a.defAppSet && a.defAppValue == [] ==> r == Failure(NoApplicationName)
    ensures r == Failure(MimeTypeMissing) <==>
      !(a.defAppSet && a.defAppValue == []) && |a.positional| < 2
    ensures r == Failure(OnlyOneMimeType) <==>
      !a.defAppSet && |a.positional| > 2
    ensures r.Success? <==>
      (a.defAppSet ==> a.defAppValue != []) && |a.positional| >= 2
      && (!a.defAppSet ==> |a.positional| == 2)
    ensures r.Success? ==>
      && WellFormed(r.value)
      && [a.positional[0]] + r.value.mimeTypes == a.positional
      && (r.value.mode == SetDefApp <==> a.defAppSet)
      && (a.defAppSet ==> r.value.defAppName == a.defAppValue)
  {
    var defAppName := if a.defAppSet then a.defAppValue else [];
    if a.defAppSet && defAppName == [] then Failure(NoApplicationName)
    else if |a.positional| < 2 then Failure(MimeTypeMissing)
    else
      var mimeTypes := a.positional[1..];
      if !a.defAppSet && |mimeTypes| > 1 then Failure(OnlyOneMimeType)
      else
        Success(MimeData(if a.defAppSet then SetDefApp else GetDefApp, defAppName, mimeTypes))
  }

  /** The command line that produces `d` when the subcommand is called `name`:
      the inverse of a successful parse. */
  function Unparse(d: MimeData, name: string): ParsedArgs {
    ParsedArgs(d.mode == SetDefApp, d.defAppName, [name] + d.mimeTypes)
  }

  /** Every well-formed request is reached by parsing its own command line. */
  lemma ParseUnparse(d: MimeData, name: string)
    requires WellFormed(d)
    ensures ParseCommandLine(Unparse(d, name)) == Success(d)
  {
  }

  /** A successful parse loses nothing but the value of an unset option. */
  lemma UnparseParse(a: ParsedArgs)
    requires ParseCommandLine(a).Success?
    ensures Unparse(ParseCommandLine(a).value, a.positional[0])
      == ParsedArgs(a.defAppSet, if a.defAppSet then a.defAppValue else [], a.positional)
  {
  }

  /** What one invocation of `run` does: its return value, the chunks written
      to standard output, the text written to standard error, and the calls
      that reached the backend. */
  datatype RunResult = RunResult(exitCode: int, out: seq<string>, err: string, calls: seq<BackendCall>)

  function NoDefaultLine(mimeType: string): string {
    "No default application for '" + mimeType + "'\n"
  }

  function NotFoundLine(appName: string): string {
    "Could not find find '" + appName + "'\n"
  }

  function SetLine(fileName: string, mimeType: string, ok: bool): string {
    if ok then "Set '" + fileName + "' as default for '" + mimeType + "'\n"
    else "Could not set '" + fileName + "' as default for '" + mimeType + "'\n"
  }

  /** The MIME types of `mimeTypes` that pass the facade's own check. */
  function NonEmpty(mimeTypes: seq<string>): (r: seq<string>)
    ensures forall m :: m in r <==> m in mimeTypes && m != []
    ensures |r| <= |mimeTypes|
  {
    if mimeTypes == [] then []
    else if mimeTypes[0] == [] then NonEmpty(mimeTypes[1..])
    else [mimeTypes[0]] + NonEmpty(mimeTypes[1..])
  }

  /** The backend calls `SetDefaultAppCall(m, app)` for `m` in order. */
  function SetCalls(mimeTypes: seq<string>, app: DesktopFile): (r: seq<BackendCall>)
    ensures |r| == |mimeTypes|
    ensures forall i :: 0 <= i < |r| ==> r[i] == SetDefaultAppCall(mimeTypes[i], app)
    decreases |mimeTypes|
  {
    if mimeTypes == [] then []
    else [SetDefaultAppCall(mimeTypes[0], app)] + SetCalls(mimeTypes[1..], app)
  }

  /** The loop of set mode: `setDefaultApp` once per MIME type, in order,
      with one success or failure line each. */
  function SetEach(f: Facade, api: DesktopApi, app: DesktopFile, mimeTypes: seq<string>): (r: Traced<seq<string>>)
    ensures |r.value| == |mimeTypes|
    ensures forall i :: 0 <= i < |mimeTypes| ==>
      r.value[i] == SetLine(app.fileName, mimeTypes[i], SetDefaultApp(f, api, mimeTypes[i], app).value)
    ensures app.valid && api.id(app.fileName) != [] ==> r.calls == SetCalls(NonEmpty(mimeTypes), app)
    ensures !(app.valid && api.id(app.fileName) != []) ==> r.calls == []
    decreases |mimeTypes|
  {
    if mimeTypes == [] then Traced([], [])
    else
      var one := SetDefaultApp(f, api, mimeTypes[0], app);
      var rest := SetEach(f, api, app, mimeTypes[1..]);
      assert mimeTypes[0] != [] ==> NonEmpty(mimeTypes) == [mimeTypes[0]] + NonEmpty(mimeTypes[1..]);
      Traced([SetLine(app.fileName, mimeTypes[0], one.value)] + rest.value, one.calls + rest.calls)
  }

  /** `MimeMatCommand::run`, given the parser's outputs and its help text.
      A parse error prints the message, a blank line and the help text to
      standard error and returns 1; every other path returns 0. Get mode
      asks the facade about the one MIME type. Set mode loads the named
      application and, if that succeeds, sets it for every MIME type. */
  function Run(f: Facade, api: DesktopApi, a: ParsedArgs, helpText: string): (r: RunResult)
    ensures r.exitCode == 1 <==> ParseCommandLine(a).Failure?
    ensures r.exitCode == 0 <==> ParseCommandLine(a).Success?
    ensures ParseCommandLine(a).Failure? ==>
      r.err == ErrorMessage(ParseCommandLine(a).error) + "\n\n" + helpText
      && r.out == [] && r.calls == []
    ensures ParseCommandLine(a).Success? ==> r.err == []
    ensures ParseCommandLine(a).Success? && !a.defAppSet ==>
      |a.positional| == 2 && |r.out| == 1
      && (a.positional[1] == [] ==> r.calls == [] && r.out == [NoDefaultLine(a.positional[1])])
      && (a.positional[1] != [] ==> r.calls == [DefaultAppCall(a.positional[1])])
      && (f.d.backend.defaultApp(a.positional[1]).None? ==> r.out == [NoDefaultLine(a.positional[1])])
      && (a.positional[1] != [] && f.d.backend.defaultApp(a.positional[1]).Some? ==>
            r.out == [api.id(f.d.backend.defaultApp(a.positional[1]).value.fileName) + "\n"])
    ensures ParseCommandLine(a).Success? && a.defAppSet && api.load(a.defAppValue).None? ==>
      r.out == [NotFoundLine(a.defAppValue)] && r.calls == []
    ensures ParseCommandLine(a).Success? && a.defAppSet && api.load(a.defAppValue).Some? ==>
      |r.out| == |a.positional| - 1
      && (forall c :: c in r.calls ==> c.SetDefaultAppCall? && c.app == api.load(a.defAppValue).value)
  {
    match ParseCommandLine(a)
    case Failure(e) => RunResult(1, [], ErrorMessage(e) + "\n\n" + helpText, [])
    case Success(data) =>
      if data.mode == GetDefApp then
        var mimeType := data.mimeTypes[0];
        var found := DefaultApp(f, mimeType);
        var line := match found.value
          case Some(app) => api.id(app.fileName) + "\n"
          case None => NoDefaultLine(mimeType);
        RunResult(0, [line], [], found.calls)
      else
        match api.load(data.defAppName)
        case None => RunResult(0, [NotFoundLine(data.defAppName)], [], [])
        case Some(app) =>
          var report := SetEach(f, api, app, data.mimeTypes);
          RunResult(0, report.value, [], report.calls)
  }

  /** In set mode with a loadable application that passes the facade's
      checks, the backend is asked once per non-empty MIME type, in command
      line order, and each output line reports that type's outcome. */
  lemma SetModeForwardsInOrder(f: Facade, api: DesktopApi, a: ParsedArgs, helpText: string)
    requires ParseCommandLine(a).Success? && a.defAppSet
    requires api.load(a.defAppValue).Some?
    ensures var app := api.load(a.defAppValue).value;
      var r := Run(f, api, a, helpText);
      && (app.valid && api.id(app.fileName) != [] ==> r.calls == SetCalls(NonEmpty(a.positional[1..]), app))
      && (forall i :: 1 <= i < |a.positional| ==>
            r.out[i - 1] == SetLine(app.fileName, a.positional[i],
                                    SetDefaultApp(f, api, a.positional[i], app).value))
  {
  }

  /** The set-mode loop lets nothing through that the facade's checks
      would have refused. */
  lemma {:induction false} SetEachCallsAdmissible(f: Facade, api: DesktopApi, app: DesktopFile, mimeTypes: seq<string>)
    ensures AllAdmissible(api, SetEach(f, api, app, mimeTypes).calls)
  {
    if mimeTypes != [] {
      SetEachCallsAdmissible(f, api, app, mimeTypes[1..]);
      CallsAreAdmissible(f, api, mimeTypes[0], app);
      var one := SetDefaultApp(f, api, mimeTypes[0], app);
      var rest := SetEach(f, api, app, mimeTypes[1..]);
      assert SetEach(f, api, app, mimeTypes).calls == one.calls + rest.calls;
    }
  }

  /** Across a whole run, nothing reaches the backend that the facade's
      checks would have refused: no empty MIME type, no invalid desktop file,
      no file whose id is empty. */
  lemma RunCallsAdmissible(f: Facade, api: DesktopApi, a: ParsedArgs, helpText: string)
    ensures AllAdmissible(api, Run(f, api, a, helpText).calls)
  {
    if ParseCommandLine(a).Success? && a.defAppSet && api.load(a.defAppValue).Some? {
      SetEachCallsAdmissible(f, api, api.load(a.defAppValue).value, a.positional[1..]);
    }
  }

  /** What `run` writes to standard error names the parse error: two failed
      runs whose standard error is the same, whatever help text follows the
      message, failed for the same reason. */
  lemma RunErrorIdentifiesCause(f: Facade, api: DesktopApi, a1: ParsedArgs, a2: ParsedArgs, help1: string, help2: string)
    requires ParseCommandLine(a1).Failure? && ParseCommandLine(a2).Failure?
    requires Run(f, api, a1, help1).err == Run(f, api, a2, help2).err
    ensures ParseCommandLine(a1).error == ParseCommandLine(a2).error
  {
    var e1, e2 := ParseCommandLine(a1).error, ParseCommandLine(a2).error;
    assert Run(f, api, a1, help1).err[0] == ErrorMessage(e1)[0];
    assert Run(f, api, a2, help2).err[0] == ErrorMessage(e2)[0];
  }
}
