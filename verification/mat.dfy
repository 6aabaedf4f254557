/** The qtxdg-mat tool's `main`: the first positional argument names a
    subcommand; the first registered command with that name is run, at most
    one; when none matches, help (or the version) is shown. Once the parser
    has accepted the arguments, the tool exits with success whatever the
    command returned.

    The command-line parser, the command manager's own help text and the
    version text are inputs of the model, not computed by it. */
module Mat {
  import opened Wrappers
  import opened Desktop
  import opened MimeApps
  import opened MimeCommand

  /** `EXIT_SUCCESS`. */
  const ExitSuccess: int := 0

  /** A registered command: `name()` and `description()`. */
  datatype Command = Command(name: string, description: string)

  /** The one command `main` registers. */
  const MimeEntry: Command := Command("mime", "Get/Set the default application for a mimetpe")

  /** The command name: the first positional argument, or the empty string. */
  function CommandName(args: seq<string>): string {
    if |args| == 0 then [] else args[0]
  }

  /** Reference definition of the lookup: the least index whose command has
      the given name, if any. */
  function FirstMatch(commands: seq<Command>, name: string): (r: Option<nat>)
    ensures r.Some? ==>
      && r.value < |commands|
      && commands[r.value].name == name
      && forall j :: 0 <= j < r.value ==> commands[j].name != name
    ensures r.None? ==> forall j :: 0 <= j < |commands| ==> commands[j].name != name
    decreases |commands|
  {
    if |commands| == 0 then None
    else if commands[0].name == name then Some(0)
    else
      match FirstMatch(commands[1..], name)
      case None => None
      case Some(k) => Some(k + 1)
  }

  /** The lookup loop of `main`: scans the commands in registration order,
      runs the first whose name equals `command`, and stops. `ran` lists the
      indices whose `run` was invoked. */
  method FindAndRun(commands: seq<Command>, command: string) returns (cmdFound: bool, ran: seq<nat>)
    ensures |ran| <= 1
    ensures cmdFound <==> |ran| == 1
    ensures cmdFound <==> exists k :: 0 <= k < |commands| && commands[k].name == command
    ensures cmdFound ==>
      && ran[0] < |commands|
      && commands[ran[0]].name == command
      && forall j :: 0 <= j < ran[0] ==> commands[j].name != command
    ensures ran == (match FirstMatch(commands, command) case Some(k) => [k] case None => [])
  {
    cmdFound := false;
    ran := [];
    var i := 0;
    while i < |commands|
      invariant 0 <= i <= |commands|
      invariant !cmdFound && ran == []
      invariant forall j :: 0 <= j < i ==> commands[j].name != command
    {
      if command == commands[i].name {
        cmdFound := true;
        ran := ran + [i];
      }
      if cmdFound {
        break;
      }
      i := i + 1;
    }
  }

  /** `showHelp`: the parser's help, a newline, the heading of the command
      list, the commands' description, and a final newline. */
  function HelpText(parserHelp: string, commandsDescription: string): string {
    parserHelp + "\n" + "Available commands:\n" + commandsDescription + "\n"
  }

  /** The layout of the help text: each part can be read back at its place,
      so the commands' description is recoverable from the text. */
  lemma HelpTextLayout(parserHelp: string, commandsDescription: string)
    ensures var t := HelpText(parserHelp, commandsDescription);
      && |t| == |parserHelp| + 22 + |commandsDescription|
      && t[..|parserHelp|] == parserHelp
      && t[|parserHelp|..|parserHelp| + 21] == "\nAvailable commands:\n"
      && t[|parserHelp| + 21..|t| - 1] == commandsDescription
      && t[|t| - 1] == '\n'
  {
    var t := HelpText(parserHelp, commandsDescription);
    var n := |parserHelp|;
    assert t == parserHelp + "\nAvailable commands:\n" + commandsDescription + "\n";
    assert t[n + 21..|t| - 1] == commandsDescription;
  }

  /** What `main` ends up doing once the command lookup is over. */
  datatype MainOutcome =
    | Ran(index: nat, args: seq<string>)
    | ShowVersion
    | ShowHelp(text: string)

  /** The body of `main` after parsing. `helpSet` and `versionSet` are the flags of the
      second parse, made only when no command matched. The help flag is
      checked before the version flag, and help is the fallback. Every
      outcome exits with success: a command's own return value is
      discarded. */
  method Dispatch(commands: seq<Command>, positional: seq<string>, helpSet: bool, versionSet: bool,
              parserHelp: string, commandsHelp: string)
    returns (outcome: MainOutcome, exitCode: int)
    ensures exitCode == ExitSuccess
    ensures outcome.Ran? <==> exists k :: 0 <= k < |commands| && commands[k].name == CommandName(positional)
    ensures outcome.Ran? ==>
      && outcome.index < |commands|
      && commands[outcome.index].name == CommandName(positional)
      && (forall j :: 0 <= j < outcome.index ==> commands[j].name != CommandName(positional))
      && outcome.args == positional
    ensures !outcome.Ran? && helpSet ==> outcome == ShowHelp(HelpText(parserHelp, commandsHelp))
    ensures !outcome.Ran? && !helpSet && versionSet ==> outcome == ShowVersion
    ensures !outcome.Ran? && !helpSet && !versionSet ==> outcome == ShowHelp(HelpText(parserHelp, commandsHelp))
  {
    var command := CommandName(positional);
    var cmdFound, ran := FindAndRun(commands, command);
    if cmdFound {
      outcome := Ran(ran[0], positional);
    } else if helpSet {
      outcome := ShowHelp(HelpText(parserHelp, commandsHelp));
    } else if versionSet {
      outcome := ShowVersion;
    } else {
      outcome := ShowHelp(HelpText(parserHelp, commandsHelp));
    }
    exitCode := ExitSuccess;
  }

  /** Everything one process invocation sees as input: the top-level parse,
      the `mime` command's own parse, and the texts the parser and the
      command manager provide. */
  datatype Invocation = Invocation(
    positional: seq<string>,
    helpSet: bool,
    versionSet: bool,
    parserHelp: string,
    commandsHelp: string,
    versionText: string,
    mimeArgs: ParsedArgs,
    mimeHelp: string)

  /** What the process does: its exit status, standard output and error,
      and the calls that reached the backend. */
  datatype ProcessResult = ProcessResult(exitCode: int, out: seq<string>, err: string, calls: seq<BackendCall>)

  /** The whole tool: `main` with the `mime` command registered, in a process
      whose global facade state is `g` (`build` is what a first access would
      create), for arguments the parser accepts. The `mime` command's exit
      code never becomes the process's. */
  method Execute(g: Global, build: Private, api: DesktopApi, inv: Invocation) returns (r: ProcessResult)
    ensures r.exitCode == ExitSuccess
    ensures CommandName(inv.positional) != "mime" ==> r.calls == [] && r.err == []
    ensures CommandName(inv.positional) == "mime" ==>
      var run := Run(NewFacade(g, build).1, api, inv.mimeArgs, inv.mimeHelp);
      r == ProcessResult(ExitSuccess, run.out, run.err, run.calls)
    ensures CommandName(inv.positional) != "mime" && !inv.helpSet && inv.versionSet ==>
      r.out == [inv.versionText]
    ensures CommandName(inv.positional) != "mime" && (inv.helpSet || !inv.versionSet) ==>
      r.out == [HelpText(inv.parserHelp, inv.commandsHelp)]
  {
    assert [MimeEntry][0].name == "mime";
    var outcome, exitCode := Dispatch([MimeEntry], inv.positional, inv.helpSet, inv.versionSet,
                                  inv.parserHelp, inv.commandsHelp);
    match outcome {
      case Ran(_, _) =>
        var facade := NewFacade(g, build).1;
        var run := Run(facade, api, inv.mimeArgs, inv.mimeHelp);
        r := ProcessResult(exitCode, run.out, run.err, run.calls);
      case ShowVersion =>
        r := ProcessResult(exitCode, [inv.versionText], [], []);
      case ShowHelp(text) =>
        r := ProcessResult(exitCode, [text], [], []);
    }
  }
}
