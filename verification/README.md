# qtxdg-mat and the XdgMimeApps facade, modelled in Dafny

This project models the logic of libqtxdg's default-application tooling:

- the `XdgMimeApps` facade (`src/qtxdg/xdgmimeapps.cpp`): one process-wide
  private state holding one backend, shared by every `XdgMimeApps` object,
  and the guards of `defaultApp` / `setDefaultApp` in front of that backend;
- the `mime` subcommand (`src/tools/mat/mimematcommand.cpp`): validation of
  the parsed command line into a get or set request (`parseCommandLine`),
  and `MimeMatCommand::run`, which turns the request into facade calls,
  output lines and a return value;
- the top-level `main` of qtxdg-mat (`src/tools/mat/qtxdg-mat.cpp`): the
  lookup of the subcommand named by the first positional argument, the
  fallback to help or version, and the help text of `showHelp`.

Files and modules:

| file | module | contents |
|---|---|---|
| `wrappers.dfy` | `Wrappers` | `Option` (a result that may be null) and `Result` |
| `desktop.dfy` | `Desktop` | `DesktopFile` (file name + validity) and `DesktopApi` (the opaque `id` and `load`) |
| `mime_apps.dfy` | `MimeApps` | backend, call trace, global singleton, facade operations |
| `mime_command.dfy` | `MimeCommand` | parsed arguments, `MimeData`, `ParseCommandLine`, `Run` |
| `mat.dfy` | `Mat` | command lookup loop, help text, `Dispatch` (the body of `main`), and `Execute` (the whole tool) |

The GLib backend is opaque: a `Backend` is a pair of functions (what it
answers to "default app for T" and to "set A as default for T"). Every facade
operation returns its value together with the list of calls that reached the
backend, so "a rejected input never reaches the backend" and "an accepted
input is forwarded unchanged and its answer returned as is" are statements
about that list. `XdgDesktopFile::id`, `load` and `isValid` are likewise
opaque: `id` and `load` are the fields of a `DesktopApi` parameter, and
validity is a field of the desktop file.

The command-line parser is not modelled; the model starts from what it
reports. For the `mime` command that is whether `-d`/`--default-app` was
given, its value, and the positional list (whose first entry is the
subcommand name). For `main` it is the positional list and, when no command
matched, whether the help and the version flags were given.

Behaviours of the tool worth knowing:

- `main` discards the return value of the command it runs and returns
  `EXIT_SUCCESS`. Whenever the parser accepts the arguments, the process
  therefore exits with success even when `mime` rejects its command line:
  `MimeCommand.Run` returns 1 in that case, and `Mat.Execute` shows that
  this 1 never becomes the exit status.
- When no command matches, the help flag is checked before the version flag;
  with both given, help is shown.
- The literal output texts are kept as written, including "Could not find
  find '…'" and the command description "Get/Set the default application for
  a mimetpe".

## Model

| member | source | states |
|---|---|---|
| MimeApps.Instance | src/qtxdg/xdgmimeapps.cpp:30-35 | the global accessor stores the private state on first access and afterwards always returns the stored one, whatever a later access would have built |
| MimeApps.NewFacade | src/qtxdg/xdgmimeapps.cpp:49-52 | a new `XdgMimeApps` points at the global instance, and constructing it leaves an already initialised global unchanged |
| MimeApps.NewFacades | src/qtxdg/xdgmimeapps.cpp:30-52 | any number of facades constructed in one process all share the single private state: the one already stored, or else the first one built |
| MimeApps.FacadesAgree | src/qtxdg/xdgmimeapps.cpp:49-78 | two facades obtained in the same process give identical answers and identical backend calls for every `defaultApp` and `setDefaultApp` |
| MimeApps.DefaultApp | src/qtxdg/xdgmimeapps.cpp:59-66 | an empty MIME type yields null and reaches no backend; exactly the non-empty ones are asked of the backend once, unchanged, and the backend's answer is returned as is |
| MimeApps.SetDefaultApp | src/qtxdg/xdgmimeapps.cpp:68-78 | the backend is called iff the MIME type is non-empty, the app is valid and its derived id is non-empty; then with the same pair, once, and its verdict is the result; otherwise the result is false; a true result implies all three guards held |
| MimeApps.CallsAreAdmissible | src/qtxdg/xdgmimeapps.cpp:59-78 | every call either facade operation lets through satisfies that operation's guard |
| MimeCommand.ParseCommandLine | src/tools/mat/mimematcommand.cpp:71-100 | an empty `-d` value is reported first as "no application name"; then fewer than two positional arguments as "mimeType missing"; then, without `-d`, more than one MIME type as "only one mimeType, please"; success holds exactly when none applies, and then the MIME list is the positional list minus its first entry, the mode is set-mode iff `-d` was given, and the request is well formed (non-empty list, empty app name exactly in get mode, one type in get mode) |
| MimeCommand.ParseUnparse | src/tools/mat/mimematcommand.cpp:71-100 | every well-formed request is what parsing its own command line yields |
| MimeCommand.UnparseParse | src/tools/mat/mimematcommand.cpp:71-100 | a successful parse keeps everything of the command line except the value of an unset `-d` |
| MimeCommand.SetEach | src/tools/mat/mimematcommand.cpp:150-157 | set mode calls `setDefaultApp` once per MIME type in list order, printing one line per type with that call's outcome; the backend sees exactly the non-empty types in order when the app passes the facade's checks, and nothing otherwise |
| MimeCommand.Run | src/tools/mat/mimematcommand.cpp:113-160 | `run` returns 1 exactly on a parse error (message, blank line and help on standard error, nothing else) and 0 on every other path, including a failed load and failed sets; get mode prints one line and queries only its one MIME type; a failed load prints "could not find" and calls nothing; set mode prints one line per MIME type and only sets the loaded app |
| MimeCommand.SetModeForwardsInOrder | src/tools/mat/mimematcommand.cpp:143-157 | in set mode with a loaded app that passes the checks, the backend receives one set call per non-empty MIME type in command-line order, and the i-th output line reports the i-th type's outcome |
| MimeCommand.SetEachCallsAdmissible | src/tools/mat/mimematcommand.cpp:151-157 | whatever the set-mode loop sends to the backend carries a non-empty MIME type and a valid app with a non-empty id |
| MimeCommand.RunErrorIdentifiesCause | src/tools/mat/mimematcommand.cpp:77-93 | two failed runs that write the same standard error failed for the same reason, whatever help text follows the message: the printed message identifies the parse error |
| MimeCommand.RunCallsAdmissible | src/tools/mat/mimematcommand.cpp:133-157 | across a whole run no call reaches the backend with an empty MIME type, an invalid app or an app whose id is empty |
| Mat.FirstMatch | src/tools/mat/qtxdg-mat.cpp:76-86 | the least index of a registered command whose name equals the command, or none when no name equals it |
| Mat.FindAndRun | src/tools/mat/qtxdg-mat.cpp:74-86 | the loop scans commands in registration order, runs at most one, runs one iff some name matches, and the one it runs is the first match |
| Mat.HelpTextLayout | src/tools/mat/qtxdg-mat.cpp:35-44 | the help text is the parser's help, a newline, "Available commands:" and a newline, the commands' description, and a final newline; each part can be read back from its position |
| Mat.Dispatch | src/tools/mat/qtxdg-mat.cpp:71-104 | the command is the first positional argument or empty; the first matching command runs with the full positional list; otherwise help is shown when the help flag is set, then the version when the version flag is set, else help; the exit status is success in every case |
| Mat.Execute | src/tools/mat/qtxdg-mat.cpp:65-104 | with `mime` registered and arguments the parser accepts, the process exits with success always; a first argument other than `mime` reaches no backend and prints help or the version; `mime` yields exactly the output and backend calls of `run` on the shared facade |

## Left out

- Locking: the mutex held around each backend call only serialises threads; a single call's result does not depend on it.
- Lifetime of the global private state: its destruction at process teardown and the deletion of the backend are not modelled.
- The GLib backend (`src/qtxdg/xdgmimeappsglibbackend.cpp`): its answers are parameters of the model; what GIO looks up or persists is outside it.
- `XdgDesktopFile`: its loading, validity check and id derivation are defined elsewhere and appear only as opaque functions.
- The command-line parser: `process`/`parse`, unknown-option handling, and the help/version handling inside `process` (which exits the process) are not modelled; the model starts from the parser's outputs.
- The `CommandLineVersionRequested` and `CommandLineHelpRequested` branches of `run` are not modelled: `parseCommandLine` never returns those values.
- `parser->helpText()`, `manager->helpText()` and the version text printed by `showVersion` are inputs; the command manager's help composition is not part of this model.
- Ownership of the record returned by `defaultApp` (`delete defApp`) is replaced by a value.
- Console output is modelled as a list of printed chunks and a standard-error string; the `%1`/`%2` substitution is modelled as plain concatenation.
- `src/tools/mat/matcommandinterface.h` declares the command interface and holds no logic; `showHelp` and `showDescription` of the `mime` command are empty and are not modelled.
- The set-then-get round trip and the idempotence of setting a default depend on what the external service persists; with the backend opaque, the model states only what the facade and the tool forward and return.
- The positional list `main` passes to the command is not what `run` validates: `run` re-parses the process arguments with its own options. The model takes both parses as inputs and does not relate them.
- Exit status on arguments the parser rejects: `process`, called by `parseCommandLine` (src/tools/mat/mimematcommand.cpp:69), prints an error and ends the process with status 1 on an unknown option or a missing option value (for example `mime -d` or `mime -x text/plain`). The model starts after a successful `process`, so its exit status of success holds only for arguments the parser accepts.
- The answers of the backend (`Backend.defaultApp`, `Backend.setDefaultApp`) and of `DesktopApi.id` and `DesktopApi.load` depend only on their arguments for the length of a run: a MIME type listed twice in set mode gets the same verdict twice, and `id(app.fileName())`, recomputed on each pass of the set loop, is taken to give the same answer each time.
