# Plot-script interpreter, modelled in Dafny

This project models the interpreter in `plot_director.py`. The interpreter drives a pen plotter from a plot script: a text stream of device calls, option assignments, macro definitions, pause directives and comments. It runs the lines one at a time. Before each line it reads one key from the terminal and discards it; when the plot is paused, `wait_on_continue` then reads keys until the resume key `c` arrives.

The modules follow the program's structure:

- `Wrappers` holds `Option`.
- `Text` holds the Python string operations the interpreter relies on: `strip()`, `re.split(r'\s+', ...)`, `str.split('|')`, `str.partition(' ')` and `s[k:]`.
- `PyInt` is Python's `int()` on a token: an optional sign, ASCII digits, and single underscores between digits.
- `Casts` is the constant table `PARAM_CASTS` and `convert_params`.
- `Semantics` gives, as functions on values, what each step of the interpreter does:
  - its state is the macro table, the pause flag, and the record of what was sent to the device and the console;
  - the functions cover one statement (`Exec`), the pieces of a macro body (`ExecPieces`), the pause gate (`Wait`), the stream of lines (`RunStream`) and a whole run (`RunCommands`).
- `Director` holds the classes:
  - `MacroTable` is the class-level `definitions` dict, shared by reference.
  - `PlotDirector` has the source's methods, which update the director in place. Each method is proved to do exactly what its `Semantics` function says.
- `Properties` proves what the interpreter promises over those functions: casting, dispatch precedence, the device-call error boundary, options, macros and the recursion bound, the pause gate, and the end of a run.
- `Scenarios` proves facts about two scripts read by the stream. The first is the whole script `def home moveto 0.0 0.0`, `options speed_pendown 25`, `home`, `# done`. The second is a line with a bad float argument, `lineto 1.5 abc`, followed by any lines.

Modelling choices:

- **Device.** The `NextDraw` device is a `Device` record:
  - `hasFunction` answers `getattr(ad, name)`;
  - `invoke` answers a call, and `setOption` answers an option assignment;
  - each answer is `Accepted` or `Rejected(msg)`, where `Rejected` means the device raised.
- **Record.** What the interpreter does is recorded as a sequence of `Event`s:
  - `Echo`, `Call`, `Error`, `SetOption`, `OptionError` and `NoOptionPair`;
  - `Notify`, `PausePrompt` and `Continuing`;
  - `FileMissing`.
- **Keys.** The terminal is the sequence of values that successive `getch()` calls return.
  - Each line's poll consumes one key.
  - `wait_on_continue` consumes one key per iteration and resumes on `ord('c')`.
- **Recursion depth.** Macro expansion has no cycle guard. The `fuel` of `Exec` is the recursion depth Python has left.
  - Invoking a macro with no depth left raises `RecursionError`.
  - Raised there, in `process_statement` outside any `try`, nothing catches it and it ends the run. Python can also reach the limit inside the `try` of `process_function` (plot_director.py:66-73); that case is under "Left out".
- **Uncaught exceptions.** An exception that nothing catches ends the run. That includes the exceptions of `process_option` and the final `moveto`. The model returns it as `Raised`, `Aborted` or `Crashed` instead of running on.

Two behaviours of the code deserve a note:

- **Option errors are not caught.** In `process_option` (plot_director.py:80), the cast and the `[0]` index sit outside the `try`.
  - So an unregistered name (`IndexError`) and a value the converter rejects both propagate out of `process_statement`, `process_stream` and `process_commands`. The run stops, and the final `moveto(0.0, 0.0)` is not issued.
  - Only a failing `setattr` is caught and reported.
- **The macro table is shared.** `definitions` is declared on the class (plot_director.py:62), so every `PlotDirector` of a process reads and writes the same dict, and a definition outlives the run that made it. The model gives each director a reference to a `MacroTable`; directors built with the same table share it, as `Director.DefineThroughOne` shows. That every director of a process holds the same table is up to the caller that builds them.

## Model

| member | source | states |
|---|---|---|
| Text.Strip | plot_director.py:117 | `strip()` is empty exactly when the input is all whitespace; otherwise it is the contiguous slice that starts at the first non-whitespace character and is followed only by whitespace, and it neither starts nor ends with whitespace |
| Text.StripTrimmed | plot_director.py:137 | stripping a line with no whitespace at either end returns it unchanged |
| Text.StripIdempotent | plot_director.py:137 | stripping twice is stripping once |
| Text.SplitWs | plot_director.py:96 | `re.split(r'\s+', s)` has at least one piece; the first piece is the text before the first whitespace; no piece contains whitespace |
| Text.SplitWsWord | plot_director.py:96 | a string with no whitespace splits into itself alone |
| Text.SplitWsCons | plot_director.py:96 | a whitespace-free word followed by a whitespace run of any length is the first piece, and the rest after the run is split on its own; so consecutive pieces are separated by exactly one whitespace run |
| Text.SplitWsJoin | plot_director.py:96 | splitting non-empty words joined by single spaces gives back exactly those words |
| Text.SplitWsKeepsText | plot_director.py:96 | the pieces, concatenated, are exactly the non-whitespace characters of the statement, in order |
| Text.SplitWsTrimmed | plot_director.py:96 | on a stripped statement every piece is non-empty, so the command name is never empty |
| Text.SplitOn | plot_director.py:116 | `split('\|')` has at least one piece and no piece contains `\|` |
| Text.JoinSplitOn | plot_director.py:116 | joining the pieces with `\|` gives back the macro body |
| Text.SplitOnJoin | plot_director.py:116 | splitting a `\|`-join of `\|`-free pieces gives back those pieces |
| Text.Partition | plot_director.py:89 | `partition(' ')` puts no space in the name; with a space present, name, space and rest rebuild the input; without one the rest is empty |
| Text.Drop | plot_director.py:100 | `s[k:]` is the suffix after the first `k` characters, empty once `k` passes the end |
| PyInt.ParseInt | plot_director.py:12 | `int(token)` fails on the empty token; a success means only digits, underscores and a leading sign; without a leading `-` the value is non-negative |
| PyInt.ParseIntStr | plot_director.py:12 | `int` parses the decimal text of every integer back to that integer |
| PyInt.ParseIntUnderscore | plot_director.py:12 | `int("1_000")` is 1000, and `"1__000"` and `"_1"` are rejected |
| Casts.Apply | plot_director.py:51 | `bool` gives true exactly for a non-empty token; the identity returns the token; `int`, `float` and `literal_eval` succeed exactly when the token parses, and then give the parsed value; a failure names the converter and the token |
| Casts.Cast | plot_director.py:51 | the comprehension succeeds exactly when there are enough tokens and every converter accepts its token; it then returns one value per converter, value i being converter i on token i; with too few tokens and no earlier failure it raises `IndexError` |
| Casts.ConvertParams | plot_director.py:49-53 | an unregistered name gives `[]` whatever the tokens; a registered name of arity N succeeds exactly when there are at least N tokens and each converter accepts its token, and then gives N values |
| Casts.ParamCasts | plot_director.py:11-41 | the table itself: one converter list per command name, in positional order; `Casts.ArityBounds` and `Casts.ConstSpeedIsTruthy` state what is proved about it |
| Casts.ArityBounds | plot_director.py:11-41 | every registered command takes one or two typed arguments |
| Casts.CastIgnoresExtra | plot_director.py:51 | tokens after the last converter do not change the cast |
| Casts.ConvertIgnoresExtra | plot_director.py:49-53 | `convert_params` on any tokens equals `convert_params` on the first N of them |
| Casts.CastFirstFailure | plot_director.py:51 | the first failing position decides the error, whatever follows |
| Casts.ConstSpeedIsTruthy | plot_director.py:21 | `const_speed` with any non-empty token, `0` included, casts to `True` |
| Semantics.FunctionEvent | plot_director.py:64-75 | a device call always yields exactly one call or one error, naming the command; a call happens only when the function exists and the device accepted it |
| Semantics.ExecOption | plot_director.py:77-86 | an option statement never touches the table or the flag; if it raises it records nothing; otherwise it records exactly one event |
| Semantics.NextResume | plot_director.py:150-156 | the position after the first `c` at or after the cursor, or none when no `c` is left |
| Semantics.Wait | plot_director.py:150-156 | unpaused, nothing is read; paused, the keys up to and including the first `c` are consumed and the flag is cleared with a `Continuing` event; with no `c` left the flag stays set and nothing changes |
| Semantics.Define | plot_director.py:88-90 | the definition of `process_definition`: store the text after the first space under the text before it; `Properties.DefineSpec` states what it does |
| Semantics.Exec | plot_director.py:92-113 | the definition of `process_statement`: a comment is echoed, then `def`, `options` and `pause` are dispatched before the macro table and the device, and a macro invoked with no depth left raises `RecursionError`; what is proved about it is in the Properties rows |
| Semantics.ExecPieces | plot_director.py:115-119 | the definition of `process_definition_body` after the split: each stripped, non-blank piece runs in order, and an exception ends the body; what is proved about it is in the Properties rows |
| Semantics.Poll | plot_director.py:128-132 | the per-line `getch()`, whose key is read and discarded: it consumes one key when one is left |
| Semantics.RunStream | plot_director.py:121-139 | the definition of `process_stream`: per line, one discarded key, the pause prompt and the wait when paused, then the stripped line if it is not blank; what is proved about it is in the Properties rows |
| Semantics.RunCommands | plot_director.py:141-148 | the definition of `process_commands`: a missing script is reported, otherwise the stream runs and, when it finishes, `moveto(0.0, 0.0)` and the completion notice follow; `Properties.MissingScriptTouchesNothing` and `Properties.RunEndsAtOrigin` state what it does |
| Director.MacroTable.constructor | plot_director.py:62 | the table starts empty |
| Director.PlotDirector.constructor | plot_director.py:57-60 | a new director is unpaused, has recorded nothing, and uses the given device and table |
| Director.PlotDirector.ProcessFunction | plot_director.py:64-75 | appends exactly the event `FunctionEvent` gives and changes nothing else |
| Director.PlotDirector.ProcessOption | plot_director.py:77-86 | the new state and outcome are those of `ExecOption` on the old state |
| Director.PlotDirector.ProcessDefinition | plot_director.py:88-90 | the table becomes the old table with the partitioned name mapped to the body |
| Director.PlotDirector.ProcessStatement | plot_director.py:92-113 | the new state and outcome are those of `Exec` on the old state, with the given recursion depth |
| Director.PlotDirector.ProcessDefinitionBody | plot_director.py:115-119 | the loop over the `\|`-pieces ends in the state and outcome of `ExecPieces` |
| Director.PlotDirector.WaitOnContinue | plot_director.py:150-156 | the busy-wait loop ends in the state and key position of `Wait` |
| Director.PlotDirector.ProcessStream | plot_director.py:121-139 | the loop over the lines ends in the state and outcome of `RunStream` from the old state |
| Director.PlotDirector.ProcessCommands | plot_director.py:141-148 | the new state and outcome are those of `RunCommands` |
| Director.DefineThroughOne | plot_director.py:62 | a definition made through one director is seen by every director sharing the table; that director's flag and record do not change |
| Properties.PartitionAt | plot_director.py:89 | `partition` splits at the first separator |
| Properties.CommentOnlyEchoes | plot_director.py:93-95 | a `#` statement only echoes itself: no device call, no table or flag change |
| Properties.PauseSetsFlag | plot_director.py:103-107 | `pause<text>` sets the flag and notifies `Plot Paused: ` followed by `statement[6:]`, whatever the macro table holds |
| Properties.PauseMessageText | plot_director.py:104 | `pause <text>` notifies exactly `Plot Paused: <text>` |
| Properties.DeviceCallBoundary | plot_director.py:64-75 | a statement that reaches the device never raises and leaves the table and the flag alone; it appends one event, a call or an error, naming the command |
| Properties.DeviceLineContinues | plot_director.py:137-139 | after a device-call line the stream goes on with the next line, whatever the device did |
| Properties.BareCommandSkipsCasting | plot_director.py:67-70 | a command with no tokens is called with no arguments, even when casting no tokens would raise `IndexError` |
| Properties.FunctionEventCases | plot_director.py:64-75 | once the arguments are known (`[]` for a bare command, the cast of the tokens otherwise): a missing function records `AttributeError`, an accepted call records the call with exactly those arguments, a rejected call records `DeviceError` with the device's message |
| Properties.CastFailureReported | plot_director.py:66-75 | a failing cast is reported as an error naming the command, carrying the cast's exception |
| Properties.OptionWithoutPair | plot_director.py:85-86 | `options` with fewer than two tokens records `NoOptionPair` and sets nothing |
| Properties.UnregisteredOptionRaises | plot_director.py:78-80 | an unregistered option name raises `IndexError` out of the statement and records nothing |
| Properties.BadOptionValueRaises | plot_director.py:80 | a rejected option value raises the converter's error out of the statement and records nothing |
| Properties.OptionSetsFirstValue | plot_director.py:78-84 | otherwise the option is set to the first cast value, or the failed assignment is reported |
| Properties.DefineSpec | plot_director.py:88-90 | `partition(' ')` then store: the table gains exactly the name before the first space, which contains no space; the body is the text after that space, or "" when there is none; every other macro keeps its body |
| Properties.DefStores | plot_director.py:99-100 | `def <name> <body>` maps the name to the body, replacing any earlier body, and runs nothing |
| Properties.RedefinitionOverwrites | plot_director.py:90 | after two definitions of a name, only the second body is stored |
| Properties.MacroRunsPieces | plot_director.py:109-111 | invoking a macro whose body is `\|`-joined pieces runs exactly those pieces, one depth level down; with no depth left it raises `RecursionError` |
| Properties.ExecPiecesAppend | plot_director.py:115-119 | running `a` then `b` as pieces is running `a`, then `b` unless `a` raised |
| Properties.DefineThenInvoke | plot_director.py:109-119 | defining a macro and invoking it is submitting its pieces one by one |
| Properties.PauseInBodyContinues | plot_director.py:115-119 | a `pause` inside a macro body sets the flag and the pieces after it still run |
| Properties.ExecFuelMonotone | plot_director.py:109-111 | a statement that did not run out of depth does the same with any larger depth |
| Properties.PiecesFuelMonotone | plot_director.py:115-119 | the same for the pieces of a body |
| Properties.SelfInvocationRaises | plot_director.py:109-111 | with no cycle guard, a macro that invokes itself raises `RecursionError` at every depth and records nothing |
| Properties.ExecExtends | plot_director.py:92-113 | a statement only appends to the record and never removes a macro |
| Properties.PiecesExtend | plot_director.py:115-119 | the same for a macro body |
| Properties.RunStreamAppend | plot_director.py:125-139 | reading `a` then `b` is reading `a`, then, if it finished, `b` from the state and key position where it stopped |
| Properties.PausedStreamHolds | plot_director.py:134-136 | while paused with no `c` ahead, the next line does not run: the stream stops after the prompt |
| Properties.ResumeRunsNextLine | plot_director.py:134-139 | with a `c` ahead, the prompt is shown, the flag cleared, and the line runs as in an unpaused stream reading keys after the `c` |
| Properties.PauseOnLastLine | plot_director.py:125-139 | a `pause` on the last line never blocks: the stream finishes, with the flag set |
| Properties.MissingScriptTouchesNothing | plot_director.py:147-148 | a missing script records only the missing-file message and sends nothing to the device |
| Properties.RunEndsAtOrigin | plot_director.py:141-146 | a run completes exactly when the stream finished and `moveto(0.0, 0.0)` succeeded; it then ends with that one call and the completion notice; otherwise nothing follows the stream |
| Scenarios.IntOptionLine | plot_director.py:77-86 | `options <name> <token>` for an integer option the device accepts records the assignment of the parsed integer |
| Scenarios.PairCallLine | plot_director.py:108-113 | a three-word statement that is neither a keyword nor a macro goes to the device as one event |
| Scenarios.PairCallBadSecond | plot_director.py:66-75 | a two-float command whose second token does not parse is reported as that conversion error |
| Scenarios.SingleMacroLine | plot_director.py:109-119 | invoking a macro whose body is one trimmed statement runs that statement one depth level down |
| Scenarios.HomeScriptRun | plot_director.py:121-139 | `def home moveto 0.0 0.0`, `options speed_pendown 25`, `home`, `# done` read by `process_stream` finishes with `speed_pendown` set to the integer 25, `moveto` called once with `(0.0, 0.0)`, the comment echoed, and no error |
| Scenarios.HomeEndToEnd | plot_director.py:141-148 | the same script through `process_commands` completes: the trace is `speed_pendown` set to 25, `moveto(0.0, 0.0)` from the macro, the echoed comment, `moveto(0.0, 0.0)` again from the end of the run, and the completion notice |
| Scenarios.BadFloatReported | plot_director.py:64-75 | `lineto 1.5 abc` is reported as a float conversion error on `abc` naming `lineto`, and the next line still runs |

## Left out

- **Terminal and timing.** `curses` set-up, `cbreak`, `nodelay` and `time.sleep` are left out; `getch()` is a sequence of key values.
- **Stopping.** `Semantics.Wait`, `Semantics.RunStream` and `Director.PlotDirector.WaitOnContinue` model an operator who never presses `c` by a key sequence that runs out. The result is `Blocked` or `Waiting`; the program itself waits forever.
- **Recursion depth.** `Semantics.Exec`: the `fuel` stands for Python's remaining recursion depth. The exact number of stack frames each expansion level costs, and the interpreter's own frames, are not modelled.
- `Semantics.Exec`: a `RecursionError` raised inside `process_function`'s `try` (by the cast, the list comprehension's frame, `getattr` or the device method's own frames) is caught at plot_director.py:74 and reported by the program, and the body goes on; the model never records `Error(name, RecursionError)` and only raises it when a macro is invoked with no depth left.
- **Notifier.** `notify` and `requests.post` are network I/O; a `Notify(msg)` event stands for them.
  - A failing POST is not modelled.
  - Both call sites use the module-level `webhook_url` rather than `self.webhook_url`. That name exists only when the file runs as a script, and the model assumes it does.
- **Printed text.** The exact text of `print` output is left out. Events carry the data each message shows.
- **Device.** The `NextDraw` device and the reflective `getattr`/`setattr` are the `Device` record. What the device does with a call is not modelled. Its replies are fixed functions of the name and the arguments, so an option assignment or an earlier call cannot change whether a later call succeeds.
- **Float and literal parsing.** `float` and `ast.literal_eval` are opaque parsers that may fail. `FloatV` holds a `real`, so Python's `inf` and `nan` (from tokens such as `inf`, `nan` or `1e999`) cannot be represented: the parser must report such a token either as a failure or as some finite stand-in, and the model does not say which the device then receives.
  - `PyInt.ParseInt` covers ASCII digits only. Python's `int` also accepts other Unicode decimal digits and surrounding whitespace, but the interpreter never passes it surrounding whitespace. Python 3.10.7 and later also reject, with a `ValueError`, `int()` of a token of more than 4300 digits; `ParseInt` accepts such tokens, so `PyInt.ParseIntStr` ("every integer") does not hold for the program on integers that long.
- **Final moveto.** `Semantics.RunCommands` treats the final `self.ad.moveto(0.0, 0.0)` like any device function: a device without it raises `AttributeError`, and the run ends with that exception.
- **File I/O.** `os.path.isfile` and reading the file become a `present` flag and the list of lines.
- **Entry point.** `safe()` and the `__main__` bootstrap are interactive start-up and hardware checks, and are left out.
- **Exceptions.** A `KeyboardInterrupt` or any other exception not raised by the modelled code is left out.
