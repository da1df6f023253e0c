/**
 * What the plot-script interpreter does, as functions on values: the state
 * it keeps (the macro table, the pause flag and the record of what it did to
 * the device and the console), one statement, the pieces of a macro body,
 * the pause gate, the stream of script lines and the end of a run. The
 * `Director` module proves its methods against these functions.
 */
module Semantics {
  import opened Wrappers
  import opened Text
  import opened Casts

  /** What the device answers to a call or an option assignment. */
  datatype Reply = Accepted | Rejected(msg: string)

  /**
   * The plotter as the interpreter reaches it: `getattr(ad, name)` succeeds
   * exactly for the names in `hasFunction`; calling a function or setting an
   * option either returns normally or raises with a message.
   */
  datatype Device = Device(
    parsers: Parsers,
    hasFunction: string -> bool,
    invoke: (string, seq<Value>) -> Reply,
    setOption: (string, Value) -> Reply)

  /** One observable thing the interpreter did, in order. */
  datatype Event =
    | Echo(text: string)                                   // a comment printed verbatim
    | Call(name: string, args: seq<Value>)                 // a device function returned normally
    | Error(name: string, exc: Exception)                  // "Error executing command <name>: <e>"
    | SetOption(name: string, value: Value)                // `options.<name> = value` took effect
    | OptionError(name: string, value: Value, msg: string) // `setattr` raised and was reported
    | NoOptionPair                                         // "No option name/value pair specified"
    | Notify(msg: string)                                  // sent to the webhook; a pause message is also printed
    | PausePrompt                                          // "Plot paused. Press 'c' to continue"
    | Continuing                                           // the resume key was read
    | FileMissing(path: string)                            // "File '<path>' does not exist."

  /** The interpreter's state: macro table, pause flag and the record so far. */
  datatype State = State(defs: map<string, string>, pause: bool, trace: seq<Event>)

  /** How a statement ends: normally, or with an exception nothing in the interpreter catches. */
  datatype Outcome = Done | Raised(exc: Exception)

  const PausePrefix: string := "Plot Paused: "
  const CompletedMessage: string := "Pen plot completed"
  /** The key that resumes a paused run: `ord('c')`. */
  const ResumeKey: int := 'c' as int
  /** The arguments of the final `moveto(0.0, 0.0)`. */
  const Origin: seq<Value> := [FloatV(0.0), FloatV(0.0)]

  /** The command name: the first piece of the whitespace split. */
  function Head(stmt: string): string {
    SplitWs(stmt)[0]
  }

  /** The message a `pause` statement composes from `statement[6:]`. */
  function PauseMessage(stmt: string): string {
    PausePrefix + Drop(stmt, 6)
  }

  /**
   * `process_function`: cast the argument tokens (skipped when there are
   * none), look the function up, call it. Whatever fails is reported as an
   * error naming the command, so the event is always a call or an error.
   */
  function FunctionEvent(dev: Device, parts: seq<string>): (e: Event)
    requires |parts| >= 1
    ensures e.Call? || e.Error?
    ensures e.name == parts[0]
    ensures e.Call? ==> dev.hasFunction(parts[0]) && dev.invoke(parts[0], e.args) == Accepted
  {
    var name := parts[0];
    var params := if |parts| > 1 then ConvertParams(dev.parsers, name, parts[1..]) else Ok([]);
    match params
    case Raise(e) => Error(name, e)
    case Ok(args) =>
      if !dev.hasFunction(name) then Error(name, AttributeError(name))
      else
        match dev.invoke(name, args)
        case Accepted => Call(name, args)
        case Rejected(m) => Error(name, DeviceError(m))
  }

  /**
   * `process_option` on the tokens after `options`. Fewer than two tokens is
   * reported and ignored. Casting and the `[0]` index sit outside the `try`,
   * so an unregistered name or a bad value raises out of the statement; only
   * a failing assignment is caught and reported.
   */
  function ExecOption(dev: Device, st: State, parts: seq<string>): (r: (State, Outcome))
    ensures r.0.defs == st.defs && r.0.pause == st.pause
    ensures r.1.Raised? ==> r.0 == st
    ensures r.1.Done? ==> exists e :: r.0.trace == st.trace + [e]
  {
    if |parts| > 1 then
      var name := parts[0];
      match ConvertParams(dev.parsers, name, parts[1..])
      case Raise(e) => (st, Raised(e))
      case Ok(vals) =>
        if |vals| == 0 then (st, Raised(IndexError))
        else
          var v := vals[0];
          match dev.setOption(name, v)
          case Accepted => (st.(trace := st.trace + [SetOption(name, v)]), Done)
          case Rejected(m) => (st.(trace := st.trace + [OptionError(name, v, m)]), Done)
    else (st.(trace := st.trace + [NoOptionPair]), Done)
  }

  /** `process_definition(rest)`: `name, _, body = rest.partition(' ')`, then store. */
  function Define(defs: map<string, string>, rest: string): map<string, string> {
    var (name, body) := Partition(rest, ' ');
    defs[name := body]
  }

  /**
   * `process_statement`. `fuel` is the recursion depth left before Python's
   * recursion limit: invoking a macro with none left raises `RecursionError`,
   * which nothing in the interpreter catches.
   */
  function Exec(dev: Device, st: State, stmt: string, fuel: nat): (State, Outcome)
    requires |stmt| > 0
    decreases fuel, 0
  {
    if stmt[0] == '#' then (st.(trace := st.trace + [Echo(stmt)]), Done)
    else
      var parts := SplitWs(stmt);
      var head := parts[0];
      if head == "def" then (st.(defs := Define(st.defs, Drop(stmt, 4))), Done)
      else if head == "options" then ExecOption(dev, st, parts[1..])
      else if head == "pause" then (st.(pause := true, trace := st.trace + [Notify(PauseMessage(stmt))]), Done)
      else if head in st.defs then
        if fuel == 0 then (st, Raised(RecursionError))
        else ExecPieces(dev, st, SplitOn(st.defs[head], '|'), fuel - 1)
      else (st.(trace := st.trace + [FunctionEvent(dev, parts)]), Done)
  }

  /**
   * `process_definition_body` after the split on `|`: each piece, stripped,
   * runs as a statement in order; blank pieces are skipped, and an exception
   * ends the body.
   */
  function ExecPieces(dev: Device, st: State, pieces: seq<string>, fuel: nat): (State, Outcome)
    decreases fuel, 1, |pieces|
  {
    if pieces == [] then (st, Done)
    else
      var stmt := Strip(pieces[0]);
      if stmt == "" then ExecPieces(dev, st, pieces[1..], fuel)
      else
        var (st1, o) := Exec(dev, st, stmt, fuel);
        if o.Raised? then (st1, o) else ExecPieces(dev, st1, pieces[1..], fuel)
  }

  /**
   * The position just past the first resume key at or after `pos`, or `None`
   * when no resume key is left.
   */
  function NextResume(keys: seq<int>, pos: nat): (r: Option<nat>)
    ensures r.Some? ==> pos < r.value <= |keys| && keys[r.value - 1] == ResumeKey
    ensures r.Some? ==> forall j :: pos <= j < r.value - 1 ==> keys[j] != ResumeKey
    ensures r.None? ==> forall j :: pos <= j < |keys| ==> keys[j] != ResumeKey
    decreases |keys| - pos
  {
    if pos >= |keys| then None
    else if keys[pos] == ResumeKey then Some(pos + 1)
    else NextResume(keys, pos + 1)
  }

  /**
   * `wait_on_continue`: while paused, read one key per poll; the resume key
   * clears the flag. `keys` holds what successive `getch()` calls return; when
   * it runs out while still paused the real loop never ends, and the result
   * is `None`.
   */
  function Wait(st: State, keys: seq<int>, pos: nat): (r: (State, Option<nat>))
    ensures !st.pause ==> r == (st, Some(pos))
    ensures st.pause ==> r.1 == NextResume(keys, pos)
    ensures r.0.pause <==> st.pause && r.1.None?
    ensures st.pause && r.1.Some? ==> r.0 == st.(pause := false, trace := st.trace + [Continuing])
    ensures st.pause && r.1.None? ==> r.0 == st
    decreases |keys| - pos
  {
    if !st.pause then (st, Some(pos))
    else if pos >= |keys| then (st, None)
    else if keys[pos] == ResumeKey then (st.(pause := false, trace := st.trace + [Continuing]), Some(pos + 1))
    else Wait(st, keys, pos + 1)
  }

  /** The per-line `getch()` in no-delay mode: consumes the next key, if any. */
  function Poll(keys: seq<int>, pos: nat): nat {
    if pos < |keys| then pos + 1 else pos
  }

  /** How reading the script ends. */
  datatype StreamOutcome = Finished | Blocked | Aborted(exc: Exception)

  /**
   * `process_stream` from key position `pos`: for each line, poll a key,
   * wait while paused, then run the stripped line if it is not blank. The
   * result carries the key position reached.
   */
  function RunStream(dev: Device, st: State, lines: seq<string>, keys: seq<int>, pos: nat, depth: nat): (State, StreamOutcome, nat)
    decreases |lines|
  {
    if lines == [] then (st, Finished, pos)
    else
      var p := Poll(keys, pos);
      var st1 := if st.pause then st.(trace := st.trace + [PausePrompt]) else st;
      var (st2, resumed) := Wait(st1, keys, p);
      match resumed
      case None => (st2, Blocked, p)
      case Some(q) =>
        var stmt := Strip(lines[0]);
        if stmt == "" then RunStream(dev, st2, lines[1..], keys, q, depth)
        else
          var (st3, o) := Exec(dev, st2, stmt, depth);
          if o.Raised? then (st3, Aborted(o.exc), q)
          else RunStream(dev, st3, lines[1..], keys, q, depth)
  }

  /** How a whole run ends. */
  datatype RunOutcome = Completed | NoScript | Waiting | Crashed(exc: Exception)

  /**
   * `process_commands`: a missing script is reported and nothing is sent to
   * the device. Otherwise the stream runs; after it ends normally the pen
   * goes back to the origin and completion is notified. An exception from
   * the stream or from the final `moveto` ends the run.
   */
  function RunCommands(dev: Device, st: State, path: string, present: bool, lines: seq<string>, keys: seq<int>, depth: nat): (State, RunOutcome)
  {
    if !present then (st.(trace := st.trace + [FileMissing(path)]), NoScript)
    else
      var (st1, o, _) := RunStream(dev, st, lines, keys, 0, depth);
      match o
      case Blocked => (st1, Waiting)
      case Aborted(e) => (st1, Crashed(e))
      case Finished =>
        if !dev.hasFunction("moveto") then (st1, Crashed(AttributeError("moveto")))
        else
          match dev.invoke("moveto", Origin)
          case Rejected(m) => (st1, Crashed(DeviceError(m)))
          case Accepted => (st1.(trace := st1.trace + [Call("moveto", Origin), Notify(CompletedMessage)]), Completed)
  }
}
