/**
 * The `PlotDirector` class: the statement dispatcher, the macro expansion
 * loop, the pause gate and the stream loop, as methods that update the
 * director in place. Each method is proved to do exactly what the matching
 * function of `Semantics` says.
 */
module Director {
  import opened Wrappers
  import opened Text
  import opened Casts
  import opened Semantics

  /**
   * The `definitions` dict. It is declared on the class, not the instance,
   * so every director of a process shares one table; here each director
   * holds a reference to a table, and several may hold the same one.
   */
  class MacroTable {
    var defs: map<string, string>

    constructor ()
      ensures defs == map[]
    {
      defs := map[];
    }
  }

  class PlotDirector {
    /** The device (`self.ad`). */
    const device: Device
    /** The shared macro table. */
    const definitions: MacroTable
    /** The recursion depth left for macro expansion when a line starts. */
    const depth: nat
    /** `self.pause`. */
    var pause: bool
    /** What the director has done so far, in order. */
    var trace: seq<Event>

    constructor (device: Device, definitions: MacroTable, depth: nat)
      ensures this.device == device && this.definitions == definitions && this.depth == depth
      ensures !pause && trace == []
    {
      this.device := device;
      this.definitions := definitions;
      this.depth := depth;
      pause := false;
      trace := [];
    }

    ghost function Snapshot(): State
      reads this, definitions
    {
      State(definitions.defs, pause, trace)
    }

    /** `process_function`: never raises; records one call or one error. */
    method ProcessFunction(parts: seq<string>)
      requires |parts| >= 1
      modifies this`trace
      ensures trace == old(trace) + [FunctionEvent(device, parts)]
    {
      var name := parts[0];
      var params: Result<seq<Value>>;
      if |parts| > 1 {
        params := ConvertParams(device.parsers, name, parts[1..]);
      } else {
        params := Ok([]);
      }
      match params {
        case Raise(e) =>
          trace := trace + [Error(name, e)];
        case Ok(args) =>
          if !device.hasFunction(name) {
            trace := trace + [Error(name, AttributeError(name))];
          } else {
            match device.invoke(name, args) {
              case Accepted =>
                trace := trace + [Call(name, args)];
              case Rejected(m) =>
                trace := trace + [Error(name, DeviceError(m))];
            }
          }
      }
    }

    /** `process_option` on the tokens after `options`. */
    method ProcessOption(parts: seq<string>) returns (o: Outcome)
      modifies this`trace
      ensures (Snapshot(), o) == ExecOption(device, old(Snapshot()), parts)
    {
      if |parts| > 1 {
        var name := parts[0];
        var cast := ConvertParams(device.parsers, name, parts[1..]);
        if cast.Raise? {
          return Raised(cast.exc);
        }
        if |cast.value| == 0 {
          return Raised(IndexError);
        }
        var v := cast.value[0];
        match device.setOption(name, v) {
          case Accepted =>
            trace := trace + [SetOption(name, v)];
          case Rejected(m) =>
            trace := trace + [OptionError(name, v, m)];
        }
      } else {
        trace := trace + [NoOptionPair];
      }
      o := Done;
    }

    /** `process_definition`: store the body under the name, overwriting. */
    method ProcessDefinition(rest: string)
      modifies definitions
      ensures definitions.defs == Define(old(definitions.defs), rest)
    {
      var (name, body) := Partition(rest, ' ');
      definitions.defs := definitions.defs[name := body];
    }

    /** `process_statement`, with `fuel` recursion depth left. */
    method ProcessStatement(stmt: string, fuel: nat) returns (o: Outcome)
      requires |stmt| > 0
      modifies this, definitions
      ensures (Snapshot(), o) == Exec(device, old(Snapshot()), stmt, fuel)
      decreases fuel, 0
    {
      if stmt[0] == '#' {
        trace := trace + [Echo(stmt)];
        return Done;
      }
      var parts := SplitWs(stmt);
      var head := parts[0];
      o := Done;
      if head == "def" {
        ProcessDefinition(Drop(stmt, 4));
      } else if head == "options" {
        o := ProcessOption(parts[1..]);
      } else if head == "pause" {
        trace := trace + [Notify(PauseMessage(stmt))];
        pause := true;
      } else if head in definitions.defs {
        if fuel == 0 {
          o := Raised(RecursionError);
        } else {
          o := ProcessDefinitionBody(definitions.defs[head], fuel - 1);
        }
      } else {
        ProcessFunction(parts);
      }
    }

    /** `process_definition_body`: the pieces of `commands`, split on `|`, in order. */
    method ProcessDefinitionBody(commands: string, fuel: nat) returns (o: Outcome)
      modifies this, definitions
      ensures (Snapshot(), o) == ExecPieces(device, old(Snapshot()), SplitOn(commands, '|'), fuel)
      decreases fuel, 1
    {
      var pieces := SplitOn(commands, '|');
      var i := 0;
      o := Done;
      while i < |pieces|
        invariant 0 <= i <= |pieces|
        invariant o == Done
        invariant ExecPieces(device, Snapshot(), pieces[i..], fuel) == ExecPieces(device, old(Snapshot()), pieces, fuel)
      {
        ghost var st0 := Snapshot();
        assert pieces[i..][0] == pieces[i] && pieces[i..][1..] == pieces[i + 1..];
        var stmt := Strip(pieces[i]);
        if stmt != "" {
          o := ProcessStatement(stmt, fuel);
          if o.Raised? {
            assert ExecPieces(device, st0, pieces[i..], fuel) == (Snapshot(), o);
            return;
          }
        }
        assert ExecPieces(device, st0, pieces[i..], fuel) == ExecPieces(device, Snapshot(), pieces[i + 1..], fuel);
        i := i + 1;
      }
    }

    /** `wait_on_continue`, reading keys from position `pos`. */
    method WaitOnContinue(keys: seq<int>, pos: nat) returns (next: Option<nat>)
      modifies this`pause, this`trace
      ensures (Snapshot(), next) == Wait(old(Snapshot()), keys, pos)
    {
      var p := pos;
      while pause && p < |keys|
        invariant pos <= p
        invariant Wait(Snapshot(), keys, p) == Wait(old(Snapshot()), keys, pos)
        decreases |keys| - p
      {
        var key := keys[p];
        p := p + 1;
        if key == ResumeKey {
          pause := false;
          trace := trace + [Continuing];
        }
      }
      next := if pause then None else Some(p);
    }

    /** `process_stream` over the script's lines, with the keys the terminal yields. */
    method ProcessStream(lines: seq<string>, keys: seq<int>) returns (o: StreamOutcome)
      modifies this, definitions
      ensures var r := RunStream(device, old(Snapshot()), lines, keys, 0, depth);
              Snapshot() == r.0 && o == r.1
    {
      var pos := 0;
      var i := 0;
      while i < |lines|
        invariant 0 <= i <= |lines|
        invariant RunStream(device, Snapshot(), lines[i..], keys, pos, depth) == RunStream(device, old(Snapshot()), lines, keys, 0, depth)
      {
        ghost var st0, pos0 := Snapshot(), pos;
        assert lines[i..][0] == lines[i] && lines[i..][1..] == lines[i + 1..];
        pos := Poll(keys, pos);
        if pause {
          trace := trace + [PausePrompt];
        }
        ghost var st1 := Snapshot();
        assert st1 == if st0.pause then st0.(trace := st0.trace + [PausePrompt]) else st0;
        var next := WaitOnContinue(keys, pos);
        ghost var st2 := Snapshot();
        if next.None? {
          assert RunStream(device, st0, lines[i..], keys, pos0, depth) == (st2, Blocked, pos);
          return Blocked;
        }
        pos := next.value;
        var stmt := Strip(lines[i]);
        if stmt != "" {
          var r := ProcessStatement(stmt, depth);
          if r.Raised? {
            assert RunStream(device, st0, lines[i..], keys, pos0, depth) == (Snapshot(), Aborted(r.exc), pos);
            return Aborted(r.exc);
          }
          assert RunStream(device, st0, lines[i..], keys, pos0, depth) == RunStream(device, Snapshot(), lines[i + 1..], keys, pos, depth);
        } else {
          assert RunStream(device, st0, lines[i..], keys, pos0, depth) == RunStream(device, st2, lines[i + 1..], keys, pos, depth);
        }
        i := i + 1;
      }
      o := Finished;
    }

    /** `process_commands`: run the script if it is present, then return to the origin. */
    method ProcessCommands(path: string, present: bool, lines: seq<string>, keys: seq<int>) returns (o: RunOutcome)
      modifies this, definitions
      ensures (Snapshot(), o) == RunCommands(device, old(Snapshot()), path, present, lines, keys, depth)
    {
      if !present {
        trace := trace + [FileMissing(path)];
        return NoScript;
      }
      var s := ProcessStream(lines, keys);
      match s {
        case Blocked =>
          o := Waiting;
        case Aborted(e) =>
          o := Crashed(e);
        case Finished =>
          if !device.hasFunction("moveto") {
            o := Crashed(AttributeError("moveto"));
          } else {
            match device.invoke("moveto", Origin) {
              case Rejected(m) =>
                o := Crashed(DeviceError(m));
              case Accepted =>
                trace := trace + [Call("moveto", Origin), Notify(CompletedMessage)];
                o := Completed;
            }
          }
      }
    }
  }

  /**
   * The table is shared: a definition made through one director is what
   * every director holding the same table sees, and nothing else of the
   * other director changes.
   */
  method DefineThroughOne(a: PlotDirector, b: PlotDirector, rest: string)
    requires a.definitions == b.definitions
    modifies a.definitions
    ensures b.definitions.defs == Define(old(b.definitions.defs), rest)
    ensures b.pause == old(b.pause) && b.trace == old(b.trace)
  {
    a.ProcessDefinition(rest);
  }
}
