/**
 * Properties of the interpreter stated over `Semantics`: dispatch
 * precedence, the device-call error boundary, option handling, macro
 * definition and expansion, the recursion bound, the pause gate and the end
 * of a run.
 */
module Properties {
  import opened Wrappers
  import opened Text
  import opened Casts
  import opened Semantics

  /** The leading-token words the dispatcher handles itself. */
  predicate Keyword(w: string) {
    w == "def" || w == "options" || w == "pause"
  }

  // ---------------------------------------------------------------------
  // Reading the command name

  /** The command name is the word before the first whitespace. */
  lemma HeadOf(word: string, rest: string)
    requires word != "" && NoSpace(word)
    requires rest == "" || IsSpace(rest[0])
    ensures Head(word + rest) == word
  {
    var s := word + rest;
    forall m | 0 <= m < |word| ensures !IsSpace(s[m]) {
      assert s[m] == word[m];
    }
    SpanNonSpaceAt(s, 0, |word|);
    assert s[..|word|] == word;
  }

  /** `partition` splits at the first separator. */
  lemma PartitionAt(a: string, b: string, c: char)
    requires c !in a
    ensures Partition(a + [c] + b, c) == (a, b)
  {
    var s := a + [c] + b;
    forall m | 0 <= m < |a| ensures s[m] != c {
      assert s[m] == a[m];
    }
    IndexOfFirst(s, c, 0, |a|);
    assert s[..|a|] == a;
    assert s[|a| + 1..] == b;
  }

  // ---------------------------------------------------------------------
  // Dispatch precedence

  /** A comment is only echoed: no device call, and no change to the table or the flag. */
  lemma CommentOnlyEchoes(dev: Device, st: State, stmt: string, fuel: nat)
    requires |stmt| > 0 && stmt[0] == '#'
    ensures Exec(dev, st, stmt, fuel) == (st.(trace := st.trace + [Echo(stmt)]), Done)
  {
  }

  /**
   * `pause` sets the flag and notifies "Plot Paused: " followed by the text
   * after the keyword, whatever the macro table holds: a macro named `pause`
   * can be stored but is never invoked.
   */
  lemma PauseSetsFlag(dev: Device, st: State, text: string, fuel: nat)
    requires text == "" || IsSpace(text[0])
    ensures Exec(dev, st, "pause" + text, fuel)
         == (st.(pause := true, trace := st.trace + [Notify(PausePrefix + Drop(text, 1))]), Done)
  {
    HeadOf("pause", text);
    var s := "pause" + text;
    if |text| >= 1 {
      assert Drop(s, 6) == text[1..];
    }
  }

  /** `pause <text>` composes the notification "Plot Paused: <text>" (so `pause hello` gives "Plot Paused: hello"). */
  lemma PauseMessageText(dev: Device, st: State, fuel: nat, text: string)
    ensures Exec(dev, st, "pause " + text, fuel)
         == (st.(pause := true, trace := st.trace + [Notify("Plot Paused: " + text)]), Done)
  {
    var rest := " " + text;
    assert "pause " + text == "pause" + rest;
    PauseSetsFlag(dev, st, rest, fuel);
    assert Drop(rest, 1) == text;
  }

  /**
   * Device-call error boundary: a statement that reaches the device never
   * raises and never touches the table or the flag; it records exactly one
   * event, a call or an error, naming the command.
   */
  lemma DeviceCallBoundary(dev: Device, st: State, stmt: string, fuel: nat)
    requires |stmt| > 0 && stmt[0] != '#'
    requires !Keyword(Head(stmt)) && Head(stmt) !in st.defs
    ensures var (st', o) := Exec(dev, st, stmt, fuel);
      && o == Done && st'.defs == st.defs && st'.pause == st.pause
      && |st'.trace| == |st.trace| + 1 && st'.trace[..|st.trace|] == st.trace
      && (st'.trace[|st.trace|].Call? || st'.trace[|st.trace|].Error?)
      && st'.trace[|st.trace|].name == Head(stmt)
  {
    var e := FunctionEvent(dev, SplitWs(stmt));
    assert (st.trace + [e])[..|st.trace|] == st.trace;
  }

  /** A device-call line never stops the stream: the next line runs after its one event. */
  lemma DeviceLineContinues(dev: Device, st: State, line: string, rest: seq<string>, keys: seq<int>, pos: nat, depth: nat)
    requires !st.pause && Strip(line) != "" && Strip(line)[0] != '#'
    requires !Keyword(Head(Strip(line))) && Head(Strip(line)) !in st.defs
    ensures RunStream(dev, st, [line] + rest, keys, pos, depth)
         == RunStream(dev, st.(trace := st.trace + [FunctionEvent(dev, SplitWs(Strip(line)))]), rest, keys, Poll(keys, pos), depth)
  {
    assert ([line] + rest)[0] == line && ([line] + rest)[1..] == rest;
  }

  /**
   * A command with no argument tokens skips casting and is called with no
   * arguments, even when it is registered and casting nothing would raise.
   */
  lemma BareCommandSkipsCasting(dev: Device, name: string)
    requires dev.hasFunction(name) && dev.invoke(name, []) == Accepted
    ensures FunctionEvent(dev, [name]) == Call(name, [])
    ensures name in ParamCasts ==> ConvertParams(dev.parsers, name, []) == Raise(IndexError)
  {
    if name in ParamCasts {
      ArityBounds(name);
    }
  }

  /**
   * Which event a device statement records, once its arguments are known:
   * `args` is `[]` for a bare command and the cast of the tokens otherwise. A
   * missing function is an `AttributeError`, an accepted call is recorded with
   * exactly those arguments, and a call the device rejects is a `DeviceError`
   * carrying the device's message.
   */
  lemma FunctionEventCases(dev: Device, parts: seq<string>, args: seq<Value>)
    requires |parts| >= 1
    requires if |parts| == 1 then args == [] else ConvertParams(dev.parsers, parts[0], parts[1..]) == Ok(args)
    ensures !dev.hasFunction(parts[0]) ==> FunctionEvent(dev, parts) == Error(parts[0], AttributeError(parts[0]))
    ensures dev.hasFunction(parts[0]) && dev.invoke(parts[0], args) == Accepted ==>
              FunctionEvent(dev, parts) == Call(parts[0], args)
    ensures dev.hasFunction(parts[0]) && dev.invoke(parts[0], args).Rejected? ==>
              FunctionEvent(dev, parts) == Error(parts[0], DeviceError(dev.invoke(parts[0], args).msg))
  {
  }

  /** A failing cast is reported as an error naming the command, with the cast's exception. */
  lemma CastFailureReported(dev: Device, parts: seq<string>)
    requires |parts| > 1
    requires ConvertParams(dev.parsers, parts[0], parts[1..]).Raise?
    ensures FunctionEvent(dev, parts) == Error(parts[0], ConvertParams(dev.parsers, parts[0], parts[1..]).exc)
  {
  }

  // ---------------------------------------------------------------------
  // Options

  /** `options` with fewer than two tokens after it is reported and sets nothing. */
  lemma OptionWithoutPair(dev: Device, st: State, parts: seq<string>)
    requires |parts| <= 1
    ensures ExecOption(dev, st, parts) == (st.(trace := st.trace + [NoOptionPair]), Done)
  {
  }

  /** An unregistered option name raises `IndexError` out of the statement, uncaught, with nothing recorded. */
  lemma UnregisteredOptionRaises(dev: Device, st: State, parts: seq<string>)
    requires |parts| > 1 && parts[0] !in ParamCasts
    ensures ExecOption(dev, st, parts) == (st, Raised(IndexError))
  {
  }

  /** A value its converter rejects raises out of the statement, uncaught. */
  lemma BadOptionValueRaises(dev: Device, st: State, parts: seq<string>)
    requires |parts| > 1 && parts[0] in ParamCasts
    requires ConvertParams(dev.parsers, parts[0], parts[1..]).Raise?
    ensures ExecOption(dev, st, parts) == (st, Raised(ConvertParams(dev.parsers, parts[0], parts[1..]).exc))
  {
  }

  /** Otherwise the option is set to the first cast value, and a failing assignment is reported. */
  lemma OptionSetsFirstValue(dev: Device, st: State, parts: seq<string>)
    requires |parts| > 1 && parts[0] in ParamCasts
    requires ConvertParams(dev.parsers, parts[0], parts[1..]).Ok?
    ensures var v := ConvertParams(dev.parsers, parts[0], parts[1..]).value[0];
      ExecOption(dev, st, parts)
        == (st.(trace := st.trace + [if dev.setOption(parts[0], v) == Accepted then SetOption(parts[0], v)
                                     else OptionError(parts[0], v, dev.setOption(parts[0], v).msg)]), Done)
  {
    ArityBounds(parts[0]);
  }

  // ---------------------------------------------------------------------
  // Macro definition and expansion

  /**
   * `process_definition(rest)`: the name is the text before the first space
   * and never contains one; the body is everything after that space, or ""
   * when there is none; every other macro is kept.
   */
  lemma DefineSpec(defs: map<string, string>, rest: string)
    ensures var r := Define(defs, rest);
      var name := Partition(rest, ' ').0;
      && r.Keys == defs.Keys + {name}
      && ' ' !in name
      && (' ' in rest ==> rest == name + " " + r[name])
      && (' ' !in rest ==> name == rest && r[name] == "")
      && forall k :: k in defs && k != name ==> r[k] == defs[k]
  {
  }

  /** `def <name> <body>` stores the body under the name, replacing any earlier one, and runs nothing. */
  lemma DefStores(dev: Device, st: State, name: string, body: string, fuel: nat)
    requires ' ' !in name
    ensures Exec(dev, st, "def " + name + " " + body, fuel) == (st.(defs := st.defs[name := body]), Done)
  {
    var s := "def " + name + " " + body;
    assert s == "def" + (" " + name + " " + body);
    HeadOf("def", " " + name + " " + body);
    assert Drop(s, 4) == name + [' '] + body;
    PartitionAt(name, body, ' ');
  }

  /** Redefinition overwrites: after two definitions of a name only the second body is stored. */
  lemma RedefinitionOverwrites(dev: Device, st: State, name: string, b1: string, b2: string, fuel: nat)
    requires ' ' !in name
    ensures var st1 := Exec(dev, st, "def " + name + " " + b1, fuel).0;
      Exec(dev, st1, "def " + name + " " + b2, fuel).0.defs == st.defs[name := b2]
  {
    DefStores(dev, st, name, b1, fuel);
    var st1 := Exec(dev, st, "def " + name + " " + b1, fuel).0;
    DefStores(dev, st1, name, b2, fuel);
  }

  /**
   * Invoking a macro whose body is the pieces `ps` joined with `|` runs
   * those pieces in order, one recursion level deeper; trailing tokens
   * after the macro name are ignored. With no depth left it raises
   * `RecursionError`.
   */
  lemma MacroRunsPieces(dev: Device, st: State, stmt: string, ps: seq<string>, fuel: nat)
    requires |stmt| > 0 && stmt[0] != '#'
    requires !Keyword(Head(stmt)) && Head(stmt) in st.defs
    requires |ps| >= 1 && (forall k :: 0 <= k < |ps| ==> '|' !in ps[k])
    requires st.defs[Head(stmt)] == Join(ps, '|')
    ensures Exec(dev, st, stmt, fuel + 1) == ExecPieces(dev, st, ps, fuel)
    ensures Exec(dev, st, stmt, 0) == (st, Raised(RecursionError))
  {
    SplitOnJoin(ps, '|');
  }

  /** Running `a` then `b` as pieces is running `a`, then, unless it raised, `b`. */
  lemma {:induction false} ExecPiecesAppend(dev: Device, st: State, a: seq<string>, b: seq<string>, fuel: nat)
    ensures ExecPieces(dev, st, a + b, fuel)
         == (var r := ExecPieces(dev, st, a, fuel); if r.1.Raised? then r else ExecPieces(dev, r.0, b, fuel))
    decreases |a|
  {
    if a == [] {
      assert a + b == b;
    } else {
      assert (a + b)[0] == a[0] && (a + b)[1..] == a[1..] + b;
      var stmt := Strip(a[0]);
      if stmt == "" {
        ExecPiecesAppend(dev, st, a[1..], b, fuel);
      } else {
        var (st1, o) := Exec(dev, st, stmt, fuel);
        if !o.Raised? {
          ExecPiecesAppend(dev, st1, a[1..], b, fuel);
        }
      }
    }
  }

  /**
   * Defining `name` with a body of `|`-separated pieces and then invoking it
   * does what submitting the pieces one after another does.
   */
  lemma DefineThenInvoke(dev: Device, st: State, name: string, ps: seq<string>, fuel: nat)
    requires name != "" && NoSpace(name) && name[0] != '#' && !Keyword(name)
    requires |ps| >= 1 && (forall k :: 0 <= k < |ps| ==> '|' !in ps[k])
    ensures var st1 := Exec(dev, st, "def " + name + " " + Join(ps, '|'), fuel).0;
      Exec(dev, st1, name, fuel + 1) == ExecPieces(dev, st1, ps, fuel)
  {
    assert ' ' !in name by {
      forall k | 0 <= k < |name| ensures name[k] != ' ' {
        assert !IsSpace(name[k]);
      }
    }
    DefStores(dev, st, name, Join(ps, '|'), fuel);
    var st1 := Exec(dev, st, "def " + name + " " + Join(ps, '|'), fuel).0;
    assert name + "" == name;
    HeadOf(name, "");
    MacroRunsPieces(dev, st1, name, ps, fuel);
  }

  /**
   * A `pause` inside a macro body does not stop the body: the flag is set,
   * and the pieces after it still run.
   */
  lemma PauseInBodyContinues(dev: Device, st: State, text: string, rest: seq<string>, fuel: nat)
    requires text == "" || (IsSpace(text[0]) && !IsSpace(text[|text| - 1]))
    ensures ExecPieces(dev, st, ["pause" + text] + rest, fuel)
         == ExecPieces(dev, st.(pause := true, trace := st.trace + [Notify(PausePrefix + Drop(text, 1))]), rest, fuel)
  {
    var s := "pause" + text;
    assert Trimmed(s);
    StripTrimmed(s);
    PauseSetsFlag(dev, st, text, fuel);
    assert (["pause" + text] + rest)[1..] == rest;
  }

  // ---------------------------------------------------------------------
  // The recursion bound

  /**
   * The depth only bounds recursion: a statement that did not run out of
   * depth does the same with any larger depth.
   */
  lemma {:induction false} ExecFuelMonotone(dev: Device, st: State, stmt: string, f: nat, g: nat)
    requires |stmt| > 0 && f <= g
    requires Exec(dev, st, stmt, f).1 != Raised(RecursionError)
    ensures Exec(dev, st, stmt, g) == Exec(dev, st, stmt, f)
    decreases f, 0
  {
    if stmt[0] != '#' && !Keyword(Head(stmt)) && Head(stmt) in st.defs {
      assert f > 0;
      var pieces := SplitOn(st.defs[Head(stmt)], '|');
      MacroUnfolds(dev, st, stmt, f);
      MacroUnfolds(dev, st, stmt, g);
      PiecesFuelMonotone(dev, st, pieces, f - 1, g - 1);
    } else {
      FuelUnused(dev, st, stmt, f, g);
    }
  }

  /** Invoking a macro with depth left runs the pieces of its body one level deeper. */
  lemma MacroUnfolds(dev: Device, st: State, stmt: string, fuel: nat)
    requires |stmt| > 0 && stmt[0] != '#' && !Keyword(Head(stmt)) && Head(stmt) in st.defs && fuel > 0
    ensures Exec(dev, st, stmt, fuel) == ExecPieces(dev, st, SplitOn(st.defs[Head(stmt)], '|'), fuel - 1)
  {
  }

  /**
   * There is no cycle guard: a macro whose body invokes itself (`def loop
   * loop`) recurses until the depth runs out and raises `RecursionError`,
   * with nothing recorded, whatever depth is left.
   */
  lemma {:induction false} SelfInvocationRaises(dev: Device, st: State, name: string, fuel: nat)
    requires name != "" && NoSpace(name) && name[0] != '#' && !Keyword(name) && '|' !in name
    requires name in st.defs && st.defs[name] == name
    ensures Exec(dev, st, name, fuel) == (st, Raised(RecursionError))
    decreases fuel
  {
    assert name + "" == name;
    HeadOf(name, "");
    if fuel > 0 {
      MacroUnfolds(dev, st, name, fuel);
      SplitOnJoin([name], '|');
      assert Trimmed(name);
      StripTrimmed(name);
      SelfInvocationRaises(dev, st, name, fuel - 1);
    }
  }

  /** A statement that is not a macro invocation does not use the depth. */
  lemma FuelUnused(dev: Device, st: State, stmt: string, f: nat, g: nat)
    requires |stmt| > 0
    requires !(stmt[0] != '#' && !Keyword(Head(stmt)) && Head(stmt) in st.defs)
    ensures Exec(dev, st, stmt, f) == Exec(dev, st, stmt, g)
  {
  }

  lemma {:induction false} PiecesFuelMonotone(dev: Device, st: State, pieces: seq<string>, f: nat, g: nat)
    requires f <= g
    requires ExecPieces(dev, st, pieces, f).1 != Raised(RecursionError)
    ensures ExecPieces(dev, st, pieces, g) == ExecPieces(dev, st, pieces, f)
    decreases f, 1, |pieces|
  {
    if pieces != [] {
      var stmt := Strip(pieces[0]);
      if stmt == "" {
        PiecesFuelMonotone(dev, st, pieces[1..], f, g);
      } else {
        var (st1, o) := Exec(dev, st, stmt, f);
        ExecFuelMonotone(dev, st, stmt, f, g);
        if !o.Raised? {
          PiecesFuelMonotone(dev, st1, pieces[1..], f, g);
        }
      }
    }
  }

  // ---------------------------------------------------------------------
  // What a statement can change

  /**
   * A statement only appends to the record, and never removes a macro: the
   * table only grows or is overwritten.
   */
  lemma {:induction false} ExecExtends(dev: Device, st: State, stmt: string, fuel: nat)
    requires |stmt| > 0
    ensures var r := Exec(dev, st, stmt, fuel).0;
      |st.trace| <= |r.trace| && r.trace[..|st.trace|] == st.trace && st.defs.Keys <= r.defs.Keys
    decreases fuel, 0
  {
    if stmt[0] != '#' && !Keyword(Head(stmt)) && Head(stmt) in st.defs && fuel > 0 {
      MacroUnfolds(dev, st, stmt, fuel);
      PiecesExtend(dev, st, SplitOn(st.defs[Head(stmt)], '|'), fuel - 1);
    } else {
      DirectExtends(dev, st, stmt, fuel);
    }
  }

  /** The same, for a statement that does not expand a macro. */
  lemma DirectExtends(dev: Device, st: State, stmt: string, fuel: nat)
    requires |stmt| > 0
    requires !(stmt[0] != '#' && !Keyword(Head(stmt)) && Head(stmt) in st.defs && fuel > 0)
    ensures var r := Exec(dev, st, stmt, fuel).0;
      |st.trace| <= |r.trace| && r.trace[..|st.trace|] == st.trace && st.defs.Keys <= r.defs.Keys
  {
    if stmt[0] != '#' && Head(stmt) == "options" {
      var r := ExecOption(dev, st, SplitWs(stmt)[1..]).0;
      assert r.trace[..|st.trace|] == st.trace;
    }
  }

  lemma {:induction false} PiecesExtend(dev: Device, st: State, pieces: seq<string>, fuel: nat)
    ensures var r := ExecPieces(dev, st, pieces, fuel).0;
      |st.trace| <= |r.trace| && r.trace[..|st.trace|] == st.trace && st.defs.Keys <= r.defs.Keys
    decreases fuel, 1, |pieces|
  {
    if pieces != [] {
      var stmt := Strip(pieces[0]);
      if stmt == "" {
        PiecesExtend(dev, st, pieces[1..], fuel);
      } else {
        var (st1, o) := Exec(dev, st, stmt, fuel);
        ExecExtends(dev, st, stmt, fuel);
        if !o.Raised? {
          PiecesExtend(dev, st1, pieces[1..], fuel);
          var r := ExecPieces(dev, st1, pieces[1..], fuel).0;
          assert r.trace[..|st.trace|] == r.trace[..|st1.trace|][..|st.trace|];
        }
      }
    }
  }

  // ---------------------------------------------------------------------
  // The pause gate and the stream

  /** Reading `a` then `b` is reading `a`, then, if it finished, `b` from where it stopped. */
  lemma {:induction false} RunStreamAppend(dev: Device, st: State, a: seq<string>, b: seq<string>, keys: seq<int>, pos: nat, depth: nat)
    ensures RunStream(dev, st, a + b, keys, pos, depth)
         == (var r := RunStream(dev, st, a, keys, pos, depth);
             if r.1 == Finished then RunStream(dev, r.0, b, keys, r.2, depth) else r)
    decreases |a|
  {
    if a == [] {
      assert a + b == b;
    } else {
      assert (a + b)[0] == a[0] && (a + b)[1..] == a[1..] + b;
      var p := Poll(keys, pos);
      var st1 := if st.pause then st.(trace := st.trace + [PausePrompt]) else st;
      var (st2, resumed) := Wait(st1, keys, p);
      if resumed.Some? {
        var stmt := Strip(a[0]);
        if stmt == "" {
          RunStreamAppend(dev, st2, a[1..], b, keys, resumed.value, depth);
        } else {
          var (st3, o) := Exec(dev, st2, stmt, depth);
          if !o.Raised? {
            RunStreamAppend(dev, st3, a[1..], b, keys, resumed.value, depth);
          }
        }
      }
    }
  }

  /**
   * While the flag is set and no resume key is coming, the next line is not
   * run: the stream stops after the prompt, with the table and the flag as
   * they were.
   */
  lemma PausedStreamHolds(dev: Device, st: State, lines: seq<string>, keys: seq<int>, pos: nat, depth: nat)
    requires st.pause && lines != []
    requires NextResume(keys, Poll(keys, pos)) == None
    ensures RunStream(dev, st, lines, keys, pos, depth) == (st.(trace := st.trace + [PausePrompt]), Blocked, Poll(keys, pos))
  {
  }

  /**
   * With the resume key ahead, the prompt is shown, the flag is cleared, and
   * the line then runs as in an unpaused stream reading keys from just past
   * the resume key.
   */
  lemma ResumeRunsNextLine(dev: Device, st: State, line: string, rest: seq<string>, keys: seq<int>, pos: nat, q: nat, depth: nat)
    requires st.pause
    requires NextResume(keys, Poll(keys, pos)) == Some(q)
    ensures var st' := st.(pause := false, trace := st.trace + [PausePrompt, Continuing]);
      var r := RunStream(dev, st, [line] + rest, keys, pos, depth);
      && (Strip(line) == "" ==> r == RunStream(dev, st', rest, keys, q, depth))
      && (Strip(line) != "" ==>
            var (st3, o) := Exec(dev, st', Strip(line), depth);
            r == if o.Raised? then (st3, Aborted(o.exc), q) else RunStream(dev, st3, rest, keys, q, depth))
  {
    assert ([line] + rest)[0] == line && ([line] + rest)[1..] == rest;
    assert st.trace + [PausePrompt] + [Continuing] == st.trace + [PausePrompt, Continuing];
  }

  /**
   * A `pause` on the last line never blocks: a stream that finished unpaused
   * still finishes when one more line pauses, now with the flag set.
   */
  lemma PauseOnLastLine(dev: Device, st: State, lines: seq<string>, text: string, keys: seq<int>, depth: nat)
    requires text == "" || (IsSpace(text[0]) && !IsSpace(text[|text| - 1]))
    requires RunStream(dev, st, lines, keys, 0, depth).1 == Finished
    requires !RunStream(dev, st, lines, keys, 0, depth).0.pause
    ensures RunStream(dev, st, lines + ["pause" + text], keys, 0, depth).1 == Finished
    ensures RunStream(dev, st, lines + ["pause" + text], keys, 0, depth).0.pause
  {
    RunStreamAppend(dev, st, lines, ["pause" + text], keys, 0, depth);
    var r := RunStream(dev, st, lines, keys, 0, depth);
    var s := "pause" + text;
    assert Trimmed(s);
    StripTrimmed(s);
    PauseSetsFlag(dev, r.0, text, depth);
    assert ["pause" + text][1..] == [];
  }

  // ---------------------------------------------------------------------
  // The end of a run

  /** A missing script is reported and nothing reaches the device. */
  lemma MissingScriptTouchesNothing(dev: Device, st: State, path: string, lines: seq<string>, keys: seq<int>, depth: nat)
    ensures RunCommands(dev, st, path, false, lines, keys, depth) == (st.(trace := st.trace + [FileMissing(path)]), NoScript)
  {
  }

  /**
   * A run completes exactly when the stream finished and the return to the
   * origin succeeded; it then ends with that one `moveto(0.0, 0.0)` and the
   * completion notice. Any other ending adds nothing after the stream.
   */
  lemma RunEndsAtOrigin(dev: Device, st: State, path: string, lines: seq<string>, keys: seq<int>, depth: nat)
    ensures var r := RunCommands(dev, st, path, true, lines, keys, depth);
      var s := RunStream(dev, st, lines, keys, 0, depth);
      && (r.1 == Completed <==> s.1 == Finished && dev.hasFunction("moveto") && dev.invoke("moveto", Origin) == Accepted)
      && (r.1 == Completed ==> r.0.trace == s.0.trace + [Call("moveto", Origin), Notify(CompletedMessage)])
      && (r.1 != Completed ==> r.0 == s.0)
  {
  }
}
