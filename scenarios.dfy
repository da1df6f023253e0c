/**
 * Facts about two scripts read by the stream: a whole script whose macro
 * returns home after an option assignment, and a line with a bad float
 * argument that is reported without stopping the lines after it. Each line
 * is first handled by a lemma over any words of the right shape; the
 * concrete script only supplies the facts about its own words, which are
 * passed as parameters equal to the literals so that the verifier does not
 * unfold the strings.
 */
module Scenarios {
  import opened Wrappers
  import opened Text
  import opened Casts
  import opened Semantics
  import opened Properties
  import PyInt

  // ---------------------------------------------------------------------
  // Splitting lines made of words and single spaces

  /** A word, a space, a word, a space and a word split back into the three words. */
  lemma SplitThree(w1: string, w2: string, w3: string)
    requires w1 != "" && NoSpace(w1) && w2 != "" && NoSpace(w2) && w3 != "" && NoSpace(w3)
    ensures SplitWs(w1 + " " + (w2 + " " + w3)) == [w1, w2, w3]
  {
    var rest := w2 + " " + w3;
    assert rest[0] == w2[0];
    SplitWsCons(w1, " ", rest);
    SplitWsCons(w2, " ", w3);
    SplitWsWord(w3);
  }

  /** A line of three space-separated words is trimmed. */
  lemma ThreeTrimmed(w1: string, w2: string, w3: string)
    requires w1 != "" && NoSpace(w1) && w2 != "" && NoSpace(w2) && w3 != "" && NoSpace(w3)
    ensures Trimmed(w1 + " " + (w2 + " " + w3))
  {
    var s := w1 + " " + (w2 + " " + w3);
    assert s[0] == w1[0];
    assert s[|s| - 1] == w3[|w3| - 1];
  }

  // ---------------------------------------------------------------------
  // One line of each kind

  /** An unpaused, non-blank line that ends normally hands over to the next line. */
  lemma UnpausedLine(dev: Device, st: State, line: string, rest: seq<string>, keys: seq<int>, pos: nat, depth: nat)
    requires !st.pause && Strip(line) != ""
    requires Exec(dev, st, Strip(line), depth).1 == Done
    ensures RunStream(dev, st, [line] + rest, keys, pos, depth)
         == RunStream(dev, Exec(dev, st, Strip(line), depth).0, rest, keys, Poll(keys, pos), depth)
  {
    assert ([line] + rest)[0] == line && ([line] + rest)[1..] == rest;
  }

  /** `options <name> <token>` hands the two tokens to the option handler. */
  lemma OptionLineDispatch(dev: Device, st: State, fuel: nat, kw: string, name: string, token: string)
    // the literal words are parameters pinned here, so that the verifier does not unfold the strings
    requires kw == "options"
    requires name != "" && NoSpace(name) && token != "" && NoSpace(token)
    ensures Exec(dev, st, kw + " " + (name + " " + token), fuel) == ExecOption(dev, st, [name, token])
  {
    var stmt := kw + " " + (name + " " + token);
    SplitThree(kw, name, token);
    assert stmt[0] == kw[0];
    assert SplitWs(stmt)[1..] == [name, token];
  }

  /** An integer option the device accepts is set to the parsed value. */
  lemma IntOptionSet(dev: Device, st: State, name: string, token: string, n: int)
    requires name in ParamCasts && ParamCasts[name] == [IntConv] && PyInt.ParseInt(token) == Some(n)
    requires dev.setOption(name, IntV(n)) == Accepted
    ensures ExecOption(dev, st, [name, token]) == (st.(trace := st.trace + [SetOption(name, IntV(n))]), Done)
  {
    assert [name, token][1..] == [token];
    assert Apply(dev.parsers, IntConv, token) == Ok(IntV(n));
    assert Cast(dev.parsers, [IntConv][1..], [token][1..]) == Ok([]);
    var one: seq<Value> := [IntV(n)];
    assert one + [] == one;
    assert ConvertParams(dev.parsers, name, [token]) == Ok(one);
  }

  /** `options <name> <token>` for an integer option the device accepts records the assignment. */
  lemma IntOptionLine(dev: Device, st: State, fuel: nat, kw: string, name: string, token: string, n: int)
    // the literal words are parameters pinned here, so that the verifier does not unfold the strings
    requires kw == "options"
    requires name != "" && NoSpace(name) && token != "" && NoSpace(token)
    requires name in ParamCasts && ParamCasts[name] == [IntConv] && PyInt.ParseInt(token) == Some(n)
    requires dev.setOption(name, IntV(n)) == Accepted
    ensures Exec(dev, st, kw + " " + (name + " " + token), fuel) == (st.(trace := st.trace + [SetOption(name, IntV(n))]), Done)
  {
    OptionLineDispatch(dev, st, fuel, kw, name, token);
    IntOptionSet(dev, st, name, token, n);
  }

  /** `<name> <a> <b>` for a command that is neither a keyword nor a macro goes to the device as one event. */
  lemma PairCallLine(dev: Device, st: State, fuel: nat, name: string, a: string, b: string)
    requires name != "" && NoSpace(name) && a != "" && NoSpace(a) && b != "" && NoSpace(b)
    requires name[0] != '#' && !Keyword(name) && name !in st.defs
    ensures Exec(dev, st, name + " " + (a + " " + b), fuel) == (st.(trace := st.trace + [FunctionEvent(dev, [name, a, b])]), Done)
  {
    var stmt := name + " " + (a + " " + b);
    SplitThree(name, a, b);
    assert stmt[0] == name[0];
  }

  /** A two-float command whose tokens both parse, on a device that accepts the call. */
  lemma PairCallAccepted(dev: Device, name: string, a: string, b: string, x: real, y: real)
    requires name in ParamCasts && ParamCasts[name] == [FloatConv, FloatConv]
    requires dev.parsers.float(a) == Some(x) && dev.parsers.float(b) == Some(y)
    requires dev.hasFunction(name) && dev.invoke(name, [FloatV(x), FloatV(y)]) == Accepted
    ensures FunctionEvent(dev, [name, a, b]) == Call(name, [FloatV(x), FloatV(y)])
  {
    var convs := [FloatConv, FloatConv];
    var args := [a, b];
    assert [name, a, b][1..] == args;
    assert Cast(dev.parsers, convs[1..][1..], args[1..][1..]) == Ok([]);
    assert [FloatV(y)] + [] == [FloatV(y)];
    assert Cast(dev.parsers, convs[1..], args[1..]) == Ok([FloatV(y)]);
    assert Cast(dev.parsers, convs, args) == Ok([FloatV(x)] + [FloatV(y)]);
    assert [FloatV(x)] + [FloatV(y)] == [FloatV(x), FloatV(y)];
    assert ConvertParams(dev.parsers, name, args) == Ok([FloatV(x), FloatV(y)]);
  }

  /** A two-float command whose second token does not parse is reported as that conversion error. */
  lemma PairCallBadSecond(dev: Device, name: string, a: string, b: string)
    requires name in ParamCasts && ParamCasts[name] == [FloatConv, FloatConv]
    requires dev.parsers.float(a).Some? && dev.parsers.float(b) == None
    ensures FunctionEvent(dev, [name, a, b]) == Error(name, ConversionError(FloatConv, b))
  {
    var args := [a, b];
    assert [name, a, b][1..] == args;
    CastFirstFailure(dev.parsers, [FloatConv, FloatConv], args, 1);
  }

  /** Invoking a macro whose body is one trimmed statement runs that statement one level deeper. */
  lemma SingleMacroLine(dev: Device, st: State, name: string, fuel: nat)
    requires name != "" && NoSpace(name) && name[0] != '#' && !Keyword(name) && name in st.defs
    requires '|' !in st.defs[name] && Trimmed(st.defs[name]) && fuel >= 1
    ensures Exec(dev, st, name, fuel) == Exec(dev, st, st.defs[name], fuel - 1)
  {
    var body := st.defs[name];
    SplitWsWord(name);
    assert Head(name) == name;
    SplitOnJoin([body], '|');
    assert SplitOn(body, '|') == [body];
    StripTrimmed(body);
    assert Exec(dev, st, name, fuel) == ExecPieces(dev, st, [body], fuel - 1);
    var r := Exec(dev, st, body, fuel - 1);
    assert [body][1..] == [];
    assert ExecPieces(dev, r.0, [], fuel - 1) == (r.0, Done);
    assert ExecPieces(dev, st, [body], fuel - 1) == r;
  }

  // ---------------------------------------------------------------------
  // The words of the scripts

  /** `int("25") == 25`. */
  lemma ParseTwentyFive(token: string)
    // the literal words are parameters pinned here, so that the verifier does not unfold the strings
    requires token == "25"
    ensures PyInt.ParseInt(token) == Some(25)
  {
    PyInt.ParseIntStr(25);
    assert PyInt.NatStr(2) == "2";
    assert PyInt.NatStr(25) == token;
  }

  lemma HomeWords(opt: string, name: string, token: string, mv: string, zero: string, home: string)
    // the literal words are parameters pinned here, so that the verifier does not unfold the strings
    requires opt == "options" && name == "speed_pendown" && token == "25"
    requires mv == "moveto" && zero == "0.0" && home == "home"
    ensures opt != "" && NoSpace(opt) && name != "" && NoSpace(name) && token != "" && NoSpace(token)
    ensures mv != "" && NoSpace(mv) && zero != "" && NoSpace(zero) && home != "" && NoSpace(home)
    ensures mv[0] != '#' && !Keyword(mv) && home[0] != '#' && !Keyword(home) && mv != home
    ensures '|' !in mv && '|' !in zero
  {
  }

  /** A definition line `def <home> <mv> <zero> <zero>` in an unpaused stream stores the body. */
  lemma StreamDefLine(dev: Device, st: State, rest: seq<string>, keys: seq<int>, pos: nat, depth: nat,
                      home: string, mv: string, zero: string)
    requires !st.pause
    requires mv != "" && NoSpace(mv) && zero != "" && NoSpace(zero) && home != "" && NoSpace(home)
    ensures var body := mv + " " + (zero + " " + zero);
      RunStream(dev, st, ["def " + home + " " + body] + rest, keys, pos, depth)
      == RunStream(dev, st.(defs := st.defs[home := body]), rest, keys, Poll(keys, pos), depth)
  {
    var body := mv + " " + (zero + " " + zero);
    var l1 := "def " + home + " " + body;
    ThreeTrimmed(mv, zero, zero);
    assert l1[0] == 'd' && l1[|l1| - 1] == body[|body| - 1];
    StripTrimmed(l1);
    forall k | 0 <= k < |home| ensures home[k] != ' ' {
      assert !IsSpace(home[k]);
    }
    DefStores(dev, st, home, body, depth);
    UnpausedLine(dev, st, l1, rest, keys, pos, depth);
  }

  /** An integer option line in an unpaused stream records the assignment. */
  lemma StreamIntOptionLine(dev: Device, st: State, rest: seq<string>, keys: seq<int>, pos: nat, depth: nat,
                            opt: string, name: string, token: string, n: int)
    // the literal words are parameters pinned here, so that the verifier does not unfold the strings
    requires !st.pause && opt == "options"
    requires name != "" && NoSpace(name) && token != "" && NoSpace(token)
    requires name in ParamCasts && ParamCasts[name] == [IntConv] && PyInt.ParseInt(token) == Some(n)
    requires dev.setOption(name, IntV(n)) == Accepted
    ensures RunStream(dev, st, [opt + " " + (name + " " + token)] + rest, keys, pos, depth)
         == RunStream(dev, st.(trace := st.trace + [SetOption(name, IntV(n))]), rest, keys, Poll(keys, pos), depth)
  {
    var l2 := opt + " " + (name + " " + token);
    assert NoSpace(opt);
    ThreeTrimmed(opt, name, token);
    StripTrimmed(l2);
    IntOptionLine(dev, st, depth, opt, name, token, n);
    UnpausedLine(dev, st, l2, rest, keys, pos, depth);
  }

  /** Three words free of `|`, joined by spaces, contain no `|`. */
  lemma NoPipeInThree(w1: string, w2: string, w3: string)
    requires '|' !in w1 && '|' !in w2 && '|' !in w3
    ensures '|' !in w1 + " " + (w2 + " " + w3)
  {
    var s := w1 + " " + (w2 + " " + w3);
    forall k | 0 <= k < |s| ensures s[k] != '|' {
      if k < |w1| {
        assert s[k] == w1[k];
      } else if k == |w1| || k == |w1| + 1 + |w2| {
        assert s[k] == ' ';
      } else if k < |w1| + 1 + |w2| {
        assert s[k] == w2[k - |w1| - 1];
      } else {
        assert s[k] == w3[k - |w1| - 2 - |w2|];
      }
    }
  }

  /** Invoking a macro whose body is `<mv> <zero> <zero>` runs that line one level deeper. */
  lemma MacroOfThree(dev: Device, st: State, depth: nat, home: string, mv: string, zero: string)
    requires depth >= 1
    requires mv != "" && NoSpace(mv) && zero != "" && NoSpace(zero) && home != "" && NoSpace(home)
    requires home[0] != '#' && !Keyword(home)
    requires '|' !in mv && '|' !in zero
    requires home in st.defs && st.defs[home] == mv + " " + (zero + " " + zero)
    ensures Exec(dev, st, home, depth) == Exec(dev, st, mv + " " + (zero + " " + zero), depth - 1)
  {
    ThreeTrimmed(mv, zero, zero);
    NoPipeInThree(mv, zero, zero);
    SingleMacroLine(dev, st, home, depth);
  }

  /** `<mv> <zero> <zero>` for a two-float command the device accepts records the call. */
  lemma PairCallDone(dev: Device, st: State, fuel: nat, mv: string, zero: string, x: real)
    requires mv != "" && NoSpace(mv) && zero != "" && NoSpace(zero)
    requires mv[0] != '#' && !Keyword(mv) && mv !in st.defs
    requires mv in ParamCasts && ParamCasts[mv] == [FloatConv, FloatConv] && dev.parsers.float(zero) == Some(x)
    requires dev.hasFunction(mv) && dev.invoke(mv, [FloatV(x), FloatV(x)]) == Accepted
    ensures Exec(dev, st, mv + " " + (zero + " " + zero), fuel) == (st.(trace := st.trace + [Call(mv, [FloatV(x), FloatV(x)])]), Done)
  {
    PairCallLine(dev, st, fuel, mv, zero, zero);
    PairCallAccepted(dev, mv, zero, zero, x, x);
  }

  /** Invoking a macro whose body is `<mv> <zero> <zero>` calls the device function once. */
  lemma MacroCallDone(dev: Device, st: State, depth: nat, home: string, mv: string, zero: string, x: real)
    requires depth >= 1
    requires mv != "" && NoSpace(mv) && zero != "" && NoSpace(zero) && home != "" && NoSpace(home)
    requires mv[0] != '#' && !Keyword(mv) && home[0] != '#' && !Keyword(home)
    requires '|' !in mv && '|' !in zero
    requires home in st.defs && st.defs[home] == mv + " " + (zero + " " + zero) && mv !in st.defs
    requires mv in ParamCasts && ParamCasts[mv] == [FloatConv, FloatConv] && dev.parsers.float(zero) == Some(x)
    requires dev.hasFunction(mv) && dev.invoke(mv, [FloatV(x), FloatV(x)]) == Accepted
    ensures Exec(dev, st, home, depth) == (st.(trace := st.trace + [Call(mv, [FloatV(x), FloatV(x)])]), Done)
  {
    var body := mv + " " + (zero + " " + zero);
    var r := (st.(trace := st.trace + [Call(mv, [FloatV(x), FloatV(x)])]), Done);
    assert |body| > 0;
    assert Exec(dev, st, body, depth - 1) == r by {
      PairCallDone(dev, st, depth - 1, mv, zero, x);
    }
    assert Exec(dev, st, home, depth) == Exec(dev, st, body, depth - 1) by {
      MacroOfThree(dev, st, depth, home, mv, zero);
    }
  }

  /** The macro invocation as a line of an unpaused stream. */
  lemma StreamMacroLine(dev: Device, st: State, rest: seq<string>, keys: seq<int>, pos: nat, depth: nat,
                        home: string, mv: string, zero: string, x: real)
    requires !st.pause && depth >= 1
    requires mv != "" && NoSpace(mv) && zero != "" && NoSpace(zero) && home != "" && NoSpace(home)
    requires mv[0] != '#' && !Keyword(mv) && home[0] != '#' && !Keyword(home)
    requires '|' !in mv && '|' !in zero
    requires home in st.defs && st.defs[home] == mv + " " + (zero + " " + zero) && mv !in st.defs
    requires mv in ParamCasts && ParamCasts[mv] == [FloatConv, FloatConv] && dev.parsers.float(zero) == Some(x)
    requires dev.hasFunction(mv) && dev.invoke(mv, [FloatV(x), FloatV(x)]) == Accepted
    ensures RunStream(dev, st, [home] + rest, keys, pos, depth)
         == RunStream(dev, st.(trace := st.trace + [Call(mv, [FloatV(x), FloatV(x)])]), rest, keys, Poll(keys, pos), depth)
  {
    assert Trimmed(home);
    StripTrimmed(home);
    MacroCallDone(dev, st, depth, home, mv, zero, x);
    UnpausedLine(dev, st, home, rest, keys, pos, depth);
  }

  /** A comment line in an unpaused stream is echoed. */
  lemma StreamCommentLine(dev: Device, st: State, rest: seq<string>, keys: seq<int>, pos: nat, depth: nat, comment: string)
    requires !st.pause && |comment| > 0 && comment[0] == '#' && Trimmed(comment)
    ensures RunStream(dev, st, [comment] + rest, keys, pos, depth)
         == RunStream(dev, st.(trace := st.trace + [Echo(comment)]), rest, keys, Poll(keys, pos), depth)
  {
    StripTrimmed(comment);
    CommentOnlyEchoes(dev, st, comment, depth);
    UnpausedLine(dev, st, comment, rest, keys, pos, depth);
  }

  /** A macro invocation line followed by a comment line, in an unpaused stream. */
  lemma MacroThenComment(dev: Device, st: State, keys: seq<int>, pos: nat, depth: nat,
                         home: string, mv: string, zero: string, x: real, comment: string)
    requires !st.pause && depth >= 1
    requires mv != "" && NoSpace(mv) && zero != "" && NoSpace(zero) && home != "" && NoSpace(home)
    requires mv[0] != '#' && !Keyword(mv) && home[0] != '#' && !Keyword(home)
    requires '|' !in mv && '|' !in zero
    requires home in st.defs && st.defs[home] == mv + " " + (zero + " " + zero) && mv !in st.defs
    requires mv in ParamCasts && ParamCasts[mv] == [FloatConv, FloatConv] && dev.parsers.float(zero) == Some(x)
    requires dev.hasFunction(mv) && dev.invoke(mv, [FloatV(x), FloatV(x)]) == Accepted
    requires |comment| > 0 && comment[0] == '#' && Trimmed(comment)
    ensures var r := RunStream(dev, st, [home, comment], keys, pos, depth);
      r.1 == Finished && r.0 == st.(trace := st.trace + [Call(mv, [FloatV(x), FloatV(x)]), Echo(comment)])
  {
    var st3 := st.(trace := st.trace + [Call(mv, [FloatV(x), FloatV(x)])]);
    var p3 := Poll(keys, pos);
    assert RunStream(dev, st, [home, comment], keys, pos, depth) == RunStream(dev, st3, [comment], keys, p3, depth) by {
      assert [home, comment] == [home] + [comment];
      StreamMacroLine(dev, st, [comment], keys, pos, depth, home, mv, zero, x);
    }
    assert RunStream(dev, st3, [comment], keys, p3, depth) == (st3.(trace := st3.trace + [Echo(comment)]), Finished, Poll(keys, p3)) by {
      assert [comment] == [comment] + [];
      StreamCommentLine(dev, st3, [], keys, p3, depth, comment);
    }
    assert st3.trace + [Echo(comment)] == st.trace + [Call(mv, [FloatV(x), FloatV(x)]), Echo(comment)];
  }

  /** The first two lines of the home script: the definition is stored and the option is set. */
  lemma HomePrefix(dev: Device, keys: seq<int>, depth: nat,
                   opt: string, name: string, token: string, n: int, mv: string, zero: string,
                   home: string, rest: seq<string>)
    // the literal words are parameters pinned here, so that the verifier does not unfold the strings
    requires opt == "options"
    requires name != "" && NoSpace(name) && token != "" && NoSpace(token)
    requires mv != "" && NoSpace(mv) && zero != "" && NoSpace(zero) && home != "" && NoSpace(home)
    requires name in ParamCasts && ParamCasts[name] == [IntConv] && PyInt.ParseInt(token) == Some(n)
    requires dev.setOption(name, IntV(n)) == Accepted
    ensures var body := mv + " " + (zero + " " + zero);
      var lines := ["def " + home + " " + body] + ([opt + " " + (name + " " + token)] + rest);
      RunStream(dev, State(map[], false, []), lines, keys, 0, depth)
      == RunStream(dev, State(map[home := body], false, [SetOption(name, IntV(n))]), rest, keys, Poll(keys, Poll(keys, 0)), depth)
  {
    var body := mv + " " + (zero + " " + zero);
    var l1, l2 := "def " + home + " " + body, opt + " " + (name + " " + token);
    var st0 := State(map[], false, []);
    var st1 := State(map[home := body], false, []);
    var st2 := st1.(trace := [SetOption(name, IntV(n))]);
    assert RunStream(dev, st0, [l1] + ([l2] + rest), keys, 0, depth) == RunStream(dev, st1, [l2] + rest, keys, Poll(keys, 0), depth) by {
      StreamDefLine(dev, st0, [l2] + rest, keys, 0, depth, home, mv, zero);
      assert st0.(defs := st0.defs[home := body]) == st1;
    }
    assert RunStream(dev, st1, [l2] + rest, keys, Poll(keys, 0), depth) == RunStream(dev, st2, rest, keys, Poll(keys, Poll(keys, 0)), depth) by {
      StreamIntOptionLine(dev, st1, rest, keys, Poll(keys, 0), depth, opt, name, token, n);
      assert st1.trace + [SetOption(name, IntV(n))] == st2.trace;
    }
  }

  /**
   * The home script over words of the right shape: define `<home>` as
   * `<mv> <zero> <zero>`, set the integer option `<name>` from `<token>`, run
   * `<home>`, end with a comment. The option is set, the device function is
   * called once with two floats, the comment is echoed, and nothing else
   * happens.
   */
  lemma HomeSteps(dev: Device, keys: seq<int>, depth: nat,
                  opt: string, name: string, token: string, n: int, mv: string, zero: string, x: real,
                  home: string, comment: string)
    // the literal words are parameters pinned here, so that the verifier does not unfold the strings
    requires opt == "options"
    requires name != "" && NoSpace(name) && token != "" && NoSpace(token)
    requires mv != "" && NoSpace(mv) && zero != "" && NoSpace(zero) && home != "" && NoSpace(home)
    requires mv[0] != '#' && !Keyword(mv) && home[0] != '#' && !Keyword(home) && mv != home
    requires '|' !in mv && '|' !in zero
    requires |comment| > 0 && comment[0] == '#' && Trimmed(comment)
    requires name in ParamCasts && ParamCasts[name] == [IntConv] && PyInt.ParseInt(token) == Some(n)
    requires mv in ParamCasts && ParamCasts[mv] == [FloatConv, FloatConv] && dev.parsers.float(zero) == Some(x)
    requires dev.setOption(name, IntV(n)) == Accepted
    requires dev.hasFunction(mv) && dev.invoke(mv, [FloatV(x), FloatV(x)]) == Accepted
    requires depth >= 1
    ensures var body := mv + " " + (zero + " " + zero);
      var lines := ["def " + home + " " + body] + ([opt + " " + (name + " " + token)] + [home, comment]);
      var r := RunStream(dev, State(map[], false, []), lines, keys, 0, depth);
      && r.1 == Finished
      && r.0 == State(map[home := body], false, [SetOption(name, IntV(n)), Call(mv, [FloatV(x), FloatV(x)]), Echo(comment)])
  {
    var body := mv + " " + (zero + " " + zero);
    var l1, l2 := "def " + home + " " + body, opt + " " + (name + " " + token);
    var st2 := State(map[home := body], false, [SetOption(name, IntV(n))]);
    var st4 := st2.(trace := st2.trace + [Call(mv, [FloatV(x), FloatV(x)]), Echo(comment)]);
    var p2 := Poll(keys, Poll(keys, 0));
    HomePrefix(dev, keys, depth, opt, name, token, n, mv, zero, home, [home, comment]);
    assert RunStream(dev, st2, [home, comment], keys, p2, depth).0 == st4 by {
      MacroThenComment(dev, st2, keys, p2, depth, home, mv, zero, x, comment);
    }
    assert RunStream(dev, st2, [home, comment], keys, p2, depth).1 == Finished by {
      MacroThenComment(dev, st2, keys, p2, depth, home, mv, zero, x, comment);
    }
    assert st4.trace == [SetOption(name, IntV(n)), Call(mv, [FloatV(x), FloatV(x)]), Echo(comment)];
  }

  /**
   * `def home moveto 0.0 0.0`, `options speed_pendown 25`, `home`, `# done`
   * on a device that accepts `speed_pendown = 25` and `moveto(0.0, 0.0)`:
   * the option is set to the integer 25, `moveto` is called once with
   * `(0.0, 0.0)`, the comment is echoed, and no error is reported.
   */
  lemma HomeScriptRun(dev: Device, keys: seq<int>, depth: nat,
                      opt: string, name: string, token: string, mv: string, zero: string, home: string, comment: string)
    // the literal words are parameters pinned here, so that the verifier does not unfold the strings
    requires opt == "options" && name == "speed_pendown" && token == "25"
    requires mv == "moveto" && zero == "0.0" && home == "home" && comment == "# done"
    requires dev.parsers.float(zero) == Some(0.0)
    requires dev.setOption(name, IntV(25)) == Accepted
    requires dev.hasFunction(mv) && dev.invoke(mv, Origin) == Accepted
    requires depth >= 1
    ensures var body := mv + " " + (zero + " " + zero);
      var lines := ["def " + home + " " + body] + ([opt + " " + (name + " " + token)] + [home, comment]);
      var r := RunStream(dev, State(map[], false, []), lines, keys, 0, depth);
      && r.1 == Finished
      && r.0 == State(map[home := body], false, [SetOption(name, IntV(25)), Call(mv, Origin), Echo(comment)])
  {
    HomeWords(opt, name, token, mv, zero, home);
    ParseTwentyFive(token);
    assert Trimmed(comment);
    assert ParamCasts[name] == [IntConv] && ParamCasts[mv] == [FloatConv, FloatConv];
    HomeSteps(dev, keys, depth, opt, name, token, 25, mv, zero, 0.0, home, comment);
  }

  /**
   * The same script through `process_commands`: after the stream the pen is
   * sent to the origin a second time and completion is notified, so `moveto`
   * is called twice in the whole run.
   */
  lemma HomeEndToEnd(dev: Device, keys: seq<int>, depth: nat, path: string,
                     opt: string, name: string, token: string, mv: string, zero: string, home: string, comment: string)
    // the literal words are parameters pinned here, so that the verifier does not unfold the strings
    requires opt == "options" && name == "speed_pendown" && token == "25"
    requires mv == "moveto" && zero == "0.0" && home == "home" && comment == "# done"
    requires dev.parsers.float(zero) == Some(0.0)
    requires dev.setOption(name, IntV(25)) == Accepted
    requires dev.hasFunction(mv) && dev.invoke(mv, Origin) == Accepted
    requires depth >= 1
    ensures var body := mv + " " + (zero + " " + zero);
      var lines := ["def " + home + " " + body] + ([opt + " " + (name + " " + token)] + [home, comment]);
      RunCommands(dev, State(map[], false, []), path, true, lines, keys, depth)
      == (State(map[home := body], false,
                [SetOption(name, IntV(25)), Call(mv, Origin), Echo(comment), Call(mv, Origin), Notify(CompletedMessage)]),
          Completed)
  {
    var body := mv + " " + (zero + " " + zero);
    var lines := ["def " + home + " " + body] + ([opt + " " + (name + " " + token)] + [home, comment]);
    var fin := State(map[home := body], false, [SetOption(name, IntV(25)), Call(mv, Origin), Echo(comment)]);
    assert RunStream(dev, State(map[], false, []), lines, keys, 0, depth).1 == Finished
        && RunStream(dev, State(map[], false, []), lines, keys, 0, depth).0 == fin by {
      HomeScriptRun(dev, keys, depth, opt, name, token, mv, zero, home, comment);
    }
    CompletesAfterStream(dev, State(map[], false, []), path, lines, keys, depth, fin);
    assert fin.trace + [Call("moveto", Origin), Notify(CompletedMessage)]
        == [SetOption(name, IntV(25)), Call(mv, Origin), Echo(comment), Call(mv, Origin), Notify(CompletedMessage)];
  }

  /** A stream that finishes, on a device that accepts the final `moveto`, completes the run. */
  lemma CompletesAfterStream(dev: Device, st: State, path: string, lines: seq<string>, keys: seq<int>, depth: nat, fin: State)
    requires RunStream(dev, st, lines, keys, 0, depth).1 == Finished && RunStream(dev, st, lines, keys, 0, depth).0 == fin
    requires dev.hasFunction("moveto") && dev.invoke("moveto", Origin) == Accepted
    ensures RunCommands(dev, st, path, true, lines, keys, depth)
         == (fin.(trace := fin.trace + [Call("moveto", Origin), Notify(CompletedMessage)]), Completed)
  {
  }

  /**
   * `lineto 1.5 abc`: the float cast of `abc` fails, the error names
   * `lineto`, and the script goes on with the next line.
   */
  lemma BadFloatReported(dev: Device, st: State, next: seq<string>, keys: seq<int>, pos: nat, depth: nat,
                         w1: string, w2: string, w3: string)
    // the literal words are parameters pinned here, so that the verifier does not unfold the strings
    requires w1 == "lineto" && w2 == "1.5" && w3 == "abc"
    requires dev.parsers.float(w2).Some? && dev.parsers.float(w3) == None
    requires !st.pause && w1 !in st.defs
    ensures RunStream(dev, st, [w1 + " " + (w2 + " " + w3)] + next, keys, pos, depth)
         == RunStream(dev, st.(trace := st.trace + [Error(w1, ConversionError(FloatConv, w3))]), next, keys, Poll(keys, pos), depth)
  {
    assert NoSpace(w1) && NoSpace(w2) && NoSpace(w3) && !Keyword(w1);
    var line := w1 + " " + (w2 + " " + w3);
    ThreeTrimmed(w1, w2, w3);
    StripTrimmed(line);
    PairCallLine(dev, st, depth, w1, w2, w3);
    PairCallBadSecond(dev, w1, w2, w3);
    UnpausedLine(dev, st, line, next, keys, pos, depth);
  }
}
