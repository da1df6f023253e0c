/**
 * The parameter caster: the constant table `PARAM_CASTS` from command name
 * to one converter per positional argument, and `convert_params`, which
 * applies converter i to token i.
 */
module Casts {
  import opened Wrappers
  import PyInt

  /** The converters the table uses: `int`, `float`, `bool`, `lambda x: x` and `ast.literal_eval`. */
  datatype Converter = IntConv | FloatConv | BoolConv | Identity | LiteralEval

  /** A typed argument. Floats and Python literals are opaque to the interpreter. */
  datatype Value =
    | IntV(i: int)
    | FloatV(r: real)
    | BoolV(b: bool)
    | StrV(s: string)
    | LiteralV(src: string)

  /** The exceptions the interpreter can meet. */
  datatype Exception =
    | IndexError                                      // fewer tokens than converters, or `[0]` of `[]`
    | ConversionError(conv: Converter, token: string) // `ValueError`/`SyntaxError` from a converter
    | AttributeError(name: string)                    // the device has no such function
    | DeviceError(msg: string)                        // the device function raised
    | RecursionError                                  // macro expansion exceeded the recursion limit

  datatype Result<T> = Ok(value: T) | Raise(exc: Exception)

  /**
   * The converters the interpreter cannot see into: `float(token)` and
   * `ast.literal_eval(token)`, each either a value or a failure.
   */
  datatype Parsers = Parsers(float: string -> Option<real>, literal: string -> bool)

  /** `PARAM_CASTS`. */
  const ParamCasts: map<string, seq<Converter>> := map[
    "speed_pendown" := [IntConv],
    "speed_penup" := [IntConv],
    "accel" := [IntConv],
    "pen_pos_down" := [IntConv],
    "pen_pos_up" := [IntConv],
    "pen_rate_lower" := [IntConv],
    "pen_rate_raise" := [IntConv],
    "pen_delay_down" := [IntConv],
    "pen_delay_up" := [IntConv],
    "const_speed" := [BoolConv],
    "model" := [IntConv],
    "penlift" := [IntConv],
    "port" := [IntConv],
    "port_config" := [IntConv],
    "units" := [IntConv],
    "load_config" := [Identity],
    "goto" := [FloatConv, FloatConv],
    "moveto" := [FloatConv, FloatConv],
    "lineto" := [FloatConv, FloatConv],
    "go" := [FloatConv, FloatConv],
    "move" := [FloatConv, FloatConv],
    "line" := [FloatConv, FloatConv],
    "draw_path" := [LiteralEval],
    "delay" := [IntConv],
    "usb_command" := [Identity],
    "usb_query" := [Identity]
  ]

  /**
   * One converter applied to one token. `bool` is not a parse: any non-empty
   * string is true. `int` and the identity behave as in Python; `float` and
   * `ast.literal_eval` defer to the opaque parsers.
   */
  function Apply(ps: Parsers, c: Converter, token: string): (r: Result<Value>)
    ensures c == BoolConv ==> r == Ok(BoolV(token != ""))
    ensures c == Identity ==> r == Ok(StrV(token))
    ensures c == IntConv ==> (r.Ok? <==> PyInt.ParseInt(token).Some?)
    ensures c == IntConv && r.Ok? ==> r.value == IntV(PyInt.ParseInt(token).value)
    ensures c == FloatConv ==> (r.Ok? <==> ps.float(token).Some?)
    ensures c == FloatConv && r.Ok? ==> r.value == FloatV(ps.float(token).value)
    ensures c == LiteralEval ==> (r.Ok? <==> ps.literal(token))
    ensures c == LiteralEval && r.Ok? ==> r.value == LiteralV(token)
    ensures r.Raise? ==> r.exc == ConversionError(c, token)
  {
    match c
    case IntConv =>
      (match PyInt.ParseInt(token)
       case Some(n) => Ok(IntV(n))
       case None => Raise(ConversionError(c, token)))
    case FloatConv =>
      (match ps.float(token)
       case Some(x) => Ok(FloatV(x))
       case None => Raise(ConversionError(c, token)))
    case BoolConv => Ok(BoolV(|token| > 0))
    case Identity => Ok(StrV(token))
    case LiteralEval =>
      if ps.literal(token) then Ok(LiteralV(token)) else Raise(ConversionError(c, token))
  }

  /** Every converter succeeds on its token. */
  predicate AllConvert(ps: Parsers, convs: seq<Converter>, tokens: seq<string>)
    requires |convs| <= |tokens|
  {
    forall i :: 0 <= i < |convs| ==> Apply(ps, convs[i], tokens[i]).Ok?
  }

  /**
   * The list comprehension `[func(tokens[i]) for i, func in enumerate(convs)]`,
   * evaluated left to right: at position i, a missing token is an
   * `IndexError` and a failing converter raises its own error, and the first
   * failure ends the evaluation.
   */
  function Cast(ps: Parsers, convs: seq<Converter>, tokens: seq<string>): (r: Result<seq<Value>>)
    ensures r.Ok? <==> |convs| <= |tokens| && AllConvert(ps, convs, tokens)
    ensures r.Ok? ==> |r.value| == |convs|
    ensures r.Ok? ==> forall i :: 0 <= i < |convs| ==> Apply(ps, convs[i], tokens[i]) == Ok(r.value[i])
    ensures |tokens| < |convs| && (forall i :: 0 <= i < |tokens| ==> Apply(ps, convs[i], tokens[i]).Ok?) ==>
              r == Raise(IndexError)
    decreases |convs|
  {
    if convs == [] then Ok([])
    else if tokens == [] then Raise(IndexError)
    else
      match Apply(ps, convs[0], tokens[0])
      case Raise(e) => Raise(e)
      case Ok(v) =>
        match Cast(ps, convs[1..], tokens[1..])
        case Raise(e) =>
          assert forall i :: 1 <= i < |convs| && i < |tokens| ==> convs[1..][i - 1] == convs[i] && tokens[1..][i - 1] == tokens[i];
          Raise(e)
        case Ok(vs) => Ok([v] + vs)
  }

  /** The number of typed arguments a registered command takes. */
  function Arity(name: string): nat {
    if name in ParamCasts then |ParamCasts[name]| else 0
  }

  /**
   * `convert_params(PARAM_CASTS, name, tokens)`: no typed arguments at all
   * for an unregistered name, whatever the tokens; otherwise the cast of
   * the first `Arity(name)` tokens.
   */
  function ConvertParams(ps: Parsers, name: string, tokens: seq<string>): (r: Result<seq<Value>>)
    ensures name !in ParamCasts ==> r == Ok([])
    ensures name in ParamCasts && r.Ok? ==> |r.value| == Arity(name)
    ensures name in ParamCasts ==> (r.Ok? <==> Arity(name) <= |tokens| && AllConvert(ps, ParamCasts[name], tokens))
  {
    if name in ParamCasts then Cast(ps, ParamCasts[name], tokens) else Ok([])
  }

  /** Every registered command takes one or two typed arguments. */
  lemma ArityBounds(name: string)
    requires name in ParamCasts
    ensures 1 <= Arity(name) <= 2
  {
  }

  /** Tokens beyond the converters are never looked at. */
  lemma {:induction false} CastIgnoresExtra(ps: Parsers, convs: seq<Converter>, tokens: seq<string>, extra: seq<string>)
    requires |convs| <= |tokens|
    ensures Cast(ps, convs, tokens + extra) == Cast(ps, convs, tokens)
    decreases |convs|
  {
    if convs != [] {
      assert (tokens + extra)[0] == tokens[0];
      assert (tokens + extra)[1..] == tokens[1..] + extra;
      CastIgnoresExtra(ps, convs[1..], tokens[1..], extra);
    }
  }

  /** Extra tokens after a registered command's arity are ignored. */
  lemma ConvertIgnoresExtra(ps: Parsers, name: string, tokens: seq<string>)
    requires Arity(name) <= |tokens|
    ensures ConvertParams(ps, name, tokens) == ConvertParams(ps, name, tokens[..Arity(name)])
  {
    if name in ParamCasts {
      var n := Arity(name);
      assert tokens == tokens[..n] + tokens[n..];
      CastIgnoresExtra(ps, ParamCasts[name], tokens[..n], tokens[n..]);
    }
  }

  /**
   * The first failing position decides the error: if converter i fails on
   * token i and every earlier one succeeds, the cast raises converter i's
   * error, whatever follows.
   */
  lemma {:induction false} CastFirstFailure(ps: Parsers, convs: seq<Converter>, tokens: seq<string>, i: nat)
    requires i < |convs| && i < |tokens|
    requires Apply(ps, convs[i], tokens[i]).Raise?
    requires forall j :: 0 <= j < i ==> Apply(ps, convs[j], tokens[j]).Ok?
    ensures Cast(ps, convs, tokens) == Raise(ConversionError(convs[i], tokens[i]))
    decreases i
  {
    if i > 0 {
      assert Apply(ps, convs[0], tokens[0]).Ok?;
      assert forall j :: 0 <= j < i - 1 ==> convs[1..][j] == convs[j + 1] && tokens[1..][j] == tokens[j + 1];
      CastFirstFailure(ps, convs[1..], tokens[1..], i - 1);
    }
  }

  /** `const_speed 0` sets `True`: `bool` of any non-empty token is true. */
  lemma ConstSpeedIsTruthy(ps: Parsers, token: string)
    requires token != ""
    ensures ConvertParams(ps, "const_speed", [token]) == Ok([BoolV(true)])
  {
    assert ParamCasts["const_speed"] == [BoolConv];
    assert Apply(ps, BoolConv, token) == Ok(BoolV(true));
    assert Cast(ps, [BoolConv][1..], [token][1..]) == Ok([]);
    var one: seq<Value> := [BoolV(true)];
    assert one + [] == one;
    assert Cast(ps, [BoolConv], [token]) == Ok(one);
  }
}
