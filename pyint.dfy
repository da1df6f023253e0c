/**
 * Python's `int(token)` on a whitespace-free token, and `str(n)` as its
 * inverse. `int` accepts an optional sign followed by decimal digits, where
 * single underscores may separate digits; anything else is a `ValueError`.
 */
module PyInt {
  import opened Wrappers

  predicate IsDigit(c: char) {
    '0' <= c <= '9'
  }

  predicate AllDigits(s: string) {
    forall k :: 0 <= k < |s| ==> IsDigit(s[k])
  }

  /** The digit part `int` accepts: digits, with single underscores between digits. */
  predicate DigitBody(s: string) {
    && |s| > 0
    && IsDigit(s[0])
    && IsDigit(s[|s| - 1])
    && (forall k :: 0 <= k < |s| ==> IsDigit(s[k]) || s[k] == '_')
    && (forall k :: 0 <= k < |s| - 1 && s[k] == '_' ==> s[k + 1] != '_')
  }

  /** The digits of `s` with the underscores removed. */
  function DigitsOnly(s: string): (r: string)
    ensures |r| <= |s|
    ensures (forall k :: 0 <= k < |s| ==> IsDigit(s[k]) || s[k] == '_') ==> AllDigits(r)
    ensures AllDigits(s) ==> r == s
  {
    if s == "" then ""
    else
      var rest := DigitsOnly(s[1..]);
      if s[0] == '_' then rest else [s[0]] + rest
  }

  /** The number a string of decimal digits denotes, most significant digit first. */
  function Value(ds: string): nat
    requires AllDigits(ds)
  {
    if ds == "" then 0
    else Value(ds[..|ds| - 1]) * 10 + (ds[|ds| - 1] as int - '0' as int)
  }

  function BodyValue(s: string): nat
    requires DigitBody(s)
  {
    Value(DigitsOnly(s))
  }

  /**
   * `int(s)`: `Some(n)` when `s` is an optionally signed digit body, `None`
   * (Python's `ValueError`) otherwise. Only digits, underscores and one
   * leading sign are ever accepted, so the empty token is rejected.
   */
  function ParseInt(s: string): (r: Option<int>)
    ensures s == "" ==> r == None
    ensures r.Some? ==> forall k :: 0 <= k < |s| ==>
              IsDigit(s[k]) || s[k] == '_' || (k == 0 && (s[k] == '+' || s[k] == '-'))
    ensures r.Some? && s[0] != '-' ==> r.value >= 0
  {
    if |s| > 0 && (s[0] == '+' || s[0] == '-') then
      var body := s[1..];
      if !DigitBody(body) then None
      else if s[0] == '-' then Some(-(BodyValue(body) as int))
      else Some(BodyValue(body))
    else if DigitBody(s) then Some(BodyValue(s))
    else None
  }

  function DigitChar(d: nat): (c: char)
    requires d < 10
    ensures IsDigit(c) && c as int - '0' as int == d
  {
    ('0' as int + d) as char
  }

  /** `str(n)` for a non-negative `n`. */
  function NatStr(n: nat): string
  {
    if n < 10 then [DigitChar(n)] else NatStr(n / 10) + [DigitChar(n % 10)]
  }

  /** `str(n)`: a minus sign for negative numbers, then the decimal digits. */
  function IntStr(n: int): string
  {
    if n < 0 then "-" + NatStr(-n) else NatStr(n)
  }

  /** `str(n)` is a non-empty digit string that denotes `n`. */
  lemma {:induction false} NatStrValue(n: nat)
    ensures |NatStr(n)| > 0 && AllDigits(NatStr(n))
    ensures Value(NatStr(n)) == n
    decreases n
  {
    if n >= 10 {
      NatStrValue(n / 10);
      var s := NatStr(n);
      assert s[..|s| - 1] == NatStr(n / 10);
    }
  }

  /** `int(str(n)) == n` for every integer. */
  lemma ParseIntStr(n: int)
    ensures ParseInt(IntStr(n)) == Some(n)
  {
    var m := if n < 0 then -n else n;
    NatStrValue(m);
    var ds := NatStr(m);
    assert DigitBody(ds);
    if n < 0 {
      assert IntStr(n)[1..] == ds;
    }
  }

  /** `int` tolerates underscores between digits: `int("1_000") == 1000`. */
  lemma ParseIntUnderscore()
    ensures ParseInt("1_000") == Some(1000)
    ensures ParseInt("1__000") == None
    ensures ParseInt("_1") == None
  {
    assert DigitBody("1_000");
    assert DigitsOnly("000") == "000";
    assert DigitsOnly("_000") == "000";
    assert DigitsOnly("1_000") == "1000";
    assert "1000"[..3] == "100" && "100"[..2] == "10" && "10"[..1] == "1" && "1"[..0] == "";
    assert Value("1000") == 1000;
    assert "1__000"[1] == '_' && "1__000"[2] == '_';
  }
}
