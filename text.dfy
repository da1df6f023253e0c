/**
 * The string operations the interpreter relies on, with Python's meaning:
 * `str.strip()`, `re.split(r'\s+', s)`, `str.split('|')`, `str.partition(' ')`
 * and the clamping slice `s[k:]`.
 */
module Text {

  /** Python's whitespace (`str.isspace`, and `\s` in a `str` pattern). */
  predicate IsSpace(c: char) {
    || c == ' '
    || ('\t' <= c <= '\r')
    || ('\U{1C}' <= c <= '\U{1F}')
    || c == '\U{85}' || c == '\U{A0}' || c == '\U{1680}'
    || ('\U{2000}' <= c <= '\U{200A}')
    || c == '\U{2028}' || c == '\U{2029}' || c == '\U{202F}' || c == '\U{205F}'
    || c == '\U{3000}'
  }

  predicate NoSpace(s: string) {
    forall k :: 0 <= k < |s| ==> !IsSpace(s[k])
  }

  /** A non-empty string with no whitespace at either end: what `strip()` leaves. */
  predicate Trimmed(s: string) {
    |s| > 0 && !IsSpace(s[0]) && !IsSpace(s[|s| - 1])
  }

  /** Python's `s[k:]` for `k >= 0`: the slice is empty once `k` passes the end. */
  function Drop(s: string, k: nat): (r: string)
    ensures k <= |s| ==> s == s[..k] + r
    ensures k >= |s| ==> r == ""
  {
    if k <= |s| then s[k..] else ""
  }

  /** First index at or after `i` that is whitespace, or `|s|`. */
  function SpanNonSpace(s: string, i: nat): (k: nat)
    requires i <= |s|
    ensures i <= k <= |s|
    ensures forall m :: i <= m < k ==> !IsSpace(s[m])
    ensures k < |s| ==> IsSpace(s[k])
    decreases |s| - i
  {
    if i == |s| || IsSpace(s[i]) then i else SpanNonSpace(s, i + 1)
  }

  /** First index at or after `i` that is not whitespace, or `|s|`. */
  function SpanSpace(s: string, i: nat): (k: nat)
    requires i <= |s|
    ensures i <= k <= |s|
    ensures forall m :: i <= m < k ==> IsSpace(s[m])
    ensures k < |s| ==> !IsSpace(s[k])
    decreases |s| - i
  {
    if i == |s| || !IsSpace(s[i]) then i else SpanSpace(s, i + 1)
  }

  /** One past the last non-whitespace index below `j`, but not below `i`. */
  function SpanSpaceBack(s: string, i: nat, j: nat): (k: nat)
    requires i <= j <= |s|
    ensures i <= k <= j
    ensures forall m :: k <= m < j ==> IsSpace(s[m])
    ensures k > i ==> !IsSpace(s[k - 1])
    decreases j
  {
    if j == i || !IsSpace(s[j - 1]) then j else SpanSpaceBack(s, i, j - 1)
  }

  /**
   * `s.strip()`: the slice of `s` left after removing leading and trailing
   * whitespace. It is empty exactly when `s` is all whitespace, and otherwise
   * it neither starts nor ends with whitespace.
   */
  function Strip(s: string): (r: string)
    ensures |r| <= |s|
    ensures r == "" <==> forall k :: 0 <= k < |s| ==> IsSpace(s[k])
    ensures r != "" ==> Trimmed(r)
    ensures SpanSpace(s, 0) + |r| <= |s| && r == s[SpanSpace(s, 0)..SpanSpace(s, 0) + |r|]
    ensures forall m :: SpanSpace(s, 0) + |r| <= m < |s| ==> IsSpace(s[m])
  {
    var i := SpanSpace(s, 0);
    var j := SpanSpaceBack(s, i, |s|);
    assert i < j ==> !IsSpace(s[i]) && !IsSpace(s[j - 1]);
    assert i == j ==> forall m :: 0 <= m < |s| ==> IsSpace(s[m]);
    s[i..j]
  }

  /** Stripping a string that has no whitespace at either end changes nothing. */
  lemma StripTrimmed(s: string)
    requires Trimmed(s)
    ensures Strip(s) == s
  {
    assert SpanSpace(s, 0) == 0;
    assert SpanSpaceBack(s, 0, |s|) == |s|;
  }

  /** `strip()` is idempotent. */
  lemma StripIdempotent(s: string)
    ensures Strip(Strip(s)) == Strip(s)
  {
    if Strip(s) != "" {
      StripTrimmed(Strip(s));
    }
  }

  /**
   * `re.split(r'\s+', s)`: the pieces between maximal runs of whitespace. A
   * leading (trailing) run yields an empty first (last) piece, as in Python.
   */
  function SplitWs(s: string): (r: seq<string>)
    ensures |r| >= 1
    ensures r[0] == s[..SpanNonSpace(s, 0)]
    ensures forall k :: 0 <= k < |r| ==> NoSpace(r[k])
    decreases |s|
  {
    var i := SpanNonSpace(s, 0);
    if i == |s| then
      assert s[..i] == s;
      [s]
    else
      var j := SpanSpace(s, i);
      var rest := SplitWs(s[j..]);
      assert forall k :: 1 <= k < |rest| + 1 ==> ([s[..i]] + rest)[k] == rest[k - 1];
      [s[..i]] + rest
  }

  /** `SpanNonSpace` stops at the first whitespace character at or after `i`. */
  lemma {:induction false} SpanNonSpaceAt(s: string, i: nat, k: nat)
    requires i <= k <= |s|
    requires forall m :: i <= m < k ==> !IsSpace(s[m])
    requires k == |s| || IsSpace(s[k])
    ensures SpanNonSpace(s, i) == k
    decreases k - i
  {
    if i < k {
      SpanNonSpaceAt(s, i + 1, k);
    }
  }

  /** `SpanSpace` stops at the first non-whitespace character at or after `i`. */
  lemma {:induction false} SpanSpaceAt(s: string, i: nat, k: nat)
    requires i <= k <= |s|
    requires forall m :: i <= m < k ==> IsSpace(s[m])
    requires k == |s| || !IsSpace(s[k])
    ensures SpanSpace(s, i) == k
    decreases k - i
  {
    if i < k {
      SpanSpaceAt(s, i + 1, k);
    }
  }

  /** A string without whitespace is one piece. */
  lemma SplitWsWord(w: string)
    requires NoSpace(w)
    ensures SplitWs(w) == [w]
  {
    SpanNonSpaceAt(w, 0, |w|);
  }

  /**
   * A whitespace-free word, a run of whitespace and the rest: the word is the
   * first piece and the rest is split on its own. The run is one separator
   * however long it is, and the word may be empty (a leading run).
   */
  lemma SplitWsCons(w: string, g: string, r: string)
    requires NoSpace(w)
    requires |g| > 0 && forall m :: 0 <= m < |g| ==> IsSpace(g[m])
    requires r == "" || !IsSpace(r[0])
    ensures SplitWs(w + g + r) == [w] + SplitWs(r)
  {
    var s := w + g + r;
    forall m | 0 <= m < |w| ensures !IsSpace(s[m]) {
      assert s[m] == w[m];
    }
    assert s[|w|] == g[0];
    SpanNonSpaceAt(s, 0, |w|);
    forall m | |w| <= m < |w| + |g| ensures IsSpace(s[m]) {
      assert s[m] == g[m - |w|];
    }
    assert |w| + |g| < |s| ==> s[|w| + |g|] == r[0];
    SpanSpaceAt(s, |w|, |w| + |g|);
    assert s[..|w|] == w;
    assert s[|w| + |g|..] == r;
  }

  /** Splitting a single-space join of non-empty words gives back the words. */
  lemma {:induction false} SplitWsJoin(ws: seq<string>)
    requires |ws| >= 1
    requires forall k :: 0 <= k < |ws| ==> ws[k] != "" && NoSpace(ws[k])
    ensures SplitWs(Join(ws, ' ')) == ws
    decreases |ws|
  {
    if |ws| == 1 {
      SplitWsWord(ws[0]);
    } else {
      var rest := Join(ws[1..], ' ');
      SplitWsJoin(ws[1..]);
      assert rest[0] == ws[1][0];
      SplitWsCons(ws[0], " ", rest);
      assert Join(ws, ' ') == ws[0] + " " + rest;
      assert ws == [ws[0]] + ws[1..];
    }
  }

  /** Every character of `s` that is not whitespace, in order. */
  function NonSpace(s: string): string {
    if s == "" then ""
    else (if IsSpace(s[0]) then "" else [s[0]]) + NonSpace(s[1..])
  }

  function Concat(ps: seq<string>): string {
    if ps == [] then "" else ps[0] + Concat(ps[1..])
  }

  lemma {:induction false} NonSpaceAppend(a: string, b: string)
    ensures NonSpace(a + b) == NonSpace(a) + NonSpace(b)
    decreases |a|
  {
    if a == "" {
      assert a + b == b;
    } else {
      assert (a + b)[0] == a[0] && (a + b)[1..] == a[1..] + b;
      NonSpaceAppend(a[1..], b);
    }
  }

  lemma {:induction false} NonSpaceOfNoSpace(s: string)
    requires NoSpace(s)
    ensures NonSpace(s) == s
    decreases |s|
  {
    if s != "" {
      NonSpaceOfNoSpace(s[1..]);
    }
  }

  lemma {:induction false} NonSpaceOfSpaces(s: string)
    requires forall k :: 0 <= k < |s| ==> IsSpace(s[k])
    ensures NonSpace(s) == ""
    decreases |s|
  {
    if s != "" {
      NonSpaceOfSpaces(s[1..]);
    }
  }

  lemma ConcatSplitWsStep(s: string)
    requires SpanNonSpace(s, 0) < |s|
    ensures Concat(SplitWs(s)) == s[..SpanNonSpace(s, 0)] + Concat(SplitWs(s[SpanSpace(s, SpanNonSpace(s, 0))..]))
  {
    var i := SpanNonSpace(s, 0);
    var rest := SplitWs(s[SpanSpace(s, i)..]);
    var r := SplitWs(s);
    assert r == [s[..i]] + rest;
    assert r[1..] == rest;
  }

  /** A token followed by whitespace keeps just the token. */
  lemma NonSpaceTokenGap(head: string, gap: string)
    requires NoSpace(head)
    requires forall m :: 0 <= m < |gap| ==> IsSpace(gap[m])
    ensures NonSpace(head + gap) == head
  {
    NonSpaceAppend(head, gap);
    NonSpaceOfNoSpace(head);
    NonSpaceOfSpaces(gap);
    assert head + "" == head;
  }

  /** The token and whitespace run at the front of `s` keep just the token. */
  lemma NonSpaceFront(s: string, i: nat, j: nat)
    requires i <= j <= |s|
    requires NoSpace(s[..i])
    requires forall m :: i <= m < j ==> IsSpace(s[m])
    ensures NonSpace(s[..j]) == s[..i]
  {
    var head, gap := s[..i], s[i..j];
    assert s[..j] == head + gap;
    forall m | 0 <= m < |gap| ensures IsSpace(gap[m]) {
      assert gap[m] == s[i + m];
    }
    NonSpaceTokenGap(head, gap);
  }

  /** The non-blank text of `s` is that of its two halves at any cut. */
  lemma NonSpaceSplitAt(s: string, j: nat)
    requires j <= |s|
    ensures NonSpace(s) == NonSpace(s[..j]) + NonSpace(s[j..])
  {
    assert s == s[..j] + s[j..];
    NonSpaceAppend(s[..j], s[j..]);
  }

  /** Dropping a leading token and the whitespace run after it from the non-blank text. */
  lemma NonSpaceStep(s: string, i: nat, j: nat)
    requires i <= j <= |s|
    requires NoSpace(s[..i])
    requires forall m :: i <= m < j ==> IsSpace(s[m])
    ensures NonSpace(s) == s[..i] + NonSpace(s[j..])
  {
    NonSpaceFront(s, i, j);
    NonSpaceSplitAt(s, j);
  }

  /** Splitting on whitespace loses only the whitespace: the pieces, put back together, are the non-blank text of `s`. */
  lemma {:induction false} SplitWsKeepsText(s: string)
    ensures Concat(SplitWs(s)) == NonSpace(s)
    decreases |s|
  {
    var i := SpanNonSpace(s, 0);
    if i == |s| {
      assert s[..i] == s;
      NonSpaceOfNoSpace(s);
    } else {
      var j := SpanSpace(s, i);
      SplitWsKeepsText(s[j..]);
      ConcatSplitWsStep(s);
      NonSpaceStep(s, i, j);
    }
  }

  /** On a stripped statement every piece of the whitespace split is a non-empty token. */
  lemma {:induction false} SplitWsTrimmed(s: string)
    requires Trimmed(s)
    ensures forall k :: 0 <= k < |SplitWs(s)| ==> SplitWs(s)[k] != ""
    decreases |s|
  {
    var i := SpanNonSpace(s, 0);
    assert i > 0;
    if i < |s| {
      var j := SpanSpace(s, i);
      assert !IsSpace(s[|s| - 1]);
      assert j < |s|;
      assert s[j..][|s[j..]| - 1] == s[|s| - 1];
      SplitWsTrimmed(s[j..]);
      assert SplitWs(s) == [s[..i]] + SplitWs(s[j..]);
    }
  }

  /** First index at or after `i` holding `c`, or `|s|`. */
  function IndexOf(s: string, c: char, i: nat): (k: nat)
    requires i <= |s|
    ensures i <= k <= |s|
    ensures forall m :: i <= m < k ==> s[m] != c
    ensures k < |s| ==> s[k] == c
    decreases |s| - i
  {
    if i == |s| || s[i] == c then i else IndexOf(s, c, i + 1)
  }

  /** `s.split(c)`: the pieces between occurrences of `c`, empty pieces kept. */
  function SplitOn(s: string, c: char): (r: seq<string>)
    ensures |r| >= 1
    ensures forall k :: 0 <= k < |r| ==> c !in r[k]
    decreases |s|
  {
    var i := IndexOf(s, c, 0);
    if i == |s| then [s] else [s[..i]] + SplitOn(s[i + 1..], c)
  }

  /** `c.join(ps)`. */
  function Join(ps: seq<string>, c: char): string {
    if ps == [] then ""
    else if |ps| == 1 then ps[0]
    else ps[0] + [c] + Join(ps[1..], c)
  }

  /** Joining the pieces of a split gives back the original string. */
  lemma {:induction false} JoinSplitOn(s: string, c: char)
    ensures Join(SplitOn(s, c), c) == s
    decreases |s|
  {
    var i := IndexOf(s, c, 0);
    if i < |s| {
      var head, tail := s[..i], s[i + 1..];
      JoinSplitOn(tail, c);
      var r := SplitOn(s, c);
      var rest := SplitOn(tail, c);
      assert r == [head] + rest;
      assert |r| > 1 && r[0] == head && r[1..] == rest;
      assert Join(r, c) == head + [c] + Join(rest, c);
      assert s == head + [c] + tail;
    }
  }

  /** `IndexOf` finds the first occurrence. */
  lemma {:induction false} IndexOfFirst(s: string, c: char, i: nat, k: nat)
    requires i <= k < |s| && s[k] == c
    requires forall m :: i <= m < k ==> s[m] != c
    ensures IndexOf(s, c, i) == k
    decreases k - i
  {
    if i < k {
      IndexOfFirst(s, c, i + 1, k);
    }
  }

  /** `IndexOf` reports absence as `|s|`. */
  lemma {:induction false} IndexOfAbsent(s: string, c: char, i: nat)
    requires i <= |s|
    requires forall m :: i <= m < |s| ==> s[m] != c
    ensures IndexOf(s, c, i) == |s|
    decreases |s| - i
  {
    if i < |s| {
      IndexOfAbsent(s, c, i + 1);
    }
  }

  /** Splitting a join of separator-free pieces gives back the pieces. */
  lemma {:induction false} SplitOnJoin(ps: seq<string>, c: char)
    requires |ps| >= 1
    requires forall k :: 0 <= k < |ps| ==> c !in ps[k]
    ensures SplitOn(Join(ps, c), c) == ps
    decreases |ps|
  {
    var s := Join(ps, c);
    if |ps| == 1 {
      IndexOfAbsent(s, c, 0);
    } else {
      var head, rest := ps[0], Join(ps[1..], c);
      assert s == head + [c] + rest;
      forall m | 0 <= m < |head| ensures s[m] != c {
        assert s[m] == head[m];
      }
      IndexOfFirst(s, c, 0, |head|);
      assert s[..|head|] == head;
      assert s[|head| + 1..] == rest;
      SplitOnJoin(ps[1..], c);
      assert SplitOn(s, c) == [head] + SplitOn(rest, c);
    }
  }

  /**
   * `s.partition(c)`: the text before the first `c` and the text after it, or
   * all of `s` and the empty string when `c` does not occur.
   */
  function Partition(s: string, c: char): (r: (string, string))
    ensures c !in r.0
    ensures c in s ==> s == r.0 + [c] + r.1
    ensures c !in s ==> r == (s, "")
  {
    var i := IndexOf(s, c, 0);
    if i == |s| then (s, "")
    else
      assert s == s[..i] + [c] + s[i + 1..];
      (s[..i], s[i + 1..])
  }
}
