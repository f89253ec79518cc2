/** The Python `str` operations the printer rig relies on, stated over
    `seq<char>`. Character classes (`\w`, `\d`, `lower()`) are the ASCII
    ones; whitespace and line breaks are the sets Python's `str.split()` and
    `str.splitlines()` use. */
module Strings {

  /** Characters for which Python's `str.isspace()` holds. */
  predicate IsSpace(c: char) {
    c == ' ' || ('\t' <= c <= '\r') || ('\U{1C}' <= c <= '\U{1F}') || c == '\U{85}'
    || c == '\U{A0}' || c == '\U{1680}' || ('\U{2000}' <= c <= '\U{200A}')
    || c == '\U{2028}' || c == '\U{2029}' || c == '\U{202F}' || c == '\U{205F}' || c == '\U{3000}'
  }

  /** Characters at which Python's `str.splitlines()` ends a line. */
  predicate IsLineBreak(c: char) {
    ('\n' <= c <= '\r') || ('\U{1C}' <= c <= '\U{1E}') || c == '\U{85}'
    || c == '\U{2028}' || c == '\U{2029}'
  }

  predicate IsDigit(c: char) { '0' <= c <= '9' }

  predicate IsLowerHex(c: char) { IsDigit(c) || 'a' <= c <= 'f' }

  /** Regular-expression `\w` over ASCII: letters, digits and underscore. */
  predicate IsWordChar(c: char) { 'a' <= c <= 'z' || 'A' <= c <= 'Z' || IsDigit(c) || c == '_' }

  /** Python's `sub in s` for strings. */
  predicate Contains(s: string, sub: string) {
    exists i :: 0 <= i <= |s| && sub <= s[i..]
  }

  lemma ContainsAt(s: string, sub: string, i: nat)
    requires i <= |s| && sub <= s[i..]
    ensures Contains(s, sub)
  {
  }

  /** Python's `s.startswith(prefix)`. */
  predicate StartsWith(s: string, prefix: string) { prefix <= s }

  // ---------------------------------------------------------------------------
  // Case and replacement

  function LowerChar(c: char): char {
    if 'A' <= c <= 'Z' then (c as int + 32) as char else c
  }

  /** Python's `s.lower()` over ASCII letters. */
  function Lower(s: string): (r: string)
    ensures |r| == |s|
    ensures forall i :: 0 <= i < |s| ==> r[i] == LowerChar(s[i])
  {
    seq(|s|, i requires 0 <= i < |s| => LowerChar(s[i]))
  }

  /** Python's `s.replace(c, repl)` for a one-character pattern. */
  function Replace(s: string, c: char, repl: string): string {
    if s == [] then []
    else (if s[0] == c then repl else [s[0]]) + Replace(s[1..], c, repl)
  }

  /** After `s.replace(c, repl)` the pattern is gone, provided the replacement
      does not contain it. */
  lemma {:induction false} ReplaceRemoves(s: string, c: char, repl: string)
    requires c !in repl
    ensures c !in Replace(s, c, repl)
  {
    if s != [] {
      ReplaceRemoves(s[1..], c, repl);
    }
  }

  /** Replacing a character by a single other character keeps every position. */
  lemma {:induction false} ReplaceByCharAt(s: string, c: char, d: char, i: nat)
    requires i < |s|
    ensures |Replace(s, c, [d])| == |s|
    ensures Replace(s, c, [d])[i] == if s[i] == c then d else s[i]
  {
    if i > 0 {
      ReplaceByCharAt(s[1..], c, d, i - 1);
    } else if |s| > 1 {
      ReplaceByCharAt(s[1..], c, d, 0);
    }
  }

  // ---------------------------------------------------------------------------
  // Stripping and splitting

  function StripLeft(s: string): string {
    if s != [] && IsSpace(s[0]) then StripLeft(s[1..]) else s
  }

  function StripRight(s: string): string {
    if s != [] && IsSpace(s[|s| - 1]) then StripRight(s[..|s| - 1]) else s
  }

  /** Python's `s.strip()`. */
  function Strip(s: string): string {
    StripRight(StripLeft(s))
  }

  /** Number of leading characters of `s` that are not whitespace. */
  function TokenLength(s: string): (k: nat)
    ensures k <= |s|
  {
    if s == [] || IsSpace(s[0]) then 0 else 1 + TokenLength(s[1..])
  }

  /** Python's `s.split()` with no separator: the maximal runs of
      non-whitespace characters, in order. */
  function Split(s: string): seq<string> {
    if s == [] then []
    else if IsSpace(s[0]) then Split(s[1..])
    else
      var k := TokenLength(s);
      [s[..k]] + Split(s[k..])
  }

  predicate AllSpace(s: string) {
    forall i :: 0 <= i < |s| ==> IsSpace(s[i])
  }

  predicate NoSpace(s: string) {
    forall i :: 0 <= i < |s| ==> !IsSpace(s[i])
  }

  lemma {:induction false} TokenPrefix(s: string)
    ensures NoSpace(s[..TokenLength(s)])
    ensures s != [] && !IsSpace(s[0]) ==> TokenLength(s) > 0
  {
    if s != [] && !IsSpace(s[0]) {
      TokenPrefix(s[1..]);
      assert s[..TokenLength(s)] == [s[0]] + s[1..][..TokenLength(s[1..])];
    }
  }

  /** Every field `split()` yields is non-empty and free of whitespace. */
  lemma {:induction false} SplitFields(s: string)
    ensures forall w :: w in Split(s) ==> w != [] && NoSpace(w)
  {
    if s != [] {
      if IsSpace(s[0]) {
        SplitFields(s[1..]);
      } else {
        TokenPrefix(s);
        SplitFields(s[TokenLength(s)..]);
      }
    }
  }

  /** `split()` yields nothing exactly for all-whitespace text. */
  lemma {:induction false} SplitBlank(s: string)
    ensures Split(s) == [] <==> AllSpace(s)
  {
    if s != [] {
      if IsSpace(s[0]) {
        SplitBlank(s[1..]);
        assert AllSpace(s) <==> AllSpace(s[1..]) by {
          assert forall i :: 0 <= i < |s[1..]| ==> s[1..][i] == s[i + 1];
        }
      } else {
        assert !AllSpace(s);
      }
    }
  }

  /** Stripping keeps text blank exactly when it was blank. */
  lemma {:induction false} StripBlank(s: string)
    ensures AllSpace(Strip(s)) <==> AllSpace(s)
  {
    StripLeftBlank(s);
    StripRightBlank(StripLeft(s));
  }

  lemma {:induction false} StripLeftBlank(s: string)
    ensures AllSpace(StripLeft(s)) <==> AllSpace(s)
  {
    if s != [] && IsSpace(s[0]) {
      StripLeftBlank(s[1..]);
      assert AllSpace(s) <==> AllSpace(s[1..]) by {
        assert forall i :: 0 <= i < |s[1..]| ==> s[1..][i] == s[i + 1];
      }
    }
  }

  lemma {:induction false} StripRightBlank(s: string)
    ensures AllSpace(StripRight(s)) <==> AllSpace(s)
  {
    if s != [] && IsSpace(s[|s| - 1]) {
      var init := s[..|s| - 1];
      StripRightBlank(init);
      assert AllSpace(s) <==> AllSpace(init) by {
        assert forall i :: 0 <= i < |init| ==> init[i] == s[i];
      }
    }
  }

  /** A token ends at whitespace or at the end of the text. */
  lemma {:induction false} TokenEnd(s: string)
    ensures TokenLength(s) < |s| ==> IsSpace(s[TokenLength(s)])
  {
    if s != [] && !IsSpace(s[0]) {
      TokenEnd(s[1..]);
    }
  }

  /** The last field `split()` yields is a whole token: it is followed only
      by whitespace and preceded by whitespace or the start of the text. */
  lemma {:induction false} SplitLast(s: string) returns (a: string, b: string)
    requires Split(s) != []
    ensures s == a + Split(s)[|Split(s)| - 1] + b
    ensures AllSpace(b)
    ensures a == [] || IsSpace(a[|a| - 1])
    decreases |s|, 1
  {
    if IsSpace(s[0]) {
      var a', b' := SplitLast(s[1..]);
      var w := Split(s[1..])[|Split(s[1..])| - 1];
      assert Split(s) == Split(s[1..]);
      a, b := [s[0]] + a', b';
      assert s == [s[0]] + s[1..];
      AppendAssoc3([s[0]], a', w, b');
      assert a[|a| - 1] == if a' == [] then s[0] else a'[|a'| - 1];
    } else {
      a, b := SplitLastAfterToken(s);
    }
  }

  /** `SplitLast` when the text starts with a token. */
  lemma {:induction false} SplitLastAfterToken(s: string) returns (a: string, b: string)
    requires Split(s) != [] && !IsSpace(s[0])
    ensures s == a + Split(s)[|Split(s)| - 1] + b
    ensures AllSpace(b)
    ensures a == [] || IsSpace(a[|a| - 1])
    decreases |s|, 0
  {
    var k := TokenLength(s);
    var rest := s[k..];
    TokenPrefix(s);
    assert s == s[..k] + rest;
    if Split(rest) == [] {
      SplitBlank(rest);
      a, b := [], rest;
    } else {
      var a', b' := SplitLast(rest);
      var w := Split(rest)[|Split(rest)| - 1];
      assert Split(s)[|Split(s)| - 1] == w;
      SplitFields(rest);
      assert w in Split(rest);
      TokenEnd(s);
      assert rest[0] == (a' + w + b')[0];
      assert a' != [];
      a, b := s[..k] + a', b';
      AppendAssoc3(s[..k], a', w, b');
    }
  }

  lemma AppendAssoc3(x: string, a: string, w: string, b: string)
    ensures x + (a + w + b) == (x + a) + w + b
  {
  }

  /** A text ending in a whitespace-only tail ends in whitespace. */
  lemma SpaceTail(x: string, b: string)
    requires AllSpace(b)
    ensures b == [] || IsSpace((x + b)[|x + b| - 1])
  {
    if b != [] {
      assert (x + b)[|x + b| - 1] == b[|b| - 1];
    }
  }

  lemma {:induction false} StripLeftFront(s: string)
    ensures StripLeft(s) == [] || !IsSpace(StripLeft(s)[0])
  {
    if s != [] && IsSpace(s[0]) {
      StripLeftFront(s[1..]);
    }
  }

  lemma {:induction false} StripRightBack(s: string)
    ensures StripRight(s) == [] || !IsSpace(StripRight(s)[|StripRight(s)| - 1])
  {
    if s != [] && IsSpace(s[|s| - 1]) {
      StripRightBack(s[..|s| - 1]);
    }
  }

  /** `s.strip().split()[-1]` is the token that ends the stripped text. */
  lemma LastField(s: string)
    requires Split(Strip(s)) != []
    ensures exists a :: Strip(s) == a + Split(Strip(s))[|Split(Strip(s))| - 1]
                        && (a == [] || IsSpace(a[|a| - 1]))
  {
    var t := Strip(s);
    var a, b := SplitLast(t);
    StripRightBack(StripLeft(s));
    SpaceTail(a + Split(t)[|Split(t)| - 1], b);
    assert t == a + Split(t)[|Split(t)| - 1];
  }

  /** Where two splittings of one text end in suffixes of different
      lengths, the longer suffix holds the last character of the shorter
      one's prefix. */
  lemma SuffixSplit(a: string, v: string, p: string, w: string)
    requires a + v == p + w
    ensures |v| > |w| ==> p != [] && v[|v| - |w| - 1] == p[|p| - 1]
  {
    if |v| > |w| {
      assert (a + v)[|a + v| - |w| - 1] == (p + w)[|p + w| - |w| - 1];
    }
  }

  /** A text has one last token: a non-empty whitespace-free suffix
      preceded by whitespace or the start of the text. */
  lemma LastTokenUnique(t: string, a: string, v: string, p: string, w: string)
    requires t == a + v && t == p + w
    requires v != [] && NoSpace(v) && (a == [] || IsSpace(a[|a| - 1]))
    requires w != [] && NoSpace(w) && (p == [] || IsSpace(p[|p| - 1]))
    ensures v == w
  {
    SuffixSplit(a, v, p, w);
    SuffixSplit(p, w, a, v);
    assert v == t[|t| - |v|..];
    assert w == t[|t| - |w|..];
  }

  /** Index of the first line break in `s`, or `|s|`. */
  function BreakIndex(s: string): (k: nat)
    ensures k <= |s|
  {
    if s == [] || IsLineBreak(s[0]) then 0 else 1 + BreakIndex(s[1..])
  }

  /** Python's `s.splitlines()`: `\r\n` ends one line, a final line break
      does not start an empty line. */
  function Lines(s: string): seq<string> {
    if s == [] then []
    else
      var k := BreakIndex(s);
      if k == |s| then [s]
      else
        var next := if s[k] == '\r' && k + 1 < |s| && s[k + 1] == '\n' then k + 2 else k + 1;
        [s[..k]] + Lines(s[next..])
  }

  // ---------------------------------------------------------------------------
  // Regular-expression token runs

  /** Number of leading word characters of `s`. */
  function WordLength(s: string): (k: nat)
    ensures k <= |s|
  {
    if s == [] || !IsWordChar(s[0]) then 0 else 1 + WordLength(s[1..])
  }

  /** `re.findall(r'(\w+)', s)`: the maximal runs of word characters, in order. */
  function WordRuns(s: string): seq<string> {
    if s == [] then []
    else if !IsWordChar(s[0]) then WordRuns(s[1..])
    else
      var k := WordLength(s);
      [s[..k]] + WordRuns(s[k..])
  }

  /** A word run that `\w+x\w+` matches: it has an 'x' with a word character
      on each side. Greedy matching then spans the whole run. */
  predicate HasInnerX(w: string) {
    exists i :: 1 <= i < |w| - 1 && w[i] == 'x'
  }

  /** `re.findall(r'(\w+x\w+)', s)`. */
  function InnerXRuns(s: string): seq<string> {
    if s == [] then []
    else if !IsWordChar(s[0]) then InnerXRuns(s[1..])
    else
      var k := WordLength(s);
      (if HasInnerX(s[..k]) then [s[..k]] else []) + InnerXRuns(s[k..])
  }

  /** The runs of word characters of `s`, in order, that `keep` accepts:
      `WordRuns` keeps every run, `InnerXRuns` those with an inner 'x'. */
  function KeptRuns(s: string, keep: string -> bool): seq<string> {
    if s == [] then []
    else if !IsWordChar(s[0]) then KeptRuns(s[1..], keep)
    else
      var k := WordLength(s);
      (if keep(s[..k]) then [s[..k]] else []) + KeptRuns(s[k..], keep)
  }

  predicate AnyRun(w: string) { true }

  lemma {:induction false} WordRunsKept(s: string)
    ensures WordRuns(s) == KeptRuns(s, AnyRun)
  {
    if s != [] {
      if !IsWordChar(s[0]) {
        WordRunsKept(s[1..]);
      } else {
        WordRunsKept(s[WordLength(s)..]);
      }
    }
  }

  lemma {:induction false} InnerXRunsKept(s: string)
    ensures InnerXRuns(s) == KeptRuns(s, HasInnerX)
  {
    if s != [] {
      if !IsWordChar(s[0]) {
        InnerXRunsKept(s[1..]);
      } else {
        InnerXRunsKept(s[WordLength(s)..]);
      }
    }
  }

  predicate AllWord(w: string) {
    forall i :: 0 <= i < |w| ==> IsWordChar(w[i])
  }

  /** A run of word characters starts at `i`. */
  predicate RunStart(s: string, i: int) {
    0 <= i < |s| && IsWordChar(s[i]) && (i == 0 || !IsWordChar(s[i - 1]))
  }

  /** `w` is the whole run of word characters that starts at `i`. */
  predicate MaximalRun(s: string, i: int, w: string) {
    && RunStart(s, i) && i + |w| <= |s| && s[i..i + |w|] == w && AllWord(w)
    && (i + |w| == |s| || !IsWordChar(s[i + |w|]))
  }

  /** Each of `runs` is a whole run of word characters of `s` accepted by
      `keep`, found at the matching position of `starts`. */
  ghost predicate RunsFound(s: string, runs: seq<string>, starts: seq<int>, keep: string -> bool) {
    && |starts| == |runs|
    && forall j :: 0 <= j < |runs| ==> MaximalRun(s, starts[j], runs[j]) && keep(runs[j])
  }

  ghost predicate Increasing(starts: seq<int>) {
    forall j, j' :: 0 <= j < j' < |starts| ==> starts[j] < starts[j']
  }

  /** Every position of `before` comes ahead of every position of `after`. */
  ghost predicate Precedes(before: seq<int>, after: seq<int>) {
    forall j, j' :: 0 <= j < |before| && 0 <= j' < |after| ==> before[j] < after[j']
  }

  /** Every run of `s` that `keep` accepts starts at one of `starts`. */
  ghost predicate NoneMissed(s: string, starts: seq<int>, keep: string -> bool) {
    forall i, w :: MaximalRun(s, i, w) && keep(w) ==> i in starts
  }

  /** `runs` are the maximal word runs of `s` that `keep` accepts, found at
      the increasing positions `starts`, and no such run is missing. */
  ghost predicate RunsAt(s: string, runs: seq<string>, starts: seq<int>, keep: string -> bool) {
    RunsFound(s, runs, starts, keep) && Increasing(starts) && NoneMissed(s, starts, keep)
  }

  lemma {:induction false} WordPrefix(s: string)
    ensures forall j :: 0 <= j < WordLength(s) ==> IsWordChar(s[j])
    ensures WordLength(s) < |s| ==> !IsWordChar(s[WordLength(s)])
  {
    if s != [] && IsWordChar(s[0]) {
      WordPrefix(s[1..]);
    }
  }

  /** A run of word characters ended by a non-word character or the end of
      the text has the length `WordLength` reports. */
  lemma {:induction false} WordLengthExact(s: string, n: nat)
    requires n <= |s| && (forall j :: 0 <= j < n ==> IsWordChar(s[j]))
    requires n == |s| || !IsWordChar(s[n])
    ensures WordLength(s) == n
  {
    if n > 0 {
      WordLengthExact(s[1..], n - 1);
    }
  }

  /** A maximal run of a suffix is one of the whole text, unless it starts
      the suffix right after a word character. */
  lemma ShiftRun(s: string, d: int, i: int, w: string)
    requires 0 <= d <= |s| && MaximalRun(s[d..], i, w)
    requires i > 0 || d == 0 || !IsWordChar(s[d - 1])
    ensures MaximalRun(s, d + i, w)
  {
    assert s[d..][i..i + |w|] == s[d + i..d + i + |w|];
  }

  lemma UnshiftRun(s: string, d: int, i: int, w: string)
    requires 0 <= d <= i && MaximalRun(s, i, w)
    ensures MaximalRun(s[d..], i - d, w)
  {
    assert s[d..][i - d..i - d + |w|] == s[i..i + |w|];
  }

  function Shifted(starts: seq<int>, d: int): (r: seq<int>)
    ensures |r| == |starts|
    ensures forall j :: 0 <= j < |r| ==> r[j] == starts[j] + d
  {
    seq(|starts|, j requires 0 <= j < |starts| => starts[j] + d)
  }

  /** Where `KeptRuns` finds its runs: each is a whole run of word characters
      accepted by `keep`, at increasing positions, and every such run of the
      text is found. */
  lemma {:induction false} KeptRunsAt(s: string, keep: string -> bool) returns (starts: seq<int>)
    ensures RunsAt(s, KeptRuns(s, keep), starts, keep)
    decreases |s|, 1
  {
    if s == [] {
      starts := [];
    } else if !IsWordChar(s[0]) {
      starts := KeptRunsAfterGap(s, keep);
    } else {
      starts := KeptRunsAfterWord(s, keep);
    }
  }

  lemma {:induction false} KeptRunsAfterGap(s: string, keep: string -> bool) returns (starts: seq<int>)
    requires s != [] && !IsWordChar(s[0])
    ensures RunsAt(s, KeptRuns(s, keep), starts, keep)
    decreases |s|, 0
  {
    var runs := KeptRuns(s[1..], keep);
    var rest := KeptRunsAt(s[1..], keep);
    starts := Shifted(rest, 1);
    assert KeptRuns(s, keep) == runs;
    RunsAfterGap(s, runs, rest, keep);
  }

  /** The runs found after a leading non-word character, one position on,
      are all the runs of the whole text. */
  lemma RunsAfterGap(s: string, runs: seq<string>, rest: seq<int>, keep: string -> bool)
    requires s != [] && !IsWordChar(s[0])
    requires RunsAt(s[1..], runs, rest, keep)
    ensures RunsAt(s, runs, Shifted(rest, 1), keep)
  {
    var starts := Shifted(rest, 1);
    forall j | 0 <= j < |runs|
      ensures MaximalRun(s, starts[j], runs[j]) && keep(runs[j])
    {
      ShiftRun(s, 1, rest[j], runs[j]);
    }
    forall j, j' | 0 <= j < j' < |starts|
      ensures starts[j] < starts[j']
    {
      assert rest[j] < rest[j'];
    }
    forall i, w | MaximalRun(s, i, w) && keep(w)
      ensures i in starts
    {
      UnshiftRun(s, 1, i, w);
      var j :| 0 <= j < |rest| && rest[j] == i - 1;
      assert starts[j] == i;
    }
  }

  lemma {:induction false} KeptRunsAfterWord(s: string, keep: string -> bool) returns (starts: seq<int>)
    requires s != [] && IsWordChar(s[0])
    ensures RunsAt(s, KeptRuns(s, keep), starts, keep)
    decreases |s|, 0
  {
    var k := WordLength(s);
    var first := s[..k];
    var runs := KeptRuns(s[k..], keep);
    var rest := KeptRunsAt(s[k..], keep);
    assert KeptRuns(s, keep) == (if keep(first) then [first] else []) + runs;
    starts := JoinAfterWord(s, keep, runs, rest);
  }

  /** The leading word, when kept, joined with the runs found after it. */
  lemma JoinAfterWord(s: string, keep: string -> bool, runs: seq<string>, rest: seq<int>) returns (starts: seq<int>)
    requires s != [] && IsWordChar(s[0])
    requires RunsAt(s[WordLength(s)..], runs, rest, keep)
    ensures var first := s[..WordLength(s)];
      RunsAt(s, (if keep(first) then [first] else []) + runs, starts, keep)
  {
    var k := WordLength(s);
    var first := s[..k];
    var kept := if keep(first) then [first] else [];
    var head := if keep(first) then [0] else [];
    var later := Shifted(rest, k);
    starts := head + later;
    LeadingFound(s, keep);
    RunsAfterWord(s, runs, rest, keep);
    OrderAfterWord(s, runs, rest, keep, head);
    FoundAfterWord(s, rest, keep, head, starts);
    RunsAtJoin(s, kept, head, runs, later, keep);
  }

  /** The leading word is a run of the text, found at position 0. */
  lemma LeadingFound(s: string, keep: string -> bool)
    requires s != [] && IsWordChar(s[0])
    ensures var first := s[..WordLength(s)];
      RunsFound(s, if keep(first) then [first] else [], if keep(first) then [0] else [], keep)
      && Increasing(if keep(first) then [0] else [])
  {
    WordPrefix(s);
    assert MaximalRun(s, 0, s[..WordLength(s)]);
  }

  /** Positions past the leading word keep their order and follow it. */
  lemma OrderAfterWord(s: string, runs: seq<string>, rest: seq<int>, keep: string -> bool, head: seq<int>)
    requires s != [] && IsWordChar(s[0])
    requires RunsAt(s[WordLength(s)..], runs, rest, keep)
    requires head == [] || head == [0]
    ensures Increasing(Shifted(rest, WordLength(s)))
    ensures Precedes(head, Shifted(rest, WordLength(s)))
  {
    var later := Shifted(rest, WordLength(s));
    assert WordLength(s) > 0;
    forall j, j' | 0 <= j < j' < |later|
      ensures later[j] < later[j']
    {
      assert rest[j] < rest[j'];
    }
    forall j, j' | 0 <= j < |head| && 0 <= j' < |later|
      ensures head[j] < later[j']
    {
      assert RunStart(s[WordLength(s)..], rest[j']);
    }
  }

  /** Joins the runs found before a position with those found after it. */
  lemma RunsAtJoin(s: string, r1: seq<string>, s1: seq<int>, r2: seq<string>, s2: seq<int>, keep: string -> bool)
    requires RunsFound(s, r1, s1, keep) && RunsFound(s, r2, s2, keep)
    requires Increasing(s1) && Increasing(s2) && Precedes(s1, s2)
    requires NoneMissed(s, s1 + s2, keep)
    ensures RunsAt(s, r1 + r2, s1 + s2, keep)
  {
    var runs, starts := r1 + r2, s1 + s2;
    forall j | 0 <= j < |runs|
      ensures MaximalRun(s, starts[j], runs[j]) && keep(runs[j])
    {
      if j >= |r1| {
        assert runs[j] == r2[j - |r1|] && starts[j] == s2[j - |r1|];
      }
    }
    forall j, j' | 0 <= j < j' < |starts|
      ensures starts[j] < starts[j']
    {
      if j' < |s1| {
      } else if j >= |s1| {
        assert starts[j] == s2[j - |s1|] && starts[j'] == s2[j' - |s1|];
      } else {
        assert starts[j'] == s2[j' - |s1|];
      }
    }
  }

  /** The runs found in the text after a leading word are runs of the whole
      text, at positions past that word. */
  lemma RunsAfterWord(s: string, runs: seq<string>, rest: seq<int>, keep: string -> bool)
    requires s != [] && IsWordChar(s[0])
    requires RunsAt(s[WordLength(s)..], runs, rest, keep)
    ensures RunsFound(s, runs, Shifted(rest, WordLength(s)), keep)
  {
    var k := WordLength(s);
    var later := Shifted(rest, k);
    WordPrefix(s);
    forall j | 0 <= j < |runs|
      ensures MaximalRun(s, later[j], runs[j]) && keep(runs[j])
    {
      var t := s[k..];
      assert RunStart(t, rest[j]);
      assert t[0] == s[k] && !IsWordChar(t[0]);
      ShiftRun(s, k, rest[j], runs[j]);
    }
  }

  /** Every accepted run of a text that starts with a word is the leading
      word or a run found after it. */
  lemma FoundAfterWord(s: string, rest: seq<int>, keep: string -> bool, head: seq<int>, starts: seq<int>)
    requires s != [] && IsWordChar(s[0])
    requires NoneMissed(s[WordLength(s)..], rest, keep)
    requires head == if keep(s[..WordLength(s)]) then [0] else []
    requires starts == head + Shifted(rest, WordLength(s))
    ensures NoneMissed(s, starts, keep)
  {
    var k := WordLength(s);
    forall i, w | MaximalRun(s, i, w) && keep(w)
      ensures i in starts
    {
      if i == 0 {
        LeadingRun(s, w);
        assert head == [0];
      } else {
        LaterRun(s, i, w);
        var j :| 0 <= j < |rest| && rest[j] == i - k;
        assert starts[|head| + j] == i;
      }
    }
  }

  /** The run at the start of a text is its leading word. */
  lemma LeadingRun(s: string, w: string)
    requires MaximalRun(s, 0, w)
    ensures w == s[..WordLength(s)]
  {
    WordLengthExact(s, |w|);
  }

  /** Any other run starts past the leading word, and is a run of the text
      after it. */
  lemma LaterRun(s: string, i: int, w: string)
    requires s != [] && IsWordChar(s[0]) && i > 0 && MaximalRun(s, i, w)
    ensures i >= WordLength(s) && MaximalRun(s[WordLength(s)..], i - WordLength(s), w)
  {
    WordPrefix(s);
    UnshiftRun(s, WordLength(s), i, w);
  }

  /** `re.findall(r'(\w+)', s)` yields every maximal run of word
      characters, in the order they occur, and nothing else. */
  lemma WordRunsAt(s: string) returns (starts: seq<int>)
    ensures RunsAt(s, WordRuns(s), starts, AnyRun)
  {
    WordRunsKept(s);
    starts := KeptRunsAt(s, AnyRun);
  }

  /** `re.findall(r'(\w+x\w+)', s)` yields every maximal run of word
      characters with an 'x' at an inner position, in the order they occur,
      and nothing else. */
  lemma InnerXRunsAt(s: string) returns (starts: seq<int>)
    ensures RunsAt(s, InnerXRuns(s), starts, HasInnerX)
  {
    InnerXRunsKept(s);
    starts := KeptRunsAt(s, HasInnerX);
  }

  // ---------------------------------------------------------------------------
  // Decimal numbers

  function DigitChar(d: nat): (c: char)
    requires d < 10
    ensures IsDigit(c)
  {
    ('0' as int + d) as char
  }

  function DigitValue(c: char): nat
    requires IsDigit(c)
  {
    c as int - '0' as int
  }

  /** Python's `str(n)` for a natural number. */
  function NatToString(n: nat): (r: string)
    ensures r != []
    ensures forall i :: 0 <= i < |r| ==> IsDigit(r[i])
  {
    if n < 10 then [DigitChar(n)] else NatToString(n / 10) + [DigitChar(n % 10)]
  }

  /** Python's `str(i)` for an integer. */
  function IntToString(i: int): string {
    if i < 0 then "-" + NatToString(-i) else NatToString(i)
  }

  predicate AllDigits(s: string) {
    forall i :: 0 <= i < |s| ==> IsDigit(s[i])
  }

  /** Python's `int(s)` for a string of decimal digits. */
  function ParseNat(s: string): nat
    requires AllDigits(s)
  {
    if s == [] then 0 else 10 * ParseNat(s[..|s| - 1]) + DigitValue(s[|s| - 1])
  }

  /** Reading back what `str(n)` wrote gives `n`. */
  lemma {:induction false} ParseNatToString(n: nat)
    ensures ParseNat(NatToString(n)) == n
  {
    var s := NatToString(n);
    if n >= 10 {
      ParseNatToString(n / 10);
      assert s[..|s| - 1] == NatToString(n / 10);
    }
  }

  /** Python's `s.zfill(width)` for a string of digits. */
  function ZFill(s: string, width: nat): (r: string)
    ensures |r| == if |s| >= width then |s| else width
    ensures r[|r| - |s|..] == s
    ensures forall i :: 0 <= i < |r| - |s| ==> r[i] == '0'
    decreases width - |s|
  {
    if |s| >= width then s else ZFill("0" + s, width)
  }
}
