/**
  Low-level string helpers shared by the four transformers: Python's character
  classes (whitespace as `str.strip` and `\s` see it, ASCII digits and word
  characters), `str.lower`, `str.strip`, `str.startswith`, the `in` test on
  strings, `str.split('\n')` / `'\n'.join`, and decimal rendering of integers
  as an f-string does it.
 */
module Text {

  datatype Option<T> = None | Some(value: T)

  /** The value of an option as a list of zero or one elements. */
  function OptionList<T>(o: Option<T>): (s: seq<T>)
    ensures |s| <= 1 && (o.Some? ==> s == [o.value])
  {
    if o.Some? then [o.value] else []
  }

  /** The values of a list of options, in order, with the empty ones dropped. */
  function Values<T>(os: seq<Option<T>>): (s: seq<T>)
    ensures |s| <= |os|
  {
    if os == [] then [] else Values(os[..|os| - 1]) + OptionList(os[|os| - 1])
  }

  /** Indexing into the front part of a concatenation. */
  lemma IndexInFront<T>(f: seq<T>, g: seq<T>, j: nat)
    requires j < |f|
    ensures (f + g)[j] == f[j]
  {
  }

  /** Indexing into the middle part of a three-part concatenation. */
  lemma IndexInBack<T>(f: seq<T>, g: seq<T>, j: nat)
    requires j < |g|
    ensures (f + g)[|f| + j] == g[j]
  {
  }

  /**
    A loop over lines that emits one line for each line it reads and threads a
    state through: `step` maps a line and the state before it to the emitted
    line and the state after it.  The emitted lines and the state after the
    first `k` lines.
   */
  function Scan<S>(step: (string, S) -> (string, S), init: S, lines: seq<string>, k: nat): (r: (seq<string>, S))
    requires k <= |lines|
    ensures |r.0| == k
    decreases k
  {
    if k == 0 then ([], init)
    else
      var prev := Scan(step, init, lines, k - 1);
      var next := step(lines[k - 1], prev.1);
      (prev.0 + [next.0], next.1)
  }

  /** Emitted line `j` is line `j` stepped under the state the first `j` lines left; later lines do not change it. */
  lemma {:induction false} ScanAt<S>(step: (string, S) -> (string, S), init: S, lines: seq<string>, k: nat, j: nat)
    requires j < k <= |lines|
    ensures Scan(step, init, lines, k).0[j] == step(lines[j], Scan(step, init, lines, j).1).0
    decreases k
  {
    var prev := Scan(step, init, lines, k - 1);
    var last := step(lines[k - 1], prev.1).0;
    assert Scan(step, init, lines, k).0 == prev.0 + [last];
    if j < k - 1 {
      ScanAt(step, init, lines, k - 1, j);
      IndexInFront(prev.0, [last], j);
    }
  }

  lemma IndexInMiddle<T>(x: T, f: seq<T>, y: T, j: nat)
    requires j < |f|
    ensures ([x] + f + [y])[j + 1] == f[j]
  {
  }

  lemma HeadTail<T>(s: seq<T>)
    requires s != []
    ensures [s[0]] + s[1..] == s
  {
  }

  lemma FrontLast<T>(s: seq<T>)
    requires s != []
    ensures s[..|s| - 1] + [s[|s| - 1]] == s
  {
  }

  lemma PrefixIndex<T>(s: seq<T>, m: nat, k: nat)
    requires k < m <= |s|
    ensures s[..m][k] == s[k]
  {
  }

  lemma PrefixOfAppend<T>(x: seq<T>, y: seq<T>)
    ensures (x + y)[..|x|] == x
  {
  }

  lemma StartsWithAppend(a: string, b: string)
    ensures StartsWith(a + b, a)
  {
    PrefixOfAppend(a, b);
  }

  /** `p + c` starts with `p` and the first character of `c`. */
  lemma StartsWithNext(p: string, c: string)
    requires |c| > 0
    ensures StartsWith(p + c, p + [c[0]])
  {
    assert (p + c)[..|p| + 1] == p + [c[0]];
  }

  /** Prefixes of prefixes. */
  lemma PrefixStartsWith(s: string, r: string, p: string)
    requires StartsWith(s, r) && StartsWith(r, p)
    ensures StartsWith(s, p)
  {
    assert s[..|p|] == s[..|r|][..|p|];
  }

  lemma AppendAssoc<T>(x: seq<T>, y: seq<T>, z: seq<T>)
    ensures x + (y + z) == (x + y) + z
  {
  }

  /** The values of the first `k` options: those of the first `k - 1`, then the `k`-th's. */
  lemma ValuesSnoc<T>(os: seq<Option<T>>, k: nat)
    requires 0 < k <= |os|
    ensures Values(os[..k]) == Values(os[..k - 1]) + OptionList(os[k - 1])
  {
    assert os[..k][..k - 1] == os[..k - 1];
  }

  /** Python's `str.isspace`, which `str.strip()` and the regex class `\s` use. */
  predicate IsSpace(c: char) {
    if c <= ' ' then c == ' ' || ('\t' <= c <= '\r') || '\U{1C}' <= c
    else '\U{85}' <= c && IsWideSpace(c)
  }

  /** The whitespace characters above ASCII. */
  predicate IsWideSpace(c: char) {
    c == '\U{85}' || c == '\U{A0}' || c == '\U{1680}'
    || ('\U{2000}' <= c <= '\U{200A}') || c == '\U{2028}' || c == '\U{2029}'
    || c == '\U{202F}' || c == '\U{205F}' || c == '\U{3000}'
  }

  /** The regex class `\d`, over ASCII. */
  predicate IsDigit(c: char) {
    '0' <= c <= '9'
  }

  /** The regex class `\w`, over ASCII. */
  predicate IsWordChar(c: char) {
    ('a' <= c <= 'z') || ('A' <= c <= 'Z') || IsDigit(c) || c == '_'
  }

  predicate AllDigits(s: string) {
    forall i | 0 <= i < |s| :: IsDigit(s[i])
  }

  predicate AllSpace(s: string) {
    forall i | 0 <= i < |s| :: IsSpace(s[i])
  }

  predicate NoNewline(s: string) {
    forall i | 0 <= i < |s| :: s[i] != '\n'
  }

  function LowerChar(c: char): char {
    if 'A' <= c <= 'Z' then (c as int + 32) as char else c
  }

  /** `str.lower()` over ASCII letters: no capital is left, and only capitals change. */
  function Lower(s: string): (r: string)
    ensures |r| == |s|
    ensures forall i | 0 <= i < |s| :: r[i] == LowerChar(s[i])
    ensures forall i | 0 <= i < |r| :: !('A' <= r[i] <= 'Z')
    ensures forall i | 0 <= i < |s| :: 'A' <= s[i] <= 'Z' || r[i] == s[i]
    ensures forall i | 0 <= i < |s| :: 'A' <= s[i] <= 'Z' ==> r[i] as int - 'a' as int == s[i] as int - 'A' as int
  {
    seq(|s|, i requires 0 <= i < |s| => LowerChar(s[i]))
  }

  /** `s.startswith(p)`. */
  predicate StartsWith(s: string, p: string) {
    |p| <= |s| && s[..|p|] == p
  }

  /** `w` occurs in `s` starting at index `i`. */
  predicate OccursAt(s: string, w: string, i: int) {
    0 <= i <= |s| - |w| && s[i..i + |w|] == w
  }

  /** `w in s` for strings. */
  predicate Contains(s: string, w: string) {
    exists i | 0 <= i <= |s| - |w| :: OccursAt(s, w, i)
  }

  /** From index `i`, the end of the run of `\s` characters: what a greedy `\s*` consumes. */
  function SkipSpaces(s: string, i: nat): (j: nat)
    requires i <= |s|
    ensures i <= j <= |s|
    ensures j < |s| ==> !IsSpace(s[j])
    decreases |s| - i
  {
    if i == |s| || !IsSpace(s[i]) then i else SkipSpaces(s, i + 1)
  }

  /** From index `i`, the end of the run of ASCII digits: what a greedy `\d+` consumes. */
  function SkipDigits(s: string, i: nat): (j: nat)
    requires i <= |s|
    ensures i <= j <= |s|
    ensures j < |s| ==> !IsDigit(s[j])
    decreases |s| - i
  {
    if i == |s| || !IsDigit(s[i]) then i else SkipDigits(s, i + 1)
  }

  /** Scanning digits is unaffected by what precedes the scan's start. */
  lemma {:induction false} SkipDigitsShift(p: string, t: string, j: nat)
    requires j <= |t|
    ensures SkipDigits(p + t, |p| + j) == |p| + SkipDigits(t, j)
    decreases |t| - j
  {
    if j < |t| {
      assert (p + t)[|p| + j] == t[j];
      if IsDigit(t[j]) {
        SkipDigitsShift(p, t, j + 1);
      }
    }
  }

  /** Going back from index `j`, but not below `lo`, the start of the trailing run of `\s` characters. */
  function TrimBack(s: string, lo: nat, j: nat): (e: nat)
    requires lo <= j <= |s|
    ensures lo <= e <= j
    ensures e > lo ==> !IsSpace(s[e - 1])
    decreases j
  {
    if j == lo || !IsSpace(s[j - 1]) then j else TrimBack(s, lo, j - 1)
  }

  lemma {:induction false} SkipSpacesSkipped(s: string, i: nat)
    requires i <= |s|
    ensures forall k | i <= k < SkipSpaces(s, i) :: IsSpace(s[k])
    decreases |s| - i
  {
    if i < |s| && IsSpace(s[i]) {
      SkipSpacesSkipped(s, i + 1);
    }
  }

  /** The run of `\s` from `i` ends at the first non-space at or after `i`. */
  lemma {:induction false} SkipSpacesAt(s: string, i: nat, j: nat)
    requires i <= j <= |s|
    requires forall k | i <= k < j :: IsSpace(s[k])
    requires j == |s| || !IsSpace(s[j])
    ensures SkipSpaces(s, i) == j
    decreases j - i
  {
    if i < j {
      SkipSpacesAt(s, i + 1, j);
    }
  }

  /** `\s*` at a single space stops right after it. */
  lemma SkipOneSpace(s: string, i: nat)
    requires i < |s| && IsSpace(s[i])
    requires i + 1 == |s| || !IsSpace(s[i + 1])
    ensures SkipSpaces(s, i) == i + 1
  {
    assert SkipSpaces(s, i) == SkipSpaces(s, i + 1);
  }

  lemma {:induction false} SkipDigitsSkipped(s: string, i: nat)
    requires i <= |s|
    ensures forall k | i <= k < SkipDigits(s, i) :: IsDigit(s[k])
    decreases |s| - i
  {
    if i < |s| && IsDigit(s[i]) {
      SkipDigitsSkipped(s, i + 1);
    }
  }

  /** The run of digits from `i` ends at the first non-digit at or after `i`. */
  lemma {:induction false} SkipDigitsAt(s: string, i: nat, j: nat)
    requires i <= j <= |s|
    requires forall k | i <= k < j :: IsDigit(s[k])
    requires j == |s| || !IsDigit(s[j])
    ensures SkipDigits(s, i) == j
    decreases j - i
  {
    if i < j {
      SkipDigitsAt(s, i + 1, j);
    }
  }

  lemma {:induction false} TrimBackSkipped(s: string, lo: nat, j: nat)
    requires lo <= j <= |s|
    ensures forall k | TrimBack(s, lo, j) <= k < j :: IsSpace(s[k])
    decreases j
  {
    if j > lo && IsSpace(s[j - 1]) {
      TrimBackSkipped(s, lo, j - 1);
    }
  }

  lemma {:induction false} TrimBackAt(s: string, lo: nat, e: nat, j: nat)
    requires lo <= e <= j <= |s|
    requires forall k | e <= k < j :: IsSpace(s[k])
    requires e == lo || !IsSpace(s[e - 1])
    ensures TrimBack(s, lo, j) == e
    decreases j
  {
    if e < j {
      TrimBackAt(s, lo, e, j - 1);
    }
  }

  /** `s.rstrip()`: the longest prefix of `s` that does not end in whitespace. */
  function RStrip(s: string): (r: string)
    ensures StartsWith(s, r)
    ensures r == [] || !IsSpace(r[|r| - 1])
  {
    s[..TrimBack(s, 0, |s|)]
  }

  /** Where `s.strip()` starts in `s`. */
  function StripStart(s: string): (a: nat)
    ensures a <= |s|
  {
    SkipSpaces(s, 0)
  }

  /** Where `s.strip()` ends in `s`. */
  function StripEnd(s: string): (e: nat)
    ensures StripStart(s) <= e <= |s|
  {
    TrimBack(s, StripStart(s), |s|)
  }

  /** `s.strip()`: `s` without its leading and trailing whitespace. */
  function Strip(s: string): (r: string)
    ensures r == [] || (!IsSpace(r[0]) && !IsSpace(r[|r| - 1]))
  {
    s[StripStart(s)..StripEnd(s)]
  }

  /** `strip()` removes exactly the surrounding whitespace: what it keeps is flanked by spaces only. */
  lemma StripSurround(s: string)
    ensures forall k | 0 <= k < StripStart(s) :: IsSpace(s[k])
    ensures forall k | StripEnd(s) <= k < |s| :: IsSpace(s[k])
  {
    SkipSpacesSkipped(s, 0);
    TrimBackSkipped(s, StripStart(s), |s|);
  }

  /** A slice flanked by whitespace and not itself starting or ending in whitespace is the `strip()`. */
  lemma StripOf(s: string, a: nat, e: nat)
    requires a <= e <= |s|
    requires forall k | 0 <= k < a :: IsSpace(s[k])
    requires forall k | e <= k < |s| :: IsSpace(s[k])
    requires a == e || (!IsSpace(s[a]) && !IsSpace(s[e - 1]))
    ensures Strip(s) == s[a..e]
  {
    if a < e {
      SkipSpacesAt(s, 0, a);
      TrimBackAt(s, a, e, |s|);
    } else {
      SkipSpacesAt(s, 0, |s|);
    }
  }

  /** A string with no surrounding whitespace is its own `strip()`. */
  lemma StripNoOp(s: string)
    requires s == [] || (!IsSpace(s[0]) && !IsSpace(s[|s| - 1]))
    ensures Strip(s) == s
  {
    StripOf(s, 0, |s|);
  }

  /** `strip()` yields the empty string exactly for all-whitespace input. */
  lemma StripEmptyIff(s: string)
    ensures Strip(s) == [] <==> AllSpace(s)
  {
    StripSurround(s);
    if AllSpace(s) {
      SkipSpacesAt(s, 0, |s|);
    }
  }

  /** What occurs in `s.strip()` occurs in `s`. */
  lemma StripContains(s: string, w: string)
    requires Contains(Strip(s), w)
    ensures Contains(s, w)
  {
    ContainsSlice(s, StripStart(s), StripEnd(s), w);
  }

  /** An occurrence inside a slice is an occurrence in the whole string. */
  lemma ContainsSlice(s: string, a: int, b: int, w: string)
    requires 0 <= a <= b <= |s|
    requires Contains(s[a..b], w)
    ensures Contains(s, w)
  {
    var i :| 0 <= i <= (b - a) - |w| && OccursAt(s[a..b], w, i);
    var whole, inner := s[a + i..a + i + |w|], s[a..b][i..i + |w|];
    forall k | 0 <= k < |w| ensures whole[k] == inner[k] {
      assert s[a..b][i + k] == s[a + i + k];
    }
    assert whole == inner;
    assert OccursAt(s, w, a + i);
  }

  /** `w in p + t` where `w` starts with a character that `p` lacks means `w in t`. */
  lemma ContainsAfterPrefix(p: string, t: string, w: string)
    requires |w| > 0 && forall k | 0 <= k < |p| :: p[k] != w[0]
    requires Contains(p + t, w)
    ensures Contains(t, w)
  {
    var i :| 0 <= i <= |p + t| - |w| && OccursAt(p + t, w, i);
    assert (p + t)[i] == (p + t)[i..i + |w|][0];
    assert i >= |p|;
    assert t[i - |p|..i - |p| + |w|] == (p + t)[i..i + |w|];
    assert OccursAt(t, w, i - |p|);
  }

  // ---------------------------------------------------------------------------
  // Order-preserving selection

  /** `idx` picks the elements of `a` out of `b`, at strictly increasing positions. */
  predicate Embedding<T(==)>(idx: seq<nat>, a: seq<T>, b: seq<T>) {
    && |idx| == |a|
    && (forall k | 0 <= k < |a| :: idx[k] < |b| && a[k] == b[idx[k]])
    && (forall k, l | 0 <= k < l < |a| :: idx[k] < idx[l])
  }

  /** `a` is `b` with some elements left out, the rest in their original order. */
  ghost predicate IsSubsequence<T>(a: seq<T>, b: seq<T>) {
    exists idx :: Embedding(idx, a, b)
  }

  // ---------------------------------------------------------------------------
  // str.split('\n') and '\n'.join

  /** Index of the first '\n' in `s`, or `|s|` when there is none. */
  function NewlineIndex(s: string): (k: nat)
    ensures k <= |s|
    ensures NoNewline(s[..k])
    ensures k < |s| ==> s[k] == '\n'
  {
    if |s| == 0 || s[0] == '\n' then 0 else 1 + NewlineIndex(s[1..])
  }

  /** `s.split('\n')`: never empty; `"".split('\n') == [""]`. */
  function Split(s: string): (lines: seq<string>)
    ensures |lines| >= 1
    ensures forall k | 0 <= k < |lines| :: NoNewline(lines[k])
    decreases |s|
  {
    var k := NewlineIndex(s);
    if k == |s| then [s] else [s[..k]] + Split(s[k + 1..])
  }

  /** `'\n'.join(lines)`. */
  function Join(lines: seq<string>): string
  {
    if |lines| == 0 then ""
    else if |lines| == 1 then lines[0]
    else lines[0] + "\n" + Join(lines[1..])
  }

  /** Joining two non-empty line lists puts one '\n' between their joins. */
  lemma {:induction false} JoinAppend(a: seq<string>, b: seq<string>)
    requires a != [] && b != []
    ensures Join(a + b) == Join(a) + "\n" + Join(b)
    decreases |a|
  {
    if |a| == 1 {
      assert (a + b)[0] == a[0] && (a + b)[1..] == b;
    } else {
      JoinAppend(a[1..], b);
      assert (a + b)[0] == a[0] && (a + b)[1..] == a[1..] + b;
      AppendAssoc(a[0] + "\n", Join(a[1..]) + "\n", Join(b));
      AppendAssoc(a[0] + "\n", Join(a[1..]), "\n");
    }
  }

  lemma {:induction false} JoinSplit(s: string)
    ensures Join(Split(s)) == s
    decreases |s|
  {
    var k := NewlineIndex(s);
    if k < |s| {
      JoinSplit(s[k + 1..]);
      assert Split(s) == [s[..k]] + Split(s[k + 1..]);
      assert s == s[..k] + "\n" + s[k + 1..];
    }
  }

  /** Joining one more line appends a '\n' and that line. */
  lemma {:induction false} JoinSnoc(lines: seq<string>, x: string)
    requires |lines| >= 1
    ensures Join(lines + [x]) == Join(lines) + "\n" + x
    decreases |lines|
  {
    if |lines| > 1 {
      assert (lines + [x])[1..] == lines[1..] + [x];
      JoinSnoc(lines[1..], x);
    }
  }

  /** Splitting lines joined up and followed by '\n' and more text gives those lines, then the split of the text. */
  lemma JoinThenSplit(lines: seq<string>, rest: string)
    requires |lines| >= 1
    requires forall k | 0 <= k < |lines| :: NoNewline(lines[k])
    ensures Split(Join(lines) + "\n" + rest) == lines + Split(rest)
  {
    SplitConcat(Join(lines), rest);
    SplitJoin(lines);
  }

  /** Lines free of '\n' survive a join followed by a split. */
  lemma {:induction false} SplitJoin(lines: seq<string>)
    requires |lines| >= 1
    requires forall k | 0 <= k < |lines| :: NoNewline(lines[k])
    ensures Split(Join(lines)) == lines
  {
    if |lines| == 1 {
      NewlineIndexOfLine(lines[0], "");
      assert lines[0] + "" == lines[0];
    } else {
      var head, rest := lines[0], Join(lines[1..]);
      var s := head + "\n" + rest;
      assert Join(lines) == s;
      SplitJoin(lines[1..]);
      NewlineIndexOfLine(head, "\n" + rest);
      assert head + ("\n" + rest) == s;
      assert s[..|head|] == head;
      assert s[|head| + 1..] == rest;
      assert Split(s) == [head] + Split(rest);
      assert lines == [head] + lines[1..];
    }
  }

  lemma {:induction false} NewlineIndexOfLine(line: string, tail: string)
    requires NoNewline(line)
    requires tail == [] || tail[0] == '\n'
    ensures NewlineIndex(line + tail) == |line|
    decreases |line|
  {
    if |line| > 0 {
      assert (line + tail)[1..] == line[1..] + tail;
      NewlineIndexOfLine(line[1..], tail);
    }
  }

  /** Splitting a line followed by '\n' yields that line, then the split of the rest. */
  lemma SplitCons(line: string, rest: string)
    requires NoNewline(line)
    ensures Split(line + "\n" + rest) == [line] + Split(rest)
  {
    var s := line + "\n" + rest;
    NewlineIndexOfLine(line, "\n" + rest);
    assert line + ("\n" + rest) == s;
    assert s[..|line|] == line;
    assert s[|line| + 1..] == rest;
  }

  /** Splitting two texts joined by '\n' splits each of them. */
  lemma {:induction false} SplitConcat(a: string, b: string)
    ensures Split(a + "\n" + b) == Split(a) + Split(b)
    decreases |a|
  {
    var k := NewlineIndex(a);
    if k == |a| {
      SplitConcatLine(a, b);
    } else {
      SplitConcatStep(a, b, k);
      SplitConcat(a[k + 1..], b);
      AppendAssoc([a[..k]], Split(a[k + 1..]), Split(b));
    }
  }

  /** SplitConcat when `a` is a single line. */
  lemma SplitConcatLine(a: string, b: string)
    requires NewlineIndex(a) == |a|
    ensures Split(a + "\n" + b) == Split(a) + Split(b)
  {
    assert a[..|a|] == a;
    SplitCons(a, b);
  }

  /** The first line of `a` comes off both sides of SplitConcat. */
  lemma SplitConcatStep(a: string, b: string, k: nat)
    requires k == NewlineIndex(a) < |a|
    ensures Split(a) == [a[..k]] + Split(a[k + 1..])
    ensures Split(a + "\n" + b) == [a[..k]] + Split(a[k + 1..] + "\n" + b)
  {
    var head, tail := a[..k], a[k + 1..];
    assert a == head + "\n" + tail;
    assert a + "\n" + b == head + "\n" + (tail + "\n" + b);
    SplitCons(head, tail + "\n" + b);
  }

  /** Trailing whitespace does not change `rstrip()`. */
  lemma RStripTrailingSpace(s: string, w: string)
    requires AllSpace(w)
    ensures RStrip(s + w) == RStrip(s)
  {
    var e := TrimBack(s, 0, |s|);
    TrimBackSkipped(s, 0, |s|);
    forall k | e <= k < |s + w| ensures IsSpace((s + w)[k]) {
      if k >= |s| {
        assert (s + w)[k] == w[k - |s|];
      } else {
        assert (s + w)[k] == s[k];
      }
    }
    if e > 0 {
      assert (s + w)[e - 1] == s[e - 1];
    }
    TrimBackAt(s + w, 0, e, |s + w|);
    assert (s + w)[..e] == s[..e];
  }

  /** `rstrip()` never removes a non-space character, nor anything in front of one. */
  lemma RStripKeeps(s: string, m: nat)
    requires 0 < m <= |s| && !IsSpace(s[m - 1])
    ensures StartsWith(RStrip(s), s[..m])
  {
    TrimBackSkipped(s, 0, |s|);
    assert TrimBack(s, 0, |s|) >= m;
  }

  // ---------------------------------------------------------------------------
  // Decimal rendering as f'{n}' does it

  function DigitChar(d: nat): (c: char)
    requires d < 10
    ensures IsDigit(c)
  {
    ('0' as int + d) as char
  }

  /** f'{n}' for a natural number: its decimal digits, most significant first. */
  function NatToString(n: nat): (s: string)
    ensures |s| >= 1 && AllDigits(s)
    ensures NoNewline(s)
  {
    if n < 10 then [DigitChar(n)] else NatToString(n / 10) + [DigitChar(n % 10)]
  }

  /** f'{n}' for an integer, with a leading '-' for negative values. */
  function IntToString(n: int): (s: string)
    ensures |s| >= 1 && NoNewline(s)
  {
    if n < 0 then "-" + NatToString(-n) else NatToString(n)
  }

  // ---------------------------------------------------------------------------
  // Scans over a per-line mask

  /** The first index at or after `i` where `m` holds, or `|m|`. */
  function FirstTrue(m: seq<bool>, i: nat): (h: nat)
    requires i <= |m|
    ensures i <= h <= |m|
    ensures h < |m| ==> m[h]
    decreases |m| - i
  {
    if i == |m| || m[i] then i else FirstTrue(m, i + 1)
  }

  /** A scan that starts at an index where `m` fails ends where the scan from the next index does. */
  lemma FirstTrueNext(m: seq<bool>, i: nat)
    requires i < |m| && !m[i]
    ensures FirstTrue(m, i) == FirstTrue(m, i + 1)
  {
  }

  lemma {:induction false} FirstTrueSkipped(m: seq<bool>, i: nat, k: nat)
    requires i <= |m| && i <= k < FirstTrue(m, i)
    ensures !m[k]
    decreases |m| - i
  {
    if i < k {
      FirstTrueSkipped(m, i + 1, k);
    }
  }

  /** The first index at or after `j` where `m` fails, or `|m|`. */
  function FirstFalse(m: seq<bool>, j: nat): (e: nat)
    requires j <= |m|
    ensures j <= e <= |m|
    ensures e < |m| ==> !m[e]
    decreases |m| - j
  {
    if j == |m| || !m[j] then j else FirstFalse(m, j + 1)
  }

  lemma {:induction false} FirstFalseSkipped(m: seq<bool>, j: nat, k: nat)
    requires j <= |m| && j <= k < FirstFalse(m, j)
    ensures m[k]
    decreases |m| - j
  {
    if j < k {
      FirstFalseSkipped(m, j + 1, k);
    }
  }

  /** A scan that stopped at the first index where `m` fails stopped where FirstFalse does. */
  lemma {:induction false} FirstFalseAt(m: seq<bool>, j: nat, e: nat)
    requires j <= e <= |m|
    requires forall k | j <= k < e :: m[k]
    requires e < |m| ==> !m[e]
    ensures FirstFalse(m, j) == e
    decreases e - j
  {
    if j < e {
      FirstFalseAt(m, j + 1, e);
    }
  }

  lemma {:induction false} FirstTrueAt(m: seq<bool>, i: nat, h: nat)
    requires i <= h <= |m|
    requires forall k | i <= k < h :: !m[k]
    requires h < |m| ==> m[h]
    ensures FirstTrue(m, i) == h
    decreases h - i
  {
    if i < h {
      FirstTrueAt(m, i + 1, h);
    }
  }

  /** The last index in `[a, e)` where `m` fails, or `a` when there is none. */
  function LastFalse(m: seq<bool>, a: nat, e: nat): (l: nat)
    requires a <= e <= |m|
    ensures a <= l && (l < e || l == a)
    ensures forall k | l < k < e :: m[k]
    ensures (l < e && !m[l]) || forall k | a <= k < e :: m[k]
    decreases e
  {
    if e == a then a else if !m[e - 1] then e - 1 else LastFalse(m, a, e - 1)
  }
}
