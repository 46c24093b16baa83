/**
  transform_chapters.py: the clean → number → TOC → insert pipeline that turns
  an extracted book chapter into Docusaurus markdown.  Each Python function
  that loops over lines is a method whose loop is proved against a
  specification function over the line sequence; the properties the pipeline
  promises are lemmas about those functions.
 */
module Chapters {
  import opened Text
  import opened Headings

  const SkipMarker := "Skip to Content"
  const NoteMarker := "A Note for Early Release Readers"
  const TocHeading := "## Table of Contents"
  const TocTitle := "Table of Contents"

  // ---------------------------------------------------------------------------
  // remove_reference_numbers: re.sub(r'\[(\d+)\](?!\()', '', text)

  /** End of a `\[(\d+)\](?!\()` match starting at index `i`, or `i` when there is none. */
  function MarkerEnd(s: string, i: nat): (e: nat)
    requires i <= |s|
    ensures e == i || (i + 3 <= e <= |s| && s[i] == '[' && s[e - 1] == ']')
  {
    if i < |s| && s[i] == '[' then
      var d := SkipDigits(s, i + 1);
      if d > i + 1 && d < |s| && s[d] == ']' && (d + 1 == |s| || s[d + 1] != '(') then d + 1 else i
    else i
  }

  /** The substitution from index `i` on: a match is dropped and the scan resumes after it. */
  function RemoveFrom(s: string, i: nat): (r: string)
    requires i <= |s|
    ensures |r| <= |s| - i
    decreases |s| - i
  {
    if i == |s| then ""
    else
      var e := MarkerEnd(s, i);
      if e > i then RemoveFrom(s, e) else [s[i]] + RemoveFrom(s, i + 1)
  }

  function RemoveReferenceNumbers(text: string): (r: string)
    ensures |r| <= |text|
  {
    RemoveFrom(text, 0)
  }

  predicate NoBracket(p: string) {
    forall k | 0 <= k < |p| :: p[k] != '['
  }

  lemma MarkerEndShift(p: string, t: string, j: nat)
    requires j <= |t|
    ensures MarkerEnd(p + t, |p| + j) == |p| + MarkerEnd(t, j)
  {
    if j < |t| && t[j] == '[' {
      assert (p + t)[|p| + j] == t[j];
      SkipDigitsShift(p, t, j + 1);
      var d := SkipDigits(t, j + 1);
      if d < |t| {
        assert (p + t)[|p| + d] == t[d];
      }
      if d + 1 < |t| {
        assert (p + t)[|p| + d + 1] == t[d + 1];
      }
    } else if j < |t| {
      assert (p + t)[|p| + j] == t[j];
    }
  }

  /** The substitution never looks back: text before the scan position does not matter. */
  lemma {:induction false} RemoveShift(p: string, t: string, j: nat)
    requires j <= |t|
    ensures RemoveFrom(p + t, |p| + j) == RemoveFrom(t, j)
    decreases |t| - j
  {
    if j < |t| {
      MarkerEndShift(p, t, j);
      var e := MarkerEnd(t, j);
      if e > j {
        RemoveShift(p, t, e);
        RemoveShiftSkip(p, t, j, e);
      } else {
        RemoveShift(p, t, j + 1);
        RemoveShiftKeep(p, t, j);
      }
    }
  }

  /** A marker at `j` is dropped on both sides of the shift. */
  lemma RemoveShiftSkip(p: string, t: string, j: nat, e: nat)
    requires j < e <= |t| && MarkerEnd(t, j) == e && MarkerEnd(p + t, |p| + j) == |p| + e
    requires RemoveFrom(p + t, |p| + e) == RemoveFrom(t, e)
    ensures RemoveFrom(p + t, |p| + j) == RemoveFrom(t, j)
  {
    RemoveFromAt(p + t, |p| + j);
    RemoveFromAt(t, j);
  }

  /** A character that starts no marker at `j` is kept on both sides of the shift. */
  lemma RemoveShiftKeep(p: string, t: string, j: nat)
    requires j < |t| && MarkerEnd(t, j) == j && MarkerEnd(p + t, |p| + j) == |p| + j
    requires RemoveFrom(p + t, |p| + j + 1) == RemoveFrom(t, j + 1)
    ensures RemoveFrom(p + t, |p| + j) == RemoveFrom(t, j)
  {
    RemoveFromAt(p + t, |p| + j);
    RemoveFromAt(t, j);
    IndexInBack(p, t, j);
  }

  /** One step of the substitution at index `i`. */
  lemma RemoveFromAt(s: string, i: nat)
    requires i < |s|
    ensures RemoveFrom(s, i) == if MarkerEnd(s, i) > i then RemoveFrom(s, MarkerEnd(s, i)) else [s[i]] + RemoveFrom(s, i + 1)
  {
  }

  /** Text without '[' passes through unchanged. */
  lemma {:induction false} RemovePlainFrom(p: string, t: string, k: nat)
    requires NoBracket(p) && k <= |p|
    ensures RemoveFrom(p + t, k) == p[k..] + RemoveReferenceNumbers(t)
    decreases |p| - k
  {
    if k < |p| {
      RemovePlainStep(p, t, k);
      RemovePlainFrom(p, t, k + 1);
      SliceCons(p, k, RemoveReferenceNumbers(t));
    } else {
      RemoveShift(p, t, 0);
      assert p[k..] == [];
    }
  }

  lemma SliceCons(p: string, k: nat, r: string)
    requires k < |p|
    ensures [p[k]] + (p[k + 1..] + r) == p[k..] + r
  {
    assert p[k..] == [p[k]] + p[k + 1..];
  }

  lemma RemovePlainStep(p: string, t: string, k: nat)
    requires NoBracket(p) && k < |p|
    ensures RemoveFrom(p + t, k) == [p[k]] + RemoveFrom(p + t, k + 1)
  {
    var s := p + t;
    assert s[k] == p[k];
    assert MarkerEnd(s, k) == k;
  }

  lemma RemovePlain(p: string, t: string)
    requires NoBracket(p)
    ensures RemoveReferenceNumbers(p + t) == p + RemoveReferenceNumbers(t)
  {
    RemovePlainFrom(p, t, 0);
  }

  /** Text without '[' is its own result. */
  lemma RemoveMarkerFree(s: string)
    requires NoBracket(s)
    ensures RemoveReferenceNumbers(s) == s
  {
    RemovePlain(s, "");
    assert s + "" == s;
  }

  /** A `[digits]` marker not followed by '(' is deleted, and nothing else around it changes. */
  lemma ReferenceMarkerRemoved(a: string, n: string, b: string)
    requires NoBracket(a) && |n| > 0 && AllDigits(n)
    requires b == [] || b[0] != '('
    ensures RemoveReferenceNumbers(a + "[" + n + "]" + b) == a + RemoveReferenceNumbers(b)
  {
    var m := "[" + n + "]";
    var rest := m + b;
    assert a + "[" + n + "]" + b == a + rest;
    RemovePlain(a, rest);
    assert rest[0] == '[';
    forall k | 1 <= k < 1 + |n| ensures IsDigit(rest[k]) {
      assert rest[k] == n[k - 1];
    }
    assert rest[1 + |n|] == ']';
    SkipDigitsAt(rest, 1, 1 + |n|);
    if b != [] {
      assert rest[|n| + 2] == b[0];
    }
    assert MarkerEnd(rest, 0) == |m|;
    RemoveShift(m, b, 0);
  }

  /** A '[' that does not start a marker is copied, and the scan goes on right after it. */
  lemma OpenBracketKept(x: string)
    requires MarkerEnd("[" + x, 0) == 0
    ensures RemoveReferenceNumbers("[" + x) == "[" + RemoveReferenceNumbers(x)
  {
    RemoveShift("[", x, 0);
  }

  /** `[n]` followed by `c` is not a marker when `c` is not ']' or when `c` is ']' then '('. */
  lemma DigitsInBracket(n: string, x: string)
    requires |n| > 0 && AllDigits(n) && |x| > 0 && !IsDigit(x[0])
    ensures SkipDigits("[" + n + x, 1) == 1 + |n| && ("[" + n + x)[1 + |n|] == x[0]
  {
    var s := "[" + n + x;
    forall k | 1 <= k < 1 + |n| ensures IsDigit(s[k]) {
      assert s[k] == n[k - 1];
    }
    assert s[1 + |n|] == x[0];
    SkipDigitsAt(s, 1, 1 + |n|);
  }

  /** A piece opening with a '[' that is not a marker, and holding no other '[', is copied whole. */
  lemma KeptBracketPiece(a: string, x: string, b: string)
    requires NoBracket(a) && |x| > 0 && x[0] == '[' && NoBracket(x[1..])
    requires MarkerEnd(x + b, 0) == 0
    ensures RemoveReferenceNumbers(a + x + b) == a + x + RemoveReferenceNumbers(b)
  {
    assert a + x + b == a + (x + b);
    RemovePlain(a, x + b);
    assert x + b == "[" + (x[1..] + b);
    OpenBracketKept(x[1..] + b);
    RemovePlain(x[1..], b);
    assert "[" + (x[1..] + RemoveReferenceNumbers(b)) == x + RemoveReferenceNumbers(b);
  }

  /** `[n](url)`: the bracket opens a link, so the number stays. */
  lemma LinkNumberKept(a: string, n: string, b: string)
    requires NoBracket(a) && |n| > 0 && AllDigits(n)
    ensures RemoveReferenceNumbers(a + "[" + n + "](" + b) == a + "[" + n + "](" + RemoveReferenceNumbers(b)
  {
    var x := "[" + n + "](";
    assert MarkerEnd(x + b, 0) == 0 by {
      DigitsInBracket(n, "](" + b);
      assert "[" + n + ("](" + b) == x + b;
      assert (x + b)[2 + |n|] == '(';
    }
    assert NoBracket(x[1..]) by {
      DigitsNoBracket(n);
      NoBracketConcat(n, "](");
      assert x[1..] == n + "](";
    }
    KeptBracketPiece(a, x, b);
    assert a + "[" + n + "](" == a + x;
  }

  /** A bracket whose content does not start with a digit is kept. */
  lemma NonNumericBracketKept(a: string, t: string)
    requires NoBracket(a)
    requires t == [] || !IsDigit(t[0])
    ensures RemoveReferenceNumbers(a + "[" + t) == a + "[" + RemoveReferenceNumbers(t)
  {
    assert a + "[" + t == a + ("[" + t);
    RemovePlain(a, "[" + t);
    assert MarkerEnd("[" + t, 0) == 0 by {
      if t != [] {
        assert ("[" + t)[1] == t[0];
      }
      SkipDigitsAt("[" + t, 1, 1);
    }
    OpenBracketKept(t);
  }

  /** A comma list such as `[2, 3]` is not a marker: it stays as it is. */
  lemma CommaListUntouched(a: string, n: string, m: string, b: string)
    requires NoBracket(a) && |n| > 0 && AllDigits(n) && AllDigits(m)
    ensures RemoveReferenceNumbers(a + "[" + n + ", " + m + "]" + b) == a + "[" + n + ", " + m + "]" + RemoveReferenceNumbers(b)
  {
    var x := "[" + n + ", " + m + "]";
    assert MarkerEnd(x + b, 0) == 0 by {
      DigitsInBracket(n, ", " + m + "]" + b);
      assert "[" + n + (", " + m + "]" + b) == x + b;
    }
    assert NoBracket(x[1..]) by {
      DigitsNoBracket(n);
      DigitsNoBracket(m);
      NoBracketConcat(m, "]");
      NoBracketConcat(", ", m + "]");
      NoBracketConcat(n, ", " + m + "]");
      assert x[1..] == n + (", " + (m + "]"));
    }
    KeptBracketPiece(a, x, b);
    assert a + "[" + n + ", " + m + "]" == a + x;
  }

  lemma DigitsNoBracket(n: string)
    requires AllDigits(n)
    ensures NoBracket(n)
  {
  }

  lemma NoBracketConcat(x: string, y: string)
    requires NoBracket(x) && NoBracket(y)
    ensures NoBracket(x + y)
  {
    forall k | 0 <= k < |x + y| ensures (x + y)[k] != '[' {
      if k < |x| { assert (x + y)[k] == x[k]; } else { assert (x + y)[k] == y[k - |x|]; }
    }
  }

  // ---------------------------------------------------------------------------
  // clean_content

  /** Lower-cased keywords that mark the footer chrome. */
  const FooterWords: seq<string> := ["table of contents", "search", "settings", "previous chapter", "next chapter"]

  /** Some keyword of `words` occurs in `s`. */
  predicate ContainsAny(s: string, words: seq<string>)
    decreases |words|
  {
    |words| > 0 && (Contains(s, words[0]) || ContainsAny(s, words[1..]))
  }

  /** A line that starts the footer once it lies in the last tenth of the file. */
  predicate IsFooterLine(line: string) {
    ContainsAny(Lower(line), FooterWords) || Strip(line) == "Footnotes" || Strip(line) == "References"
  }

  /**
    `i > len(lines) * 0.9`, stated on integers.  The double nearest 0.9 lies
    above 0.9, so for every line count a document can have the float test and
    this one agree.
   */
  predicate InFooterZone(i: nat, n: nat) {
    10 * i > 9 * n
  }

  datatype CleanState = CleanState(kept: seq<string>, skip: bool, footer: bool)

  /** What the loop body does with line `i` of `n`. */
  function CleanStep(st: CleanState, i: nat, n: nat, line: string): CleanState {
    if Contains(line, SkipMarker) then st
    else if Contains(line, NoteMarker) then st.(skip := true)
    else
      var skip := if st.skip && |Strip(line)| > 0 && |Strip(line)| > 100 then false else st.skip;
      var footer := st.footer || (InFooterZone(i, n) && IsFooterLine(line));
      CleanState(if footer || skip then st.kept else st.kept + [line], skip, footer)
  }

  /** The loop's state after the first `k` lines. */
  function CleanRun(lines: seq<string>, k: nat): CleanState
    requires k <= |lines|
  {
    if k == 0 then CleanState([], false, false)
    else CleanStep(CleanRun(lines, k - 1), k - 1, |lines|, lines[k - 1])
  }

  /** The lines clean_content keeps, before reference markers are removed. */
  function CleanLines(lines: seq<string>): seq<string> {
    CleanRun(lines, |lines|).kept
  }

  method CleanContent(text: string) returns (r: string)
    ensures r == RemoveReferenceNumbers(Join(CleanLines(Split(text))))
  {
    var lines := Split(text);
    var cleaned: seq<string> := [];
    var skip := false;
    var footer := false;
    for i := 0 to |lines|
      invariant CleanRun(lines, i) == CleanState(cleaned, skip, footer)
    {
      var line := lines[i];
      assert CleanRun(lines, i + 1) == CleanStep(CleanState(cleaned, skip, footer), i, |lines|, line);
      if Contains(line, SkipMarker) {
        continue;
      }
      if Contains(line, NoteMarker) {
        skip := true;
        continue;
      }
      if skip && |Strip(line)| > 0 && |Strip(line)| > 100 {
        skip := false;
      }
      if InFooterZone(i, |lines|) && IsFooterLine(line) {
        footer := true;
      }
      if footer {
        continue;
      }
      if !skip {
        cleaned := cleaned + [line];
      }
    }
    r := RemoveReferenceNumbers(Join(cleaned));
  }

  /** Neither chrome marker survives in a kept line. */
  lemma {:induction false} CleanDropsChrome(lines: seq<string>, k: nat)
    requires k <= |lines|
    ensures forall j | 0 <= j < |CleanRun(lines, k).kept| ::
      !Contains(CleanRun(lines, k).kept[j], SkipMarker) && !Contains(CleanRun(lines, k).kept[j], NoteMarker)
  {
    if k > 0 {
      CleanDropsChrome(lines, k - 1);
    }
  }

  /** The kept lines are input lines, in input order: `idx` says where each came from. */
  lemma {:induction false} CleanEmbedding(lines: seq<string>, k: nat) returns (idx: seq<nat>)
    requires k <= |lines|
    ensures Embedding(idx, CleanRun(lines, k).kept, lines)
    ensures forall j | 0 <= j < |idx| :: idx[j] < k
  {
    if k == 0 {
      idx := [];
    } else {
      idx := CleanEmbedding(lines, k - 1);
      var before, after := CleanRun(lines, k - 1).kept, CleanRun(lines, k).kept;
      if after != before {
        idx := idx + [k - 1];
      }
    }
  }

  lemma CleanKeepsOrder(lines: seq<string>)
    ensures IsSubsequence(CleanLines(lines), lines)
  {
    var idx := CleanEmbedding(lines, |lines|);
  }

  /** Line `t` switches the footer latch on. */
  predicate FooterAt(lines: seq<string>, t: nat)
    requires t < |lines|
  {
    && !Contains(lines[t], SkipMarker) && !Contains(lines[t], NoteMarker)
    && InFooterZone(t, |lines|) && IsFooterLine(lines[t])
  }

  /** The latch is on exactly when some earlier line in the footer zone was a footer line. */
  lemma {:induction false} FooterLatch(lines: seq<string>, k: nat)
    requires k <= |lines|
    ensures CleanRun(lines, k).footer <==> exists t | 0 <= t < k :: FooterAt(lines, t)
  {
    if k > 0 {
      FooterLatch(lines, k - 1);
      if FooterAt(lines, k - 1) {
        assert CleanRun(lines, k).footer;
      }
    }
  }

  /** From the first footer line on, nothing more is kept: that line and every later one are dropped. */
  lemma {:induction false} FooterDropsRest(lines: seq<string>, t: nat, k: nat)
    requires t < k <= |lines| && FooterAt(lines, t)
    ensures CleanRun(lines, k).footer
    ensures CleanRun(lines, k).kept == CleanRun(lines, t).kept
  {
    if k - 1 > t {
      FooterDropsRest(lines, t, k - 1);
    }
  }

  /** After the early-release marker, lines up to 100 characters (stripped) are suppressed. */
  lemma {:induction false} NoteSuppresses(lines: seq<string>, m: nat, j: nat)
    requires m < j <= |lines|
    requires Contains(lines[m], NoteMarker) && !Contains(lines[m], SkipMarker)
    requires forall t | m < t < j :: |Strip(lines[t])| <= 100
    ensures CleanRun(lines, j).skip
    ensures CleanRun(lines, j).kept == CleanRun(lines, m).kept
  {
    if j - 1 > m {
      NoteSuppresses(lines, m, j - 1);
    }
  }

  /** The first long line ends the suppression and is itself kept (unless the footer is on). */
  lemma NoteEndsAtLongLine(lines: seq<string>, j: nat)
    requires j < |lines| && CleanRun(lines, j).skip
    requires !Contains(lines[j], SkipMarker) && !Contains(lines[j], NoteMarker)
    requires |Strip(lines[j])| > 100 && !CleanRun(lines, j + 1).footer
    ensures !CleanRun(lines, j + 1).skip
    ensures CleanRun(lines, j + 1).kept == CleanRun(lines, j).kept + [lines[j]]
  {
  }

  // ---------------------------------------------------------------------------
  // add_toc_numbering

  /** The counters `h2_counter`, `h3_counter`, `h4_counter`. */
  datatype Counters = Counters(h2: nat, h3: nat, h4: nat)

  /** The branch add_toc_numbering takes for a line: 2, 3 or 4 for a heading it numbers, 0 for a line it copies. */
  function LevelOf(line: string): (lv: nat)
    ensures lv == 0 || lv == 2 || lv == 3 || lv == 4
    ensures lv == 2 ==> StartsWith(line, "## ") && !Contains(line, TocTitle)
    ensures lv == 3 ==> StartsWith(line, "### ")
    ensures lv == 4 ==> StartsWith(line, "#### ")
  {
    if StartsWith(line, "# Chapter") then 0
    else if StartsWith(line, "## ") && !StartsWith(line, "### ") then
      (if Contains(line, TocTitle) then 0 else 2)
    else if StartsWith(line, "### ") && !StartsWith(line, "#### ") then 3
    else if StartsWith(line, "#### ") then 4
    else 0
  }

  /**
    The branches in full: the `# Chapter` test and the `not line.startswith`
    guards are implied by the markers, so each level is decided by its marker alone.
   */
  lemma LevelBranches(line: string)
    ensures LevelOf(line) == 2 <==> StartsWith(line, "## ") && !Contains(line, TocTitle)
    ensures LevelOf(line) == 3 <==> StartsWith(line, "### ")
    ensures LevelOf(line) == 4 <==> StartsWith(line, "#### ")
  {
    if StartsWith(line, "## ") || StartsWith(line, "### ") || StartsWith(line, "#### ") {
      assert line[1] == '#';
      assert !StartsWith(line, "# Chapter") by { assert "# Chapter"[1] == ' '; }
    }
    if StartsWith(line, "## ") { assert line[2] == ' '; }
    if StartsWith(line, "### ") { assert line[3] == ' '; }
  }

  function Hashes(lv: nat): (h: string)
    requires 2 <= lv <= 4
    ensures |h| == lv && forall k | 0 <= k < |h| :: h[k] == '#'
  {
    if lv == 2 then "##" else if lv == 3 then "###" else "####"
  }

  /** The counters after a heading of level `lv`: its own counter goes up, the deeper ones restart. */
  function Bump(c: Counters, lv: nat): (d: Counters)
    ensures lv == 2 ==> d == Counters(c.h2 + 1, 0, 0)
    ensures lv == 3 ==> d == Counters(c.h2, c.h3 + 1, 0)
    ensures lv == 4 ==> d == Counters(c.h2, c.h3, c.h4 + 1)
    ensures lv !in {2, 3, 4} ==> d == c
  {
    if lv == 2 then Counters(c.h2 + 1, 0, 0)
    else if lv == 3 then Counters(c.h2, c.h3 + 1, 0)
    else if lv == 4 then Counters(c.h2, c.h3, c.h4 + 1)
    else c
  }

  /** The label a level-`lv` heading gets from the counters: `h2.`, `h2.h3.` or `h2.h3.h4.`. */
  function Label(c: Counters, lv: nat): (nums: seq<string>)
    requires 2 <= lv <= 4
    ensures |nums| == lv - 1 && IsLabel(nums)
  {
    if lv == 2 then [NatToString(c.h2)]
    else if lv == 3 then [NatToString(c.h2), NatToString(c.h3)]
    else [NatToString(c.h2), NatToString(c.h3), NatToString(c.h4)]
  }

  /** One line of add_toc_numbering: the emitted line and the counters after it. */
  function NumberLine(line: string, c: Counters): (string, Counters) {
    var lv := LevelOf(line);
    if lv == 0 then (line, c)
    else
      var d := Bump(c, lv);
      (Rendered(Hashes(lv), Label(d, lv), HeadingTitle(line, Hashes(lv), lv - 1)), d)
  }

  /** The emitted lines and the counters after the first `k` lines. */
  function NumberRun(lines: seq<string>, k: nat): (r: (seq<string>, Counters))
    requires k <= |lines|
    ensures |r.0| == k
  {
    Scan(NumberLine, Counters(0, 0, 0), lines, k)
  }

  function NumberLines(lines: seq<string>): seq<string> {
    NumberRun(lines, |lines|).0
  }

  method AddTocNumbering(text: string) returns (r: string)
    ensures r == Join(NumberLines(Split(text)))
  {
    var lines := Split(text);
    var result: seq<string> := [];
    var h2, h3, h4 := 0, 0, 0;
    for i := 0 to |lines|
      invariant NumberRun(lines, i) == (result, Counters(h2, h3, h4))
    {
      ghost var prev := (result, Counters(h2, h3, h4));
      var out;
      out, h2, h3, h4 := NumberOne(lines[i], h2, h3, h4);
      result := result + [out];
      assert NumberRun(lines, i + 1) == (prev.0 + [NumberLine(lines[i], prev.1).0], NumberLine(lines[i], prev.1).1);
    }
    r := Join(result);
  }

  /** The body of add_toc_numbering's loop for one line: the line it appends and the new counters. */
  method NumberOne(line: string, h2: nat, h3: nat, h4: nat) returns (out: string, k2: nat, k3: nat, k4: nat)
    ensures (out, Counters(k2, k3, k4)) == NumberLine(line, Counters(h2, h3, h4))
  {
    k2, k3, k4 := h2, h3, h4;
    out := line;
    if StartsWith(line, "# Chapter") {
      NumberLineCopy(line, h2, h3, h4);
      return;
    }
    if StartsWith(line, "## ") && !StartsWith(line, "### ") {
      if Contains(line, TocTitle) {
        NumberLineCopy(line, h2, h3, h4);
        return;
      }
      NumberLineTwo(line, h2, h3, h4);
      k2, k3, k4 := k2 + 1, 0, 0;
      var title := HeadingTitle(line, "##", 1);
      out := Rendered("##", [NatToString(k2)], title);
    } else if StartsWith(line, "### ") && !StartsWith(line, "#### ") {
      NumberLineThree(line, h2, h3, h4);
      k3, k4 := k3 + 1, 0;
      var title := HeadingTitle(line, "###", 2);
      out := Rendered("###", [NatToString(k2), NatToString(k3)], title);
    } else if StartsWith(line, "#### ") {
      NumberLineFour(line, h2, h3, h4);
      k4 := k4 + 1;
      var title := HeadingTitle(line, "####", 3);
      out := Rendered("####", [NatToString(k2), NatToString(k3), NatToString(k4)], title);
    } else {
      NumberLineCopy(line, h2, h3, h4);
    }
  }

  /** A line add_toc_numbering does not number is copied with the counters as they were. */
  lemma NumberLineCopy(line: string, h2: nat, h3: nat, h4: nat)
    requires || StartsWith(line, "# Chapter")
             || (StartsWith(line, "## ") && !StartsWith(line, "### ") && Contains(line, TocTitle))
             || (&& !(StartsWith(line, "## ") && !StartsWith(line, "### "))
                 && !(StartsWith(line, "### ") && !StartsWith(line, "#### "))
                 && !StartsWith(line, "#### "))
    ensures NumberLine(line, Counters(h2, h3, h4)) == (line, Counters(h2, h3, h4))
  {
    assert LevelOf(line) == 0;
  }

  /** A `## ` line outside the TOC title: the first counter goes up and the others restart. */
  lemma NumberLineTwo(line: string, h2: nat, h3: nat, h4: nat)
    requires !StartsWith(line, "# Chapter") && StartsWith(line, "## ") && !StartsWith(line, "### ") && !Contains(line, TocTitle)
    ensures NumberLine(line, Counters(h2, h3, h4)) == (Rendered("##", [NatToString(h2 + 1)], HeadingTitle(line, "##", 1)), Counters(h2 + 1, 0, 0))
  {
    assert LevelOf(line) == 2;
    assert Bump(Counters(h2, h3, h4), 2) == Counters(h2 + 1, 0, 0);
    assert Label(Counters(h2 + 1, 0, 0), 2) == [NatToString(h2 + 1)];
  }

  /** A `### ` line: the second counter goes up and the third restarts. */
  lemma NumberLineThree(line: string, h2: nat, h3: nat, h4: nat)
    requires !StartsWith(line, "# Chapter") && !(StartsWith(line, "## ") && !StartsWith(line, "### "))
    requires StartsWith(line, "### ") && !StartsWith(line, "#### ")
    ensures NumberLine(line, Counters(h2, h3, h4)) == (Rendered("###", [NatToString(h2), NatToString(h3 + 1)], HeadingTitle(line, "###", 2)), Counters(h2, h3 + 1, 0))
  {
    assert LevelOf(line) == 3;
    assert Bump(Counters(h2, h3, h4), 3) == Counters(h2, h3 + 1, 0);
    assert Label(Counters(h2, h3 + 1, 0), 3) == [NatToString(h2), NatToString(h3 + 1)];
  }

  /** A `#### ` line: the third counter goes up. */
  lemma NumberLineFour(line: string, h2: nat, h3: nat, h4: nat)
    requires !StartsWith(line, "# Chapter") && !(StartsWith(line, "## ") && !StartsWith(line, "### "))
    requires !(StartsWith(line, "### ") && !StartsWith(line, "#### ")) && StartsWith(line, "#### ")
    ensures NumberLine(line, Counters(h2, h3, h4)) == (Rendered("####", [NatToString(h2), NatToString(h3), NatToString(h4 + 1)], HeadingTitle(line, "####", 3)), Counters(h2, h3, h4 + 1))
  {
    assert LevelOf(line) == 4;
    assert Bump(Counters(h2, h3, h4), 4) == Counters(h2, h3, h4 + 1);
    assert Label(Counters(h2, h3, h4 + 1), 4) == [NatToString(h2), NatToString(h3), NatToString(h4 + 1)];
  }

  /** Output line `j` of add_toc_numbering is input line `j` numbered under the counters before it. */
  lemma NumberLinesAt(lines: seq<string>, j: nat)
    requires j < |lines|
    ensures |NumberLines(lines)| == |lines|
    ensures NumberLines(lines)[j] == NumberLine(lines[j], NumberRun(lines, j).1).0
  {
    ScanAt(NumberLine, Counters(0, 0, 0), lines, |lines|, j);
  }

  /** Lines that are not numbered headings are copied unchanged. */
  lemma NumberingPassThrough(lines: seq<string>, j: nat)
    requires j < |lines| && LevelOf(lines[j]) == 0
    ensures |NumberLines(lines)| == |lines| && NumberLines(lines)[j] == lines[j]
  {
    NumberLinesAt(lines, j);
  }

  /** A heading add_toc_numbering wrote takes the same branch when read again. */
  lemma RenderedLevel(lv: nat, nums: seq<string>, title: string)
    requires 2 <= lv <= 4 && IsLabel(nums) && |nums| == lv - 1
    requires lv == 2 ==> !Contains(title, TocTitle)
    ensures LevelOf(Rendered(Hashes(lv), nums, title)) == lv
  {
    var h := Hashes(lv);
    var line := Rendered(h, nums, title);
    RenderedLayout(h, nums, title);
    assert line[..lv] == h;
    assert line[1] == '#' && line[lv] == ' ';
    if |line| >= 9 {
      assert line[..9][1] == '#';
    }
    if lv >= 3 {
      assert line[..3][2] == '#';
    }
    if lv == 4 {
      assert line[..4][3] == '#';
    }
    if lv == 2 && Contains(line, TocTitle) {
      RenderedContains(h, nums, title, TocTitle);
    }
  }

  /** Numbering a line that add_toc_numbering already wrote, under the same counters, changes nothing. */
  lemma RenumberLine(line: string, c: Counters)
    ensures NumberLine(NumberLine(line, c).0, c) == NumberLine(line, c)
  {
    var lv := LevelOf(line);
    if lv != 0 {
      var h, d := Hashes(lv), Bump(c, lv);
      var title := HeadingTitle(line, h, lv - 1);
      if lv == 2 && Contains(title, TocTitle) {
        HeadingTitleWithin(line, h, lv - 1, TocTitle);
      }
      RenderedLevel(lv, Label(d, lv), title);
      TitleOfRendered(h, Label(d, lv), title);
    }
  }

  /** Renumbering the output replays the same counters line by line. */
  lemma {:induction false} NumberRunTwice(lines: seq<string>, k: nat)
    requires k <= |lines|
    ensures NumberRun(NumberLines(lines), k) == NumberRun(lines, k)
  {
    if k > 0 {
      var out := NumberLines(lines);
      var prev := NumberRun(lines, k - 1);
      NumberRunTwice(lines, k - 1);
      NumberLinesAt(lines, k - 1);
      RenumberLine(lines[k - 1], prev.1);
      ReplayStep(lines, out, k);
    }
  }

  /** Two line sequences whose runs agree so far, and whose next lines number alike, still agree. */
  lemma ReplayStep(lines: seq<string>, out: seq<string>, k: nat)
    requires 0 < k <= |lines| && k <= |out|
    requires NumberRun(out, k - 1) == NumberRun(lines, k - 1)
    requires NumberLine(out[k - 1], NumberRun(lines, k - 1).1) == NumberLine(lines[k - 1], NumberRun(lines, k - 1).1)
    ensures NumberRun(out, k) == NumberRun(lines, k)
  {
    NumberRunStep(out, k);
    NumberRunStep(lines, k);
  }

  lemma NumberRunStep(lines: seq<string>, k: nat)
    requires 0 < k <= |lines|
    ensures var prev := NumberRun(lines, k - 1);
      NumberRun(lines, k) == (prev.0 + [NumberLine(lines[k - 1], prev.1).0], NumberLine(lines[k - 1], prev.1).1)
  {
  }

  /** add_toc_numbering is idempotent on line sequences. */
  lemma NumberingIdempotent(lines: seq<string>)
    ensures NumberLines(NumberLines(lines)) == NumberLines(lines)
  {
    NumberRunTwice(lines, |lines|);
  }

  /** Numbering never introduces a line break. */
  lemma NumberLineNoNewline(line: string, c: Counters)
    requires NoNewline(line)
    ensures NoNewline(NumberLine(line, c).0)
  {
    var lv := LevelOf(line);
    if lv != 0 {
      var h := Hashes(lv);
      var out := Rendered(h, Label(Bump(c, lv), lv), HeadingTitle(line, h, lv - 1));
      HeadingTitleNoNewline(line, h, lv - 1);
      HashesNoNewline(lv);
      RenderedNoNewline(h, Label(Bump(c, lv), lv), HeadingTitle(line, h, lv - 1));
      assert NumberLine(line, c).0 == out;
    }
  }

  lemma HashesNoNewline(lv: nat)
    requires 2 <= lv <= 4
    ensures NoNewline(Hashes(lv))
  {
  }

  lemma NumberLinesNoNewline(lines: seq<string>)
    requires forall k | 0 <= k < |lines| :: NoNewline(lines[k])
    ensures forall k | 0 <= k < |lines| :: NoNewline(NumberLines(lines)[k])
  {
    forall k | 0 <= k < |lines| ensures NoNewline(NumberLines(lines)[k]) {
      NumberLinesAt(lines, k);
      NumberLineNoNewline(lines[k], NumberRun(lines, k).1);
    }
  }

  /** Running add_toc_numbering on its own output returns that output. */
  lemma AddTocNumberingIdempotent(text: string)
    ensures var once := Join(NumberLines(Split(text)));
      Join(NumberLines(Split(once))) == once
  {
    var lines := Split(text);
    NumberLinesNoNewline(lines);
    SplitJoin(NumberLines(lines));
    NumberingIdempotent(lines);
  }

  // Counter discipline, against an independent count of the headings

  /** The branch add_toc_numbering takes on each line, line by line. */
  function Levels(lines: seq<string>): (lvs: seq<nat>)
    ensures |lvs| == |lines|
    ensures forall j | 0 <= j < |lines| :: lvs[j] == LevelOf(lines[j])
  {
    seq(|lines|, i requires 0 <= i < |lines| => LevelOf(lines[i]))
  }

  /** Start of the current section for level `lv`: just after the last heading of a level above it (2 ≤ level < lv) among the first `k` levels. */
  function SectionStart(levels: seq<nat>, k: nat, lv: nat): (s: nat)
    requires k <= |levels|
    ensures s <= k
    ensures s > 0 ==> 2 <= levels[s - 1] < lv
  {
    if k == 0 then 0
    else if 2 <= levels[k - 1] < lv then k
    else SectionStart(levels, k - 1, lv)
  }

  /** The number of level-`lv` headings among positions `lo` .. `k - 1`. */
  function CountLevel(levels: seq<nat>, lo: nat, k: nat, lv: nat): (n: nat)
    requires lo <= k <= |levels|
    ensures n <= k - lo
    decreases k
  {
    if k == lo then 0
    else CountLevel(levels, lo, k - 1, lv) + (if levels[k - 1] == lv then 1 else 0)
  }

  lemma {:induction false} SectionStartAfter(levels: seq<nat>, k: nat, lv: nat, t: nat)
    requires k <= |levels| && SectionStart(levels, k, lv) <= t < k
    ensures !(2 <= levels[t] < lv)
  {
    if t < k - 1 {
      SectionStartAfter(levels, k - 1, lv, t);
    }
  }

  /**
    After `k` lines, h2 counts the `##` headings so far, h3 the `###` headings
    since the last `##`, and h4 the `####` headings since the last `##` or `###`.
   */
  lemma {:induction false} CountersCount(lines: seq<string>, k: nat)
    requires k <= |lines|
    ensures var lvs := Levels(lines);
      NumberRun(lines, k).1
      == Counters(CountLevel(lvs, 0, k, 2),
                  CountLevel(lvs, SectionStart(lvs, k, 3), k, 3),
                  CountLevel(lvs, SectionStart(lvs, k, 4), k, 4))
    ensures NumberRun(lines, k).1 == Counts(Levels(lines), k)
  {
    if k > 0 {
      CountersCount(lines, k - 1);
      NumberRunCounters(lines, k);
      CountsStep(Levels(lines), k);
    }
  }

  /** The independent counts of the first `k` levels. */
  function Counts(levels: seq<nat>, k: nat): Counters
    requires k <= |levels|
  {
    Counters(CountLevel(levels, 0, k, 2),
             CountLevel(levels, SectionStart(levels, k, 3), k, 3),
             CountLevel(levels, SectionStart(levels, k, 4), k, 4))
  }

  /** One more heading moves the counts the way the numbering passes bump their counters. */
  lemma CountsStep(levels: seq<nat>, k: nat)
    requires 0 < k <= |levels|
    ensures Counts(levels, k) == Bump(Counts(levels, k - 1), levels[k - 1])
  {
    var lv := levels[k - 1];
    var c := Counts(levels, k - 1);
    var s3, s4 := SectionStart(levels, k - 1, 3), SectionStart(levels, k - 1, 4);
    if lv == 2 {
      assert SectionStart(levels, k, 3) == k && SectionStart(levels, k, 4) == k;
      assert CountLevel(levels, 0, k, 2) == c.h2 + 1;
    } else if lv == 3 {
      assert SectionStart(levels, k, 3) == s3 && SectionStart(levels, k, 4) == k;
      assert CountLevel(levels, 0, k, 2) == c.h2 && CountLevel(levels, s3, k, 3) == c.h3 + 1;
    } else if lv == 4 {
      assert SectionStart(levels, k, 3) == s3 && SectionStart(levels, k, 4) == s4;
      assert CountLevel(levels, 0, k, 2) == c.h2 && CountLevel(levels, s3, k, 3) == c.h3;
      assert CountLevel(levels, s4, k, 4) == c.h4 + 1;
    } else {
      assert SectionStart(levels, k, 3) == s3 && SectionStart(levels, k, 4) == s4;
      assert CountLevel(levels, 0, k, 2) == c.h2 && CountLevel(levels, s3, k, 3) == c.h3;
      assert CountLevel(levels, s4, k, 4) == c.h4;
    }
  }

  lemma NumberRunCounters(lines: seq<string>, k: nat)
    requires 0 < k <= |lines|
    ensures NumberRun(lines, k).1 == Bump(NumberRun(lines, k - 1).1, LevelOf(lines[k - 1]))
  {
    NumberRunStep(lines, k);
  }

  /** A numbered heading's label is read off the counters right after it. */
  lemma NumberedHeading(lines: seq<string>, j: nat)
    requires j < |lines| && LevelOf(lines[j]) != 0
    ensures var lv := LevelOf(lines[j]);
      NumberLines(lines)[j]
      == Rendered(Hashes(lv), Label(NumberRun(lines, j + 1).1, lv), HeadingTitle(lines[j], Hashes(lv), lv - 1))
  {
    NumberLinesAt(lines, j);
    NumberRunStep(lines, j + 1);
  }

  /** Headings at levels 2, 2, 3, 2 are labelled 1., 2., 2.1. and 3. */
  lemma CounterExample(lines: seq<string>)
    requires |lines| == 4
    requires LevelOf(lines[0]) == 2 && LevelOf(lines[1]) == 2 && LevelOf(lines[2]) == 3 && LevelOf(lines[3]) == 2
    ensures Label(NumberRun(lines, 1).1, 2) == ["1"]
    ensures Label(NumberRun(lines, 2).1, 2) == ["2"]
    ensures Label(NumberRun(lines, 3).1, 3) == ["2", "1"]
    ensures Label(NumberRun(lines, 4).1, 2) == ["3"]
  {
    NumberRunStep(lines, 1);
    NumberRunStep(lines, 2);
    NumberRunStep(lines, 3);
    NumberRunStep(lines, 4);
  }

  // ---------------------------------------------------------------------------
  // create_toc

  /** The list indent of a TOC entry: none for `##`, three spaces for `###`, six for `####`. */
  function Indent(lv: nat): (ind: string)
    requires 2 <= lv <= 4
    ensures |ind| == (if lv == 2 then 0 else 3 * (lv - 2) + 2)
  {
    if lv == 2 then "" else if lv == 3 then "   - " else "      - "
  }

  /** The TOC line create_toc writes for one line, if any. */
  function TocEntry(line: string): Option<string> {
    var lv := LevelOf(line);
    if lv == 0 then None
    else
      match ParseHeading(line, Hashes(lv), lv - 1)
      case None => None
      case Some(p) => Some(EntryText(Indent(lv), p.0, p.1))
  }

  /** The TOC lines create_toc collects from the first `k` lines. */
  function TocRun(lines: seq<string>, k: nat): (toc: seq<string>)
    requires k <= |lines|
    ensures |toc| <= k
  {
    if k == 0 then []
    else
      match TocEntry(lines[k - 1])
      case None => TocRun(lines, k - 1)
      case Some(e) => TocRun(lines, k - 1) + [e]
  }

  method CreateToc(text: string) returns (r: string)
    ensures r == Join(TocRun(Split(text), |Split(text)|))
  {
    var lines := Split(text);
    var toc: seq<string> := [];
    for i := 0 to |lines|
      invariant toc == TocRun(lines, i)
    {
      var e := TocLine(lines[i]);
      if e.Some? {
        toc := toc + [e.value];
      }
    }
    r := Join(toc);
  }

  /** The body of create_toc's loop for one line: the entry it appends, if any. */
  method TocLine(line: string) returns (e: Option<string>)
    ensures e == TocEntry(line)
  {
    if StartsWith(line, "# Chapter") {
      assert LevelOf(line) == 0;
      return None;
    }
    if StartsWith(line, "## ") && !StartsWith(line, "### ") {
      if Contains(line, TocTitle) {
        assert LevelOf(line) == 0;
        return None;
      }
      assert LevelOf(line) == 2;
      var m := ParseHeading(line, "##", 1);
      assert Hashes(2) == "##" && Indent(2) == "";
      e := if m.Some? then Some(EntryText("", m.value.0, m.value.1)) else None;
      assert e == TocEntry(line);
    } else if StartsWith(line, "### ") && !StartsWith(line, "#### ") {
      assert LevelOf(line) == 3;
      var m := ParseHeading(line, "###", 2);
      assert Hashes(3) == "###" && Indent(3) == "   - ";
      e := if m.Some? then Some(EntryText("   - ", m.value.0, m.value.1)) else None;
      assert e == TocEntry(line);
    } else if StartsWith(line, "#### ") {
      assert LevelOf(line) == 4;
      var m := ParseHeading(line, "####", 3);
      assert Hashes(4) == "####" && Indent(4) == "      - ";
      e := if m.Some? then Some(EntryText("      - ", m.value.0, m.value.1)) else None;
      assert e == TocEntry(line);
    } else {
      assert LevelOf(line) == 0;
      e := None;
    }
  }

  /** create_toc reads back exactly the entry of a heading add_toc_numbering wrote, and nothing for the lines it copied. */
  lemma TocEntryOfNumbered(line: string, c: Counters)
    ensures var lv := LevelOf(line);
      TocEntry(NumberLine(line, c).0)
      == if lv == 0 then None
         else Some(EntryText(Indent(lv), Label(Bump(c, lv), lv), ShownTitle(HeadingTitle(line, Hashes(lv), lv - 1))))
  {
    var lv := LevelOf(line);
    if lv != 0 {
      var h, d := Hashes(lv), Bump(c, lv);
      var title := HeadingTitle(line, h, lv - 1);
      if lv == 2 && Contains(title, TocTitle) {
        HeadingTitleWithin(line, h, lv - 1, TocTitle);
      }
      RenderedLevel(lv, Label(d, lv), title);
      ParseRendered(h, Label(d, lv), title);
    }
  }

  /** The entry the `k`-th line gets once numbered: none for a line that is not a `##`-`####` heading. */
  function NumberedEntry(lines: seq<string>, k: nat): (e: Option<string>)
    requires 0 < k <= |lines|
    ensures e.None? <==> LevelOf(lines[k - 1]) == 0
  {
    var lv := LevelOf(lines[k - 1]);
    if lv == 0 then None
    else Some(EntryText(Indent(lv), Label(NumberRun(lines, k).1, lv), ShownTitle(HeadingTitle(lines[k - 1], Hashes(lv), lv - 1))))
  }

  /** The entries the numbered headings among the first `k` lines get, in document order. */
  function HeadingEntries(lines: seq<string>, k: nat): (es: seq<string>)
    requires k <= |lines|
    ensures |es| <= k
  {
    Values(NumberedEntries(lines)[..k])
  }

  /** There is one entry per `##`, `###` and `####` heading. */
  lemma {:induction false} HeadingEntriesCount(lines: seq<string>, k: nat)
    requires k <= |lines|
    ensures var lvs := Levels(lines);
      |HeadingEntries(lines, k)| == CountLevel(lvs, 0, k, 2) + CountLevel(lvs, 0, k, 3) + CountLevel(lvs, 0, k, 4)
  {
    if k > 0 {
      HeadingEntriesCount(lines, k - 1);
      ValuesSnoc(NumberedEntries(lines), k);
      EntryCountStep(lines, k);
    }
  }

  /** Line `k - 1` adds one entry exactly when it is a `##`, `###` or `####` heading. */
  lemma EntryCountStep(lines: seq<string>, k: nat)
    requires 0 < k <= |lines|
    ensures |OptionList(NumberedEntries(lines)[k - 1])|
         == (if LevelOf(lines[k - 1]) == 2 then 1 else 0) + (if LevelOf(lines[k - 1]) == 3 then 1 else 0)
          + (if LevelOf(lines[k - 1]) == 4 then 1 else 0)
  {
    assert NumberedEntries(lines)[k - 1] == NumberedEntry(lines, k);
  }

  /**
    create_toc run on add_toc_numbering's output lists every numbered heading
    once, in document order, with the label it was given.
   */
  lemma TocOfNumbered(lines: seq<string>, k: nat)
    requires k <= |lines|
    ensures TocRun(NumberLines(lines), k) == HeadingEntries(lines, k)
  {
    TocEntriesAt(lines);
    TocRunValues(NumberLines(lines), NumberedEntries(lines), k);
  }

  /** Every numbered line yields the entry it was numbered with. */
  lemma TocEntriesAt(lines: seq<string>)
    ensures |NumberLines(lines)| == |lines|
    ensures forall j | 0 <= j < |lines| :: TocEntry(NumberLines(lines)[j]) == NumberedEntries(lines)[j]
  {
    forall j | 0 <= j < |lines|
      ensures TocEntry(NumberLines(lines)[j]) == NumberedEntries(lines)[j]
    {
      TocEntryAt(lines, j + 1);
    }
  }

  /** The entry each line gets once numbered, line by line. */
  function NumberedEntries(lines: seq<string>): (es: seq<Option<string>>)
    ensures |es| == |lines|
    ensures forall j | 0 <= j < |lines| :: es[j] == NumberedEntry(lines, j + 1)
  {
    seq(|lines|, i requires 0 <= i < |lines| => NumberedEntry(lines, i + 1))
  }

  /** create_toc's table is the list of the entries its lines yield. */
  lemma {:induction false} TocRunValues(lines: seq<string>, es: seq<Option<string>>, k: nat)
    requires |es| == |lines| && k <= |lines|
    requires forall j | 0 <= j < |lines| :: TocEntry(lines[j]) == es[j]
    ensures TocRun(lines, k) == Values(es[..k])
  {
    if k > 0 {
      TocRunValues(lines, es, k - 1);
      ValuesSnoc(es, k);
      TocRunStep(lines, k);
    }
  }

  /** One more line adds its entry, if it has one. */
  lemma TocRunStep(lines: seq<string>, k: nat)
    requires 0 < k <= |lines|
    ensures TocRun(lines, k) == TocRun(lines, k - 1) + OptionList(TocEntry(lines[k - 1]))
  {
  }

  /** The entry create_toc reads off the `k`-th numbered line is the one that line was numbered with. */
  lemma TocEntryAt(lines: seq<string>, k: nat)
    requires 0 < k <= |lines|
    ensures |NumberLines(lines)| == |lines|
    ensures TocEntry(NumberLines(lines)[k - 1]) == NumberedEntry(lines, k)
  {
    var line, c := lines[k - 1], NumberRun(lines, k - 1).1;
    NumberLinesAt(lines, k - 1);
    NumberRunCounters(lines, k);
    TocEntryOfNumbered(line, c);
    assert TocEntry(NumberLines(lines)[k - 1]) == TocEntry(NumberLine(line, c).0);
  }

  // ---------------------------------------------------------------------------
  // insert_toc

  /** A line insert_toc treats as part of an old table of contents: blank, a `-` item or a `digits.` item (after stripping). */
  predicate TocLike(line: string) {
    var t := Strip(line);
    t == [] || t[0] == '-' || (SkipDigits(t, 0) > 0 && SkipDigits(t, 0) < |t| && t[SkipDigits(t, 0)] == '.')
  }

  /** Which lines strip to `## Table of Contents`. */
  function HeadingMask(lines: seq<string>): (m: seq<bool>)
    ensures |m| == |lines|
  {
    seq(|lines|, k requires 0 <= k < |lines| => Strip(lines[k]) == TocHeading)
  }

  /** Which lines are TOC-like. */
  function TocLikeMask(lines: seq<string>): (m: seq<bool>)
    ensures |m| == |lines|
  {
    seq(|lines|, k requires 0 <= k < |lines| => TocLike(lines[k]))
  }

  /** What insert_toc leaves: the TOC after the first TOC heading, with the old TOC-like run after it gone. */
  function InsertTocLines(lines: seq<string>, toc: string): seq<string> {
    var h := FirstTrue(HeadingMask(lines), 0);
    if h == |lines| then lines
    else lines[..h + 1] + ["", toc, ""] + lines[FirstFalse(TocLikeMask(lines), h + 1)..]
  }

  /** The list after the old TOC-like run following index `i` has been popped out of it. */
  function DropRun(lines: seq<string>, i: nat): (rest: seq<string>)
    requires i < |lines|
    ensures |rest| <= |lines|
  {
    lines[..i + 1] + lines[FirstFalse(TocLikeMask(lines), i + 1)..]
  }

  /** The variables of insert_toc's loop: the (shrinking) list, the output so far, the flag and the index. */
  datatype InsertState = InsertState(lines: seq<string>, result: seq<string>, inserted: bool, i: nat)

  /** One iteration of insert_toc's loop. */
  function InsertStep(st: InsertState, toc: string): (next: InsertState)
    requires st.i < |st.lines|
    ensures |next.lines| - next.i < |st.lines| - st.i
  {
    var line := st.lines[st.i];
    var result := st.result + [line];
    if !st.inserted && Strip(line) == TocHeading then
      InsertState(DropRun(st.lines, st.i), result + ["", toc, ""], true, st.i + 1)
    else
      InsertState(st.lines, result, st.inserted, st.i + 1)
  }

  /** What insert_toc's loop returns from a given state. */
  function InsertLoop(st: InsertState, toc: string): seq<string>
    decreases |st.lines| - st.i
  {
    if st.i >= |st.lines| then st.result else InsertLoop(InsertStep(st, toc), toc)
  }

  /**
    insert_toc, popping the old TOC lines out of the list it is iterating
    over, as the Python loop does: after the pops the iteration resumes at
    the first line that was not removed.
   */
  method InsertToc(text: string, toc: string) returns (r: string)
    ensures r == Join(InsertTocLines(Split(text), toc))
  {
    var lines := Split(text);
    var result: seq<string> := [];
    var inserted := false;
    var i := 0;
    ghost var start := InsertState(lines, [], false, 0);
    while i < |lines|
      invariant InsertLoop(InsertState(lines, result, inserted, i), toc) == InsertLoop(start, toc)
      decreases |lines| - i
    {
      ghost var st := InsertState(lines, result, inserted, i);
      var line := lines[i];
      result := result + [line];
      if !inserted && Strip(line) == TocHeading {
        result := result + ["", toc, ""];
        inserted := true;
        lines := DropOldToc(lines, i);
      }
      i := i + 1;
      assert InsertState(lines, result, inserted, i) == InsertStep(st, toc);
    }
    InsertLoopBeforeHeading(start.lines, toc, 0);
    r := Join(result);
  }

  /**
    The inner part of insert_toc after the heading at `i`: scan the run of
    TOC-like lines after it and pop them one by one from the list.
   */
  method DropOldToc(lines: seq<string>, i: nat) returns (rest: seq<string>)
    requires i < |lines|
    ensures rest == DropRun(lines, i)
  {
    var j := FindTocRunEnd(lines, i);
    rest := PopRun(lines, i, j);
  }

  /** The scan for the end of the run of TOC-like lines after line `i`. */
  method FindTocRunEnd(lines: seq<string>, i: nat) returns (j: nat)
    requires i < |lines|
    ensures j == FirstFalse(TocLikeMask(lines), i + 1)
  {
    j := i + 1;
    while j < |lines| && TocLike(lines[j])
      invariant i + 1 <= j <= |lines|
      invariant FirstFalse(TocLikeMask(lines), j) == FirstFalse(TocLikeMask(lines), i + 1)
    {
      j := j + 1;
    }
  }

  /** Popping the entry after line `i` while the list is not empty, once per line of the run `(i, j)`. */
  method PopRun(lines: seq<string>, i: nat, j: nat) returns (rest: seq<string>)
    requires i < j <= |lines|
    ensures rest == lines[..i + 1] + lines[j..]
  {
    rest := lines;
    for t := 0 to j - i - 1
      invariant rest == lines[..i + 1] + lines[i + 1 + t..]
    {
      if |rest| > 0 {
        rest := rest[..i + 1] + rest[i + 2..];
      }
    }
  }

  /** What the loop returns from line `i` on when it has copied the lines before `i` and not yet met the TOC heading. */
  function Copying(lines: seq<string>, toc: string, i: nat): seq<string>
    requires i <= |lines|
  {
    InsertLoop(InsertState(lines, lines[..i], false, i), toc)
  }

  /** Once the TOC is in, the loop copies the rest of the (shortened) list. */
  lemma {:induction false} InsertLoopAfterHeading(lines: seq<string>, pre: seq<string>, h: nat, i: nat, toc: string)
    requires h + 1 <= i <= |lines|
    ensures InsertLoop(InsertState(lines, pre + lines[h + 1..i], true, i), toc) == pre + lines[h + 1..]
    decreases |lines| - i
  {
    if i < |lines| {
      var st := InsertState(lines, pre + lines[h + 1..i], true, i);
      assert lines[h + 1..i + 1] == lines[h + 1..i] + [lines[i]];
      assert InsertStep(st, toc) == InsertState(lines, pre + lines[h + 1..i + 1], true, i + 1);
      InsertLoopAfterHeading(lines, pre, h, i + 1, toc);
    } else {
      assert lines[h + 1..i] == lines[h + 1..];
    }
  }

  /** Before the TOC heading the loop copies lines; at the heading it inserts the TOC and drops the old run. */
  lemma {:induction false} InsertLoopBeforeHeading(lines: seq<string>, toc: string, i: nat)
    requires i <= FirstTrue(HeadingMask(lines), 0)
    ensures Copying(lines, toc, i) == InsertTocLines(lines, toc)
    decreases |lines| - i
  {
    var h := FirstTrue(HeadingMask(lines), 0);
    if i == |lines| {
      InsertLoopNoHeading(lines, toc);
    } else if i < h {
      InsertLoopCopyStep(lines, toc, i);
      InsertLoopBeforeHeading(lines, toc, i + 1);
    } else {
      InsertLoopAtHeading(lines, toc, h);
    }
  }

  /** Without a TOC heading the loop copies every line. */
  lemma InsertLoopNoHeading(lines: seq<string>, toc: string)
    requires FirstTrue(HeadingMask(lines), 0) == |lines|
    ensures Copying(lines, toc, |lines|) == InsertTocLines(lines, toc)
  {
    assert lines[..|lines|] == lines;
  }

  /** A line before the TOC heading is copied and the flag stays down. */
  lemma InsertLoopCopyStep(lines: seq<string>, toc: string, i: nat)
    requires i < FirstTrue(HeadingMask(lines), 0)
    ensures Copying(lines, toc, i) == Copying(lines, toc, i + 1)
  {
    var st := InsertState(lines, lines[..i], false, i);
    FirstTrueSkipped(HeadingMask(lines), 0, i);
    assert lines[..i + 1] == lines[..i] + [lines[i]];
    assert InsertStep(st, toc) == InsertState(lines, lines[..i + 1], false, i + 1);
  }

  lemma InsertLoopAtHeading(lines: seq<string>, toc: string, h: nat)
    requires h == FirstTrue(HeadingMask(lines), 0) < |lines|
    ensures Copying(lines, toc, h) == InsertTocLines(lines, toc)
  {
    var st := InsertState(lines, lines[..h], false, h);
    var rest := DropRun(lines, h);
    var pre := lines[..h + 1] + ["", toc, ""];
    assert HeadingMask(lines)[h];
    assert lines[..h] + [lines[h]] == lines[..h + 1];
    assert pre + rest[h + 1..h + 1] == pre;
    assert InsertStep(st, toc) == InsertState(rest, pre + rest[h + 1..h + 1], true, h + 1);
    InsertLoopAfterHeading(rest, pre, h, h + 1, toc);
    assert rest[h + 1..] == lines[FirstFalse(TocLikeMask(lines), h + 1)..];
  }

  /**
    insert_toc, stated without reference to its scan: given the first TOC
    heading `h` and the end `e` of the TOC-like run after it, the result is
    the lines up to the heading, a blank, the TOC, a blank, and the lines
    from `e` on.
   */
  lemma InsertTocAt(lines: seq<string>, toc: string, h: nat, e: nat)
    requires h < e <= |lines|
    requires Strip(lines[h]) == TocHeading && forall k | 0 <= k < h :: Strip(lines[k]) != TocHeading
    requires forall k | h < k < e :: TocLike(lines[k])
    requires e < |lines| ==> !TocLike(lines[e])
    ensures InsertTocLines(lines, toc) == lines[..h + 1] + ["", toc, ""] + lines[e..]
  {
    FirstHeadingAt(lines, h);
    TocLikeRunEnd(lines, h, e);
    InsertTocBetween(lines, toc, h, e);
  }

  lemma InsertTocBetween(lines: seq<string>, toc: string, h: nat, e: nat)
    requires h == FirstTrue(HeadingMask(lines), 0) < |lines| && e == FirstFalse(TocLikeMask(lines), h + 1)
    ensures InsertTocLines(lines, toc) == lines[..h + 1] + ["", toc, ""] + lines[e..]
  {
  }

  lemma FirstHeadingAt(lines: seq<string>, h: nat)
    requires h < |lines|
    requires Strip(lines[h]) == TocHeading && forall k | 0 <= k < h :: Strip(lines[k]) != TocHeading
    ensures FirstTrue(HeadingMask(lines), 0) == h
  {
    FirstTrueAt(HeadingMask(lines), 0, h);
  }

  lemma TocLikeRunEnd(lines: seq<string>, h: nat, e: nat)
    requires h < e <= |lines|
    requires forall k | h < k < e :: TocLike(lines[k])
    requires e < |lines| ==> !TocLike(lines[e])
    ensures FirstFalse(TocLikeMask(lines), h + 1) == e
  {
    FirstFalseAt(TocLikeMask(lines), h + 1, e);
  }

  /** Without a TOC heading, insert_toc changes nothing. */
  lemma InsertTocWithoutHeading(lines: seq<string>, toc: string)
    requires forall k | 0 <= k < |lines| :: Strip(lines[k]) != TocHeading
    ensures InsertTocLines(lines, toc) == lines
  {
  }

  /** The lines insert_toc removes are all TOC-like; every other input line survives, in order. */
  lemma InsertTocRemovesOnlyTocLike(lines: seq<string>, toc: string, h: nat)
    requires h < |lines| && Strip(lines[h]) == TocHeading && forall k | 0 <= k < h :: Strip(lines[k]) != TocHeading
    ensures var e := FirstFalse(TocLikeMask(lines), h + 1);
      && (forall k | h < k < e :: TocLike(lines[k]))
      && InsertTocLines(lines, toc) == lines[..h + 1] + ["", toc, ""] + lines[e..]
  {
    var tm := TocLikeMask(lines);
    var e := FirstFalse(tm, h + 1);
    forall k | h < k < e ensures TocLike(lines[k]) {
      FirstFalseSkipped(tm, h + 1, k);
    }
    InsertTocAt(lines, toc, h, e);
  }

  // ---------------------------------------------------------------------------
  // transform_chapter: placing the TOC in a chapter that has no TOC heading

  const ChapterPrefix := "# Chapter"

  /** A chapter title line, as the fallback recognises it. */
  predicate IsChapterLine(line: string) {
    StartsWith(line, ChapterPrefix)
  }

  /** A line that strips to nothing: every character of it is whitespace (StripEmptyIff). */
  predicate IsBlank(line: string) {
    Strip(line) == ""
  }

  /** Which lines start with `# Chapter`. */
  function ChapterMask(lines: seq<string>): (m: seq<bool>)
    ensures |m| == |lines|
  {
    seq(|lines|, k requires 0 <= k < |lines| => IsChapterLine(lines[k]))
  }

  /** Which lines are blank once stripped. */
  function BlankMask(lines: seq<string>): (m: seq<bool>)
    ensures |m| == |lines|
  {
    seq(|lines|, k requires 0 <= k < |lines| => IsBlank(lines[k]))
  }

  /**
    `c` is the first `# Chapter` line and `j` the first blank line at least
    three lines after it: the pair the fallback placement looks for.
   */
  predicate FallbackPair(lines: seq<string>, c: int, j: int) {
    && 0 <= c && c + 3 <= j < |lines|
    && IsChapterLine(lines[c])
    && (forall k | 0 <= k < c :: !IsChapterLine(lines[k]))
    && IsBlank(lines[j])
    && (forall k | c + 3 <= k < j :: !IsBlank(lines[k]))
  }

  /** Where the fallback inserts the TOC block; 0 means nowhere. */
  function FallbackPos(lines: seq<string>): (pos: nat)
    ensures pos <= |lines|
  {
    var c := FirstTrue(ChapterMask(lines), 0);
    if c + 3 > |lines| then 0
    else
      var j := FirstTrue(BlankMask(lines), c + 3);
      if j == |lines| then 0 else j + 1
  }

  /** The lines after the fallback placement. */
  function FallbackLines(lines: seq<string>, toc: string): seq<string> {
    var pos := FallbackPos(lines);
    if pos == 0 then lines else lines[..pos] + [TocHeading, "", toc, ""] + lines[pos..]
  }

  /** The text after the fallback placement: untouched when there is nowhere to put the TOC. */
  function FallbackText(content: string, toc: string): string {
    if FallbackPos(Split(content)) == 0 then content else Join(FallbackLines(Split(content), toc))
  }

  /**
    The fallback placement is decided by the pair it looks for: the block goes
    right after the pair's blank line, and without a pair nothing is inserted.
   */
  lemma FallbackPosSpec(lines: seq<string>)
    ensures FallbackPos(lines) > 0 <==> exists c, j :: FallbackPair(lines, c, j)
    ensures forall c, j | FallbackPair(lines, c, j) :: FallbackPos(lines) == j + 1
  {
    forall c, j | FallbackPair(lines, c, j) ensures FallbackPos(lines) == j + 1 {
      FallbackPairPos(lines, c, j);
    }
    if FallbackPos(lines) > 0 {
      FallbackFound(lines);
    }
  }

  lemma FallbackFound(lines: seq<string>)
    requires FallbackPos(lines) > 0
    ensures FallbackPair(lines, FirstTrue(ChapterMask(lines), 0), FallbackPos(lines) - 1)
  {
    var c := FirstTrue(ChapterMask(lines), 0);
    var j := FirstTrue(BlankMask(lines), c + 3);
    NoChapterBefore(lines, c);
    NoBlankBetween(lines, c + 3, j);
  }

  lemma NoChapterBefore(lines: seq<string>, c: nat)
    requires c == FirstTrue(ChapterMask(lines), 0)
    ensures c < |lines| ==> IsChapterLine(lines[c])
    ensures forall k | 0 <= k < c :: !IsChapterLine(lines[k])
  {
    var cm := ChapterMask(lines);
    forall k | 0 <= k < c ensures !IsChapterLine(lines[k]) {
      FirstTrueSkipped(cm, 0, k);
      assert !cm[k];
    }
    if c < |lines| {
      assert cm[c];
    }
  }

  lemma NoBlankBetween(lines: seq<string>, i: nat, j: nat)
    requires i <= |lines| && j == FirstTrue(BlankMask(lines), i)
    ensures j < |lines| ==> IsBlank(lines[j])
    ensures forall k | i <= k < j :: !IsBlank(lines[k])
  {
    var bm := BlankMask(lines);
    forall k | i <= k < j ensures !IsBlank(lines[k]) {
      FirstTrueSkipped(bm, i, k);
      assert !bm[k];
    }
    if j < |lines| {
      assert bm[j];
    }
  }

  lemma FallbackPairPos(lines: seq<string>, c: int, j: int)
    requires FallbackPair(lines, c, j)
    ensures FallbackPos(lines) == j + 1
  {
    var cm, bm := ChapterMask(lines), BlankMask(lines);
    assert cm[c];
    assert forall k | 0 <= k < c :: !cm[k];
    FirstTrueAt(cm, 0, c);
    assert bm[j];
    assert forall k | c + 3 <= k < j :: !bm[k];
    FirstTrueAt(bm, c + 3, j);
  }

  /** The fallback only inserts: taking out the four inserted lines gives the input back. */
  lemma FallbackOnlyInserts(lines: seq<string>, toc: string)
    ensures var pos, r := FallbackPos(lines), FallbackLines(lines, toc);
      if pos == 0 then r == lines
      else && |r| == |lines| + 4
           && r[pos..pos + 4] == [TocHeading, "", toc, ""]
           && r[..pos] + r[pos + 4..] == lines
  {
    var pos, r := FallbackPos(lines), FallbackLines(lines, toc);
    if pos > 0 {
      assert r[..pos] == lines[..pos];
      assert r[pos + 4..] == lines[pos..];
    }
  }

  /**
    The fallback branch of transform_chapter: find the first `# Chapter` line,
    then the first blank line more than two lines below it, and insert the
    TOC heading, a blank, the TOC and a blank after that blank line.
   */
  method PlaceTocFallback(content: string, toc: string) returns (r: string)
    ensures r == FallbackText(content, toc)
  {
    var lines := Split(content);
    var pos := FallbackScan(lines);
    if pos > 0 {
      lines := InsertBlock(lines, pos, toc);
      r := Join(lines);
    } else {
      r := content;
    }
  }

  /** The two nested scans of the fallback branch, which leave 0 when they find nothing. */
  method FallbackScan(lines: seq<string>) returns (pos: nat)
    ensures pos == FallbackPos(lines)
  {
    pos := 0;
    var i := 0;
    while i < |lines| && !IsChapterLine(lines[i])
      invariant i <= |lines|
      invariant forall k | 0 <= k < i :: !ChapterMask(lines)[k]
    {
      i := i + 1;
    }
    FirstTrueAt(ChapterMask(lines), 0, i);
    if i < |lines| {
      var j := i + 1;
      while j < |lines| && !(IsBlank(lines[j]) && j > i + 2)
        invariant i + 1 <= j <= |lines|
        invariant forall k | i + 3 <= k < j :: !BlankMask(lines)[k]
      {
        j := j + 1;
      }
      if j < |lines| {
        FirstTrueAt(BlankMask(lines), i + 3, j);
        pos := j + 1;
      } else if i + 3 <= |lines| {
        FirstTrueAt(BlankMask(lines), i + 3, j);
      }
    }
  }

  /** The four `lines.insert` calls at `pos`, `pos + 1`, `pos + 2` and `pos + 3`. */
  method InsertBlock(lines: seq<string>, pos: nat, toc: string) returns (r: seq<string>)
    requires pos <= |lines|
    ensures r == lines[..pos] + [TocHeading, "", toc, ""] + lines[pos..]
  {
    r := lines[..pos] + [TocHeading] + lines[pos..];
    assert r[..pos + 1] == lines[..pos] + [TocHeading] && r[pos + 1..] == lines[pos..];
    r := r[..pos + 1] + [""] + r[pos + 1..];
    assert r[..pos + 2] == lines[..pos] + [TocHeading, ""] && r[pos + 2..] == lines[pos..];
    r := r[..pos + 2] + [toc] + r[pos + 2..];
    assert r[..pos + 3] == lines[..pos] + [TocHeading, "", toc] && r[pos + 3..] == lines[pos..];
    r := r[..pos + 3] + [""] + r[pos + 3..];
  }

  // ---------------------------------------------------------------------------
  // add_frontmatter and add_navigation

  /** The lines of the Docusaurus front matter: the two fences around three keys, then a blank. */
  function FrontmatterLines(position: int, chapter: int, title: string, description: string): seq<string> {
    ["---",
     "sidebar_position: " + IntToString(position),
     "title: \"Chapter " + IntToString(chapter) + ". " + title + "\"",
     "description: \"" + description + "\"",
     "---",
     ""]
  }

  /** The front matter block: its lines, each ended by '\n'. */
  function Frontmatter(position: int, chapter: int, title: string, description: string): string {
    Join(FrontmatterLines(position, chapter, title, description)) + "\n"
  }

  function AddFrontmatter(text: string, position: int, chapter: int, title: string, description: string): (r: string)
    ensures StartsWith(r, Frontmatter(position, chapter, title, description))
    ensures r[|Frontmatter(position, chapter, title, description)|..] == text
  {
    Frontmatter(position, chapter, title, description) + text
  }

  /**
    Line by line, add_frontmatter puts the six front matter lines in front of
    the text's own lines, provided title and description are single lines.
   */
  lemma AddFrontmatterLines(text: string, position: int, chapter: int, title: string, description: string)
    requires NoNewline(title) && NoNewline(description)
    ensures Split(AddFrontmatter(text, position, chapter, title, description))
         == FrontmatterLines(position, chapter, title, description) + Split(text)
  {
    var ls := FrontmatterLines(position, chapter, title, description);
    assert forall k | 0 <= k < |ls| :: NoNewline(ls[k]) by {
      NoNewlineAppend("sidebar_position: ", IntToString(position));
      NoNewlineAppend("title: \"Chapter ", IntToString(chapter));
      NoNewlineAppend("title: \"Chapter " + IntToString(chapter), ". ");
      NoNewlineAppend("title: \"Chapter " + IntToString(chapter) + ". ", title);
      NoNewlineAppend("title: \"Chapter " + IntToString(chapter) + ". " + title, "\"");
      NoNewlineAppend("description: \"", description);
      NoNewlineAppend("description: \"" + description, "\"");
    }
    JoinThenSplit(ls, text);
  }

  /** The front matter ends with its closing fence followed by a blank line. */
  lemma FrontmatterEnds(position: int, chapter: int, title: string, description: string)
    ensures var fm := Frontmatter(position, chapter, title, description);
      |fm| >= 5 && fm[|fm| - 5..] == "---\n\n"
  {
    var ls := FrontmatterLines(position, chapter, title, description);
    assert ls == ls[..4] + ["---"] + [""];
    JoinSnoc(ls[..4] + ["---"], "");
    JoinSnoc(ls[..4], "---");
  }

  lemma NoNewlineAppend(a: string, b: string)
    requires NoNewline(a) && NoNewline(b)
    ensures NoNewline(a + b)
  {
    forall k | 0 <= k < |a + b| ensures (a + b)[k] != '\n' {
      if k < |a| {
        assert (a + b)[k] == a[k];
      } else {
        assert (a + b)[k] == b[k - |a|];
      }
    }
  }

  /** The lines of the navigation footer: a blank, the rule, a blank, the links and an empty last line. */
  function NavigationLines(prev: string, next: string): seq<string> {
    ["", "---", "", "**Previous:** " + prev + " | **Next:** " + next, ""]
  }

  /** The navigation footer, starting with the '\n' that ends the text's last line. */
  function Navigation(prev: string, next: string): string {
    "\n" + Join(NavigationLines(prev, next))
  }

  function AddNavigation(text: string, prev: string, next: string): (r: string)
    ensures StartsWith(r, RStrip(text))
    ensures r[|RStrip(text)|..] == Navigation(prev, next)
  {
    RStrip(text) + Navigation(prev, next)
  }

  /** Trailing whitespace in the text makes no difference to add_navigation. */
  lemma NavigationIgnoresTrailingSpace(text: string, w: string, prev: string, next: string)
    requires AllSpace(w)
    ensures AddNavigation(text + w, prev, next) == AddNavigation(text, prev, next)
  {
    RStripTrailingSpace(text, w);
  }

  /**
    Line by line, add_navigation keeps the lines of the right-stripped text and
    appends the five footer lines, provided the two links are single lines.
   */
  lemma AddNavigationLines(text: string, prev: string, next: string)
    requires NoNewline(prev) && NoNewline(next)
    ensures Split(AddNavigation(text, prev, next)) == Split(RStrip(text)) + NavigationLines(prev, next)
  {
    var ls := NavigationLines(prev, next);
    NavigationLinesNoNewline(prev, next);
    assert AddNavigation(text, prev, next) == RStrip(text) + "\n" + Join(ls);
    SplitConcat(RStrip(text), Join(ls));
    SplitJoin(ls);
  }

  lemma NavigationLinesNoNewline(prev: string, next: string)
    requires NoNewline(prev) && NoNewline(next)
    ensures forall k | 0 <= k < |NavigationLines(prev, next)| :: NoNewline(NavigationLines(prev, next)[k])
  {
    NoNewlineAppend("**Previous:** ", prev);
    NoNewlineAppend("**Previous:** " + prev, " | **Next:** ");
    NoNewlineAppend("**Previous:** " + prev + " | **Next:** ", next);
  }

  // ---------------------------------------------------------------------------
  // transform_chapter, without the file I/O

  /** The numbered text with its TOC placed: after the TOC heading if there is one, else by the fallback. */
  function PlaceToc(numbered: string, toc: string): string {
    if Contains(numbered, TocHeading) then Join(InsertTocLines(Split(numbered), toc))
    else FallbackText(numbered, toc)
  }

  /** The text transform_chapter writes for a chapter whose contents are `content`. */
  function TransformChapterText(content: string, position: int, chapter: int, title: string,
                                description: string, prev: string, next: string): string
  {
    var cleaned := RemoveReferenceNumbers(Join(CleanLines(Split(content))));
    var numbered := Join(NumberLines(Split(cleaned)));
    var toc := Join(TocRun(Split(numbered), |Split(numbered)|));
    AddNavigation(AddFrontmatter(PlaceToc(numbered, toc), position, chapter, title, description), prev, next)
  }

  /** transform_chapter: clean, number, build the TOC, place it, add front matter and navigation. */
  method TransformChapter(content: string, position: int, chapter: int, title: string,
                          description: string, prev: string, next: string) returns (r: string)
    ensures r == TransformChapterText(content, position, chapter, title, description, prev, next)
  {
    var text := CleanContent(content);
    text := AddTocNumbering(text);
    var toc := CreateToc(text);
    if Contains(text, TocHeading) {
      text := InsertToc(text, toc);
    } else {
      text := PlaceTocFallback(text, toc);
    }
    text := AddFrontmatter(text, position, chapter, title, description);
    r := AddNavigation(text, prev, next);
  }

  /**
    Whatever the body, the written file opens with the front matter up to its
    closing fence and ends with the navigation footer.
   */
  lemma DressedFrame(body: string, position: int, chapter: int, title: string,
                     description: string, prev: string, next: string)
    ensures var r := AddNavigation(AddFrontmatter(body, position, chapter, title, description), prev, next);
      var fm := Frontmatter(position, chapter, title, description);
      var nav := Navigation(prev, next);
      && |fm| >= 2 && StartsWith(r, fm[..|fm| - 2])
      && |r| >= |nav| && r[|r| - |nav|..] == nav
  {
    var fm := Frontmatter(position, chapter, title, description);
    var s := AddFrontmatter(body, position, chapter, title, description);
    FrontmatterEnds(position, chapter, title, description);
    var n := |fm| - 2;
    assert fm[n - 1] == '-';
    assert s[..n] == fm[..n];
    RStripKeeps(s, n);
  }

  /** Every chapter transform_chapter writes is framed by its front matter and its navigation footer. */
  lemma TransformChapterFrame(content: string, position: int, chapter: int, title: string,
                              description: string, prev: string, next: string)
    ensures var r := TransformChapterText(content, position, chapter, title, description, prev, next);
      var fm := Frontmatter(position, chapter, title, description);
      var nav := Navigation(prev, next);
      && |fm| >= 2 && StartsWith(r, fm[..|fm| - 2])
      && |r| >= |nav| && r[|r| - |nav|..] == nav
  {
    var cleaned := RemoveReferenceNumbers(Join(CleanLines(Split(content))));
    var numbered := Join(NumberLines(Split(cleaned)));
    var toc := Join(TocRun(Split(numbered), |Split(numbered)|));
    DressedFrame(PlaceToc(numbered, toc), position, chapter, title, description, prev, next);
  }
}
