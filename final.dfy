/**
  transform_final.py: the one-pass transformer that reads the chapter line and
  its epigraph off the scraped page (extract_chapter_info), drops the page
  chrome and citation markers (clean_and_transform), numbers the headings
  without looking at any number already there (number_headers), and lists the
  numbered `##` and `###` headings as a table of contents (generate_toc).
 */
module Final {
  import opened Text
  import opened Headings
  import Chapters
  import Substitutions

  // ---------------------------------------------------------------------------
  // extract_chapter_info

  /** `(chapter_line, quote, quote_author)`. */
  datatype Info = Info(chapter: string, quote: string, author: string)

  /** A line that (re)sets the chapter line. */
  predicate Opens(line: string) {
    StartsWith(line, "Chapter")
  }

  /** A line the quote or its author may be: not blank and not the note banner. */
  predicate Filled(line: string) {
    Strip(line) != "" && !StartsWith(line, "A Note")
  }

  /** A line the quote or its author is read from once the loop reaches it: filled, and not a `Chapter` line. */
  predicate Candidate(line: string) {
    !Opens(line) && Filled(line)
  }

  /** What the loop body does with one line. */
  function InfoStep(st: Info, line: string): Info {
    if Opens(line) then st.(chapter := Strip(line))
    else if st.chapter != "" && st.quote == "" && Filled(line) then st.(quote := Strip(line))
    else if st.quote != "" && st.author == "" && Filled(line) then st.(author := Strip(line))
    else st
  }

  /** The loop from line `i` on: it stops once the author is set (the loop's `break`). */
  function InfoFrom(lines: seq<string>, i: nat, st: Info): Info
    requires i <= |lines|
    decreases |lines| - i
  {
    if i == |lines| || st.author != "" then st
    else InfoFrom(lines, i + 1, InfoStep(st, lines[i]))
  }

  function ExtractInfo(lines: seq<string>): Info {
    InfoFrom(lines, 0, Info("", "", ""))
  }

  method ExtractChapterInfo(content: string) returns (chapter: string, quote: string, author: string)
    ensures Info(chapter, quote, author) == ExtractInfo(Split(content))
  {
    var lines := Split(content);
    chapter, quote, author := "", "", "";
    for i := 0 to |lines|
      invariant author == ""
      invariant InfoFrom(lines, i, Info(chapter, quote, author)) == ExtractInfo(lines)
    {
      var line := lines[i];
      ghost var st := Info(chapter, quote, author);
      if StartsWith(line, "Chapter") {
        chapter := Strip(line);
      } else if chapter != "" && quote == "" && Filled(line) {
        quote := Strip(line);
      } else if quote != "" && author == "" && Filled(line) {
        author := Strip(line);
        StripOfCandidate(line);
        AuthorStops(lines, i, st, Info(chapter, quote, author));
        break;
      }
    }
  }

  /** The stripped text of a line that is not blank is not empty. */
  lemma StripOfCandidate(line: string)
    requires Strip(line) != ""
    ensures |Strip(line)| > 0
  {
  }

  // The same result, read off the lines directly

  function OpensMask(lines: seq<string>): (m: seq<bool>)
    ensures |m| == |lines| && forall k {:trigger m[k]} | 0 <= k < |lines| :: m[k] == Opens(lines[k])
  {
    seq(|lines|, k requires 0 <= k < |lines| => Opens(lines[k]))
  }

  function CandidateMask(lines: seq<string>): (m: seq<bool>)
    ensures |m| == |lines| && forall k {:trigger m[k]} | 0 <= k < |lines| :: m[k] == Candidate(lines[k])
  {
    seq(|lines|, k requires 0 <= k < |lines| => Candidate(lines[k]))
  }

  /** The stripped text of the last `Chapter` line among the first `k` lines, or "" when there is none. */
  function LastOpener(lines: seq<string>, k: nat): string
    requires k <= |lines|
  {
    if k == 0 then ""
    else if Opens(lines[k - 1]) then Strip(lines[k - 1])
    else LastOpener(lines, k - 1)
  }

  /**
    extract_chapter_info as a statement about the lines: with `c` the first
    `Chapter` line, the quote is the first candidate line after `c`, the author
    the next candidate line, and the chapter line the last `Chapter` line before
    the author (or before the end); nothing is found without a `Chapter` line.
   */
  function InfoOf(lines: seq<string>): Info {
    var c := FirstTrue(OpensMask(lines), 0);
    if c == |lines| then Info("", "", "")
    else InfoFromQuote(lines, FirstTrue(CandidateMask(lines), c + 1))
  }

  /** The result once the quote line `q` is known (`q == |lines|`: there is none). */
  function InfoFromQuote(lines: seq<string>, q: nat): Info
    requires q <= |lines|
  {
    if q == |lines| then Info(LastOpener(lines, q), "", "")
    else InfoFromAuthor(lines, q, FirstTrue(CandidateMask(lines), q + 1))
  }

  /** The result once the quote line `q` and the author line `a` are known (`a == |lines|`: there is none). */
  function InfoFromAuthor(lines: seq<string>, q: nat, a: nat): Info
    requires q < |lines| && a <= |lines|
  {
    Info(LastOpener(lines, a), Strip(lines[q]), if a == |lines| then "" else Strip(lines[a]))
  }

  /** The loop from line `i` on, in the state it has once a `Chapter` line was read: the chapter line is the last one before `i`. */
  function Tracking(lines: seq<string>, i: nat, quote: string): Info
    requires i <= |lines|
  {
    InfoFrom(lines, i, Info(LastOpener(lines, i), quote, ""))
  }

  /** Before the first `Chapter` line nothing is recorded. */
  lemma {:induction false} PreambleIgnored(lines: seq<string>, i: nat)
    requires i <= |lines|
    ensures InfoFrom(lines, i, Info("", "", "")) == InfoFrom(lines, FirstTrue(OpensMask(lines), i), Info("", "", ""))
    decreases |lines| - i
  {
    var m := OpensMask(lines);
    if i < |lines| && !m[i] {
      PreambleStep(lines, i);
      PreambleIgnored(lines, i + 1);
      FirstTrueNext(m, i);
    }
  }

  lemma PreambleStep(lines: seq<string>, i: nat)
    requires i < |lines| && !Opens(lines[i])
    ensures InfoFrom(lines, i, Info("", "", "")) == InfoFrom(lines, i + 1, Info("", "", ""))
  {
    assert InfoStep(Info("", "", ""), lines[i]) == Info("", "", "");
  }

  /** Lines that are not candidates only move the chapter line to the latest `Chapter` line. */
  lemma {:induction false} OpenersTracked(lines: seq<string>, i: nat, quote: string)
    requires i <= |lines|
    ensures Tracking(lines, i, quote) == Tracking(lines, FirstTrue(CandidateMask(lines), i), quote)
    decreases |lines| - i
  {
    var m := CandidateMask(lines);
    if i < |lines| && !m[i] {
      OpenerStep(lines, i, quote);
      OpenersTracked(lines, i + 1, quote);
      FirstTrueNext(m, i);
    }
  }

  /** One line that is not a candidate. */
  lemma OpenerStep(lines: seq<string>, i: nat, quote: string)
    requires i < |lines| && !Candidate(lines[i])
    ensures Tracking(lines, i, quote) == Tracking(lines, i + 1, quote)
  {
    var before, after := LastOpener(lines, i), LastOpener(lines, i + 1);
    LastOpenerStep(lines, i);
    NonCandidateStep(lines[i], before, quote, after);
    InfoFromStep(lines, i, Info(before, quote, ""), Info(after, quote, ""));
  }

  lemma LastOpenerStep(lines: seq<string>, i: nat)
    requires i < |lines|
    ensures LastOpener(lines, i + 1) == if Opens(lines[i]) then Strip(lines[i]) else LastOpener(lines, i)
  {
  }

  /** A line that is not a candidate can only replace the chapter line. */
  lemma NonCandidateStep(line: string, chapter: string, quote: string, chapter2: string)
    requires !Candidate(line)
    requires chapter2 == if Opens(line) then Strip(line) else chapter
    ensures InfoStep(Info(chapter, quote, ""), line) == Info(chapter2, quote, "")
  {
  }

  /** The loop goes on from a state without an author. */
  lemma InfoFromStep(lines: seq<string>, i: nat, st: Info, next: Info)
    requires i < |lines| && st.author == "" && next == InfoStep(st, lines[i])
    ensures InfoFrom(lines, i, st) == InfoFrom(lines, i + 1, next)
  {
  }

  /** After a `Chapter` line the chapter line is never empty. */
  lemma {:induction false} OpenerSeen(lines: seq<string>, c: nat, k: nat)
    requires c < k <= |lines| && Opens(lines[c])
    ensures LastOpener(lines, k) != ""
    decreases k
  {
    if Opens(lines[k - 1]) {
      OpenerNonEmpty(lines[k - 1]);
    } else {
      OpenerSeen(lines, c, k - 1);
    }
  }

  lemma OpenerNonEmpty(line: string)
    requires Opens(line)
    ensures Strip(line) != ""
  {
    assert line[..7] == "Chapter";
    assert line[0] == 'C';
    StripEmptyIff(line);
  }

  /** The loop computes InfoOf. */
  lemma ExtractInfoSpec(lines: seq<string>)
    ensures ExtractInfo(lines) == InfoOf(lines)
  {
    var c := FirstTrue(OpensMask(lines), 0);
    PreambleIgnored(lines, 0);
    assert ExtractInfo(lines) == InfoFrom(lines, c, Info("", "", ""));
    if c < |lines| {
      assert Opens(lines[c]);
      var q := FirstTrue(CandidateMask(lines), c + 1);
      InfoAfterOpener(lines, c, q);
      assert InfoOf(lines) == InfoFromQuote(lines, q);
    }
  }

  /** From the first `Chapter` line on. */
  lemma InfoAfterOpener(lines: seq<string>, c: nat, q: nat)
    requires c < |lines| && Opens(lines[c]) && q == FirstTrue(CandidateMask(lines), c + 1)
    ensures InfoFrom(lines, c, Info("", "", "")) == InfoFromQuote(lines, q)
  {
    ToQuote(lines, c, q);
    AtQuote(lines, c, q);
  }

  /** Up to the first candidate after the first `Chapter` line, only the chapter line moves. */
  lemma ToQuote(lines: seq<string>, c: nat, q: nat)
    requires c < |lines| && Opens(lines[c]) && q == FirstTrue(CandidateMask(lines), c + 1)
    ensures InfoFrom(lines, c, Info("", "", "")) == Tracking(lines, q, "")
  {
    OpenerFirst(lines, c);
    OpenersTracked(lines, c + 1, "");
  }

  /** From the first candidate after the first `Chapter` line (or the end) on. */
  lemma AtQuote(lines: seq<string>, c: nat, q: nat)
    requires c < q <= |lines| && Opens(lines[c])
    requires q < |lines| ==> CandidateMask(lines)[q]
    ensures Tracking(lines, q, "") == InfoFromQuote(lines, q)
  {
    if q < |lines| {
      OpenerSeen(lines, c, q);
      InfoAtQuote(lines, q, FirstTrue(CandidateMask(lines), q + 1));
    }
  }

  /** The first `Chapter` line sets the chapter line. */
  lemma OpenerFirst(lines: seq<string>, c: nat)
    requires c < |lines| && Opens(lines[c])
    ensures InfoFrom(lines, c, Info("", "", "")) == Tracking(lines, c + 1, "")
  {
    LastOpenerStep(lines, c);
    InfoFromStep(lines, c, Info("", "", ""), Info(LastOpener(lines, c + 1), "", ""));
  }

  /** From the quote line on. */
  lemma InfoAtQuote(lines: seq<string>, q: nat, a: nat)
    requires q < |lines| && Candidate(lines[q]) && LastOpener(lines, q) != ""
    requires a == FirstTrue(CandidateMask(lines), q + 1)
    ensures Tracking(lines, q, "") == InfoFromAuthor(lines, q, a)
  {
    var quote := Strip(lines[q]);
    QuoteStep(lines, q);
    QuoteOfCandidate(lines[q]);
    OpenersTracked(lines, q + 1, quote);
    if a < |lines| {
      assert Candidate(lines[a]);
      AuthorStep(lines, a, quote);
    }
  }

  /** The first candidate after a `Chapter` line becomes the quote. */
  lemma QuoteStep(lines: seq<string>, q: nat)
    requires q < |lines| && Candidate(lines[q]) && LastOpener(lines, q) != ""
    ensures Tracking(lines, q, "") == Tracking(lines, q + 1, Strip(lines[q]))
  {
    var chapter, quote := LastOpener(lines, q), Strip(lines[q]);
    LastOpenerStep(lines, q);
    CandidateQuote(lines[q], chapter, quote);
    InfoFromStep(lines, q, Info(chapter, "", ""), Info(chapter, quote, ""));
  }

  lemma CandidateQuote(line: string, chapter: string, quote: string)
    requires Candidate(line) && chapter != "" && quote == Strip(line)
    ensures InfoStep(Info(chapter, "", ""), line) == Info(chapter, quote, "")
  {
  }

  /** The next candidate becomes the author, and the loop stops. */
  lemma AuthorStep(lines: seq<string>, a: nat, quote: string)
    requires a < |lines| && Candidate(lines[a]) && quote != ""
    ensures Tracking(lines, a, quote) == Info(LastOpener(lines, a), quote, Strip(lines[a]))
  {
    var chapter, author := LastOpener(lines, a), Strip(lines[a]);
    CandidateAuthor(lines[a], chapter, quote, author);
    AuthorStops(lines, a, Info(chapter, quote, ""), Info(chapter, quote, author));
  }

  lemma CandidateAuthor(line: string, chapter: string, quote: string, author: string)
    requires Candidate(line) && quote != "" && author == Strip(line)
    ensures InfoStep(Info(chapter, quote, ""), line) == Info(chapter, quote, author) && author != ""
  {
  }

  /** The line that sets the author is the last the loop reads. */
  lemma AuthorStops(lines: seq<string>, i: nat, st: Info, next: Info)
    requires i < |lines| && st.author == "" && next == InfoStep(st, lines[i]) && next.author != ""
    ensures InfoFrom(lines, i, st) == next
  {
    assert InfoFrom(lines, i + 1, next) == next;
  }

  /** Without a `Chapter` line, extract_chapter_info returns three empty strings. */
  lemma NoChapterLine(lines: seq<string>)
    requires forall k | 0 <= k < |lines| :: !StartsWith(lines[k], "Chapter")
    ensures ExtractInfo(lines) == Info("", "", "")
  {
    ExtractInfoSpec(lines);
    FirstTrueAt(OpensMask(lines), 0, |lines|);
  }

  /** An author is only read after a quote, and a quote only after a chapter line. */
  lemma InfoOrder(lines: seq<string>)
    ensures ExtractInfo(lines).author != "" ==> ExtractInfo(lines).quote != ""
    ensures ExtractInfo(lines).quote != "" ==> ExtractInfo(lines).chapter != ""
  {
    ExtractInfoSpec(lines);
    var c := FirstTrue(OpensMask(lines), 0);
    if c < |lines| {
      var q := FirstTrue(CandidateMask(lines), c + 1);
      assert Opens(lines[c]);
      if q < |lines| {
        assert Candidate(lines[q]);
      }
      QuoteOrder(lines, c, q);
    }
  }

  lemma QuoteOrder(lines: seq<string>, c: nat, q: nat)
    requires c < q <= |lines| && Opens(lines[c]) && (q < |lines| ==> Candidate(lines[q]))
    ensures InfoFromQuote(lines, q).author != "" ==> InfoFromQuote(lines, q).quote != ""
    ensures InfoFromQuote(lines, q).quote != "" ==> InfoFromQuote(lines, q).chapter != ""
  {
    if q < |lines| {
      var a := FirstTrue(CandidateMask(lines), q + 1);
      OpenerSeen(lines, c, a);
      QuoteOfCandidate(lines[q]);
    }
  }

  lemma QuoteOfCandidate(line: string)
    requires Candidate(line)
    ensures Strip(line) != ""
  {
  }

  // ---------------------------------------------------------------------------
  // clean_and_transform

  /**
    `i > len(lines) * 0.92`, stated on integers.  The double nearest 0.92 lies
    above 0.92, so for every line count a document can have the float test and
    this one agree.
   */
  predicate InFootnoteZone(i: nat, n: nat) {
    100 * i > 92 * n
  }

  /** A line that starts the footnotes once it lies in the zone. */
  predicate IsFootnoteLine(line: string) {
    || Strip(line) == "Footnotes" || Strip(line) == "References"
    || Contains(Lower(line), "table of contents")
    || Contains(line, "Previous chapter") || Contains(line, "Next chapter")
  }

  /** The line that ends the early-release skip: not blank and over 150 characters before stripping. */
  predicate EndsSkip(line: string) {
    Strip(line) != "" && |line| > 150
  }

  /** A line that is never kept, whatever the state. */
  predicate IsChrome(line: string) {
    Contains(line, Chapters.SkipMarker) || Contains(line, Chapters.NoteMarker)
  }

  datatype CleanState = CleanState(kept: seq<string>, skip: bool, footer: bool)

  /** What the loop body does with line `i` of `n`. */
  function CleanStep(st: CleanState, i: nat, n: nat, line: string): CleanState {
    if Contains(line, Chapters.SkipMarker) then st
    else if Contains(line, Chapters.NoteMarker) then st.(skip := true)
    else if st.skip && !EndsSkip(line) then st
    else if st.footer || (InFootnoteZone(i, n) && IsFootnoteLine(line)) then CleanState(st.kept, false, true)
    else CleanState(st.kept + [Substitutions.RemoveCitations(line, false)], false, false)
  }

  /** The loop's state after the first `k` lines. */
  function CleanRun(lines: seq<string>, k: nat): CleanState
    requires k <= |lines|
  {
    if k == 0 then CleanState([], false, false)
    else CleanStep(CleanRun(lines, k - 1), k - 1, |lines|, lines[k - 1])
  }

  function CleanLines(lines: seq<string>): seq<string> {
    CleanRun(lines, |lines|).kept
  }

  method CleanAndTransform(content: string) returns (r: string)
    ensures r == Join(CleanLines(Split(content)))
  {
    var lines := Split(content);
    var result: seq<string> := [];
    var skip := false;
    var footer := false;
    for i := 0 to |lines|
      invariant CleanRun(lines, i) == CleanState(result, skip, footer)
    {
      var line := lines[i];
      ghost var next := CleanStep(CleanState(result, skip, footer), i, |lines|, line);
      assert CleanRun(lines, i + 1) == next;
      if Contains(line, Chapters.SkipMarker) {
        continue;
      }
      if Contains(line, Chapters.NoteMarker) {
        skip := true;
        continue;
      }
      if skip {
        if Strip(line) != "" && |line| > 150 {
          skip := false;
        } else {
          assert next == CleanState(result, skip, footer);
          continue;
        }
      }
      if InFootnoteZone(i, |lines|) && IsFootnoteLine(line) {
        footer := true;
      }
      if footer {
        assert next == CleanState(result, false, true);
        continue;
      }
      line := Substitutions.RemoveCitations(line, false);
      result := result + [line];
      assert next == CleanState(result, false, false);
    }
    r := Join(result);
  }

  /** Each kept line is a chrome-free input line with its citation markers removed, in input order. */
  predicate DrawnFrom(idx: seq<nat>, kept: seq<string>, lines: seq<string>) {
    && |idx| == |kept|
    && (forall j | 0 <= j < |kept| ::
          && idx[j] < |lines| && !IsChrome(lines[idx[j]])
          && kept[j] == Substitutions.RemoveCitations(lines[idx[j]], false))
    && (forall j, l | 0 <= j < l < |kept| :: idx[j] < idx[l])
  }

  /** `idx` says which input line each kept line came from. */
  lemma {:induction false} CleanSources(lines: seq<string>, k: nat) returns (idx: seq<nat>)
    requires k <= |lines|
    ensures DrawnFrom(idx, CleanRun(lines, k).kept, lines)
    ensures forall j | 0 <= j < |idx| :: idx[j] < k
  {
    if k == 0 {
      idx := [];
    } else {
      idx := CleanSources(lines, k - 1);
      var before, after := CleanRun(lines, k - 1).kept, CleanRun(lines, k).kept;
      if after != before {
        idx := idx + [k - 1];
      }
    }
  }

  /** The footer latch only switches on at a footnote line in the zone. */
  lemma {:induction false} FooterOnlyInZone(lines: seq<string>, k: nat)
    requires k <= |lines|
    ensures CleanRun(lines, k).footer ==>
      exists t | 0 <= t < k :: InFootnoteZone(t, |lines|) && IsFootnoteLine(lines[t])
  {
    if k > 0 {
      FooterOnlyInZone(lines, k - 1);
    }
  }

  /** A footnote line in the zone, reached outside the skip, switches the latch on and is dropped. */
  lemma FooterStarts(lines: seq<string>, t: nat)
    requires t < |lines| && !IsChrome(lines[t]) && !CleanRun(lines, t).skip
    requires InFootnoteZone(t, |lines|) && IsFootnoteLine(lines[t])
    ensures CleanRun(lines, t + 1).footer && CleanRun(lines, t + 1).kept == CleanRun(lines, t).kept
  {
  }

  /** Once the latch is on it stays on, and nothing more is kept. */
  lemma {:induction false} FooterDropsRest(lines: seq<string>, t: nat, k: nat)
    requires t <= k <= |lines| && CleanRun(lines, t).footer
    ensures CleanRun(lines, k).footer
    ensures CleanRun(lines, k).kept == CleanRun(lines, t).kept
    decreases k
  {
    if k > t {
      FooterDropsRest(lines, t, k - 1);
    }
  }

  /** After the early-release marker, every line that does not end the skip is dropped. */
  lemma {:induction false} NoteSuppresses(lines: seq<string>, m: nat, j: nat)
    requires m < j <= |lines|
    requires Contains(lines[m], Chapters.NoteMarker) && !Contains(lines[m], Chapters.SkipMarker)
    requires forall t | m < t < j :: !EndsSkip(lines[t])
    ensures CleanRun(lines, j).skip
    ensures CleanRun(lines, j).kept == CleanRun(lines, m).kept
    decreases j
  {
    if j - 1 > m {
      NoteSuppresses(lines, m, j - 1);
    }
  }

  /** The first non-blank line over 150 characters ends the skip and is kept (cleaned), unless the footer is on. */
  lemma NoteEndsAtLongLine(lines: seq<string>, j: nat)
    requires j < |lines| && CleanRun(lines, j).skip && !IsChrome(lines[j])
    requires EndsSkip(lines[j]) && !CleanRun(lines, j + 1).footer
    ensures !CleanRun(lines, j + 1).skip
    ensures CleanRun(lines, j + 1).kept == CleanRun(lines, j).kept + [Substitutions.RemoveCitations(lines[j], false)]
  {
  }

  // ---------------------------------------------------------------------------
  // number_headers

  /**
    `re.match(r'^#{h}\s+[^#]', line)`, with `hashes` the `#{h}`: the marker,
    whitespace, then a character other than `#`.  A run of two or more
    whitespace characters is enough on its own, since `\s+` can give its last
    character to `[^#]`.
   */
  predicate MarkedAt(line: string, hashes: string) {
    StartsWith(line, hashes)
    && (var w := SkipSpaces(line, |hashes|);
        w > |hashes| + 1 || (w == |hashes| + 1 && w < |line| && line[w] != '#'))
  }

  /** `re.match(r'^#{h}\s+', line)`. */
  predicate SpacedAt(line: string, hashes: string) {
    StartsWith(line, hashes) && SkipSpaces(line, |hashes|) > |hashes|
  }

  /** The branch number_headers takes for a line: 2, 3 or 4 for a heading it numbers, 0 for a line it copies. */
  function LevelOf(line: string): (lv: nat)
    ensures lv == 0 || lv == 2 || lv == 3 || lv == 4
    ensures lv != 0 ==> SpacedAt(line, Chapters.Hashes(lv))
    ensures lv == 0 <==> !MarkedAt(line, "##") && !MarkedAt(line, "###") && !SpacedAt(line, "####")
  {
    ChapterLineUnmarked(line);
    if StartsWith(line, "# Chapter") then 0
    else if MarkedAt(line, "##") then 2
    else if MarkedAt(line, "###") then 3
    else if SpacedAt(line, "####") then 4
    else 0
  }

  /** A `# Chapter` line matches none of the heading patterns, so the explicit test for it never changes the outcome. */
  lemma ChapterLineUnmarked(line: string)
    ensures StartsWith(line, "# Chapter") ==> !SpacedAt(line, "##") && !SpacedAt(line, "###") && !SpacedAt(line, "####")
  {
    if StartsWith(line, "# Chapter") {
      assert line[..9][1] == ' ';
      assert |line| < 2 || line[..2][1] == line[1];
    }
  }

  /** At most one of the three heading patterns matches a line: the order of the `elif` chain does not matter. */
  lemma MarkersExclusive(line: string)
    ensures !(SpacedAt(line, "##") && SpacedAt(line, "###"))
    ensures !(SpacedAt(line, "##") && SpacedAt(line, "####"))
    ensures !(SpacedAt(line, "###") && SpacedAt(line, "####"))
  {
    if SpacedAt(line, "###") {
      assert line[..3][2] == '#';
      DeeperUnspaced(line, "##");
    }
    if SpacedAt(line, "####") {
      assert line[..4][2] == '#' && line[..4][3] == '#';
      DeeperUnspaced(line, "##");
      DeeperUnspaced(line, "###");
    }
  }

  /** A marker followed by one more `#` is not followed by whitespace. */
  lemma DeeperUnspaced(line: string, hashes: string)
    requires |hashes| < |line| && line[|hashes|] == '#'
    ensures SkipSpaces(line, |hashes|) == |hashes|
    ensures !SpacedAt(line, hashes) && !MarkedAt(line, hashes)
  {
  }

  /** `re.sub(r'^#{h}\s+', '', line).strip()`: the title of a heading the branch for `hashes` numbers. */
  function MarkedTitle(line: string, hashes: string): (t: string)
    requires StartsWith(line, hashes)
    ensures t == [] || (!IsSpace(t[0]) && !IsSpace(t[|t| - 1]))
  {
    Strip(line[SkipSpaces(line, |hashes|)..])
  }

  /** One line of number_headers: the emitted line and the counters after it. */
  function NumberLine(line: string, c: Chapters.Counters): (string, Chapters.Counters) {
    var lv := LevelOf(line);
    if lv == 0 then (line, c)
    else
      var h, d := Chapters.Hashes(lv), Chapters.Bump(c, lv);
      (Rendered(h, Chapters.Label(d, lv), MarkedTitle(line, h)), d)
  }

  /** The emitted lines and the counters after the first `k` lines. */
  function NumberRun(lines: seq<string>, k: nat): (r: (seq<string>, Chapters.Counters))
    requires k <= |lines|
    ensures |r.0| == k
  {
    Scan(NumberLine, Chapters.Counters(0, 0, 0), lines, k)
  }

  function NumberLines(lines: seq<string>): seq<string> {
    NumberRun(lines, |lines|).0
  }

  method NumberHeaders(content: string) returns (r: string)
    ensures r == Join(NumberLines(Split(content)))
  {
    var lines := Split(content);
    var result: seq<string> := [];
    var h2, h3, h4 := 0, 0, 0;
    for i := 0 to |lines|
      invariant NumberRun(lines, i) == (result, Chapters.Counters(h2, h3, h4))
    {
      ghost var prev := (result, Chapters.Counters(h2, h3, h4));
      var out;
      out, h2, h3, h4 := NumberOne(lines[i], h2, h3, h4);
      result := result + [out];
      assert NumberRun(lines, i + 1) == (prev.0 + [NumberLine(lines[i], prev.1).0], NumberLine(lines[i], prev.1).1);
    }
    r := Join(result);
  }

  /** The body of number_headers' loop for one line: the line it appends and the new counters. */
  method NumberOne(line: string, h2: nat, h3: nat, h4: nat) returns (out: string, k2: nat, k3: nat, k4: nat)
    ensures (out, Chapters.Counters(k2, k3, k4)) == NumberLine(line, Chapters.Counters(h2, h3, h4))
  {
    k2, k3, k4 := h2, h3, h4;
    out := line;
    if StartsWith(line, "# Chapter") {
      NumberLineCopy(line, h2, h3, h4);
      return;
    }
    if MarkedAt(line, "##") {
      NumberLineTwo(line, h2, h3, h4);
      k2, k3, k4 := k2 + 1, 0, 0;
      var title := MarkedTitle(line, "##");
      out := Rendered("##", [NatToString(k2)], title);
    } else if MarkedAt(line, "###") {
      NumberLineThree(line, h2, h3, h4);
      k3, k4 := k3 + 1, 0;
      var title := MarkedTitle(line, "###");
      out := Rendered("###", [NatToString(k2), NatToString(k3)], title);
    } else if SpacedAt(line, "####") {
      NumberLineFour(line, h2, h3, h4);
      k4 := k4 + 1;
      var title := MarkedTitle(line, "####");
      out := Rendered("####", [NatToString(k2), NatToString(k3), NatToString(k4)], title);
    } else {
      NumberLineCopy(line, h2, h3, h4);
    }
  }

  /** A line number_headers does not number is copied with the counters as they were. */
  lemma NumberLineCopy(line: string, h2: nat, h3: nat, h4: nat)
    requires StartsWith(line, "# Chapter") || (!MarkedAt(line, "##") && !MarkedAt(line, "###") && !SpacedAt(line, "####"))
    ensures NumberLine(line, Chapters.Counters(h2, h3, h4)) == (line, Chapters.Counters(h2, h3, h4))
  {
    assert LevelOf(line) == 0;
  }

  /** A `##` heading: the first counter goes up and the others restart. */
  lemma NumberLineTwo(line: string, h2: nat, h3: nat, h4: nat)
    requires !StartsWith(line, "# Chapter") && MarkedAt(line, "##")
    ensures NumberLine(line, Chapters.Counters(h2, h3, h4))
         == (Rendered("##", [NatToString(h2 + 1)], MarkedTitle(line, "##")), Chapters.Counters(h2 + 1, 0, 0))
  {
    assert LevelOf(line) == 2;
    assert Chapters.Bump(Chapters.Counters(h2, h3, h4), 2) == Chapters.Counters(h2 + 1, 0, 0);
    assert Chapters.Label(Chapters.Counters(h2 + 1, 0, 0), 2) == [NatToString(h2 + 1)];
  }

  /** A `###` heading: the second counter goes up and the third restarts. */
  lemma NumberLineThree(line: string, h2: nat, h3: nat, h4: nat)
    requires !StartsWith(line, "# Chapter") && !MarkedAt(line, "##") && MarkedAt(line, "###")
    ensures NumberLine(line, Chapters.Counters(h2, h3, h4))
         == (Rendered("###", [NatToString(h2), NatToString(h3 + 1)], MarkedTitle(line, "###")), Chapters.Counters(h2, h3 + 1, 0))
  {
    assert LevelOf(line) == 3;
    assert Chapters.Bump(Chapters.Counters(h2, h3, h4), 3) == Chapters.Counters(h2, h3 + 1, 0);
    assert Chapters.Label(Chapters.Counters(h2, h3 + 1, 0), 3) == [NatToString(h2), NatToString(h3 + 1)];
  }

  /** A `####` heading: the third counter goes up. */
  lemma NumberLineFour(line: string, h2: nat, h3: nat, h4: nat)
    requires !StartsWith(line, "# Chapter") && !MarkedAt(line, "##") && !MarkedAt(line, "###") && SpacedAt(line, "####")
    ensures NumberLine(line, Chapters.Counters(h2, h3, h4))
         == (Rendered("####", [NatToString(h2), NatToString(h3), NatToString(h4 + 1)], MarkedTitle(line, "####")), Chapters.Counters(h2, h3, h4 + 1))
  {
    assert LevelOf(line) == 4;
    assert Chapters.Bump(Chapters.Counters(h2, h3, h4), 4) == Chapters.Counters(h2, h3, h4 + 1);
    assert Chapters.Label(Chapters.Counters(h2, h3, h4 + 1), 4) == [NatToString(h2), NatToString(h3), NatToString(h4 + 1)];
  }

  /** Output line `j` of number_headers is input line `j` numbered under the counters before it. */
  lemma NumberLinesAt(lines: seq<string>, j: nat)
    requires j < |lines|
    ensures |NumberLines(lines)| == |lines|
    ensures NumberLines(lines)[j] == NumberLine(lines[j], NumberRun(lines, j).1).0
  {
    ScanAt(NumberLine, Chapters.Counters(0, 0, 0), lines, |lines|, j);
  }

  /** Lines that are not headings are copied unchanged. */
  lemma NumberingPassThrough(lines: seq<string>, j: nat)
    requires j < |lines| && LevelOf(lines[j]) == 0
    ensures |NumberLines(lines)| == |lines| && NumberLines(lines)[j] == lines[j]
  {
    NumberLinesAt(lines, j);
  }

  lemma NumberRunStep(lines: seq<string>, k: nat)
    requires 0 < k <= |lines|
    ensures var prev := NumberRun(lines, k - 1);
      NumberRun(lines, k) == (prev.0 + [NumberLine(lines[k - 1], prev.1).0], NumberLine(lines[k - 1], prev.1).1)
  {
  }

  lemma NumberRunCounters(lines: seq<string>, k: nat)
    requires 0 < k <= |lines|
    ensures NumberRun(lines, k).1 == Chapters.Bump(NumberRun(lines, k - 1).1, LevelOf(lines[k - 1]))
  {
    NumberRunStep(lines, k);
  }

  /** The branch number_headers takes on each line, line by line. */
  function Levels(lines: seq<string>): (lvs: seq<nat>)
    ensures |lvs| == |lines|
    ensures forall j | 0 <= j < |lines| :: lvs[j] == LevelOf(lines[j])
  {
    seq(|lines|, i requires 0 <= i < |lines| => LevelOf(lines[i]))
  }

  /**
    After `k` lines, h2_num counts the `##` headings so far, h3_num the `###`
    headings since the last `##`, and h4_num the `####` headings since the
    last `##` or `###`.
   */
  lemma {:induction false} CountersCount(lines: seq<string>, k: nat)
    requires k <= |lines|
    ensures NumberRun(lines, k).1 == Chapters.Counts(Levels(lines), k)
  {
    if k > 0 {
      CountersCount(lines, k - 1);
      NumberRunCounters(lines, k);
      Chapters.CountsStep(Levels(lines), k);
    }
  }

  /** A numbered heading's label is read off the counters right after it. */
  lemma NumberedHeading(lines: seq<string>, j: nat)
    requires j < |lines| && LevelOf(lines[j]) != 0
    ensures var lv := LevelOf(lines[j]);
      NumberLines(lines)[j]
      == Rendered(Chapters.Hashes(lv), Chapters.Label(NumberRun(lines, j + 1).1, lv), MarkedTitle(lines[j], Chapters.Hashes(lv)))
  {
    NumberLinesAt(lines, j);
    NumberRunStep(lines, j + 1);
  }

  /**
    number_headers does not look for a label already there: a heading it
    wrote gets a second label in front of the first, which stays in the title.
   */
  lemma NumberingStacks(lv: nat, nums: seq<string>, title: string, c: Chapters.Counters)
    requires 2 <= lv <= 4 && IsLabel(nums) && |nums| > 0
    requires title != [] && !IsSpace(title[0]) && !IsSpace(title[|title| - 1])
    ensures var h, d := Chapters.Hashes(lv), Chapters.Bump(c, lv);
      NumberLine(Rendered(h, nums, title), c).0 == Rendered(h, Chapters.Label(d, lv), Dotted(nums) + " " + title)
  {
    var h, d := Chapters.Hashes(lv), Chapters.Bump(c, lv);
    var line := Rendered(h, nums, title);
    RenderedLevelOf(lv, nums, title);
    RenderedMarkedTitle(h, nums, title);
  }

  /** A heading number_headers wrote takes the same branch when read again. */
  lemma RenderedLevelOf(lv: nat, nums: seq<string>, title: string)
    requires 2 <= lv <= 4 && IsLabel(nums) && |nums| > 0
    ensures LevelOf(Rendered(Chapters.Hashes(lv), nums, title)) == lv
  {
    var h := Chapters.Hashes(lv);
    var line := Rendered(h, nums, title);
    RenderedLayout(h, nums, title);
    DottedShape(nums);
    SkipOneSpace(line, lv);
    assert line[..lv] == h;
    assert line[lv + 1] == Dotted(nums)[0];
    if lv >= 3 {
      assert line[..lv][2] == '#';
      DeeperUnspaced(line, "##");
    }
    if lv == 4 {
      assert line[..lv][3] == '#';
      DeeperUnspaced(line, "###");
    }
    ChapterLineUnmarked(line);
  }

  /** The title number_headers reads off a heading it wrote still carries the old label. */
  lemma RenderedMarkedTitle(hashes: string, nums: seq<string>, title: string)
    requires |hashes| > 0 && IsLabel(nums) && |nums| > 0
    requires title != [] && !IsSpace(title[0]) && !IsSpace(title[|title| - 1])
    ensures StartsWith(Rendered(hashes, nums, title), hashes)
    ensures MarkedTitle(Rendered(hashes, nums, title), hashes) == Dotted(nums) + " " + title
  {
    RenderedSpaceAfterHashes(hashes, nums, title);
    RenderedAfterSpace(hashes, nums, title);
    LabelledTitleStripped(nums, title);
  }

  lemma RenderedAfterSpace(hashes: string, nums: seq<string>, title: string)
    ensures |hashes| + 1 <= |Rendered(hashes, nums, title)|
    ensures Rendered(hashes, nums, title)[|hashes| + 1..] == Dotted(nums) + " " + title
  {
    assert Rendered(hashes, nums, title) == (hashes + " ") + (Dotted(nums) + " " + title);
  }

  /** A label, a space and a stripped title are left alone by `strip()`. */
  lemma LabelledTitleStripped(nums: seq<string>, title: string)
    requires IsLabel(nums) && |nums| > 0
    requires title != [] && !IsSpace(title[0]) && !IsSpace(title[|title| - 1])
    ensures Strip(Dotted(nums) + " " + title) == Dotted(nums) + " " + title
  {
    var d := Dotted(nums);
    var rest := d + " " + title;
    DottedShape(nums);
    assert rest[0] == d[0] && rest[|rest| - 1] == title[|title| - 1];
    StripNoOp(rest);
  }

  // ---------------------------------------------------------------------------
  // generate_toc

  /** `\s+(.+)$` at the start of `s`, a line without '\n': the group, after greedy `\s+` gives back one character if it must. */
  function SpacedGroup(s: string): (r: Option<string>)
    ensures r.Some? <==> |s| >= 2 && IsSpace(s[0])
    ensures r.Some? ==> 0 < |r.value| < |s| && r.value == s[|s| - |r.value|..]
  {
    var w := SkipSpaces(s, 0);
    if w == 0 then None
    else if w < |s| then Some(s[w..])
    else if w >= 2 then Some(s[|s| - 1..])
    else None
  }

  /** The groups of `^#{h}\s+(\d+)\.(\d+)\.…\s+(.+)$`: the labels and the title. */
  function ParseNumbered(line: string, hashes: string, g: nat): (r: Option<(seq<string>, string)>)
    requires |hashes| > 0
    ensures r.Some? ==> SpacedAt(line, hashes) && |r.value.0| == g && |r.value.1| > 0
  {
    if !StartsWith(line, hashes) then None
    else
      var w := SkipSpaces(line, |hashes|);
      if w == |hashes| then None
      else
        match DottedAt(line, w, g)
        case None => None
        case Some(p) =>
          match SpacedGroup(line[p.1..])
          case None => None
          case Some(t) => Some((p.0, t))
  }

  /** generate_toc's anchor: the labels run together, a hyphen, the title lower-cased with spaces as hyphens, then `[^\w-]` dropped. */
  function Anchor(nums: seq<string>, title: string): string {
    KeepWordAndHyphen(Concat(nums) + "-" + SpacesToHyphens(Lower(title)))
  }

  /** A TOC line as generate_toc writes it: `{indent}{N.M.} [{title}](#{anchor})`. */
  function TocText(indent: string, nums: seq<string>, title: string): string {
    indent + Dotted(nums) + " [" + title + "](#" + Anchor(nums, title) + ")"
  }

  /** The TOC line one of generate_toc's two patterns yields for a line, if it matches. */
  function EntryOf(line: string, hashes: string, g: nat, indent: string): Option<string>
    requires |hashes| > 0
  {
    match ParseNumbered(line, hashes, g)
    case None => None
    case Some(p) => Some(TocText(indent, p.0, p.1))
  }

  /** The TOC lines generate_toc appends for one line: from the `##` pattern, then from the `###` pattern. */
  function TocLines(line: string): seq<string> {
    OptionList(EntryOf(line, "##", 1, "")) + OptionList(EntryOf(line, "###", 2, "   - "))
  }

  /** The table after the first `k` lines. */
  function TocRun(lines: seq<string>, k: nat): seq<string>
    requires k <= |lines|
  {
    if k == 0 then [] else TocRun(lines, k - 1) + TocLines(lines[k - 1])
  }

  method GenerateToc(content: string) returns (r: string)
    ensures r == Join(TocRun(Split(content), |Split(content)|))
  {
    var lines := Split(content);
    var toc: seq<string> := [];
    for i := 0 to |lines|
      invariant toc == TocRun(lines, i)
    {
      var found := TocLinesFor(lines[i]);
      toc := toc + found;
    }
    r := Join(toc);
  }

  /** The body of generate_toc's loop for one line: the TOC lines it appends. */
  method TocLinesFor(line: string) returns (found: seq<string>)
    ensures found == TocLines(line)
  {
    found := [];
    var m := ParseNumbered(line, "##", 1);
    if m.Some? {
      found := found + [TocText("", m.value.0, m.value.1)];
    }
    var m3 := ParseNumbered(line, "###", 2);
    if m3.Some? {
      found := found + [TocText("   - ", m3.value.0, m3.value.1)];
    }
  }

  /** The two patterns never both match: each line adds at most one TOC line. */
  lemma AtMostOneEntry(line: string)
    ensures |TocLines(line)| <= 1
  {
    MarkersExclusive(line);
  }

  /** Lines that start with `####` add nothing: generate_toc lists `##` and `###` headings only. */
  lemma DeepHeadingsUnlisted(line: string)
    requires StartsWith(line, "####")
    ensures TocLines(line) == []
  {
    MarkersExclusive(line);
    assert line[..4][2] == '#' && line[..4][3] == '#';
    DeeperUnspaced(line, "##");
    DeeperUnspaced(line, "###");
  }

  /** The labels a written-out label list runs together to, `[^\w-]` keeps whole. */
  lemma {:induction false} KeepLabel(nums: seq<string>)
    requires IsLabel(nums)
    ensures KeepWordAndHyphen(Concat(nums)) == Concat(nums)
    decreases |nums|
  {
    if nums != [] {
      LabelTail(nums);
      KeepLabel(nums[1..]);
      KeepDigits(nums[0]);
      KeepConcat(nums[0], Concat(nums[1..]));
    }
  }

  lemma {:induction false} KeepDigits(s: string)
    requires AllDigits(s)
    ensures KeepWordAndHyphen(s) == s
    decreases |s|
  {
    if s != [] {
      assert AllDigits(s[1..]) by {
        forall i | 0 <= i < |s| - 1 ensures IsDigit(s[1..][i]) {
          assert s[1..][i] == s[i + 1];
        }
      }
      KeepDigits(s[1..]);
      assert IsDigit(s[0]);
    }
  }

  /**
    generate_toc's anchor is the `{NM}-{slug}` anchor of transform_chapters'
    create_toc, so both write the same TOC line for the same heading.
   */
  lemma SameEntryText(indent: string, nums: seq<string>, title: string)
    requires IsLabel(nums)
    ensures Anchor(nums, title) == Concat(nums) + "-" + Slug(title)
    ensures TocText(indent, nums, title) == EntryText(indent, nums, title)
  {
    var h := SpacesToHyphens(Lower(title));
    KeepConcat(Concat(nums) + "-", h);
    KeepConcat(Concat(nums), "-");
    KeepOne('-');
    KeepLabel(nums);
    SlugIsFilter(title);
  }

  // generate_toc on number_headers' output

  /** The TOC line generate_toc makes of `line` once number_headers has numbered it, `d` being the counters after it. */
  function EntryOfNumbered(line: string, d: Chapters.Counters): (e: Option<string>)
    ensures e.Some? ==> LevelOf(line) == 2 || LevelOf(line) == 3
  {
    var lv := LevelOf(line);
    if lv != 2 && lv != 3 then None
    else
      var title := MarkedTitle(line, Chapters.Hashes(lv));
      if title == [] then None
      else Some(EntryText(Chapters.Indent(lv), Chapters.Label(d, lv), title))
  }

  /**
    generate_toc reads back, from a line number_headers wrote, the entry of a
    `##` or `###` heading with a non-empty title, and nothing from any other line.
   */
  lemma TocLinesOfNumbered(line: string, c: Chapters.Counters)
    ensures TocLines(NumberLine(line, c).0) == OptionList(EntryOfNumbered(line, Chapters.Bump(c, LevelOf(line))))
  {
    var lv := LevelOf(line);
    if lv == 0 {
      ParsedMarked(line, "##", 1);
      ParsedMarked(line, "###", 2);
    } else {
      var h, d := Chapters.Hashes(lv), Chapters.Bump(c, lv);
      var nums, title := Chapters.Label(d, lv), MarkedTitle(line, h);
      assert NumberLine(line, c).0 == Rendered(h, nums, title);
      RenderedListed(lv, nums, title);
    }
  }

  /** What generate_toc lists for a heading written at level `lv`: its entry for `##` and `###` with a title, nothing otherwise. */
  lemma RenderedListed(lv: nat, nums: seq<string>, title: string)
    requires 2 <= lv <= 4 && IsLabel(nums) && |nums| == lv - 1
    requires title == [] || !IsSpace(title[0])
    ensures TocLines(Rendered(Chapters.Hashes(lv), nums, title))
         == if lv == 4 || title == [] then [] else [EntryText(Chapters.Indent(lv), nums, title)]
  {
    if lv == 2 {
      ListedTwo(nums, title);
    } else if lv == 3 {
      ListedThree(nums, title);
    } else {
      RenderedLayout("####", nums, title);
      assert Rendered("####", nums, title)[..4] == "####";
      DeepHeadingsUnlisted(Rendered("####", nums, title));
    }
  }

  lemma ListedTwo(nums: seq<string>, title: string)
    requires IsLabel(nums) && |nums| == 1
    requires title == [] || !IsSpace(title[0])
    ensures TocLines(Rendered("##", nums, title)) == if title == [] then [] else [EntryText("", nums, title)]
  {
    var out := Rendered("##", nums, title);
    RenderedLayout("##", nums, title);
    ParseNumberedRendered("##", nums, title);
    SameEntryText("", nums, title);
    assert out[2] == ' ';
    assert !StartsWith(out, "###");
  }

  lemma ListedThree(nums: seq<string>, title: string)
    requires IsLabel(nums) && |nums| == 2
    requires title == [] || !IsSpace(title[0])
    ensures TocLines(Rendered("###", nums, title)) == if title == [] then [] else [EntryText("   - ", nums, title)]
  {
    var out := Rendered("###", nums, title);
    RenderedLayout("###", nums, title);
    ParseNumberedRendered("###", nums, title);
    SameEntryText("   - ", nums, title);
    assert out[..3] == "###";
    DeeperUnspaced(out, "##");
  }

  /** A line one of generate_toc's patterns matches also matches number_headers' pattern for the same marker. */
  lemma ParsedMarked(line: string, hashes: string, g: nat)
    requires |hashes| > 0 && g > 0
    ensures ParseNumbered(line, hashes, g).Some? ==> MarkedAt(line, hashes)
  {
    if ParseNumbered(line, hashes, g).Some? {
      var w := SkipSpaces(line, |hashes|);
      assert DottedAt(line, w, g).Some?;
      assert SkipDigits(line, w) != w;
      assert IsDigit(line[w]);
    }
  }

  /** generate_toc's pattern reads a heading number_headers wrote back: its labels and its title, when the title is not empty. */
  lemma ParseNumberedRendered(hashes: string, nums: seq<string>, title: string)
    requires |hashes| > 0 && IsLabel(nums) && |nums| > 0
    requires title == [] || !IsSpace(title[0])
    ensures ParseNumbered(Rendered(hashes, nums, title), hashes, |nums|) == if title == [] then None else Some((nums, title))
  {
    var line := Rendered(hashes, nums, title);
    var p := |hashes| + 1 + |Dotted(nums)|;
    RenderedSpaceAfterHashes(hashes, nums, title);
    RenderedLabelRead(hashes, nums, title);
    RenderedLayout(hashes, nums, title);
    SpacedGroupAfterSpace(title);
    assert line[p..] == " " + title;
  }

  /** `\s+(.+)$` after the single space that follows a written label. */
  lemma SpacedGroupAfterSpace(title: string)
    requires title == [] || !IsSpace(title[0])
    ensures SpacedGroup(" " + title) == if title == [] then None else Some(title)
  {
    var s := " " + title;
    if title != [] {
      assert s[1] == title[0];
      assert s[1..] == title;
      SkipOneSpace(s, 0);
    } else {
      assert s == " ";
      assert SkipSpaces(" ", 0) == 1;
    }
  }

  /** The TOC line each line gets once numbered, line by line. */
  function NumberedEntries(lines: seq<string>): (es: seq<Option<string>>)
    ensures |es| == |lines|
    ensures forall j | 0 <= j < |lines| :: es[j] == EntryOfNumbered(lines[j], NumberRun(lines, j + 1).1)
  {
    seq(|lines|, j requires 0 <= j < |lines| => EntryOfNumbered(lines[j], NumberRun(lines, j + 1).1))
  }

  /**
    generate_toc run on number_headers' output lists every `##` and `###`
    heading with a non-empty title once, in document order, with the label it
    was given.
   */
  lemma TocOfNumbered(lines: seq<string>, k: nat)
    requires k <= |lines|
    ensures TocRun(NumberLines(lines), k) == Values(NumberedEntries(lines)[..k])
  {
    TocLinesAt(lines);
    TocRunValues(NumberLines(lines), NumberedEntries(lines), k);
  }

  /** Every numbered line yields the TOC line it was numbered for. */
  lemma TocLinesAt(lines: seq<string>)
    ensures |NumberLines(lines)| == |lines|
    ensures forall j | 0 <= j < |lines| :: TocLines(NumberLines(lines)[j]) == OptionList(NumberedEntries(lines)[j])
  {
    forall j | 0 <= j < |lines|
      ensures TocLines(NumberLines(lines)[j]) == OptionList(NumberedEntries(lines)[j])
    {
      TocLinesAtOne(lines, j);
    }
  }

  lemma TocLinesAtOne(lines: seq<string>, j: nat)
    requires j < |lines|
    ensures |NumberLines(lines)| == |lines|
    ensures TocLines(NumberLines(lines)[j]) == OptionList(NumberedEntries(lines)[j])
  {
    var c := NumberRun(lines, j).1;
    NumberLinesAt(lines, j);
    NumberRunCounters(lines, j + 1);
    TocLinesOfNumbered(lines[j], c);
  }

  /** generate_toc's table is the list of the TOC lines its lines yield. */
  lemma {:induction false} TocRunValues(lines: seq<string>, es: seq<Option<string>>, k: nat)
    requires |es| == |lines| && k <= |lines|
    requires forall j | 0 <= j < |lines| :: TocLines(lines[j]) == OptionList(es[j])
    ensures TocRun(lines, k) == Values(es[..k])
  {
    if k > 0 {
      TocRunValues(lines, es, k - 1);
      ValuesSnoc(es, k);
    }
  }
}
