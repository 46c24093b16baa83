/**
  transform_part3.py: the transformer for the Part III chapters.  Its
  reference-marker removal, insert_toc, fallback TOC placement,
  add_frontmatter and add_navigation are the same code as in
  transform_chapters.py and are taken from module Chapters.  What differs is
  clean_content (the skipped early-release section ends at a chapter opening,
  and chrome lines are dropped wherever they appear), the set of `##`
  headings add_toc_numbering leaves unnumbered, and create_toc, which lists
  only `##` and `###` headings.
 */
module Part3 {
  import opened Text
  import opened Headings
  import Chapters

  // ---------------------------------------------------------------------------
  // clean_content

  /** Lower-cased keywords of the chrome lines clean_content drops wherever they appear. */
  const ChromeWords: seq<string> := ["table of contents", "## search", "settings"]

  /** The prefixes of the line that ends the skipped early-release section. */
  const SkipEnders: seq<string> := ["# Chapter", "In Chapter", "In this"]

  /** A line that starts with one of SkipEnders. */
  predicate EndsSkip(line: string) {
    exists k | 0 <= k < |SkipEnders| :: StartsWith(line, SkipEnders[k])
  }

  /** A line whose lower-cased text mentions a chrome keyword. */
  predicate IsChrome(line: string) {
    Chapters.ContainsAny(Lower(line), ChromeWords)
  }

  /** The one chrome line that is kept: the TOC heading itself. */
  predicate IsTocHeadingLine(line: string) {
    Strip(line) == Chapters.TocHeading
  }

  datatype CleanState = CleanState(kept: seq<string>, skip: bool)

  /** What the loop body does with one line. */
  function CleanStep(st: CleanState, line: string): CleanState {
    if Contains(line, Chapters.SkipMarker) then st
    else if Contains(line, Chapters.NoteMarker) then st.(skip := true)
    else
      var skip := if st.skip && EndsSkip(line) then false else st.skip;
      if IsChrome(line) then
        CleanState(if IsTocHeadingLine(line) then st.kept + [line] else st.kept, skip)
      else
        CleanState(if skip then st.kept else st.kept + [line], skip)
  }

  /** The loop's state after the first `k` lines. */
  function CleanRun(lines: seq<string>, k: nat): CleanState
    requires k <= |lines|
  {
    if k == 0 then CleanState([], false)
    else CleanStep(CleanRun(lines, k - 1), lines[k - 1])
  }

  /** The lines clean_content keeps, before reference markers are removed. */
  function CleanLines(lines: seq<string>): seq<string> {
    CleanRun(lines, |lines|).kept
  }

  method CleanContent(text: string) returns (r: string)
    ensures r == Chapters.RemoveReferenceNumbers(Join(CleanLines(Split(text))))
  {
    var lines := Split(text);
    var cleaned: seq<string> := [];
    var skip := false;
    for i := 0 to |lines|
      invariant CleanRun(lines, i) == CleanState(cleaned, skip)
    {
      var line := lines[i];
      assert CleanRun(lines, i + 1) == CleanStep(CleanState(cleaned, skip), line);
      if Contains(line, Chapters.SkipMarker) {
        continue;
      }
      if Contains(line, Chapters.NoteMarker) {
        skip := true;
        continue;
      }
      if skip && EndsSkip(line) {
        skip := false;
      }
      if IsChrome(line) {
        if IsTocHeadingLine(line) {
          cleaned := cleaned + [line];
        }
        continue;
      }
      if !skip {
        cleaned := cleaned + [line];
      }
    }
    r := Chapters.RemoveReferenceNumbers(Join(cleaned));
  }

  /** No kept line carries a chrome marker, and the only chrome line that can be kept is the TOC heading. */
  lemma {:induction false} CleanDropsChrome(lines: seq<string>, k: nat)
    requires k <= |lines|
    ensures forall j | 0 <= j < |CleanRun(lines, k).kept| ::
      var line := CleanRun(lines, k).kept[j];
      && !Contains(line, Chapters.SkipMarker) && !Contains(line, Chapters.NoteMarker)
      && (IsChrome(line) ==> IsTocHeadingLine(line))
  {
    if k > 0 {
      CleanDropsChrome(lines, k - 1);
    }
  }

  /** The kept lines are input lines, in input order: `idx` says where each came from. */
  lemma {:induction false} CleanEmbedding(lines: seq<string>, k: nat) returns (idx: seq<nat>)
    requires k <= |lines|
    ensures Embedding(idx, CleanRun(lines, k).kept, lines)
    ensures forall j | 0 <= j < |idx| :: idx[j] < k
  {
    if k == 0 {
      idx := [];
    } else {
      idx := CleanEmbedding(lines, k - 1);
      var before, after := CleanRun(lines, k - 1).kept, CleanRun(lines, k).kept;
      if after != before {
        idx := idx + [k - 1];
      }
    }
  }

  lemma CleanKeepsOrder(lines: seq<string>)
    ensures IsSubsequence(CleanLines(lines), lines)
  {
    var idx := CleanEmbedding(lines, |lines|);
  }

  /** A TOC heading line counts as chrome, since its lower-cased text mentions "table of contents". */
  lemma TocHeadingIsChrome(line: string)
    requires IsTocHeadingLine(line)
    ensures IsChrome(line)
  {
    var a, e := StripStart(line), StripEnd(line);
    var low := Lower(line);
    var h := "## table of contents";
    assert low[a..e] == h by {
      LowerSlice(line, a, e);
      LowerTocHeading();
    }
    assert low[a + 3..a + 20] == ChromeWords[0] by {
      assert low[a + 3..a + 20] == h[3..20];
      ChromeWordInHeading();
    }
    assert OccursAt(low, ChromeWords[0], a + 3);
  }

  lemma ChromeWordInHeading()
    ensures "## table of contents"[3..20] == ChromeWords[0]
  {
  }

  /** Lower-casing commutes with slicing. */
  lemma LowerSlice(s: string, a: nat, b: nat)
    requires a <= b <= |s|
    ensures Lower(s)[a..b] == Lower(s[a..b])
  {
  }

  lemma LowerTocHeading()
    ensures Lower(Chapters.TocHeading) == "## table of contents"
  {
  }

  /** The TOC heading is kept even inside the skipped section. */
  lemma TocHeadingKept(lines: seq<string>, j: nat)
    requires j < |lines| && IsTocHeadingLine(lines[j])
    requires !Contains(lines[j], Chapters.SkipMarker) && !Contains(lines[j], Chapters.NoteMarker)
    ensures CleanRun(lines, j + 1).kept == CleanRun(lines, j).kept + [lines[j]]
  {
    TocHeadingIsChrome(lines[j]);
  }

  /**
    After the early-release marker, every line is dropped until a line that
    starts a chapter (or is the TOC heading) shows up.
   */
  lemma {:induction false} NoteSuppresses(lines: seq<string>, m: nat, j: nat)
    requires m < j <= |lines|
    requires Contains(lines[m], Chapters.NoteMarker) && !Contains(lines[m], Chapters.SkipMarker)
    requires forall t | m < t < j :: !EndsSkip(lines[t]) && !IsTocHeadingLine(lines[t])
    ensures CleanRun(lines, j).skip
    ensures CleanRun(lines, j).kept == CleanRun(lines, m).kept
  {
    if j - 1 > m {
      NoteSuppresses(lines, m, j - 1);
    }
  }

  /** A chapter opening ends the suppression and is itself kept, unless it is a chrome line. */
  lemma SkipEndsAtChapter(lines: seq<string>, j: nat)
    requires j < |lines| && CleanRun(lines, j).skip
    requires !Contains(lines[j], Chapters.SkipMarker) && !Contains(lines[j], Chapters.NoteMarker)
    requires EndsSkip(lines[j]) && !IsChrome(lines[j])
    ensures !CleanRun(lines, j + 1).skip
    ensures CleanRun(lines, j + 1).kept == CleanRun(lines, j).kept + [lines[j]]
  {
  }

  // ---------------------------------------------------------------------------
  // add_toc_numbering

  /** The words that keep a `##` heading unnumbered. */
  const ExemptWords: seq<string> := ["Table of Contents", "Summary", "Footnotes", "References"]

  /** A `##` heading that is copied unnumbered and leaves the counters alone. */
  predicate Exempt(line: string) {
    StartsWith(line, "## ") && !StartsWith(line, "### ") && Chapters.ContainsAny(line, ExemptWords)
  }

  /**
    The branch add_toc_numbering takes: the same as in transform_chapters.py
    except that every exempt `##` heading, not only the TOC heading, is copied.
   */
  function Level(line: string): (lv: nat)
    ensures lv == 0 || lv == 2 || lv == 3 || lv == 4
  {
    if Exempt(line) then 0 else Chapters.LevelOf(line)
  }

  /** One line of add_toc_numbering: the emitted line and the counters after it. */
  function NumberLine(line: string, c: Chapters.Counters): (string, Chapters.Counters) {
    var lv := Level(line);
    if lv == 0 then (line, c)
    else
      var d := Chapters.Bump(c, lv);
      (Rendered(Chapters.Hashes(lv), Chapters.Label(d, lv), HeadingTitle(line, Chapters.Hashes(lv), lv - 1)), d)
  }

  /** The emitted lines and the counters after the first `k` lines. */
  function NumberRun(lines: seq<string>, k: nat): (r: (seq<string>, Chapters.Counters))
    requires k <= |lines|
    ensures |r.0| == k
  {
    Scan(NumberLine, Chapters.Counters(0, 0, 0), lines, k)
  }

  function NumberLines(lines: seq<string>): seq<string> {
    NumberRun(lines, |lines|).0
  }

  method AddTocNumbering(text: string) returns (r: string)
    ensures r == Join(NumberLines(Split(text)))
  {
    var lines := Split(text);
    var result: seq<string> := [];
    var h2, h3, h4 := 0, 0, 0;
    for i := 0 to |lines|
      invariant NumberRun(lines, i) == (result, Chapters.Counters(h2, h3, h4))
    {
      ghost var prev := (result, Chapters.Counters(h2, h3, h4));
      var out;
      out, h2, h3, h4 := NumberOne(lines[i], h2, h3, h4);
      result := result + [out];
      assert NumberRun(lines, i + 1) == (prev.0 + [NumberLine(lines[i], prev.1).0], NumberLine(lines[i], prev.1).1);
    }
    r := Join(result);
  }

  /** The loop body for one line: an exempt heading is copied, anything else goes through the common branches. */
  method NumberOne(line: string, h2: nat, h3: nat, h4: nat) returns (out: string, k2: nat, k3: nat, k4: nat)
    ensures (out, Chapters.Counters(k2, k3, k4)) == NumberLine(line, Chapters.Counters(h2, h3, h4))
  {
    if Exempt(line) {
      return line, h2, h3, h4;
    }
    out, k2, k3, k4 := Chapters.NumberOne(line, h2, h3, h4);
  }

  /** Where Part III and the other chapters agree: a line that is not exempt is numbered the same way. */
  lemma NumberLineAgrees(line: string, c: Chapters.Counters)
    requires !Exempt(line)
    ensures NumberLine(line, c) == Chapters.NumberLine(line, c)
  {
  }

  /**
    On a document whose exempt headings are all TOC headings, Part III's
    numbering is the numbering of transform_chapters.py.
   */
  lemma {:induction false} NumberRunAgrees(lines: seq<string>, k: nat)
    requires k <= |lines|
    requires forall t | 0 <= t < |lines| :: Exempt(lines[t]) ==> Chapters.LevelOf(lines[t]) == 0
    ensures NumberRun(lines, k) == Chapters.NumberRun(lines, k)
  {
    if k > 0 {
      NumberRunAgrees(lines, k - 1);
      var c := NumberRun(lines, k - 1).1;
      assert NumberLine(lines[k - 1], c) == Chapters.NumberLine(lines[k - 1], c) by {
        if Exempt(lines[k - 1]) {
          assert Chapters.LevelOf(lines[k - 1]) == 0;
        }
      }
      NumberRunStep(lines, k);
      Chapters.NumberRunStep(lines, k);
    }
  }

  /** Output line `j` is input line `j` numbered under the counters before it. */
  lemma NumberLinesAt(lines: seq<string>, j: nat)
    requires j < |lines|
    ensures |NumberLines(lines)| == |lines|
    ensures NumberLines(lines)[j] == NumberLine(lines[j], NumberRun(lines, j).1).0
  {
    ScanAt(NumberLine, Chapters.Counters(0, 0, 0), lines, |lines|, j);
  }

  lemma NumberRunStep(lines: seq<string>, k: nat)
    requires 0 < k <= |lines|
    ensures var prev := NumberRun(lines, k - 1);
      NumberRun(lines, k) == (prev.0 + [NumberLine(lines[k - 1], prev.1).0], NumberLine(lines[k - 1], prev.1).1)
  {
  }

  /** An exempt heading is copied as it is, and the counters after it are the counters before it. */
  lemma ExemptUnnumbered(lines: seq<string>, j: nat)
    requires j < |lines| && Exempt(lines[j])
    ensures NumberLines(lines)[j] == lines[j]
    ensures NumberRun(lines, j + 1).1 == NumberRun(lines, j).1
  {
    NumberLinesAt(lines, j);
    NumberRunStep(lines, j + 1);
  }

  /** Each exempt word starts with a character that cannot begin inside a `## N. ` prefix. */
  lemma ExemptWordStarts(k: nat)
    requires k < |ExemptWords|
    ensures var w := ExemptWords[k];
      |w| > 0 && w[0] != '#' && w[0] != ' ' && w[0] != '.' && !IsDigit(w[0])
  {
  }

  /** A heading add_toc_numbering wrote is never exempt, since its title came from a heading that was not. */
  lemma RenderedNotExempt(line: string, c: Chapters.Counters)
    requires !Exempt(line) && Chapters.LevelOf(line) != 0
    ensures !Exempt(NumberLine(line, c).0)
  {
    var lv := Chapters.LevelOf(line);
    var h, d := Chapters.Hashes(lv), Chapters.Bump(c, lv);
    var title := HeadingTitle(line, h, lv - 1);
    var out := Rendered(h, Chapters.Label(d, lv), title);
    if Exempt(out) {
      var k :| 0 <= k < |ExemptWords| && Contains(out, ExemptWords[k]);
      ExemptWordStarts(k);
      RenderedContains(h, Chapters.Label(d, lv), title, ExemptWords[k]);
      HeadingTitleWithin(line, h, lv - 1, ExemptWords[k]);
      Chapters.RenderedLevel(lv, Chapters.Label(d, lv), title);
      assert false;
    }
  }

  /** Numbering a line add_toc_numbering already wrote, under the same counters, changes nothing. */
  lemma RenumberLine(line: string, c: Chapters.Counters)
    ensures NumberLine(NumberLine(line, c).0, c) == NumberLine(line, c)
  {
    if !Exempt(line) {
      Chapters.RenumberLine(line, c);
      if Chapters.LevelOf(line) != 0 {
        RenderedNotExempt(line, c);
      }
    }
  }

  lemma {:induction false} NumberRunTwice(lines: seq<string>, k: nat)
    requires k <= |lines|
    ensures NumberRun(NumberLines(lines), k) == NumberRun(lines, k)
  {
    if k > 0 {
      var out := NumberLines(lines);
      var prev := NumberRun(lines, k - 1);
      NumberRunTwice(lines, k - 1);
      NumberLinesAt(lines, k - 1);
      RenumberLine(lines[k - 1], prev.1);
      NumberRunStep(out, k);
      NumberRunStep(lines, k);
    }
  }

  /** add_toc_numbering is idempotent on line sequences. */
  lemma NumberingIdempotent(lines: seq<string>)
    ensures NumberLines(NumberLines(lines)) == NumberLines(lines)
  {
    NumberRunTwice(lines, |lines|);
  }

  lemma NumberLinesNoNewline(lines: seq<string>)
    requires forall k | 0 <= k < |lines| :: NoNewline(lines[k])
    ensures forall k | 0 <= k < |lines| :: NoNewline(NumberLines(lines)[k])
  {
    forall k | 0 <= k < |lines| ensures NoNewline(NumberLines(lines)[k]) {
      NumberLinesAt(lines, k);
      if !Exempt(lines[k]) {
        Chapters.NumberLineNoNewline(lines[k], NumberRun(lines, k).1);
      }
    }
  }

  /** Running add_toc_numbering on its own output returns that output. */
  lemma AddTocNumberingIdempotent(text: string)
    ensures var once := Join(NumberLines(Split(text)));
      Join(NumberLines(Split(once))) == once
  {
    var lines := Split(text);
    NumberLinesNoNewline(lines);
    SplitJoin(NumberLines(lines));
    NumberingIdempotent(lines);
  }

  // ---------------------------------------------------------------------------
  // create_toc

  /** The TOC line create_toc writes for one line: `##` and `###` headings only, exempt ones left out. */
  function TocEntry(line: string): Option<string> {
    if Level(line) == 2 || Level(line) == 3 then Chapters.TocEntry(line) else None
  }

  /** create_toc lists no exempt `##` heading and no `####` heading. */
  lemma ExemptUnlisted(line: string)
    requires Exempt(line) || StartsWith(line, "#### ")
    ensures TocEntry(line) == None
  {
    if StartsWith(line, "#### ") {
      Chapters.LevelBranches(line);
      assert line[..3] == "###" && line[3] == '#';
      assert !StartsWith(line, "## ") && !StartsWith(line, "### ") by {
        assert "## "[2] == ' ' && "### "[3] == ' ';
      }
    }
  }

  /** The TOC lines create_toc collects from the first `k` lines. */
  function TocRun(lines: seq<string>, k: nat): (toc: seq<string>)
    requires k <= |lines|
    ensures |toc| <= k
  {
    if k == 0 then []
    else
      match TocEntry(lines[k - 1])
      case None => TocRun(lines, k - 1)
      case Some(e) => TocRun(lines, k - 1) + [e]
  }

  method CreateToc(text: string) returns (r: string)
    ensures r == Join(TocRun(Split(text), |Split(text)|))
  {
    var lines := Split(text);
    var toc: seq<string> := [];
    for i := 0 to |lines|
      invariant toc == TocRun(lines, i)
    {
      var e := TocLine(lines[i]);
      if e.Some? {
        toc := toc + [e.value];
      }
    }
    r := Join(toc);
  }

  /** The body of create_toc's loop: exempt `##` headings and `####` headings give nothing. */
  method TocLine(line: string) returns (e: Option<string>)
    ensures e == TocEntry(line)
  {
    if StartsWith(line, "# Chapter") {
      assert Chapters.LevelOf(line) == 0;
      return None;
    }
    if StartsWith(line, "## ") && !StartsWith(line, "### ") {
      if Exempt(line) {
        return None;
      }
      e := Chapters.TocLine(line);
    } else if StartsWith(line, "### ") && !StartsWith(line, "#### ") {
      e := Chapters.TocLine(line);
    } else {
      assert Chapters.LevelOf(line) == 0 || Chapters.LevelOf(line) == 4;
      e := None;
    }
  }

  /** The entry the `k`-th line gets once numbered: none unless it is a numbered `##` or `###` heading. */
  function NumberedEntry(lines: seq<string>, k: nat): (e: Option<string>)
    requires 0 < k <= |lines|
    ensures e.Some? <==> Level(lines[k - 1]) == 2 || Level(lines[k - 1]) == 3
  {
    var lv := Level(lines[k - 1]);
    if lv != 2 && lv != 3 then None
    else Some(EntryText(Chapters.Indent(lv), Chapters.Label(NumberRun(lines, k).1, lv),
                        ShownTitle(HeadingTitle(lines[k - 1], Chapters.Hashes(lv), lv - 1))))
  }

  /** The entry each line gets once numbered, line by line. */
  function NumberedEntries(lines: seq<string>): (es: seq<Option<string>>)
    ensures |es| == |lines|
    ensures forall j | 0 <= j < |lines| :: es[j] == NumberedEntry(lines, j + 1)
  {
    seq(|lines|, i requires 0 <= i < |lines| => NumberedEntry(lines, i + 1))
  }

  /** The entries the numbered `##` and `###` headings among the first `k` lines get, in document order. */
  function HeadingEntries(lines: seq<string>, k: nat): (es: seq<string>)
    requires k <= |lines|
    ensures |es| <= k
  {
    Values(NumberedEntries(lines)[..k])
  }

  /** create_toc reads back the entry of a `##` or `###` heading add_toc_numbering wrote, and nothing else. */
  lemma TocEntryOfNumbered(line: string, c: Chapters.Counters)
    ensures var lv := Level(line);
      TocEntry(NumberLine(line, c).0)
      == if lv != 2 && lv != 3 then None
         else Some(EntryText(Chapters.Indent(lv), Chapters.Label(Chapters.Bump(c, lv), lv),
                             ShownTitle(HeadingTitle(line, Chapters.Hashes(lv), lv - 1))))
  {
    var lv := Level(line);
    Chapters.TocEntryOfNumbered(line, c);
    if lv != 0 {
      RenderedNotExempt(line, c);
      var h, d := Chapters.Hashes(lv), Chapters.Bump(c, lv);
      var title := HeadingTitle(line, h, lv - 1);
      if lv == 2 && Contains(title, Chapters.TocTitle) {
        HeadingTitleWithin(line, h, lv - 1, Chapters.TocTitle);
      }
      Chapters.RenderedLevel(lv, Chapters.Label(d, lv), title);
    }
  }

  /**
    create_toc run on add_toc_numbering's output lists every numbered `##`
    and `###` heading once, in document order, with the label it was given.
   */
  lemma TocOfNumbered(lines: seq<string>, k: nat)
    requires k <= |lines|
    ensures TocRun(NumberLines(lines), k) == HeadingEntries(lines, k)
  {
    TocEntriesAt(lines);
    TocRunValues(NumberLines(lines), NumberedEntries(lines), k);
  }

  /** Every numbered line yields the entry it was numbered with. */
  lemma TocEntriesAt(lines: seq<string>)
    ensures |NumberLines(lines)| == |lines|
    ensures forall j | 0 <= j < |lines| :: TocEntry(NumberLines(lines)[j]) == NumberedEntries(lines)[j]
  {
    forall j | 0 <= j < |lines|
      ensures TocEntry(NumberLines(lines)[j]) == NumberedEntries(lines)[j]
    {
      TocEntryAt(lines, j + 1);
    }
  }

  /** The entry create_toc reads off the `k`-th numbered line is the one that line was numbered with. */
  lemma TocEntryAt(lines: seq<string>, k: nat)
    requires 0 < k <= |lines|
    ensures |NumberLines(lines)| == |lines|
    ensures TocEntry(NumberLines(lines)[k - 1]) == NumberedEntry(lines, k)
  {
    var line, c := lines[k - 1], NumberRun(lines, k - 1).1;
    NumberLinesAt(lines, k - 1);
    NumberRunStep(lines, k);
    TocEntryOfNumbered(line, c);
    assert NumberLines(lines)[k - 1] == NumberLine(line, c).0;
    var lv := Level(line);
    if lv == 2 || lv == 3 {
      assert NumberRun(lines, k).1 == Chapters.Bump(c, lv);
    }
  }

  /** create_toc's table is the list of the entries its lines yield. */
  lemma {:induction false} TocRunValues(lines: seq<string>, es: seq<Option<string>>, k: nat)
    requires |es| == |lines| && k <= |lines|
    requires forall j | 0 <= j < |lines| :: TocEntry(lines[j]) == es[j]
    ensures TocRun(lines, k) == Values(es[..k])
  {
    if k > 0 {
      TocRunValues(lines, es, k - 1);
      ValuesSnoc(es, k);
      TocRunStep(lines, k);
    }
  }

  /** One more line adds its entry, if it has one. */
  lemma TocRunStep(lines: seq<string>, k: nat)
    requires 0 < k <= |lines|
    ensures TocRun(lines, k) == TocRun(lines, k - 1) + OptionList(TocEntry(lines[k - 1]))
  {
  }

  // ---------------------------------------------------------------------------
  // transform_chapter, without the file I/O

  /** The text transform_chapter writes for a Part III chapter whose contents are `content`. */
  function TransformChapterText(content: string, position: int, chapter: int, title: string,
                                description: string, prev: string, next: string): string
  {
    var cleaned := Chapters.RemoveReferenceNumbers(Join(CleanLines(Split(content))));
    var numbered := Join(NumberLines(Split(cleaned)));
    var toc := Join(TocRun(Split(numbered), |Split(numbered)|));
    Chapters.AddNavigation(
      Chapters.AddFrontmatter(Chapters.PlaceToc(numbered, toc), position, chapter, title, description), prev, next)
  }

  method TransformChapter(content: string, position: int, chapter: int, title: string,
                          description: string, prev: string, next: string) returns (r: string)
    ensures r == TransformChapterText(content, position, chapter, title, description, prev, next)
  {
    var text := CleanContent(content);
    text := AddTocNumbering(text);
    var toc := CreateToc(text);
    if Contains(text, Chapters.TocHeading) {
      text := Chapters.InsertToc(text, toc);
    } else {
      text := Chapters.PlaceTocFallback(text, toc);
    }
    text := Chapters.AddFrontmatter(text, position, chapter, title, description);
    r := Chapters.AddNavigation(text, prev, next);
  }

  /** Every Part III chapter is framed by its front matter and its navigation footer. */
  lemma TransformChapterFrame(content: string, position: int, chapter: int, title: string,
                              description: string, prev: string, next: string)
    ensures var r := TransformChapterText(content, position, chapter, title, description, prev, next);
      var fm := Chapters.Frontmatter(position, chapter, title, description);
      var nav := Chapters.Navigation(prev, next);
      && |fm| >= 2 && StartsWith(r, fm[..|fm| - 2])
      && |r| >= |nav| && r[|r| - |nav|..] == nav
  {
    var cleaned := Chapters.RemoveReferenceNumbers(Join(CleanLines(Split(content))));
    var numbered := Join(NumberLines(Split(cleaned)));
    var toc := Join(TocRun(Split(numbered), |Split(numbered)|));
    Chapters.DressedFrame(Chapters.PlaceToc(numbered, toc), position, chapter, title, description, prev, next);
  }
}
