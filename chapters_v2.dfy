/**
  transform_chapters_v2.py: transform_content, one `while` loop over the lines
  of an extracted chapter that writes the front matter, the chapter title and
  its epigraph, skips the early-release note and the footer chrome, strips
  citation markers from the body, then collapses blank-line runs and appends
  the navigation footer.  The loop is a method proved against a step function
  over a `State`; what the transform promises is stated as lemmas about that
  function.
 */
module ChaptersV2 {
  import opened Text
  import Chapters
  import opened Substitutions

  // ---------------------------------------------------------------------------
  // Line tests

  predicate HasSkipMarker(line: string) {
    Contains(line, Chapters.SkipMarker)
  }

  predicate HasNoteMarker(line: string) {
    Contains(line, Chapters.NoteMarker)
  }

  /** The chapter's own title line: it starts with `Chapter <num>.`. */
  predicate IsTitleLine(line: string, num: int) {
    StartsWith(line, "Chapter " + IntToString(num) + ".")
  }

  /** The boilerplate openings of the early-release note's own paragraphs. */
  const NotePrefixes: seq<string> := ["A Note for Early Release", "With Early Release", "This will be the", "If you"]

  /** A line that ends the early-release note: not blank, no boilerplate opening, no GitHub link. */
  predicate IsContentLine(line: string) {
    && !Chapters.IsBlank(line)
    && (forall k | 0 <= k < |NotePrefixes| :: !StartsWith(line, NotePrefixes[k]))
    && !Contains(Lower(line), "github.com")
  }

  /** Lower-cased keywords that start the footer wherever they occur in a line. */
  const FooterPhrases: seq<string> := ["table of contents", "previous chapter", "next chapter"]

  /** A line that switches the footer latch on once the body has started. */
  predicate IsFooterTrigger(line: string) {
    || Chapters.ContainsAny(Lower(line), FooterPhrases)
    || Strip(line) == "Footnotes" || Strip(line) == "References" || Strip(line) == "Settings"
    || (Contains(Lower(line), "search") && |Strip(line)| < 20)
  }

  // ---------------------------------------------------------------------------
  // The scans of the title branch and of the early-release branch

  /** Which lines carry the early-release marker. */
  function NoteMask(lines: seq<string>): (m: seq<bool>)
    ensures |m| == |lines|
  {
    seq(|lines|, k requires 0 <= k < |lines| => HasNoteMarker(lines[k]))
  }

  /** Which lines end the early-release note. */
  function ContentMask(lines: seq<string>): (m: seq<bool>)
    ensures |m| == |lines|
  {
    seq(|lines|, k requires 0 <= k < |lines| => IsContentLine(lines[k]))
  }

  /** The first line at or after `i` that carries the early-release marker; the end if there is none. */
  function QuoteEnd(lines: seq<string>, i: nat): (e: nat)
    requires i <= |lines|
    ensures i <= e <= |lines|
    ensures e < |lines| ==> HasNoteMarker(lines[e])
  {
    FirstTrue(NoteMask(lines), i)
  }

  /** No line before QuoteEnd carries the marker. */
  lemma QuoteEndFirst(lines: seq<string>, i: nat, k: nat)
    requires i <= |lines| && i <= k < QuoteEnd(lines, i)
    ensures !HasNoteMarker(lines[k])
  {
    FirstTrueSkipped(NoteMask(lines), i, k);
  }

  /**
    The last non-blank line in `[a, e)`, or `a` when there is none: the
    author line of the epigraph.
   */
  function LastNonBlank(lines: seq<string>, a: nat, e: nat): (l: nat)
    requires a <= e <= |lines|
    ensures a <= l && (l < e || l == a)
  {
    LastFalse(Chapters.BlankMask(lines), a, e)
  }

  /** Between the author line and the marker there are only blank lines; without an author, the whole range is blank. */
  lemma LastNonBlankSpec(lines: seq<string>, a: nat, e: nat)
    requires a <= e <= |lines|
    ensures var l := LastNonBlank(lines, a, e);
      && (forall k | l < k < e :: Chapters.IsBlank(lines[k]))
      && ((l < e && !Chapters.IsBlank(lines[l])) || forall k | a <= k < e :: Chapters.IsBlank(lines[k]))
  {
    var m := Chapters.BlankMask(lines);
    assert forall k | a <= k < e :: m[k] == Chapters.IsBlank(lines[k]);
  }

  /** The non-blank lines in `[a, l)`, in order: the epigraph's quote lines. */
  function NonBlankIn(lines: seq<string>, a: nat, l: nat): (q: seq<string>)
    requires a <= l <= |lines|
    ensures |q| <= l - a
    ensures forall k | 0 <= k < |q| :: !Chapters.IsBlank(q[k])
    decreases l
  {
    if l == a then []
    else NonBlankIn(lines, a, l - 1) + (if Chapters.IsBlank(lines[l - 1]) then [] else [lines[l - 1]])
  }

  /** The first line at or after `k` that ends the early-release note; the end if there is none. */
  function ResumeAt(lines: seq<string>, k: nat): (j: nat)
    requires k <= |lines|
    ensures k <= j <= |lines|
    ensures j < |lines| ==> IsContentLine(lines[j])
  {
    FirstTrue(ContentMask(lines), k)
  }

  /** Every line the early-release scan passes over is boilerplate, blank or a GitHub link. */
  lemma ResumeAtFirst(lines: seq<string>, k: nat, m: nat)
    requires k <= |lines| && k <= m < ResumeAt(lines, k)
    ensures !IsContentLine(lines[m])
  {
    FirstTrueSkipped(ContentMask(lines), k, m);
  }

  // ---------------------------------------------------------------------------
  // The epigraph as a block quote

  /** The quote lines after the first: each non-blank one is written as `>` then `> ` and the line. */
  function QuoteFollow(q: seq<string>): (b: seq<string>)
    decreases |q|
  {
    if q == [] then []
    else QuoteFollow(q[..|q| - 1]) + (if Chapters.IsBlank(q[|q| - 1]) then [] else [">", "> " + q[|q| - 1]])
  }

  /** The block quote written for the quote lines `q`: nothing when there are none. */
  function QuoteBlock(q: seq<string>): (b: seq<string>)
  {
    if q == [] then [] else ["> " + q[0]] + QuoteFollow(q[1..]) + [""]
  }

  /** Lines `2k` and `2k + 1` of `g` are the separator and the quoted `q[k]`. */
  predicate FollowAt(g: seq<string>, q: seq<string>, k: nat)
    requires 2 * k + 1 < |g| && k < |q|
  {
    g[2 * k] == ">" && g[2 * k + 1] == "> " + q[k]
  }

  /** One more quote line extends the separator-and-quote run by its two lines. */
  lemma FollowSnoc(f: seq<string>, p: seq<string>, x: string)
    requires |f| == 2 * |p| && forall j: nat | j < |p| :: FollowAt(f, p, j)
    ensures forall j: nat | j < |p| + 1 :: FollowAt(f + [">", "> " + x], p + [x], j)
  {
    var g, q := f + [">", "> " + x], p + [x];
    forall j: nat | j < |q| ensures FollowAt(g, q, j) {
      if j < |p| {
        assert FollowAt(f, p, j);
        IndexInFront(f, [">", "> " + x], 2 * j);
        IndexInFront(f, [">", "> " + x], 2 * j + 1);
        assert q[j] == p[j];
      }
    }
  }

  lemma {:induction false} QuoteFollowLayout(q: seq<string>)
    requires forall k | 0 <= k < |q| :: !Chapters.IsBlank(q[k])
    ensures |QuoteFollow(q)| == 2 * |q|
    ensures forall k: nat | k < |q| :: FollowAt(QuoteFollow(q), q, k)
    decreases |q|
  {
    if q != [] {
      var m := |q| - 1;
      NonBlankFront(q, q[..m]);
      QuoteFollowLayout(q[..m]);
      QuoteFollowSnoc(q);
      FollowSnoc(QuoteFollow(q[..m]), q[..m], q[m]);
      FrontLast(q);
    }
  }

  lemma NonBlankFront(q: seq<string>, p: seq<string>)
    requires q != [] && p == q[..|q| - 1] && forall k | 0 <= k < |q| :: !Chapters.IsBlank(q[k])
    ensures forall k | 0 <= k < |p| :: !Chapters.IsBlank(p[k])
  {
    forall k | 0 <= k < |p| ensures !Chapters.IsBlank(p[k]) {
      PrefixIndex(q, |q| - 1, k);
    }
  }

  /** A non-blank last quote line adds its separator and its quoted line. */
  lemma QuoteFollowSnoc(q: seq<string>)
    requires q != [] && !Chapters.IsBlank(q[|q| - 1])
    ensures QuoteFollow(q) == QuoteFollow(q[..|q| - 1]) + [">", "> " + q[|q| - 1]]
  {
  }

  /** The block quote around a separator-and-quote run `f` for the lines after the first. */
  lemma BlockAround(q: seq<string>, f: seq<string>)
    requires |q| >= 1 && |f| == 2 * (|q| - 1)
    requires forall j: nat | j < |q| - 1 :: FollowAt(f, q[1..], j)
    ensures var b := ["> " + q[0]] + f + [""];
      && |b| == 2 * |q| && b[|b| - 1] == ""
      && (forall k | 0 <= k < |q| :: b[2 * k] == "> " + q[k])
      && (forall k | 1 <= k < |q| :: b[2 * k - 1] == ">")
  {
    var b := ["> " + q[0]] + f + [""];
    var r := q[1..];
    forall k | 1 <= k < |q| ensures b[2 * k - 1] == ">" && b[2 * k] == "> " + q[k] {
      var j := k - 1;
      assert FollowAt(f, r, j);
      assert r[j] == q[k];
      IndexInMiddle("> " + q[0], f, "", 2 * j);
      IndexInMiddle("> " + q[0], f, "", 2 * j + 1);
    }
  }

  /**
    Non-blank quote lines `q0 … qm` become `> q0`, `>`, `> q1`, …, `>`,
    `> qm` and a closing blank line: line `2k` of the block quotes `qk`, and
    the lines between are bare `>` separators.
   */
  lemma QuoteBlockLayout(q: seq<string>)
    requires forall k | 0 <= k < |q| :: !Chapters.IsBlank(q[k])
    ensures var b := QuoteBlock(q);
      && (q == [] ==> b == [])
      && (q != [] ==> |b| == 2 * |q| && b[|b| - 1] == "")
      && (forall k | 0 <= k < |q| :: b[2 * k] == "> " + q[k])
      && (forall k | 1 <= k < |q| :: b[2 * k - 1] == ">")
  {
    if q != [] {
      var r := q[1..];
      assert forall k | 0 <= k < |r| :: r[k] == q[k + 1];
      QuoteFollowLayout(r);
      BlockAround(q, QuoteFollow(r));
    }
  }

  // ---------------------------------------------------------------------------
  // The main loop

  /**
    The variables of transform_content's loop: the output lines so far, the
    index, `found_chapter_title`, `content_started`, `in_footer` and
    `author_line`.
   */
  datatype State = State(result: seq<string>, i: nat, titled: bool, started: bool, footer: bool, author: string)

  /**
    The title branch at line `st.i`: write `# ` and the line and a blank,
    scan to the early-release marker, take the last non-blank line before it
    as the author and the non-blank lines before that as the quote, write the
    quote block and resume at the marker.
   */
  function TitleStep(lines: seq<string>, st: State): (next: State)
    requires st.i < |lines|
    ensures st.i < next.i <= |lines| && next.titled
  {
    var qe := TitleQuoteEnd(lines, st.i);
    var l := TitleAuthorAt(lines, st.i);
    st.(result := st.result + TitleBlock(lines, st.i, l), i := qe, titled := true,
        author := Author(lines, qe, l, st.author))
  }

  /** Where the epigraph ends: the early-release marker after the title line `i`. */
  function TitleQuoteEnd(lines: seq<string>, i: nat): (e: nat)
    requires i < |lines|
    ensures i < e <= |lines|
  {
    QuoteEnd(lines, i + 1)
  }

  /** The candidate author line of the epigraph after the title line `i`. */
  function TitleAuthorAt(lines: seq<string>, i: nat): (l: nat)
    requires i < |lines|
    ensures i < l <= TitleQuoteEnd(lines, i)
  {
    LastNonBlank(lines, i + 1, TitleQuoteEnd(lines, i))
  }

  /** The heading written for the title line `i`, a blank, and the quote block of the lines before `l`. */
  function TitleBlock(lines: seq<string>, i: nat, l: nat): seq<string>
    requires i < l <= |lines|
  {
    ["# " + lines[i], ""] + QuoteBlock(NonBlankIn(lines, i + 1, l))
  }

  /** `author_line`: line `l` when the scan found a non-blank line before the marker at `qe`, else `author` as it was. */
  function Author(lines: seq<string>, qe: nat, l: nat, author: string): string
    requires qe <= |lines|
  {
    if l < qe && !Chapters.IsBlank(lines[l]) then lines[l] else author
  }

  /** The early-release branch at line `st.i`: resume at the first content line after it, which starts the body. */
  function NoteStep(lines: seq<string>, st: State): (next: State)
    requires st.i < |lines|
    ensures st.i < next.i <= |lines|
  {
    var j := NoteResume(lines, st.i);
    st.(i := j, started := st.started || j < |lines|)
  }

  /** Where the body resumes after the early-release marker on line `i`. */
  function NoteResume(lines: seq<string>, i: nat): (j: nat)
    requires i < |lines|
    ensures i < j <= |lines|
  {
    ResumeAt(lines, i + 1)
  }

  /** Any other line: it may switch the footer on; it is written, citations removed, only inside the body. */
  function BodyStep(lines: seq<string>, st: State): (next: State)
    requires st.i < |lines|
  {
    var line := lines[st.i];
    var footer := st.footer || (st.started && IsFooterTrigger(line));
    if footer || !st.started then st.(i := st.i + 1, footer := footer)
    else st.(result := st.result + [RemoveCitations(line, true)], i := st.i + 1)
  }

  /** One pass of the loop body, from line `st.i`. */
  function Step(lines: seq<string>, num: int, st: State): (next: State)
    requires st.i < |lines|
    ensures st.i < next.i <= |lines|
    ensures st.result <= next.result
    ensures (st.titled ==> next.titled) && (st.started ==> next.started) && (st.footer ==> next.footer)
  {
    var line := lines[st.i];
    if HasSkipMarker(line) then st.(i := st.i + 1)
    else if !st.titled && IsTitleLine(line, num) then TitleStep(lines, st)
    else if HasNoteMarker(line) then NoteStep(lines, st)
    else BodyStep(lines, st)
  }

  /** The loop run to the end from `st`. */
  function Run(lines: seq<string>, num: int, st: State): (out: State)
    ensures st.result <= out.result
    ensures (st.titled ==> out.titled) && (st.started ==> out.started) && (st.footer ==> out.footer)
    decreases |lines| - st.i
  {
    if st.i >= |lines| then st else Run(lines, num, Step(lines, num, st))
  }

  /** The state before the first line: the six front matter lines are already written. */
  function Start(position: int, num: int, title: string, description: string): State {
    State(Chapters.FrontmatterLines(position, num, title, description), 0, false, false, false, "")
  }

  /** The text transform_content returns. */
  function TransformContentText(content: string, position: int, num: int, title: string,
                                description: string, prev: string, next: string): string
  {
    var out := Run(Split(content), num, Start(position, num, title, description));
    Chapters.AddNavigation(CollapseNewlines(Join(out.result)), prev, next)
  }

  /** transform_content, with the chapter's table entry passed as its fields. */
  method TransformContent(content: string, position: int, num: int, title: string,
                          description: string, prev: string, next: string) returns (r: string)
    ensures r == TransformContentText(content, position, num, title, description, prev, next)
  {
    var lines := Split(content);
    var st := Start(position, num, title, description);
    ghost var start := st;
    while st.i < |lines|
      invariant Run(lines, num, st) == Run(lines, num, start)
      decreases |lines| - st.i
    {
      st := Pass(lines, num, st);
    }
    var output := CollapseNewlines(Join(st.result));
    r := Chapters.AddNavigation(output, prev, next);
  }

  /** One pass of the loop body over the loop's variables, held in `st`. */
  method Pass(lines: seq<string>, num: int, st: State) returns (next: State)
    requires st.i < |lines|
    ensures next == Step(lines, num, st)
  {
    var line := lines[st.i];
    if HasSkipMarker(line) {
      next := st.(i := st.i + 1);
    } else if !st.titled && IsTitleLine(line, num) {
      next := TitlePass(lines, st);
    } else if HasNoteMarker(line) {
      next := NotePass(lines, st);
    } else {
      next := BodyPass(lines, st);
    }
  }

  /** The title branch of the loop body. */
  method TitlePass(lines: seq<string>, st: State) returns (next: State)
    requires st.i < |lines|
    ensures next == TitleStep(lines, st)
  {
    var block, qe, l := TitleLines(lines, st.i);
    var author := st.author;
    if l < qe && !Chapters.IsBlank(lines[l]) {
      author := lines[l];
    }
    next := st.(result := st.result + block, i := qe, titled := true, author := author);
  }

  /** The early-release branch of the loop body. */
  method NotePass(lines: seq<string>, st: State) returns (next: State)
    requires st.i < |lines|
    ensures next == NoteStep(lines, st)
  {
    var j, found := SkipEarlyRelease(lines, st.i);
    next := st.(i := j, started := st.started || found);
  }

  /** The last branch of the loop body: footer detection, then the body line itself. */
  method BodyPass(lines: seq<string>, st: State) returns (next: State)
    requires st.i < |lines|
    ensures next == BodyStep(lines, st)
  {
    var line := lines[st.i];
    next := st;
    if st.started && IsFooterTrigger(line) {
      next := next.(footer := true);
    }
    if !next.footer && st.started {
      next := next.(result := st.result + [RemoveCitations(line, true)]);
    }
    next := next.(i := st.i + 1);
  }

  /**
    The title branch's own lines: the heading, a blank and the quote block
    built from the scans for the marker and for the author line.
   */
  method TitleLines(lines: seq<string>, i: nat) returns (block: seq<string>, qe: nat, l: nat)
    requires i < |lines|
    ensures qe == TitleQuoteEnd(lines, i) && l == TitleAuthorAt(lines, i)
    ensures i < l && block == TitleBlock(lines, i, l)
  {
    block := ["# " + lines[i], ""];
    var qs := i + 1;
    qe := FindQuoteEnd(lines, qs);
    l := FindLastNonEmpty(lines, qs, qe);
    var quotes := CollectQuotes(lines, qs, l);
    var quoted := QuoteLines(quotes);
    block := block + quoted;
  }

  method FindQuoteEnd(lines: seq<string>, qs: nat) returns (e: nat)
    requires qs <= |lines|
    ensures e == QuoteEnd(lines, qs)
  {
    e := qs;
    while e < |lines| && !HasNoteMarker(lines[e])
      invariant qs <= e <= |lines|
      invariant FirstTrue(NoteMask(lines), e) == QuoteEnd(lines, qs)
    {
      e := e + 1;
    }
  }

  method FindLastNonEmpty(lines: seq<string>, a: nat, e: nat) returns (l: nat)
    requires a <= e <= |lines|
    ensures l == LastNonBlank(lines, a, e)
  {
    l := a;
    for j := a to e
      invariant l == LastFalse(Chapters.BlankMask(lines), a, j)
    {
      if !Chapters.IsBlank(lines[j]) {
        l := j;
      }
    }
  }

  method CollectQuotes(lines: seq<string>, a: nat, l: nat) returns (q: seq<string>)
    requires a <= l <= |lines|
    ensures q == NonBlankIn(lines, a, l)
  {
    q := [];
    for j := a to l
      invariant q == NonBlankIn(lines, a, j)
    {
      if !Chapters.IsBlank(lines[j]) {
        q := q + [lines[j]];
      }
    }
  }

  method QuoteLines(q: seq<string>) returns (b: seq<string>)
    ensures b == QuoteBlock(q)
  {
    b := [];
    if q != [] {
      b := ["> " + q[0]];
      for t := 1 to |q|
        invariant b == ["> " + q[0]] + QuoteFollow(q[1..t])
      {
        assert q[1..t + 1][..t - 1] == q[1..t];
        if !Chapters.IsBlank(q[t]) {
          b := b + [">", "> " + q[t]];
        }
      }
      assert q[1..|q|] == q[1..];
      b := b + [""];
    }
  }

  /** The scan after the early-release marker at `i`: where the body resumes, and whether it was found. */
  method SkipEarlyRelease(lines: seq<string>, i: nat) returns (j: nat, found: bool)
    requires i < |lines|
    ensures j == NoteResume(lines, i)
    ensures found <==> j < |lines|
  {
    j := i + 1;
    while j < |lines| && !IsContentLine(lines[j])
      invariant i + 1 <= j <= |lines|
      invariant FirstTrue(ContentMask(lines), j) == ResumeAt(lines, i + 1)
    {
      j := j + 1;
    }
    found := j < |lines|;
  }

  // ---------------------------------------------------------------------------
  // What the loop promises

  /**
    The chapter title is written once: on the first line that starts with
    `Chapter {num}.`, the loop writes `# ` and the line and a blank line, and
    then jumps to the first early-release marker after it, every line in
    between belonging to the epigraph.
   */
  lemma ChapterOpening(lines: seq<string>, num: int, st: State)
    requires st.i < |lines| && !st.titled
    requires !HasSkipMarker(lines[st.i]) && IsTitleLine(lines[st.i], num)
    ensures var next := Step(lines, num, st);
      && next.titled
      && |next.result| >= |st.result| + 2
      && next.result[..|st.result| + 2] == st.result + ["# " + lines[st.i], ""]
      && (next.i == |lines| || HasNoteMarker(lines[next.i]))
      && (forall k | st.i < k < next.i :: !HasNoteMarker(lines[k]))
  {
    var qe := TitleQuoteEnd(lines, st.i);
    forall k | st.i < k < qe ensures !HasNoteMarker(lines[k]) {
      QuoteEndFirst(lines, st.i + 1, k);
    }
    TitleOpening(lines, st);
  }

  /** The title branch's output starts with the heading and its blank line. */
  lemma TitleOpening(lines: seq<string>, st: State)
    requires st.i < |lines|
    ensures var next := TitleStep(lines, st);
      |next.result| >= |st.result| + 2 && next.result[..|st.result| + 2] == st.result + ["# " + lines[st.i], ""]
  {
    var l := TitleAuthorAt(lines, st.i);
    var head := ["# " + lines[st.i], ""];
    AppendAssoc(st.result, head, QuoteBlock(NonBlankIn(lines, st.i + 1, l)));
    PrefixOfAppend(st.result + head, QuoteBlock(NonBlankIn(lines, st.i + 1, l)));
  }

  /** Once the title is written, a title line is an ordinary line. */
  lemma TitleOnce(lines: seq<string>, num: int, st: State)
    requires st.i < |lines| && st.titled && !HasSkipMarker(lines[st.i]) && !HasNoteMarker(lines[st.i])
    ensures Step(lines, num, st) == BodyStep(lines, st)
  {
  }

  /**
    Inside the body, before the footer, a line that is no marker, no title
    and no footer keyword is written with its citations removed.
   */
  lemma BodyEmbedding(lines: seq<string>, num: int, st: State)
    requires st.i < |lines| && st.started && !st.footer
    requires !HasSkipMarker(lines[st.i]) && !HasNoteMarker(lines[st.i]) && !IsFooterTrigger(lines[st.i])
    requires st.titled || !IsTitleLine(lines[st.i], num)
    ensures Step(lines, num, st).result == st.result + [RemoveCitations(lines[st.i], true)]
    ensures !Step(lines, num, st).footer
  {
  }

  /** A footer keyword inside the body switches the latch on, and that line is not written. */
  lemma FooterStarts(lines: seq<string>, num: int, st: State)
    requires st.i < |lines| && st.started
    requires !HasSkipMarker(lines[st.i]) && !HasNoteMarker(lines[st.i]) && IsFooterTrigger(lines[st.i])
    requires st.titled || !IsTitleLine(lines[st.i], num)
    ensures Step(lines, num, st).footer && Step(lines, num, st).result == st.result
  {
  }

  /** Before the body has started, no footer keyword switches the latch on. */
  lemma NoFooterBeforeBody(lines: seq<string>, num: int, st: State)
    requires st.i < |lines| && !st.started && !st.footer
    ensures !Step(lines, num, st).footer
  {
  }

  /** Once the footer latch is on (after the title), no later line is written. */
  lemma {:induction false} FooterSilences(lines: seq<string>, num: int, st: State)
    requires st.footer && st.titled
    ensures Run(lines, num, st).result == st.result
    decreases |lines| - st.i
  {
    if st.i < |lines| {
      FooterStepSilent(lines, num, st);
      FooterSilences(lines, num, Step(lines, num, st));
    }
  }

  lemma FooterStepSilent(lines: seq<string>, num: int, st: State)
    requires st.i < |lines| && st.footer && st.titled
    ensures var next := Step(lines, num, st); next.result == st.result && next.footer && next.titled
  {
  }

  /**
    Only the early-release branch starts the body: after the title, if no
    later line carries the early-release marker, nothing more is written.
   */
  lemma {:induction false} SilentWithoutNote(lines: seq<string>, num: int, st: State)
    requires st.titled && !st.started
    requires forall k | st.i <= k < |lines| :: !HasNoteMarker(lines[k])
    ensures Run(lines, num, st).result == st.result && !Run(lines, num, st).started
    decreases |lines| - st.i
  {
    if st.i < |lines| {
      SilentStep(lines, num, st);
      SilentWithoutNote(lines, num, Step(lines, num, st));
    }
  }

  lemma SilentStep(lines: seq<string>, num: int, st: State)
    requires st.i < |lines| && st.titled && !st.started && !HasNoteMarker(lines[st.i])
    ensures var next := Step(lines, num, st);
      next.result == st.result && next.titled && !next.started && next.i == st.i + 1
  {
  }

  /**
    The early-release branch resumes at the first line after the marker that
    is not blank, starts with none of the boilerplate openings and has no
    GitHub link; that line starts the body and is examined again.
   */
  lemma NoteResumes(lines: seq<string>, num: int, st: State)
    requires st.i < |lines| && !HasSkipMarker(lines[st.i]) && HasNoteMarker(lines[st.i])
    requires st.titled || !IsTitleLine(lines[st.i], num)
    ensures var next := Step(lines, num, st);
      && next.result == st.result
      && (forall k | st.i < k < next.i :: !IsContentLine(lines[k]))
      && (next.i < |lines| ==> IsContentLine(lines[next.i]) && next.started)
  {
    NoteBranch(lines, num, st);
    NoteScan(lines, st.i);
  }

  lemma NoteBranch(lines: seq<string>, num: int, st: State)
    requires st.i < |lines| && !HasSkipMarker(lines[st.i]) && HasNoteMarker(lines[st.i])
    requires st.titled || !IsTitleLine(lines[st.i], num)
    ensures Step(lines, num, st) == NoteStep(lines, st)
  {
  }

  /** The scan after the marker on line `i` passes over boilerplate only and stops at a content line. */
  lemma NoteScan(lines: seq<string>, i: nat)
    requires i < |lines|
    ensures forall k | i < k < NoteResume(lines, i) :: !IsContentLine(lines[k])
    ensures NoteResume(lines, i) < |lines| ==> IsContentLine(lines[NoteResume(lines, i)])
  {
    ResumeAtSkipped(lines, i + 1);
  }

  lemma ResumeAtSkipped(lines: seq<string>, a: nat)
    requires a <= |lines|
    ensures forall k | a <= k < ResumeAt(lines, a) :: !IsContentLine(lines[k])
  {
    forall k | a <= k < ResumeAt(lines, a) ensures !IsContentLine(lines[k]) {
      ResumeAtFirst(lines, a, k);
    }
  }

  // ---------------------------------------------------------------------------
  // What transform_content returns

  /** The first five front matter lines, joined: from the opening fence to the closing one. */
  function FrontFence(position: int, num: int, title: string, description: string): string {
    Join(Chapters.FrontmatterLines(position, num, title, description)[..5])
  }

  /** With single-line title and description, the fences enclose four single-newline-separated lines. */
  lemma FrontFenceShape(position: int, num: int, title: string, description: string)
    requires NoNewline(title) && NoNewline(description)
    ensures var p := FrontFence(position, num, title, description);
      SingleNewlines(p) && |p| > 0 && p[|p| - 1] == '-'
  {
    var f := Chapters.FrontmatterLines(position, num, title, description)[..5];
    FrontLinesFree(position, num, title, description);
    JoinSingle(f);
    FenceEnd(f);
  }

  /** A join whose last line is a closing fence ends in '-'. */
  lemma FenceEnd(f: seq<string>)
    requires |f| == 5 && f[4] == "---"
    ensures |Join(f)| > 0 && Join(f)[|Join(f)| - 1] == '-'
  {
    assert f == f[..4] + ["---"];
    JoinAppend(f[..4], ["---"]);
  }

  /**
    The loop's output starts with the front matter: its join starts with the
    fences and a newline, and then comes the blank line the front matter ends
    with, so the text ends there or another newline follows.
   */
  lemma RunKeepsFront(lines: seq<string>, position: int, num: int, title: string, description: string)
    ensures var out := Run(lines, num, Start(position, num, title, description));
      StartsWith(Join(out.result), FrontFence(position, num, title, description) + "\n")
    ensures var j := Join(Run(lines, num, Start(position, num, title, description)).result);
      var p := FrontFence(position, num, title, description);
      |j| == |p| + 1 || j[|p| + 1] == '\n'
  {
    var f := Chapters.FrontmatterLines(position, num, title, description);
    var out := Run(lines, num, Start(position, num, title, description));
    var p := FrontFence(position, num, title, description);
    var rest := [""] + out.result[6..];
    FrontThenRest(f, out.result);
    JoinAppend(f[..5], rest);
    AppendAssoc(p, "\n", Join(rest));
    StartsWithAppend(p + "\n", Join(rest));
    BlankHead(out.result[6..]);
    if |Join(rest)| > 0 {
      assert Join(out.result)[|p| + 1] == Join(rest)[0];
    }
  }

  /** A blank line, then any lines: joined, empty or starting with a newline. */
  lemma BlankHead(ls: seq<string>)
    ensures Join([""] + ls) == [] || Join([""] + ls)[0] == '\n'
  {
    if ls != [] {
      assert ([""] + ls)[1..] == ls;
    }
  }

  /** A result that extends the six front matter lines is the first five, a blank line and the rest. */
  lemma FrontThenRest(f: seq<string>, res: seq<string>)
    requires |f| == 6 && f[5] == "" && f <= res
    ensures res == f[..5] + ([""] + res[6..])
  {
    assert res == res[..6] + res[6..];
  }

  /** add_navigation keeps a prefix that ends in a non-space character, and the newline after it. */
  lemma NavigationKeepsPrefix(c: string, p: string, prev: string, next: string)
    requires StartsWith(c, p + "\n") && |p| > 0 && !IsSpace(p[|p| - 1])
    ensures StartsWith(Chapters.AddNavigation(c, prev, next), p + "\n")
  {
    var m := |p|;
    assert c[..m] == p && c[m] == '\n' by {
      assert c[..m] == c[..m + 1][..m];
      assert c[m] == c[..m + 1][m];
    }
    RStripKeeps(c, m);
    var r := RStrip(c);
    if |r| > m {
      assert r[..m + 1] == c[..m + 1] by {
        assert r == c[..|r|];
      }
      StartsWithAppend(r, Chapters.Navigation(prev, next));
      PrefixStartsWith(r + Chapters.Navigation(prev, next), r, p + "\n");
    } else {
      assert r == p;
      StartsWithNext(p, Chapters.Navigation(prev, next));
    }
  }

  /** add_navigation keeps a prefix that ends in a non-space character and a blank line after it: the footer itself starts with two newlines. */
  lemma NavigationKeepsBlankLine(c: string, p: string, prev: string, next: string)
    requires StartsWith(c, p + "\n") && |p| > 0 && !IsSpace(p[|p| - 1])
    requires |c| == |p| + 1 || c[|p| + 1] == '\n'
    ensures StartsWith(Chapters.AddNavigation(c, prev, next), p + "\n\n")
  {
    var m := |p|;
    assert c[..m] == p && c[m] == '\n' by {
      assert c[..m] == c[..m + 1][..m];
      assert c[m] == c[..m + 1][m];
    }
    RStripKeeps(c, m);
    var r := RStrip(c);
    var nav := Chapters.Navigation(prev, next);
    assert r == c[..|r|];
    if |r| > m + 1 {
      assert r[..m + 2] == p + "\n\n" by {
        assert r[..m + 2] == c[..m + 2];
      }
      StartsWithAppend(r, nav);
      PrefixStartsWith(r + nav, r, p + "\n\n");
    } else {
      assert r == p;
      NavigationText(prev, next);
      assert (p + nav)[..m + 2] == p + "\n\n";
    }
  }

  /**
    The output of transform_content starts with the six front matter lines:
    `---`, `sidebar_position: P`, `title: "Chapter N. T"`, `description: "D"`,
    `---` and an empty line, each ended by a newline.
   */
  lemma TransformContentFrame(content: string, position: int, num: int, title: string,
                              description: string, prev: string, next: string)
    requires NoNewline(title) && NoNewline(description)
    ensures StartsWith(TransformContentText(content, position, num, title, description, prev, next),
                       FrontFence(position, num, title, description) + "\n\n")
    ensures |Split(TransformContentText(content, position, num, title, description, prev, next))| >= 6
    ensures Split(TransformContentText(content, position, num, title, description, prev, next))[..6]
         == Chapters.FrontmatterLines(position, num, title, description)
  {
    var p := FrontFence(position, num, title, description);
    var out := Run(Split(content), num, Start(position, num, title, description));
    FrontFenceShape(position, num, title, description);
    RunKeepsFront(Split(content), position, num, title, description);
    CollapseKeepsBlankLine(Join(out.result), p);
    NavigationKeepsBlankLine(CollapseNewlines(Join(out.result)), p, prev, next);
    FrontLinesSix(TransformContentText(content, position, num, title, description, prev, next), position, num, title, description);
  }

  /** A text that starts with the fences and a blank line splits into the six front matter lines first. */
  lemma FrontLinesSix(r: string, position: int, num: int, title: string, description: string)
    requires NoNewline(title) && NoNewline(description)
    requires StartsWith(r, FrontFence(position, num, title, description) + "\n\n")
    ensures |Split(r)| >= 6
    ensures Split(r)[..6] == Chapters.FrontmatterLines(position, num, title, description)
  {
    var f := Chapters.FrontmatterLines(position, num, title, description);
    FrontLinesFree(position, num, title, description);
    BlankLineAfter(f[..5], r);
    assert f == f[..5] + [""];
  }

  /** A text that starts with some joined lines and a blank line splits into those lines and an empty one first. */
  lemma BlankLineAfter(ls: seq<string>, r: string)
    requires |ls| >= 1 && forall k | 0 <= k < |ls| :: NoNewline(ls[k])
    requires StartsWith(r, Join(ls) + "\n\n")
    ensures |Split(r)| >= |ls| + 1 && Split(r)[..|ls| + 1] == ls + [""]
  {
    var p := Join(ls);
    var rest := r[|p| + 1..];
    assert r == p + "\n" + rest && rest[0] == '\n' by {
      assert r[..|p| + 2] == p + "\n\n";
      assert r[..|p| + 1] == r[..|p| + 2][..|p| + 1];
      assert rest[0] == r[..|p| + 2][|p| + 1];
    }
    JoinThenSplit(ls, rest);
    assert rest == "" + "\n" + rest[1..];
    SplitCons("", rest[1..]);
    assert Split(r) == ls + ([""] + Split(rest[1..]));
  }

  lemma FrontLinesFree(position: int, num: int, title: string, description: string)
    requires NoNewline(title) && NoNewline(description)
    ensures var f := Chapters.FrontmatterLines(position, num, title, description)[..5];
      forall k | 0 <= k < |f| :: |f[k]| > 0 && NoNewline(f[k])
  {
    Chapters.NoNewlineAppend("sidebar_position: ", IntToString(position));
    Chapters.NoNewlineAppend("title: \"Chapter ", IntToString(num));
    Chapters.NoNewlineAppend("title: \"Chapter " + IntToString(num), ". ");
    Chapters.NoNewlineAppend("title: \"Chapter " + IntToString(num) + ". ", title);
    Chapters.NoNewlineAppend("title: \"Chapter " + IntToString(num) + ". " + title, "\"");
    Chapters.NoNewlineAppend("description: \"", description);
    Chapters.NoNewlineAppend("description: \"" + description, "\"");
  }

  /** The navigation footer written out: two newlines, a rule, two newlines, the link line and its newline. */
  lemma NavigationText(prev: string, next: string)
    ensures var l := "**Previous:** " + prev + " | **Next:** " + next;
      Chapters.Navigation(prev, next) == "\n\n---" + ("\n\n" + l + "\n")
  {
    var l := "**Previous:** " + prev + " | **Next:** " + next;
    assert Join([l, ""]) == l + "\n" + "";
    assert Join(["", l, ""]) == "" + "\n" + Join([l, ""]);
    assert Join(["---", "", l, ""]) == "---" + "\n" + Join(["", l, ""]);
    assert Join(["", "---", "", l, ""]) == "" + "\n" + Join(["---", "", l, ""]);
  }

  /** A newline-free line followed by one newline holds no run of four newlines. */
  lemma LineNoFour(x: string)
    requires NoNewline(x)
    ensures NoFourNewlines(x + "\n")
  {
    var s := x + "\n";
    forall k: nat | k + 3 < |s| ensures NoFourAt(s, k) {
      assert s[k] == x[k];
    }
  }

  /** The navigation footer never holds four newlines in a row. */
  lemma NavigationNoFour(prev: string, next: string)
    requires NoNewline(prev) && NoNewline(next)
    ensures NoFourNewlines(Chapters.Navigation(prev, next))
  {
    var l := "**Previous:** " + prev + " | **Next:** " + next;
    Chapters.NoNewlineAppend("**Previous:** ", prev);
    Chapters.NoNewlineAppend("**Previous:** " + prev, " | **Next:** ");
    Chapters.NoNewlineAppend("**Previous:** " + prev + " | **Next:** ", next);
    NavigationText(prev, next);
    LineNoFour(l);
    var head := "\n\n---";
    assert NoFourNewlines(head) by {
      forall k: nat | k + 3 < |head| ensures NoFourAt(head, k) {
        assert head[2] == '-';
      }
    }
    assert NoFourNewlines("\n\n");
    AppendAssoc("\n\n", l, "\n");
    NoFourGlue("\n\n", l + "\n");
    NoFourGlue(head, "\n\n" + l + "\n");
  }

  /** A prefix of a text without four newlines in a row has none either. */
  lemma PrefixNoFour(s: string, p: string)
    requires StartsWith(s, p) && NoFourNewlines(s)
    ensures NoFourNewlines(p)
  {
    forall k: nat | k + 3 < |p| ensures NoFourAt(p, k) {
      assert NoFourAt(s, k);
      assert p[k..k + 4] == s[k..k + 4];
    }
  }

  /** add_navigation keeps a text free of four newlines in a row. */
  lemma AddNavigationNoFour(c: string, prev: string, next: string)
    requires NoFourNewlines(c) && NoNewline(prev) && NoNewline(next)
    ensures NoFourNewlines(Chapters.AddNavigation(c, prev, next))
  {
    var r := Chapters.AddNavigation(c, prev, next);
    var t := RStrip(c);
    assert r == t + Chapters.Navigation(prev, next) by {
      assert r == r[..|t|] + r[|t|..];
    }
    NavigationNoFour(prev, next);
    if t != [] {
      PrefixNoFour(c, t);
      NoFourGlue(t, Chapters.Navigation(prev, next));
    }
  }

  /**
    The output of transform_content never holds four newlines in a row: the
    collapse of blank runs and the footer appended after it keep it so.
   */
  lemma TransformContentNoFour(content: string, position: int, num: int, title: string,
                               description: string, prev: string, next: string)
    requires NoNewline(prev) && NoNewline(next)
    ensures NoFourNewlines(TransformContentText(content, position, num, title, description, prev, next))
  {
    var out := Run(Split(content), num, Start(position, num, title, description));
    CollapseNoFour(Join(out.result));
    AddNavigationNoFour(CollapseNewlines(Join(out.result)), prev, next);
  }
}
