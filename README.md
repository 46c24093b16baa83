# DDIA chapter transformers, modelled in Dafny

The repository turns raw text dumps of the chapters of *Designing Data-Intensive
Applications* into Docusaurus markdown pages. Four scripts do this, each a chain of
line transformers over a chapter's text:

- `transform_chapters.py`. `clean_content` drops page chrome, the early-release note
  and the footer, and deletes `[n]` reference markers. `add_toc_numbering` numbers
  the `##`, `###` and `####` headings as `N.`, `N.M.` and `N.M.K.`. `create_toc`
  builds a table of contents from the numbered headings. `insert_toc` puts it under
  the `## Table of Contents` heading, and a fallback places it after the chapter
  epigraph when there is no such heading. `add_frontmatter` and `add_navigation`
  wrap the page.
- `transform_part3.py`. The same pipeline for Part III. Its cleaning ends the
  early-release note at a chapter opening instead of at a long line. Its numbering
  exempts every `##` heading that mentions Table of Contents, Summary, Footnotes
  or References, and its table of contents skips `####` headings.
- `transform_chapters_v2.py`. `transform_content` is a single state machine. It
  writes the front matter, turns the `Chapter N.` line into a title and its
  epigraph into a block quote, skips the early-release note, and drops the footer.
  It removes `[n]` and `[n, m, …]` citations and collapses runs of blank lines.
  It ends with the navigation footer.
- `transform_final.py`. `extract_chapter_info` reads the chapter line, the quote
  and its author. `clean_and_transform` cleans the text. `number_headers` numbers
  the headings with regex patterns. `generate_toc` lists the numbered `##` and
  `###` headings.

The model is split into these modules:

- `Text` (`text.dfy`). Python's `split('\n')`, `'\n'.join`, `strip`, `rstrip`,
  `lower`, `\s`/`\d` scans and `f'{n}'` on strings, with the laws the other
  modules need. It also holds a generic line scan (`Scan`) that threads a state
  through a list of lines.
- `Headings` (`headings.dfy`). Headings as the numbering passes write them
  (`Rendered`), the regexes that read them back, and the anchor slug.
- `Substitutions` (`substitutions.dfy`). The citation-removing substitution
  shared by `transform_chapters_v2.py` and `transform_final.py`, and the collapse
  of newline runs.
- `Chapters` (`chapters.dfy`). `transform_chapters.py`.
- `Part3` (`part3.dfy`). `transform_part3.py`. `remove_reference_numbers`,
  `insert_toc`, `add_frontmatter`, `add_navigation` and the fallback placement
  are the same text in both files, so Part3 reuses the Chapters definitions.
- `ChaptersV2` (`chapters_v2.dfy`). `transform_chapters_v2.py`.
- `Final` (`final.dfy`). `transform_final.py`.

Every source function that loops over lines is a `method` with the same loop. Each
such method is proved equal to a specification function over the list of lines,
and the properties of the transformer are lemmas about that function. Regex
matches are modelled as scans over indices with the regex engine's greedy and
backtracking behaviour written out. The TOC regexes' `(.+)$` is modelled on lines
without '\n', which is all that `split('\n')` produces.

## Model

| member | source | states |
|---|---|---|
| Text.Split | transform_chapters.py:19 | `split('\n')` never returns an empty list, and no piece contains a newline |
| Text.JoinSplit | transform_chapters.py:19 | joining the pieces of a split with '\n' gives back the original text |
| Text.SplitJoin | transform_chapters.py:53 | splitting a join of newline-free lines gives back exactly those lines |
| Text.SplitConcat | transform_chapters.py:213 | splitting two texts glued by '\n' is splitting each and concatenating |
| Text.Strip | transform_chapters.py:35 | `strip()` leaves no whitespace at either end |
| Text.StripSurround | transform_chapters.py:35 | `strip()` removes only whitespace: everything in front of and after what it keeps is whitespace |
| Text.StripEmptyIff | transform_chapters.py:35 | `line.strip()` is empty exactly when the line is all whitespace |
| Text.RStrip | transform_chapters.py:213 | `rstrip()` is a prefix of the text that does not end in whitespace |
| Text.RStripKeeps | transform_chapters.py:213 | `rstrip()` never removes a non-space character or anything in front of one |
| Text.RStripTrailingSpace | transform_chapters.py:213 | appending whitespace does not change `rstrip()` |
| Text.Lower | transform_chapters.py:41 | `lower()` keeps the length, leaves no ASCII capital, changes only capitals, and turns each capital into the same letter in lower case |
| Text.NatToString | transform_chapters.py:94 | a counter is written as a non-empty run of decimal digits |
| Text.ScanAt | transform_chapters.py:72-116 | in a loop that emits one line per input line, output line `j` depends only on the first `j + 1` input lines |
| Headings.NumberPrefixEnd | transform_chapters.py:90 | the match of `^##\s*\d+\.\s*` (and its `###`, `####` forms) starts with the marker and lies inside the line |
| Headings.HeadingTitle | transform_chapters.py:90-91 | the title kept after the old number and the marker are removed has no surrounding whitespace |
| Headings.HeadingTitleWithin | transform_chapters.py:90-91 | the kept title is a piece of the line: any word it contains, the line contains |
| Headings.TitleGroup | transform_chapters.py:135 | `\s*(.+)$` matches exactly the non-empty rests, and its group is a non-empty suffix |
| Headings.ParseHeading | transform_chapters.py:135-137 | a line the TOC regex matches starts with its marker, and yields one label per level and a non-empty title |
| Headings.SpacesToHyphens | transform_chapters.py:138 | `replace(' ', '-')` keeps the length, leaves no space, and changes only the spaces |
| Headings.Without | transform_chapters.py:138 | `replace(c, '')` leaves no `c` |
| Headings.KeepWordAndHyphen | transform_chapters.py:139 | `re.sub(r'[^\w-]', '', s)` leaves only word characters and hyphens |
| Headings.SlugConcat | transform_chapters.py:138-139 | the anchor slug is built character by character, so it distributes over concatenation |
| Headings.SlugIsFilter | transform_chapters.py:138-139 | the removal of `?`, `'` and `,` is redundant: the `[^\w-]` filter removes them anyway |
| Headings.SlugChar | transform_chapters.py:138-139 | the slug of one character is that character lower-cased, `-` for a space, or nothing when it is not a word character |
| Headings.DottedAtOf | transform_chapters.py:144 | `(\d+)\.(\d+)\.` reads a written label back to its numbers |
| Headings.RenderedNoNewline | transform_chapters.py:94 | a numbered heading is a single line |
| Headings.RenderedContains | transform_part3.py:75 | a word that cannot start in the `## N. ` prefix occurs in a numbered heading only inside its title |
| Headings.TitleOfRendered | transform_chapters.py:90-91 | stripping the number prefix off a heading the numbering wrote gives back its title: renumbering does not stack labels |
| Headings.ParseRendered | transform_chapters.py:135-137 | the TOC regex reads a numbered heading back to its labels and its title |
| Substitutions.BracketEnd | transform_chapters_v2.py:187 | a match of `\[\d+(?:,\s*\d+)*\]` runs from a `[` to a `]`, with the `(?!\()` guard when asked |
| Substitutions.CitationEnd | transform_chapters_v2.py:187 | a citation match, leading spaces included, ends in `]` or is empty |
| Substitutions.RemoveCitations | transform_chapters_v2.py:187 | the substitution never lengthens a line |
| Substitutions.NoCitationUnchanged | transform_chapters_v2.py:187 | a line without `[` passes through unchanged |
| Substitutions.CitationRemoved | transform_chapters_v2.py:186-187 | a `[n]` marker and the spaces in front of it are deleted, the text before it is kept, and the rest of the line is substituted as if the marker had never been there |
| Substitutions.CitationListRemoved | transform_chapters_v2.py:186-187 | a citation list `[n0, n1, …, nk]` of any length (any spaces after each comma) and the spaces in front of it are deleted, the text before it is kept, and the rest of the line is substituted as if the list had never been there |
| Substitutions.CitationExample | transform_chapters_v2.py:186-187 | with or without the look-ahead, `see [1] and [2, 3, 4].` becomes `see and.`: every marker on the line goes |
| Substitutions.CitationsLocal | transform_chapters_v2.py:187 | the substitution never looks back: from two positions where two texts go on alike, it produces the same output, whatever lies in front |
| Substitutions.CitationEndLocal | transform_chapters_v2.py:187 | whether a citation match starts at a position, and how far it reaches, depends only on the text from that position on |
| Substitutions.ListEndOver | transform_chapters_v2.py:187 | when `]` follows, `(?:,\s*\d+)*` consumes a list tail of any length whole |
| Substitutions.LinkKept | transform_chapters_v2.py:187 | with the `(?!\()` guard, a `[n](` link target is kept whole |
| Substitutions.LinkLosesMarker | transform_final.py:66 | without the guard, a `[n](` link loses its `[n]` and keeps a stray `(` |
| Substitutions.CollapseShape | transform_chapters_v2.py:197 | from any point on, the collapse leaves no four newlines in a row, and a run of newlines is cut to three |
| Substitutions.CollapseNoFour | transform_chapters_v2.py:197 | after `re.sub(r'\n{4,}', '\n\n\n', …)` no four newlines follow each other |
| Substitutions.CollapseCopies | transform_chapters_v2.py:197 | a prefix whose newlines are all single is copied unchanged by the collapse |
| Substitutions.CollapseKeepsPrefix | transform_chapters_v2.py:197 | a prefix with only single newlines, and the newline after it, survive the collapse |
| Substitutions.CollapseKeepsBlankLine | transform_chapters_v2.py:197 | such a prefix followed by a blank line (a newline that ends the text or has another after it) keeps that blank line through the collapse |
| Chapters.MarkerEnd | transform_chapters.py:13 | a match of `\[(\d+)\](?!\()` runs from a `[` to a `]` and is at least three characters long |
| Chapters.RemoveReferenceNumbers | transform_chapters.py:10-14 | the substitution never lengthens the text |
| Chapters.RemoveShift | transform_chapters.py:13 | the substitution never looks back: text before the scan position does not change what it does |
| Chapters.RemoveMarkerFree | transform_chapters.py:13 | text without `[` passes through unchanged |
| Chapters.RemovePlain | transform_chapters.py:13 | a `[`-free prefix is copied, whatever follows it |
| Chapters.ReferenceMarkerRemoved | transform_chapters.py:13 | a `[digits]` marker not followed by `(` is deleted, and nothing else around it changes |
| Chapters.LinkNumberKept | transform_chapters.py:13 | `[n](url)` keeps its number: the bracket opens a link |
| Chapters.NonNumericBracketKept | transform_chapters.py:13 | a bracket whose content does not start with a digit is kept |
| Chapters.CommaListUntouched | transform_chapters.py:13 | a comma list like `[2, 3]` is not a marker and stays as it is |
| Chapters.CleanContent | transform_chapters.py:17-58 | the loop keeps the lines the specification function selects, then the reference markers are removed |
| Chapters.CleanDropsChrome | transform_chapters.py:26-32 | no kept line contains `Skip to Content` or the early-release heading |
| Chapters.CleanEmbedding | transform_chapters.py:24-51 | every kept line is an input line, and the kept lines are in input order |
| Chapters.CleanKeepsOrder | transform_chapters.py:24-51 | the cleaned lines are a subsequence of the input lines |
| Chapters.FooterLatch | transform_chapters.py:38-45 | the footer latch is on exactly when some earlier line in the last tenth was a footer line |
| Chapters.FooterDropsRest | transform_chapters.py:47-48 | from the first footer line on, nothing more is kept |
| Chapters.NoteSuppresses | transform_chapters.py:29-36 | after the early-release heading, lines whose stripped length is at most 100 are dropped |
| Chapters.NoteEndsAtLongLine | transform_chapters.py:34-36 | the first line whose stripped length exceeds 100 ends the suppression and is itself kept |
| Chapters.LevelOf | transform_chapters.py:74-107 | the branch the numbering takes is 2, 3 or 4, and only for lines starting `## ` (without "Table of Contents"), `### ` or `#### `; every other line gets 0 |
| Chapters.LevelBranches | transform_chapters.py:74-107 | each level is decided by its marker alone: level 2 exactly for `## ` lines without "Table of Contents", 3 exactly for `### ` lines, 4 exactly for `#### ` lines |
| Chapters.Label | transform_chapters.py:94-113 | a level-`lv` heading gets `lv - 1` numbers |
| Chapters.AddTocNumbering | transform_chapters.py:61-118 | the loop computes the numbering specification line by line and joins the result |
| Chapters.NumberOne | transform_chapters.py:74-116 | the loop body appends the numbered line and leaves the counters the specification gives |
| Chapters.NumberLineCopy | transform_chapters.py:74-76 | a line that is no numbered heading is copied and the counters stay as they were |
| Chapters.NumberLineTwo | transform_chapters.py:79-94 | a `## ` heading becomes `## h2+1. title`, and the deeper counters restart |
| Chapters.NumberLineThree | transform_chapters.py:97-104 | a `### ` heading becomes `### h2.h3+1. title`, and the `####` counter restarts |
| Chapters.NumberLineFour | transform_chapters.py:107-113 | a `#### ` heading becomes `#### h2.h3.h4+1. title` |
| Chapters.NumberLinesAt | transform_chapters.py:72-116 | output line `j` is input line `j` numbered under the counters the earlier lines left |
| Chapters.NumberingPassThrough | transform_chapters.py:115-116 | lines that are not numbered headings are copied unchanged |
| Chapters.RenderedLevel | transform_chapters.py:79-107 | a heading the numbering wrote takes the same branch when it is read again |
| Chapters.RenumberLine | transform_chapters.py:89-94 | renumbering a line the numbering wrote, under the same counters, changes nothing |
| Chapters.NumberRunTwice | transform_chapters.py:72-116 | renumbering the output replays the same counters line by line |
| Chapters.NumberingIdempotent | transform_chapters.py:61-118 | numbering the numbered lines again gives the same lines |
| Chapters.AddTocNumberingIdempotent | transform_chapters.py:61-118 | add_toc_numbering on its own output returns that output |
| Chapters.NumberLineNoNewline | transform_chapters.py:94-113 | numbering never introduces a line break |
| Chapters.CountersCount | transform_chapters.py:85-108 | after `k` lines, the first counter counts the `##` headings so far, the second the `###` headings since the last `##`, and the third the `####` headings since the last `##` or `###` |
| Chapters.CountsStep | transform_chapters.py:85-108 | counting headings moves the counts the same way the numbering bumps its counters |
| Chapters.NumberedHeading | transform_chapters.py:94-113 | a numbered heading's label is the counters right after it |
| Chapters.CounterExample | transform_chapters.py:85-113 | headings at levels 2, 2, 3, 2 are labelled `1.`, `2.`, `2.1.` and `3.` |
| Chapters.Indent | transform_chapters.py:140-158 | TOC entries are indented by nothing for `##`, three spaces for `###` and six for `####` |
| Chapters.CreateToc | transform_chapters.py:121-160 | the loop collects the TOC entries the specification gives and joins them |
| Chapters.TocLine | transform_chapters.py:127-158 | the loop body appends exactly the entry the specification gives for the line |
| Chapters.TocEntryOfNumbered | transform_chapters.py:128-158 | create_toc reads back from a numbered heading its entry, with the label it was given and its title, and nothing from a copied line |
| Chapters.NumberedEntry | transform_chapters.py:128-158 | a numbered line yields an entry exactly when it is a `##`, `###` or `####` heading |
| Chapters.HeadingEntriesCount | transform_chapters.py:121-160 | the TOC has one entry per numbered `##`, `###` and `####` heading |
| Chapters.TocOfNumbered | transform_chapters.py:121-160 | create_toc on the numbered text lists every numbered heading once, in document order, with its label |
| Chapters.TocRunValues | transform_chapters.py:126-160 | the TOC is the list of the entries its lines yield, in order |
| Chapters.InsertToc | transform_chapters.py:163-190 | the loop, including its pops from the list it iterates over, computes the insertion specification |
| Chapters.DropOldToc | transform_chapters.py:178-188 | the scan and the pops remove exactly the TOC-like run after the heading |
| Chapters.FindTocRunEnd | transform_chapters.py:179-183 | the scan stops at the first line after the heading that is not blank, a `-` item or a `digits.` item |
| Chapters.PopRun | transform_chapters.py:186-188 | popping index `i + 1` once per run line removes lines `i + 1` to `j - 1` |
| Chapters.InsertTocAt | transform_chapters.py:163-190 | the result is the lines up to the first TOC heading, a blank, the TOC, a blank, then the lines after the old TOC-like run |
| Chapters.InsertTocWithoutHeading | transform_chapters.py:169-172 | without a TOC heading, insert_toc changes nothing |
| Chapters.InsertTocRemovesOnlyTocLike | transform_chapters.py:178-188 | every removed line is TOC-like, and every other input line survives in order |
| Chapters.FallbackPos | transform_chapters.py:239-248 | the insert position lies inside the list, 0 meaning nowhere |
| Chapters.FallbackPosSpec | transform_chapters.py:239-248 | the block is inserted exactly when there is a first `# Chapter` line with a blank line at least three lines below it, and then right after the first such blank line |
| Chapters.FallbackOnlyInserts | transform_chapters.py:250-255 | the fallback only inserts: removing the four inserted lines gives the input back |
| Chapters.PlaceTocFallback | transform_chapters.py:238-255 | the fallback branch computes its specification |
| Chapters.FallbackScan | transform_chapters.py:240-248 | the two nested scans, with their breaks, find the specified position |
| Chapters.InsertBlock | transform_chapters.py:251-254 | the four inserts put the heading, a blank, the TOC and a blank at the position |
| Chapters.AddFrontmatterLines | transform_chapters.py:193-202 | line by line, the six front matter lines come before the text's own lines |
| Chapters.FrontmatterEnds | transform_chapters.py:195-201 | the front matter ends with its closing fence and a blank line |
| Chapters.NavigationIgnoresTrailingSpace | transform_chapters.py:213 | trailing whitespace in the text makes no difference |
| Chapters.AddNavigationLines | transform_chapters.py:205-213 | line by line, the right-stripped text's lines are followed by the five footer lines |
| Chapters.TransformChapter | transform_chapters.py:226-261 | the pipeline cleans, numbers, builds and places the TOC, and adds the front matter and the navigation |
| Chapters.DressedFrame | transform_chapters.py:258-261 | whatever the body, the page opens with the front matter up to its closing fence and ends with the navigation footer |
| Chapters.TransformChapterFrame | transform_chapters.py:226-261 | every page transform_chapter writes is framed by its front matter and its navigation footer |
| Part3.CleanContent | transform_part3.py:17-52 | the loop keeps the lines the specification function selects, then the reference markers are removed |
| Part3.CleanDropsChrome | transform_part3.py:24-42 | no kept line carries a skip marker, and the only chrome line kept is the TOC heading |
| Part3.CleanEmbedding | transform_part3.py:23-45 | every kept line is an input line, and the kept lines are in input order |
| Part3.CleanKeepsOrder | transform_part3.py:23-45 | the cleaned lines are a subsequence of the input lines |
| Part3.TocHeadingIsChrome | transform_part3.py:38-40 | the TOC heading itself counts as chrome, because its lower-cased text says "table of contents" |
| Part3.TocHeadingKept | transform_part3.py:38-42 | the TOC heading is kept even inside the skipped note |
| Part3.NoteSuppresses | transform_part3.py:28-45 | after the early-release heading, every line is dropped until a chapter opening or the TOC heading |
| Part3.SkipEndsAtChapter | transform_part3.py:33-35 | a line starting `# Chapter`, `In Chapter` or `In this` ends the suppression and is kept unless it is chrome |
| Part3.Level | transform_part3.py:68-101 | like transform_chapters.py, except that every `##` heading mentioning an exempt word is copied |
| Part3.AddTocNumbering | transform_part3.py:55-112 | the loop computes the numbering specification line by line and joins the result |
| Part3.NumberOne | transform_part3.py:68-110 | the loop body appends the numbered line and leaves the counters the specification gives |
| Part3.NumberLineAgrees | transform_part3.py:73-107 | a line that is not exempt is numbered as in transform_chapters.py |
| Part3.NumberRunAgrees | transform_part3.py:55-112 | when the only exempt headings are TOC headings, Part III's numbering is the numbering of transform_chapters.py |
| Part3.NumberLinesAt | transform_part3.py:66-110 | output line `j` is input line `j` numbered under the counters the earlier lines left |
| Part3.ExemptUnnumbered | transform_part3.py:75-77 | an exempt heading is copied and leaves the counters as they were |
| Part3.RenderedNotExempt | transform_part3.py:75-88 | a heading the numbering wrote is never exempt |
| Part3.RenumberLine | transform_part3.py:83-88 | renumbering a line the numbering wrote, under the same counters, changes nothing |
| Part3.NumberingIdempotent | transform_part3.py:55-112 | numbering the numbered lines again gives the same lines |
| Part3.AddTocNumberingIdempotent | transform_part3.py:55-112 | add_toc_numbering on its own output returns that output |
| Part3.CreateToc | transform_part3.py:115-145 | the loop collects the TOC entries the specification gives and joins them |
| Part3.TocLine | transform_part3.py:120-143 | the loop body appends exactly the entry the specification gives, nothing for exempt `##` or for `####` headings |
| Part3.ExemptUnlisted | transform_part3.py:126-128 | an exempt `##` heading and a `####` heading get no TOC entry |
| Part3.NumberedEntry | transform_part3.py:126-143 | a numbered line yields an entry exactly when it is a numbered `##` or `###` heading |
| Part3.TocEntryOfNumbered | transform_part3.py:126-143 | create_toc reads back the entry of a numbered `##` or `###` heading, and nothing from any other line |
| Part3.TocOfNumbered | transform_part3.py:115-145 | create_toc on the numbered text lists every numbered `##` and `###` heading once, in document order, with its label |
| Part3.TransformChapter | transform_part3.py:211-246 | the pipeline cleans, numbers, builds and places the TOC, and adds the front matter and the navigation |
| Part3.TransformChapterFrame | transform_part3.py:211-246 | every Part III page is framed by its front matter and its navigation footer |
| ChaptersV2.QuoteEnd | transform_chapters_v2.py:112-117 | the quote scan stops at the first early-release line at or after its start, or at the end |
| ChaptersV2.QuoteEndFirst | transform_chapters_v2.py:114-117 | no line the quote scan passes carries the early-release marker |
| ChaptersV2.LastNonBlankSpec | transform_chapters_v2.py:121-124 | only blank lines follow the author line before the marker, and without an author the whole range is blank |
| ChaptersV2.NonBlankIn | transform_chapters_v2.py:127-129 | the quote lines are non-blank and come from the lines before the author |
| ChaptersV2.ResumeAt | transform_chapters_v2.py:151-163 | the note scan stops at a content line or at the end |
| ChaptersV2.ResumeAtFirst | transform_chapters_v2.py:151-163 | every line the note scan passes over is blank, boilerplate or a GitHub link |
| ChaptersV2.QuoteBlockLayout | transform_chapters_v2.py:136-142 | quote lines `q0 … qm` become `> q0`, `>`, `> q1`, …, `>`, `> qm` and a closing blank line; no quote gives no block |
| ChaptersV2.TitleStep | transform_chapters_v2.py:105-145 | the title branch moves past the title line and records that the title is written |
| ChaptersV2.NoteStep | transform_chapters_v2.py:148-164 | the note branch moves past the marker line |
| ChaptersV2.Step | transform_chapters_v2.py:96-191 | every pass moves forward, only appends to the output, and never switches a flag back off |
| ChaptersV2.Run | transform_chapters_v2.py:96-191 | the whole loop only appends to the output and never switches a flag back off |
| ChaptersV2.TransformContent | transform_chapters_v2.py:73-202 | the method computes the specification of transform_content |
| ChaptersV2.Pass | transform_chapters_v2.py:97-191 | the loop body computes one step of the specification |
| ChaptersV2.TitlePass | transform_chapters_v2.py:105-145 | the title branch computes its specification |
| ChaptersV2.NotePass | transform_chapters_v2.py:148-164 | the note branch computes its specification |
| ChaptersV2.BodyPass | transform_chapters_v2.py:166-191 | the footer check and the body line compute their specification |
| ChaptersV2.TitleLines | transform_chapters_v2.py:107-142 | the title branch writes the heading, a blank and the quote block from its scans |
| ChaptersV2.FindQuoteEnd | transform_chapters_v2.py:112-117 | the scan finds the first early-release line |
| ChaptersV2.FindLastNonEmpty | transform_chapters_v2.py:121-124 | the scan finds the last non-blank line |
| ChaptersV2.CollectQuotes | transform_chapters_v2.py:127-129 | the scan collects the non-blank lines before the author |
| ChaptersV2.QuoteLines | transform_chapters_v2.py:136-142 | the block quote is built as specified |
| ChaptersV2.SkipEarlyRelease | transform_chapters_v2.py:151-163 | the note scan finds where the body resumes, and reports whether it found it |
| ChaptersV2.ChapterOpening | transform_chapters_v2.py:105-145 | the first `Chapter N.` line is written as `# ` plus the line and a blank, and the loop jumps to the early-release marker |
| ChaptersV2.TitleOnce | transform_chapters_v2.py:105 | once the title is written, a title line is an ordinary line |
| ChaptersV2.BodyEmbedding | transform_chapters_v2.py:186-191 | inside the body, before the footer, an ordinary line is written with its citations removed |
| ChaptersV2.FooterStarts | transform_chapters_v2.py:166-179 | a footer keyword inside the body switches the latch on, and that line is not written |
| ChaptersV2.NoFooterBeforeBody | transform_chapters_v2.py:167 | before the body has started, no footer keyword switches the latch on |
| ChaptersV2.FooterSilences | transform_chapters_v2.py:176-179 | once the footer latch is on, no later line is written |
| ChaptersV2.SilentWithoutNote | transform_chapters_v2.py:181-184 | after the title, if no later line carries the early-release marker, nothing more is written and the body never starts |
| ChaptersV2.NoteResumes | transform_chapters_v2.py:148-164 | the note branch writes nothing and resumes at the first content line after the marker |
| ChaptersV2.NoteScan | transform_chapters_v2.py:151-163 | the note scan passes over boilerplate only and stops at a content line |
| ChaptersV2.FrontFenceShape | transform_chapters_v2.py:80-84 | with single-line title and description, the five front matter lines are separated by single newlines and end with the fence |
| ChaptersV2.RunKeepsFront | transform_chapters_v2.py:80-194 | the joined output of the loop starts with the front matter fences and a newline, then ends or goes on with the newline of the empty sixth line |
| ChaptersV2.NavigationKeepsPrefix | transform_chapters_v2.py:200 | the footer keeps any prefix that ends in a non-space character, and the newline after it |
| ChaptersV2.NavigationKeepsBlankLine | transform_chapters_v2.py:200 | such a prefix followed by a blank line still starts the text after the footer is added, with two newlines after it |
| ChaptersV2.TransformContentFrame | transform_chapters_v2.py:73-202 | the output's first six lines are the six front matter lines, the last of them empty, whatever the content and the navigation |
| ChaptersV2.FrontLinesSix | transform_chapters_v2.py:80-85 | a text starting with the front matter fences and two newlines splits into the six front matter lines first |
| ChaptersV2.NavigationText | transform_chapters_v2.py:200 | the footer appended here is the footer of add_navigation in transform_chapters.py |
| ChaptersV2.NavigationNoFour | transform_chapters_v2.py:200 | the navigation footer never holds four newlines in a row |
| ChaptersV2.AddNavigationNoFour | transform_chapters_v2.py:200 | appending the footer keeps a text free of four newlines in a row |
| ChaptersV2.TransformContentNoFour | transform_chapters_v2.py:194-202 | the output of transform_content never holds four newlines in a row |
| Final.ExtractChapterInfo | transform_final.py:10-27 | the loop computes the specification of extract_chapter_info |
| Final.ExtractInfoSpec | transform_final.py:18-27 | the result is the last `Chapter` line before the author, stripped; the first candidate after the first `Chapter` line as quote; the next candidate as author |
| Final.PreambleIgnored | transform_final.py:19-21 | lines before the first `Chapter` line change nothing |
| Final.OpenersTracked | transform_final.py:19-20 | lines that are not candidates only move the chapter line to the latest `Chapter` line |
| Final.OpenerSeen | transform_final.py:19-20 | after a `Chapter` line the chapter line is never empty |
| Final.AuthorStep | transform_final.py:23-25 | the second candidate becomes the author, with the chapter line as it stands |
| Final.AuthorStops | transform_final.py:25 | the line that sets the author is the last line the loop reads |
| Final.NoChapterLine | transform_final.py:14-27 | without a `Chapter` line, all three results are empty |
| Final.InfoOrder | transform_final.py:21-23 | an author is only read after a quote, and a quote only after a chapter line |
| Final.CleanAndTransform | transform_final.py:30-70 | the loop computes the cleaning specification and joins the kept lines |
| Final.CleanSources | transform_final.py:37-68 | each kept line is an input line with its citations removed, in input order |
| Final.FooterOnlyInZone | transform_final.py:54-60 | the footnote latch only switches on at a footnote line in the last 8 percent of the file |
| Final.FooterStarts | transform_final.py:54-63 | a footnote line in the zone, reached outside the skip, switches the latch on and is dropped |
| Final.FooterDropsRest | transform_final.py:62-63 | once the latch is on it stays on, and nothing more is kept |
| Final.NoteSuppresses | transform_final.py:42-52 | after the early-release heading, every line that does not end the skip is dropped |
| Final.NoteEndsAtLongLine | transform_final.py:48-50 | the first non-blank line longer than 150 characters ends the skip and is kept with its citations removed |
| Final.LevelOf | transform_final.py:83-109 | the branch number_headers takes: 2, 3 or 4 exactly when `^##\s+[^#]`, `^###\s+[^#]` or `^####\s+` matches, 0 otherwise |
| Final.ChapterLineUnmarked | transform_final.py:83-85 | a `# Chapter` line matches none of the heading patterns, so its explicit test never changes the outcome |
| Final.MarkersExclusive | transform_final.py:88-103 | at most one of the three heading patterns matches a line, so the order of the `elif` chain does not matter |
| Final.MarkedTitle | transform_final.py:92 | the title after the marker and its whitespace has no surrounding whitespace |
| Final.NumberHeaders | transform_final.py:73-111 | the loop computes the numbering specification line by line and joins the result |
| Final.NumberOne | transform_final.py:83-109 | the loop body appends the numbered line and leaves the counters the specification gives |
| Final.NumberLineCopy | transform_final.py:108-109 | a line no pattern matches is copied and the counters stay as they were |
| Final.NumberLineTwo | transform_final.py:88-93 | a `##` heading becomes `## h2+1. title`, and the deeper counters restart |
| Final.NumberLineThree | transform_final.py:96-100 | a `###` heading becomes `### h2.h3+1. title`, and the `####` counter restarts |
| Final.NumberLineFour | transform_final.py:103-106 | a `####` heading becomes `#### h2.h3.h4+1. title` |
| Final.NumberLinesAt | transform_final.py:81-109 | output line `j` is input line `j` numbered under the counters the earlier lines left |
| Final.NumberingPassThrough | transform_final.py:108-109 | lines that are not headings are copied unchanged |
| Final.CountersCount | transform_final.py:87-106 | after `k` lines, h2_num counts the `##` headings so far, h3_num the `###` headings since the last `##`, and h4_num the `####` headings since the last `##` or `###` |
| Final.NumberedHeading | transform_final.py:88-106 | a numbered heading's label is the counters right after it |
| Final.NumberingStacks | transform_final.py:92-100 | number_headers does not look for an existing label: a heading it wrote gets a second label in front of the first |
| Final.RenderedLevelOf | transform_final.py:88-103 | a heading number_headers wrote takes the same branch when read again |
| Final.RenderedMarkedTitle | transform_final.py:92 | the title read off a heading number_headers wrote still carries its old label |
| Final.SpacedGroup | transform_final.py:121 | `\s+(.+)$` matches exactly when the rest starts with whitespace and has a second character, and its group is a non-empty proper suffix |
| Final.ParseNumbered | transform_final.py:121-131 | a line generate_toc's pattern matches starts with the marker and whitespace, and yields one label per level and a non-empty title |
| Final.GenerateToc | transform_final.py:114-136 | the loop collects the TOC lines the specification gives and joins them |
| Final.TocLinesFor | transform_final.py:120-134 | the loop body appends exactly the TOC lines the specification gives for the line |
| Final.AtMostOneEntry | transform_final.py:119-134 | the two patterns never both match, so each line adds at most one TOC line |
| Final.DeepHeadingsUnlisted | transform_final.py:121-129 | lines starting with `####` add nothing to the TOC |
| Final.SameEntryText | transform_final.py:123-126 | generate_toc writes the same TOC line as create_toc in transform_chapters.py for the same label and title |
| Final.EntryOfNumbered | transform_final.py:119-134 | a numbered line yields a TOC line only when it was a `##` or `###` heading |
| Final.TocLinesOfNumbered | transform_final.py:119-134 | generate_toc reads back from a line number_headers wrote the entry of a `##` or `###` heading with a non-empty title, and nothing from any other line |
| Final.RenderedListed | transform_final.py:119-134 | a heading written at level `lv` is listed for `##` and `###` with a non-empty title, and not listed otherwise |
| Final.ParsedMarked | transform_final.py:88-129 | a line generate_toc's pattern matches also matches number_headers' pattern for the same marker |
| Final.ParseNumberedRendered | transform_final.py:121-131 | generate_toc's pattern reads a heading number_headers wrote back to its labels and its title, when the title is not empty |
| Final.TocOfNumbered | transform_final.py:114-136 | generate_toc on number_headers' output lists every `##` and `###` heading with a non-empty title once, in document order, with its label |
| Final.TocRunValues | transform_final.py:119-136 | the TOC is the list of the lines each input line yields, in order |

## Left out

- Reading and writing files, printing, creating directories and the chapter
  tables of each `main` (transform_chapters.py:216-224 and 262-316,
  transform_part3.py:201-209 and 247-313, transform_chapters_v2.py:11-70,
  transform_final.py:139-229). These are I/O and configuration. The
  transform_chapter functions are modelled as functions of the file's contents.
- The page template of transform_final.py:157-181 is left out. It formats the
  extracted info into a fixed string and adds nothing to prove.
- `docs/sidebars.ts` is not part of this model. It is configuration, not code.
- Unicode. `lower()`, `\w` and `\d` are modelled over ASCII only. `\s` and
  `strip()` are modelled over the full set of Python whitespace characters.
- Floating point. `i > len(lines) * 0.9` is modelled as `10 * i > 9 * n`, and
  `* 0.92` as `100 * i > 92 * n`. The two tests agree for every line count a
  document can have, because the doubles nearest 0.9 and 0.92 lie above them.
- Regexes on multi-line input. `(.+)$` is modelled for lines without '\n', which
  is all `split('\n')` produces.
- `in_early_release_note` (transform_chapters_v2.py:88, 149, 162) is not modelled.
  The source sets it but never reads it. `author_line` is kept in the loop state
  but, as in the source, never written to the output.
- ChaptersV2.TransformContent: the chapter dictionary is passed as separate
  fields.
- Chapters.TransformChapter and Part3.TransformChapter: the test `'## Table of
  Contents' in content` is modelled as a substring test on the numbered text, as
  in the source. Nothing is proved about which branch a particular chapter takes.
