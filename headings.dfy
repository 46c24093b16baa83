/**
  The heading grammar that transform_chapters.py and transform_part3.py share
  character for character: the number-prefix pattern `^#{h}\s*(\d+\.){g}\s*`
  that add_toc_numbering strips, the pattern `^#{h}\s*(\d+)\.…\s*(.+)$` that
  create_toc matches, the rendered heading `#… N.M. title`, and the anchor
  slug of create_toc.
 */
module Headings {
  import opened Text

  /** `(\d+\.){g}` matched from index `i` of `s`: the digit runs and where the match ends. */
  function DottedAt(s: string, i: nat, g: nat): (r: Option<(seq<string>, int)>)
    requires i <= |s|
    ensures r.Some? ==> |r.value.0| == g && i <= r.value.1 <= |s|
    decreases g
  {
    if g == 0 then Some(([], i as int))
    else
      var d := SkipDigits(s, i);
      if d == i || d == |s| || s[d] != '.' then None
      else match DottedAt(s, d + 1, g - 1)
        case None => None
        case Some(p) => Some(([s[i..d]] + p.0, p.1))
  }

  /** Number labels written as `N.` / `N.M.` / `N.M.K.`. */
  function Dotted(nums: seq<string>): string {
    if nums == [] then "" else nums[0] + "." + Dotted(nums[1..])
  }

  /** Number labels written without separators, as anchors carry them: `42` for 4.2. */
  function Concat(nums: seq<string>): string {
    if nums == [] then "" else nums[0] + Concat(nums[1..])
  }

  predicate IsLabel(nums: seq<string>) {
    forall k | 0 <= k < |nums| :: |nums[k]| > 0 && AllDigits(nums[k])
  }

  /** A heading as add_toc_numbering writes it: `## 3. Title`, `### 3.1. Title`. */
  function Rendered(hashes: string, nums: seq<string>, title: string): string {
    hashes + " " + Dotted(nums) + " " + title
  }

  /** End of the match of `^#{h}\s*(\d+\.){g}\s*` (`hashes` is `#{h}`), or 0 when it does not match. */
  function NumberPrefixEnd(line: string, hashes: string, g: nat): (m: nat)
    requires |hashes| > 0
    ensures m <= |line|
    ensures m > 0 ==> StartsWith(line, hashes) && |hashes| <= m
  {
    if !StartsWith(line, hashes) then 0
    else
      match DottedAt(line, SkipSpaces(line, |hashes|), g)
      case None => 0
      case Some(r) => SkipSpaces(line, r.1)
  }

  /**
    The title add_toc_numbering keeps: the line with an old number prefix
    replaced by the bare marker, the first marker removed, then stripped.
   */
  function HeadingTitle(line: string, hashes: string, g: nat): (t: string)
    requires 0 < |hashes| < |line|
    ensures t == [] || (!IsSpace(t[0]) && !IsSpace(t[|t| - 1]))
  {
    var m := NumberPrefixEnd(line, hashes, g);
    Strip(if m > 0 then line[m..] else line[|hashes| + 1..])
  }

  /** The kept title is a piece of the line: whatever it contains, the line contains. */
  lemma HeadingTitleWithin(line: string, hashes: string, g: nat, w: string)
    requires 0 < |hashes| < |line|
    requires Contains(HeadingTitle(line, hashes, g), w)
    ensures Contains(line, w)
  {
    var m := NumberPrefixEnd(line, hashes, g);
    var start := if m > 0 then m else |hashes| + 1;
    StripContains(line[start..], w);
    assert line[start..|line|] == line[start..];
    ContainsSlice(line, start, |line|, w);
  }

  /** `\s*(.+)$` on a line without '\n': the group, after greedy `\s*` gives back one character if it must. */
  function TitleGroup(s: string): (r: Option<string>)
    ensures r.Some? <==> |s| > 0
    ensures r.Some? ==> 0 < |r.value| <= |s| && r.value == s[|s| - |r.value|..]
  {
    if |s| == 0 then None
    else
      var w := SkipSpaces(s, 0);
      if w < |s| then Some(s[w..]) else Some(s[|s| - 1..])
  }

  /** The groups of `^#{h}\s*(\d+)\.(\d+)\.…\s*(.+)$`: the labels and the title. */
  function ParseHeading(line: string, hashes: string, g: nat): (r: Option<(seq<string>, string)>)
    requires |hashes| > 0
    ensures r.Some? ==> StartsWith(line, hashes) && |r.value.0| == g && |r.value.1| > 0
  {
    if !StartsWith(line, hashes) then None
    else
      match DottedAt(line, SkipSpaces(line, |hashes|), g)
      case None => None
      case Some(p) =>
        match TitleGroup(line[p.1..])
        case None => None
        case Some(t) => Some((p.0, t))
  }

  /** The title a TOC shows for a heading rendered with title `t`. */
  function ShownTitle(t: string): string {
    if t == [] then " " else t
  }

  // ---------------------------------------------------------------------------
  // Anchor slug

  /** `s.replace(' ', '-')`: no space is left, and only spaces change. */
  function SpacesToHyphens(s: string): (r: string)
    ensures |r| == |s|
    ensures forall i | 0 <= i < |s| :: r[i] == (if s[i] == ' ' then '-' else s[i])
    ensures forall i | 0 <= i < |r| :: r[i] != ' '
    ensures forall i | 0 <= i < |s| :: s[i] == ' ' || r[i] == s[i]
  {
    seq(|s|, i requires 0 <= i < |s| => if s[i] == ' ' then '-' else s[i])
  }

  /** `s.replace(c, '')`. */
  function Without(s: string, c: char): (r: string)
    ensures forall i | 0 <= i < |r| :: r[i] != c
  {
    if s == [] then "" else (if s[0] == c then "" else [s[0]]) + Without(s[1..], c)
  }

  /** `re.sub(r'[^\w-]', '', s)`. */
  function KeepWordAndHyphen(s: string): (r: string)
    ensures forall i | 0 <= i < |r| :: IsWordChar(r[i]) || r[i] == '-'
  {
    if s == [] then "" else (if IsWordChar(s[0]) || s[0] == '-' then [s[0]] else "") + KeepWordAndHyphen(s[1..])
  }

  /** The anchor slug of create_toc: lower-case, spaces to hyphens, `?` `'` `,` dropped, then `[^\w-]` dropped. */
  function Slug(title: string): string {
    KeepWordAndHyphen(Without(Without(Without(SpacesToHyphens(Lower(title)), '?'), '\''), ','))
  }

  lemma {:induction false} WithoutConcat(a: string, b: string, c: char)
    ensures Without(a + b, c) == Without(a, c) + Without(b, c)
    decreases |a|
  {
    if a != [] {
      assert (a + b)[1..] == a[1..] + b;
      WithoutConcat(a[1..], b, c);
    } else {
      assert a + b == b;
    }
  }

  lemma {:induction false} KeepConcat(a: string, b: string)
    ensures KeepWordAndHyphen(a + b) == KeepWordAndHyphen(a) + KeepWordAndHyphen(b)
    decreases |a|
  {
    if a != [] {
      assert (a + b)[1..] == a[1..] + b;
      KeepConcat(a[1..], b);
    } else {
      assert a + b == b;
    }
  }

  /** Dropping a character that `[^\w-]` drops anyway changes nothing. */
  lemma {:induction false} KeepWithout(s: string, c: char)
    requires !IsWordChar(c) && c != '-'
    ensures KeepWordAndHyphen(Without(s, c)) == KeepWordAndHyphen(s)
    decreases |s|
  {
    if s != [] {
      KeepWithout(s[1..], c);
      var head := if s[0] == c then "" else [s[0]];
      KeepConcat(head, Without(s[1..], c));
    }
  }

  /** The slug is built character by character: it distributes over concatenation. */
  lemma SlugConcat(a: string, b: string)
    ensures Slug(a + b) == Slug(a) + Slug(b)
  {
    assert Lower(a + b) == Lower(a) + Lower(b);
    var h := SpacesToHyphens(Lower(a + b));
    assert h == SpacesToHyphens(Lower(a)) + SpacesToHyphens(Lower(b));
    WithoutConcat(SpacesToHyphens(Lower(a)), SpacesToHyphens(Lower(b)), '?');
    var w1a, w1b := Without(SpacesToHyphens(Lower(a)), '?'), Without(SpacesToHyphens(Lower(b)), '?');
    WithoutConcat(w1a, w1b, '\'');
    var w2a, w2b := Without(w1a, '\''), Without(w1b, '\'');
    WithoutConcat(w2a, w2b, ',');
    KeepConcat(Without(w2a, ','), Without(w2b, ','));
  }

  /** The explicit removal of `?`, `'` and `,` is redundant: `[^\w-]` removes them too. */
  lemma SlugIsFilter(title: string)
    ensures Slug(title) == KeepWordAndHyphen(SpacesToHyphens(Lower(title)))
  {
    var h := SpacesToHyphens(Lower(title));
    KeepWithout(Without(Without(h, '?'), '\''), ',');
    KeepWithout(Without(h, '?'), '\'');
    KeepWithout(h, '?');
  }

  lemma WithoutOne(x: char, c: char)
    ensures Without([x], c) == if x == c then [] else [x]
  {
    assert [x][1..] == [];
    assert Without([x], c) == (if x == c then "" else [x]) + Without([x][1..], c);
  }

  lemma KeepOne(x: char)
    ensures KeepWordAndHyphen([x]) == if IsWordChar(x) || x == '-' then [x] else []
  {
    assert [x][1..] == [];
    assert KeepWordAndHyphen([x]) == (if IsWordChar(x) || x == '-' then [x] else "") + KeepWordAndHyphen([x][1..]);
  }

  /** What one title character becomes in the slug: a space a hyphen, a word character or hyphen itself (lower-cased), anything else nothing. */
  function SlugOf(c: char): string {
    if c == ' ' then "-" else if IsWordChar(c) || c == '-' then [LowerChar(c)] else ""
  }

  /** The slug of a single character; with SlugConcat this determines the slug of every title. */
  lemma SlugChar(c: char)
    ensures Slug([c]) == SlugOf(c)
  {
    var l := LowerChar(c);
    var h := if l == ' ' then '-' else l;
    SlugIsFilter([c]);
    HyphenatedOne(c);
    KeepOne(h);
  }

  /** One character, lower-cased, with a space turned into a hyphen. */
  lemma HyphenatedOne(c: char)
    ensures SpacesToHyphens(Lower([c])) == [if LowerChar(c) == ' ' then '-' else LowerChar(c)]
  {
    assert Lower([c]) == [LowerChar(c)];
  }

  /** A TOC line: `{indent}{N.M.} [{title}](#{NM}-{slug})`. */
  function EntryText(indent: string, nums: seq<string>, title: string): string {
    indent + Dotted(nums) + " [" + title + "](#" + Concat(nums) + "-" + Slug(title) + ")"
  }

  // ---------------------------------------------------------------------------
  // Facts about rendered headings

  lemma OccursAtConcat(s: string, a: string, b: string, i: nat)
    requires OccursAt(s, a + b, i)
    ensures OccursAt(s, a, i) && OccursAt(s, b, i + |a|)
  {
    assert s[i..i + |a|] == (a + b)[..|a|];
    assert s[i + |a|..i + |a| + |b|] == (a + b)[|a|..];
  }

  lemma LabelTail(nums: seq<string>)
    requires IsLabel(nums) && nums != []
    ensures IsLabel(nums[1..]) && |nums[0]| > 0 && AllDigits(nums[0])
  {
    forall k | 0 <= k < |nums| - 1 ensures |nums[1..][k]| > 0 && AllDigits(nums[1..][k]) {
      assert nums[1..][k] == nums[k + 1];
    }
  }

  /** A digit run followed by its dot, sitting at index `i`, is what `\d+\.` consumes there. */
  lemma DigitsThenDot(s: string, n: string, i: nat)
    requires |n| > 0 && AllDigits(n) && OccursAt(s, n + ".", i)
    ensures SkipDigits(s, i) == i + |n| && s[i..i + |n|] == n && s[i + |n|] == '.'
  {
    OccursAtConcat(s, n, ".", i);
    assert s[i..i + |n| + 1][|n|] == s[i + |n|];
    forall k | i <= k < i + |n| ensures IsDigit(s[k]) {
      assert s[i..i + |n|][k - i] == s[k];
    }
    SkipDigitsAt(s, i, i + |n|);
  }

  /** `(\d+\.){g}` reads a written label back. */
  lemma {:induction false} DottedAtOf(s: string, i: nat, nums: seq<string>)
    requires IsLabel(nums) && OccursAt(s, Dotted(nums), i)
    ensures DottedAt(s, i, |nums|) == Some((nums, i + |Dotted(nums)|))
    decreases |nums|
  {
    if nums != [] {
      DottedAtStep(s, i, nums);
      DottedAtOf(s, i + |nums[0]| + 1, nums[1..]);
      DottedAtCons(s, i, |nums|, nums[0], nums[1..], i + |nums[0]| + 1 + |Dotted(nums[1..])|);
      HeadTail(nums);
    }
  }

  /** `\d+\.` matching `n.` at `i`, followed by `g - 1` more groups. */
  lemma DottedAtCons(s: string, i: nat, g: nat, n: string, rest: seq<string>, e: int)
    requires g == |rest| + 1
    requires |n| > 0
    requires i + |n| < |s|
    requires SkipDigits(s, i) == i + |n|
    requires s[i..i + |n|] == n
    requires s[i + |n|] == '.'
    requires DottedAt(s, i + |n| + 1, |rest|) == Some((rest, e))
    ensures DottedAt(s, i, g) == Some(([n] + rest, e))
  {
  }

  /** The first label of a written label list, and where the rest of the list sits. */
  lemma DottedAtStep(s: string, i: nat, nums: seq<string>)
    requires IsLabel(nums) && nums != [] && OccursAt(s, Dotted(nums), i)
    ensures |nums[0]| > 0 && i + |nums[0]| < |s|
    ensures SkipDigits(s, i) == i + |nums[0]| && s[i..i + |nums[0]|] == nums[0] && s[i + |nums[0]|] == '.'
    ensures IsLabel(nums[1..]) && OccursAt(s, Dotted(nums[1..]), i + |nums[0]| + 1)
    ensures |Dotted(nums)| == |nums[0]| + 1 + |Dotted(nums[1..])|
  {
    var n, more := nums[0], nums[1..];
    assert Dotted(nums) == (n + ".") + Dotted(more);
    LabelTail(nums);
    OccursAtConcat(s, n + ".", Dotted(more), i);
    DigitsThenDot(s, n, i);
  }

  lemma {:induction false} DottedShape(nums: seq<string>)
    requires IsLabel(nums) && |nums| > 0
    ensures |Dotted(nums)| > 0 && IsDigit(Dotted(nums)[0])
    ensures forall i | 0 <= i < |Dotted(nums)| :: IsDigit(Dotted(nums)[i]) || Dotted(nums)[i] == '.'
    ensures NoNewline(Dotted(nums))
    decreases |nums|
  {
    if |nums| > 1 {
      DottedShape(nums[1..]);
    }
  }

  /** Where the pieces of a rendered heading sit in it. */
  lemma RenderedLayout(hashes: string, nums: seq<string>, title: string)
    requires |hashes| > 0 && IsLabel(nums) && |nums| > 0
    ensures var line, d := Rendered(hashes, nums, title), Dotted(nums);
      && |line| == |hashes| + |d| + 2 + |title|
      && StartsWith(line, hashes) && StartsWith(line, hashes + " ")
      && line[|hashes|] == ' ' && !IsSpace(line[|hashes| + 1])
      && OccursAt(line, d, |hashes| + 1)
      && line[|hashes| + 1 + |d|] == ' '
      && line[|hashes| + 1 + |d|..] == " " + title
      && line[|hashes| + 2 + |d|..] == title
  {
    var line, d := Rendered(hashes, nums, title), Dotted(nums);
    DottedShape(nums);
    assert line == (hashes + " ") + d + (" " + title);
    assert line[..|hashes| + 1] == hashes + " ";
    assert line[..|hashes|] == hashes;
    assert line[|hashes| + 1..|hashes| + 1 + |d|] == d;
    assert line[|hashes| + 1] == d[0];
    assert line[|hashes| + 1 + |d|..] == " " + title;
  }

  /** A word that cannot start inside the `#… N.M. ` prefix occurs in a rendered heading only inside its title. */
  lemma RenderedContains(hashes: string, nums: seq<string>, title: string, w: string)
    requires IsLabel(nums) && |nums| > 0 && (forall k | 0 <= k < |hashes| :: hashes[k] == '#')
    requires |w| > 0 && w[0] != '#' && w[0] != ' ' && w[0] != '.' && !IsDigit(w[0])
    requires Contains(Rendered(hashes, nums, title), w)
    ensures Contains(title, w)
  {
    var p := hashes + " " + Dotted(nums) + " ";
    DottedShape(nums);
    forall k | 0 <= k < |p| ensures p[k] != w[0] {
      if k < |hashes| {
        assert p[k] == hashes[k];
      } else if |hashes| < k < |hashes| + 1 + |Dotted(nums)| {
        assert p[k] == Dotted(nums)[k - |hashes| - 1];
      }
    }
    assert Rendered(hashes, nums, title) == p + title;
    ContainsAfterPrefix(p, title, w);
  }

  lemma RenderedNoNewline(hashes: string, nums: seq<string>, title: string)
    requires IsLabel(nums) && |nums| > 0 && NoNewline(hashes) && NoNewline(title)
    ensures NoNewline(Rendered(hashes, nums, title))
  {
    var line, d := Rendered(hashes, nums, title), Dotted(nums);
    DottedShape(nums);
    forall k | 0 <= k < |line| ensures line[k] != '\n' {
      if k < |hashes| {
        assert line[k] == hashes[k];
      } else if |hashes| < k < |hashes| + 1 + |d| {
        assert line[k] == d[k - |hashes| - 1];
      } else if k > |hashes| + 1 + |d| {
        assert line[k] == title[k - |hashes| - 2 - |d|];
      }
    }
  }

  lemma HeadingTitleNoNewline(line: string, hashes: string, g: nat)
    requires 0 < |hashes| < |line| && NoNewline(line)
    ensures NoNewline(HeadingTitle(line, hashes, g))
  {
    var m := NumberPrefixEnd(line, hashes, g);
    var start := if m > 0 then m else |hashes| + 1;
    var rest := line[start..];
    assert NoNewline(rest) by {
      forall k | 0 <= k < |rest| ensures rest[k] != '\n' {
        assert rest[k] == line[start + k];
      }
    }
    var t := rest[StripStart(rest)..StripEnd(rest)];
    assert HeadingTitle(line, hashes, g) == t;
    forall k | 0 <= k < |t| ensures t[k] != '\n' {
      assert t[k] == rest[StripStart(rest) + k];
    }
  }

  /** Stripping the number prefix off a rendered heading gives back its title. */
  lemma TitleOfRendered(hashes: string, nums: seq<string>, title: string)
    requires |hashes| > 0 && IsLabel(nums) && |nums| > 0
    requires title == [] || (!IsSpace(title[0]) && !IsSpace(title[|title| - 1]))
    ensures NumberPrefixEnd(Rendered(hashes, nums, title), hashes, |nums|) == |Rendered(hashes, nums, title)| - |title|
    ensures HeadingTitle(Rendered(hashes, nums, title), hashes, |nums|) == title
  {
    RenderedSpaceAfterHashes(hashes, nums, title);
    RenderedLabelRead(hashes, nums, title);
    RenderedTitleAfterLabel(hashes, nums, title);
    StripNoOp(title);
  }

  /** In a rendered heading, `\s*` after the label takes the one space before the title. */
  lemma RenderedTitleAfterLabel(hashes: string, nums: seq<string>, title: string)
    requires |hashes| > 0 && IsLabel(nums) && |nums| > 0
    requires title == [] || !IsSpace(title[0])
    ensures var p := |hashes| + 1 + |Dotted(nums)|;
      && p + 1 <= |Rendered(hashes, nums, title)|
      && SkipSpaces(Rendered(hashes, nums, title), p) == p + 1
      && Rendered(hashes, nums, title)[p + 1..] == title
  {
    var line, d := Rendered(hashes, nums, title), Dotted(nums);
    var p := |hashes| + 1 + |d|;
    RenderedLayout(hashes, nums, title);
    assert p + 1 == |line| || line[p + 1] == title[0];
    SkipOneSpace(line, p);
  }

  /** `\s*(.+)$` after the single space that follows a rendered label. */
  lemma TitleGroupAfterSpace(title: string)
    requires title == [] || !IsSpace(title[0])
    ensures TitleGroup(" " + title) == Some(ShownTitle(title))
  {
    var s := " " + title;
    if title != [] {
      assert s[1] == title[0];
      assert s[1..] == title;
      SkipOneSpace(s, 0);
    } else {
      assert s == " ";
      assert SkipSpaces(" ", 0) == 1;
    }
  }

  lemma ParseHeadingOf(line: string, hashes: string, g: nat, w: nat, nums: seq<string>, p: nat, t: string)
    requires |hashes| > 0 && StartsWith(line, hashes)
    requires w <= |line| && SkipSpaces(line, |hashes|) == w
    requires DottedAt(line, w, g) == Some((nums, p as int)) && p <= |line|
    requires TitleGroup(line[p..]) == Some(t)
    ensures ParseHeading(line, hashes, g) == Some((nums, t))
  {
  }

  /** create_toc's pattern reads a rendered heading back: its labels and its (shown) title. */
  lemma ParseRendered(hashes: string, nums: seq<string>, title: string)
    requires |hashes| > 0 && IsLabel(nums) && |nums| > 0
    requires title == [] || !IsSpace(title[0])
    ensures ParseHeading(Rendered(hashes, nums, title), hashes, |nums|) == Some((nums, ShownTitle(title)))
  {
    var p := |hashes| + 1 + |Dotted(nums)|;
    RenderedSpaceAfterHashes(hashes, nums, title);
    RenderedLabelRead(hashes, nums, title);
    RenderedTitleRead(hashes, nums, title);
    ParseHeadingOf(Rendered(hashes, nums, title), hashes, |nums|, |hashes| + 1, nums, p, ShownTitle(title));
  }

  /** In a rendered heading, `\s*` after the hashes takes the one space. */
  lemma RenderedSpaceAfterHashes(hashes: string, nums: seq<string>, title: string)
    requires |hashes| > 0 && IsLabel(nums) && |nums| > 0
    ensures StartsWith(Rendered(hashes, nums, title), hashes)
    ensures SkipSpaces(Rendered(hashes, nums, title), |hashes|) == |hashes| + 1
  {
    RenderedLayout(hashes, nums, title);
    SkipOneSpace(Rendered(hashes, nums, title), |hashes|);
  }

  /** In a rendered heading, `(\d+\.){g}` reads the label back. */
  lemma RenderedLabelRead(hashes: string, nums: seq<string>, title: string)
    requires |hashes| > 0 && IsLabel(nums) && |nums| > 0
    ensures |hashes| + 1 + |Dotted(nums)| <= |Rendered(hashes, nums, title)|
    ensures DottedAt(Rendered(hashes, nums, title), |hashes| + 1, |nums|)
         == Some((nums, |hashes| + 1 + |Dotted(nums)|))
  {
    RenderedLayout(hashes, nums, title);
    DottedAtOf(Rendered(hashes, nums, title), |hashes| + 1, nums);
  }

  /** In a rendered heading, `\s*(.+)$` after the label reads the (shown) title back. */
  lemma RenderedTitleRead(hashes: string, nums: seq<string>, title: string)
    requires |hashes| > 0 && IsLabel(nums) && |nums| > 0
    requires title == [] || !IsSpace(title[0])
    ensures |hashes| + 1 + |Dotted(nums)| <= |Rendered(hashes, nums, title)|
    ensures TitleGroup(Rendered(hashes, nums, title)[|hashes| + 1 + |Dotted(nums)|..]) == Some(ShownTitle(title))
  {
    RenderedLayout(hashes, nums, title);
    TitleGroupAfterSpace(title);
  }
}
