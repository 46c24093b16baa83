/**
  The regular-expression substitutions of the later transformers, each written
  out as the left-to-right scan `re.sub` performs: citation removal
  `\s*\[\d+(?:,\s*\d+)*\]`, with or without the `(?!\()` look-ahead, and the
  collapse of four or more consecutive newlines into three.
 */
module Substitutions {
  import opened Text
  import Chapters

  // ---------------------------------------------------------------------------
  // Citation markers

  /** After a `\d+` that ended at `d`, the end of the repetition `(?:,\s*\d+)*`. */
  function ListEnd(s: string, d: nat): (e: nat)
    requires d <= |s|
    ensures d <= e <= |s|
    decreases |s| - d
  {
    if d < |s| && s[d] == ',' then
      var k := SkipSpaces(s, d + 1);
      var d2 := SkipDigits(s, k);
      if d2 > k then ListEnd(s, d2) else d
    else d
  }

  /** End of a `\[\d+(?:,\s*\d+)*\]` match starting at index `b`, or `b` when there is none; `guard` adds the look-ahead `(?!\()`. */
  function BracketEnd(s: string, b: nat, guard: bool): (e: nat)
    requires b <= |s|
    ensures e == b || (b + 3 <= e <= |s| && s[b] == '[' && s[e - 1] == ']')
  {
    if b < |s| && s[b] == '[' then
      var d := SkipDigits(s, b + 1);
      if d > b + 1 then
        var c := ListEnd(s, d);
        if c < |s| && s[c] == ']' && (!guard || c + 1 == |s| || s[c + 1] != '(') then c + 1 else b
      else b
    else b
  }

  /**
    End of a citation match starting at index `i`, or `i` when there is none.
    Every quantifier of the pattern is greedy and backtracking cannot rescue a
    failed attempt (the character after each shortened run would be another
    space or digit where `[`, `,` or `]` is needed), so one greedy pass decides
    the match.
   */
  function CitationEnd(s: string, i: nat, guard: bool): (e: nat)
    requires i <= |s|
    ensures e == i || (i < e <= |s| && s[e - 1] == ']')
  {
    var b := SkipSpaces(s, i);
    var e := BracketEnd(s, b, guard);
    if e > b then e else i
  }

  /** The substitution from index `i` on: a match is dropped and the scan resumes after it. */
  function RemoveCitationsFrom(s: string, i: nat, guard: bool): (r: string)
    requires i <= |s|
    ensures |r| <= |s| - i
    decreases |s| - i
  {
    if i == |s| then ""
    else
      var e := CitationEnd(s, i, guard);
      if e > i then RemoveCitationsFrom(s, e, guard) else [s[i]] + RemoveCitationsFrom(s, i + 1, guard)
  }

  function RemoveCitations(s: string, guard: bool): (r: string)
    ensures |r| <= |s|
  {
    RemoveCitationsFrom(s, 0, guard)
  }

  /** Taking one more character off the front of a slice. */
  lemma ConsSlice(s: string, k: nat, m: nat, r: string)
    requires k < m <= |s|
    ensures [s[k]] + (s[k + 1..m] + r) == s[k..m] + r
  {
    assert s[k..m] == [s[k]] + s[k + 1..m];
  }

  /** Where no match starts, the character is copied. */
  lemma CopyStep(s: string, k: nat, m: nat, guard: bool)
    requires k < m <= |s| && CitationEnd(s, k, guard) == k
    requires RemoveCitationsFrom(s, k + 1, guard) == s[k + 1..m] + RemoveCitationsFrom(s, m, guard)
    ensures RemoveCitationsFrom(s, k, guard) == s[k..m] + RemoveCitationsFrom(s, m, guard)
  {
    ConsSlice(s, k, m, RemoveCitationsFrom(s, m, guard));
  }

  /** A stretch of positions where no match starts is copied, and the scan goes on after it. */
  lemma {:induction false} CopyRun(s: string, k: nat, m: nat, guard: bool)
    requires k <= m <= |s|
    requires forall j | k <= j < m :: CitationEnd(s, j, guard) == j
    ensures RemoveCitationsFrom(s, k, guard) == s[k..m] + RemoveCitationsFrom(s, m, guard)
    decreases m - k
  {
    if k < m {
      CopyRun(s, k + 1, m, guard);
      CopyStep(s, k, m, guard);
    } else {
      assert s[k..m] == [];
    }
  }

  /** No match starts where no '[' follows. */
  lemma NoMatchWithoutBracket(s: string, j: nat, guard: bool)
    requires j <= |s|
    requires forall k | j <= k < |s| :: s[k] != '['
    ensures CitationEnd(s, j, guard) == j
  {
    var b := SkipSpaces(s, j);
    if b < |s| {
      assert s[b] != '[';
    }
  }

  /** A tail without '[' comes through unchanged. */
  lemma TailWithoutBracket(s: string, k: nat, guard: bool)
    requires k <= |s|
    requires forall j | k <= j < |s| :: s[j] != '['
    ensures RemoveCitationsFrom(s, k, guard) == s[k..]
  {
    forall j | k <= j < |s| ensures CitationEnd(s, j, guard) == j {
      NoMatchWithoutBracket(s, j, guard);
    }
    CopyRun(s, k, |s|, guard);
    assert s[k..|s|] == s[k..];
  }

  /** Text without '[' is its own result. */
  lemma NoCitationUnchanged(s: string, guard: bool)
    requires Chapters.NoBracket(s)
    ensures RemoveCitations(s, guard) == s
  {
    TailWithoutBracket(s, 0, guard);
  }

  /** Inside a '['-free prefix `s[..n]` that ends in a non-space, no match starts. */
  lemma NoMatchInPlain(s: string, n: nat, j: nat, guard: bool)
    requires j < n <= |s|
    requires forall k | 0 <= k < n :: s[k] != '['
    requires !IsSpace(s[n - 1])
    ensures CitationEnd(s, j, guard) == j
  {
    SkipSpacesSkipped(s, j);
    var b := SkipSpaces(s, j);
    assert b < n;
    assert s[b] != '[';
  }

  /** A '['-free prefix that ends in a non-space is copied, whatever follows it. */
  lemma PlainPrefix(s: string, n: nat, guard: bool)
    requires n <= |s|
    requires forall k | 0 <= k < n :: s[k] != '['
    requires n == 0 || !IsSpace(s[n - 1])
    ensures RemoveCitations(s, guard) == s[..n] + RemoveCitationsFrom(s, n, guard)
  {
    forall j | 0 <= j < n ensures CitationEnd(s, j, guard) == j {
      NoMatchInPlain(s, n, j, guard);
    }
    CopyRun(s, 0, n, guard);
    assert s[0..n] == s[..n];
  }

  /** `\s*[n]` starting at `i`, its `[` at `i + w` and its `]` at `c`, is a match. */
  lemma MatchOf(s: string, i: nat, w: nat, c: nat, guard: bool)
    requires i + w + 1 < c < |s|
    requires forall k | i <= k < i + w :: IsSpace(s[k])
    requires s[i + w] == '['
    requires forall k | i + w + 1 <= k < c :: IsDigit(s[k])
    requires s[c] == ']'
    requires !guard || c + 1 == |s| || s[c + 1] != '('
    ensures CitationEnd(s, i, guard) == c + 1
  {
    SkipSpacesAt(s, i, i + w);
    SkipDigitsAt(s, i + w + 1, c);
  }

  // ---------------------------------------------------------------------------
  // The scan never looks back: from index `i1` of `s1` and from index `i2` of
  // `s2`, where the two texts go on alike, every scan covers the same stretch.

  /** Texts that go on alike from `i1` and `i2` share their next character and go on alike after it. */
  lemma SameFirst(s1: string, i1: nat, s2: string, i2: nat)
    requires i1 < |s1| && i2 <= |s2| && s1[i1..] == s2[i2..]
    ensures i2 < |s2| && s1[i1] == s2[i2] && s1[i1 + 1..] == s2[i2 + 1..]
  {
    assert s1[i1] == s1[i1..][0];
    assert s2[i2] == s2[i2..][0];
    assert s1[i1 + 1..] == s1[i1..][1..];
    assert s2[i2 + 1..] == s2[i2..][1..];
  }

  /** ... and go on alike from any pair of indices equally far ahead. */
  lemma SameLater(s1: string, i1: nat, s2: string, i2: nat, k1: nat, k2: nat)
    requires i1 <= k1 <= |s1| && i2 <= |s2| && s1[i1..] == s2[i2..] && k2 - i2 == k1 - i1
    ensures k2 <= |s2| && s1[k1..] == s2[k2..]
  {
    assert s1[k1..] == s1[i1..][k1 - i1..];
    assert s2[k2..] == s2[i2..][k2 - i2..];
  }

  lemma {:induction false} SpacesLocal(s1: string, i1: nat, s2: string, i2: nat)
    requires i1 <= |s1| && i2 <= |s2| && s1[i1..] == s2[i2..]
    ensures SkipSpaces(s1, i1) - i1 == SkipSpaces(s2, i2) - i2
    decreases |s1| - i1
  {
    if i1 < |s1| {
      SameFirst(s1, i1, s2, i2);
      if IsSpace(s1[i1]) {
        SpacesLocal(s1, i1 + 1, s2, i2 + 1);
      }
    } else {
      assert |s2[i2..]| == 0;
    }
  }

  lemma {:induction false} DigitsLocal(s1: string, i1: nat, s2: string, i2: nat)
    requires i1 <= |s1| && i2 <= |s2| && s1[i1..] == s2[i2..]
    ensures SkipDigits(s1, i1) - i1 == SkipDigits(s2, i2) - i2
    decreases |s1| - i1
  {
    if i1 < |s1| {
      SameFirst(s1, i1, s2, i2);
      if IsDigit(s1[i1]) {
        DigitsLocal(s1, i1 + 1, s2, i2 + 1);
      }
    } else {
      assert |s2[i2..]| == 0;
    }
  }

  lemma {:induction false} ListEndLocal(s1: string, d1: nat, s2: string, d2: nat)
    requires d1 <= |s1| && d2 <= |s2| && s1[d1..] == s2[d2..]
    ensures ListEnd(s1, d1) - d1 == ListEnd(s2, d2) - d2
    decreases |s1| - d1
  {
    if d1 < |s1| {
      SameFirst(s1, d1, s2, d2);
      if s1[d1] == ',' {
        SpacesLocal(s1, d1 + 1, s2, d2 + 1);
        var k1, k2 := SkipSpaces(s1, d1 + 1), SkipSpaces(s2, d2 + 1);
        SameLater(s1, d1 + 1, s2, d2 + 1, k1, k2);
        DigitsLocal(s1, k1, s2, k2);
        var e1, e2 := SkipDigits(s1, k1), SkipDigits(s2, k2);
        if e1 > k1 {
          SameLater(s1, k1, s2, k2, e1, e2);
          ListEndLocal(s1, e1, s2, e2);
        }
      }
    } else {
      assert |s2[d2..]| == 0;
    }
  }

  lemma BracketEndLocal(s1: string, b1: nat, s2: string, b2: nat, guard: bool)
    requires b1 <= |s1| && b2 <= |s2| && s1[b1..] == s2[b2..]
    ensures BracketEnd(s1, b1, guard) - b1 == BracketEnd(s2, b2, guard) - b2
  {
    if b1 < |s1| {
      SameFirst(s1, b1, s2, b2);
      if s1[b1] == '[' {
        DigitsLocal(s1, b1 + 1, s2, b2 + 1);
        var d1, d2 := SkipDigits(s1, b1 + 1), SkipDigits(s2, b2 + 1);
        if d1 > b1 + 1 {
          SameLater(s1, b1 + 1, s2, b2 + 1, d1, d2);
          ListEndLocal(s1, d1, s2, d2);
          var c1, c2 := ListEnd(s1, d1), ListEnd(s2, d2);
          SameLater(s1, d1, s2, d2, c1, c2);
          if c1 < |s1| {
            SameFirst(s1, c1, s2, c2);
            if c1 + 1 < |s1| {
              SameFirst(s1, c1 + 1, s2, c2 + 1);
            }
          }
        }
      }
    } else {
      assert |s2[b2..]| == 0;
    }
  }

  /** Whether a citation starts at a position, and how long it is, depends only on the text from there on. */
  lemma CitationEndLocal(s1: string, i1: nat, s2: string, i2: nat, guard: bool)
    requires i1 <= |s1| && i2 <= |s2| && s1[i1..] == s2[i2..]
    ensures CitationEnd(s1, i1, guard) - i1 == CitationEnd(s2, i2, guard) - i2
  {
    SpacesLocal(s1, i1, s2, i2);
    var b1, b2 := SkipSpaces(s1, i1), SkipSpaces(s2, i2);
    SameLater(s1, i1, s2, i2, b1, b2);
    BracketEndLocal(s1, b1, s2, b2, guard);
  }

  /** A match at `i` is dropped and the scan resumes after it. */
  lemma CitationSkipped(s: string, i: nat, e: nat, guard: bool)
    requires i < e <= |s| && CitationEnd(s, i, guard) == e
    ensures RemoveCitationsFrom(s, i, guard) == RemoveCitationsFrom(s, e, guard)
  {
  }

  /** Where no match starts at `i`, its character is kept. */
  lemma CitationKept(s: string, i: nat, guard: bool)
    requires i < |s| && CitationEnd(s, i, guard) == i
    ensures RemoveCitationsFrom(s, i, guard) == [s[i]] + RemoveCitationsFrom(s, i + 1, guard)
  {
  }

  /**
    Text before the scan position does not matter: from two positions where
    the texts go on alike, the substitution produces the same output.
   */
  lemma {:induction false} CitationsLocal(s1: string, i1: nat, s2: string, i2: nat, guard: bool)
    requires i1 <= |s1| && i2 <= |s2| && s1[i1..] == s2[i2..]
    ensures RemoveCitationsFrom(s1, i1, guard) == RemoveCitationsFrom(s2, i2, guard)
    decreases |s1| - i1
  {
    if i1 < |s1| {
      var e1, e2 := CitationEnd(s1, i1, guard), CitationEnd(s2, i2, guard);
      if e1 > i1 {
        assert i2 < e2 <= |s2| && s1[e1..] == s2[e2..] by {
          CitationEndLocal(s1, i1, s2, i2, guard);
          SameLater(s1, i1, s2, i2, e1, e2);
        }
        CitationsLocal(s1, e1, s2, e2, guard);
        BothSkipped(s1, i1, e1, s2, i2, e2, guard);
      } else {
        assert i2 < |s2| && e2 == i2 && s1[i1] == s2[i2] && s1[i1 + 1..] == s2[i2 + 1..] by {
          CitationEndLocal(s1, i1, s2, i2, guard);
          SameFirst(s1, i1, s2, i2);
        }
        CitationsLocal(s1, i1 + 1, s2, i2 + 1, guard);
        BothKept(s1, i1, s2, i2, guard);
      }
    } else {
      assert |s2[i2..]| == 0;
    }
  }

  /** Two scans that each drop a match and then agree, agree from before the matches. */
  lemma BothSkipped(s1: string, i1: nat, e1: nat, s2: string, i2: nat, e2: nat, guard: bool)
    requires i1 < e1 <= |s1| && CitationEnd(s1, i1, guard) == e1
    requires i2 < e2 <= |s2| && CitationEnd(s2, i2, guard) == e2
    requires RemoveCitationsFrom(s1, e1, guard) == RemoveCitationsFrom(s2, e2, guard)
    ensures RemoveCitationsFrom(s1, i1, guard) == RemoveCitationsFrom(s2, i2, guard)
  {
    CitationSkipped(s1, i1, e1, guard);
    CitationSkipped(s2, i2, e2, guard);
  }

  /** Two scans that each keep the same character and then agree, agree from that character. */
  lemma BothKept(s1: string, i1: nat, s2: string, i2: nat, guard: bool)
    requires i1 < |s1| && CitationEnd(s1, i1, guard) == i1
    requires i2 < |s2| && CitationEnd(s2, i2, guard) == i2
    requires s1[i1] == s2[i2]
    requires RemoveCitationsFrom(s1, i1 + 1, guard) == RemoveCitationsFrom(s2, i2 + 1, guard)
    ensures RemoveCitationsFrom(s1, i1, guard) == RemoveCitationsFrom(s2, i2, guard)
  {
    CitationKept(s1, i1, guard);
    CitationKept(s2, i2, guard);
  }

  // ---------------------------------------------------------------------------
  // Citation lists of any length

  /** The `(?:,\s*\d+)*` part of a list: per item, the spaces after its comma and its number. */
  function ListTail(items: seq<(string, string)>): string
  {
    if items == [] then "" else "," + items[0].0 + items[0].1 + ListTail(items[1..])
  }

  /** Each item of a list tail has only spaces after its comma and a non-empty number. */
  predicate ListItems(items: seq<(string, string)>) {
    forall i | 0 <= i < |items| :: AllSpace(items[i].0) && |items[i].1| > 0 && AllDigits(items[i].1)
  }

  /** How a list tail splits after its first item, in a text where `]` follows the tail. */
  lemma ItemShape(x: string, items: seq<(string, string)>, y: string)
    requires items != [] && y != [] && y[0] == ']'
    ensures var v, n := items[0].0, items[0].1;
      var s := x + ListTail(items) + y;
      && s == (x + "," + v + n) + ListTail(items[1..]) + y
      && s == (x + "," + v + n) + (ListTail(items[1..]) + y)
      && |ListTail(items)| == 1 + |v| + |n| + |ListTail(items[1..])|
      && |x| + 1 + |v| + |n| < |s|
  {
    var v, n, rest := items[0].0, items[0].1, ListTail(items[1..]);
    assert ListTail(items) == "," + v + n + rest;
    ItemRegroup(x, v, n, rest, y);
  }

  lemma ItemRegroup(x: string, v: string, n: string, rest: string, y: string)
    requires y != []
    ensures x + ("," + v + n + rest) + y == (x + "," + v + n) + rest + y
    ensures x + ("," + v + n + rest) + y == (x + "," + v + n) + (rest + y)
    ensures |"," + v + n + rest| == 1 + |v| + |n| + |rest|
    ensures |x| + 1 + |v| + |n| < |x + ("," + v + n + rest) + y|
  {
  }

  /** One item `,` `v` `n` of a list in a text: a comma, the spaces `v`, then the number `n`. */
  lemma ItemChars(x: string, v: string, n: string, z: string)
    requires AllSpace(v) && |n| > 0 && AllDigits(n)
    ensures var s := (x + "," + v + n) + z;
      var k := |x| + 1 + |v|;
      && s[|x|] == ','
      && k < |s| && !IsSpace(s[k])
      && (forall j | |x| + 1 <= j < k :: IsSpace(s[j]))
      && (forall j | k <= j < k + |n| :: IsDigit(s[j]))
  {
    var s := (x + "," + v + n) + z;
    var k := |x| + 1 + |v|;
    forall j | |x| + 1 <= j < k ensures IsSpace(s[j]) {
      assert s[j] == v[j - |x| - 1];
    }
    forall j | k <= j < k + |n| ensures IsDigit(s[j]) {
      assert s[j] == n[j - k];
    }
    assert s[k] == n[0];
  }

  /** Followed by `]`, a list tail is consumed whole by `(?:,\s*\d+)*`. */
  lemma {:induction false} ListEndOver(x: string, items: seq<(string, string)>, y: string)
    requires ListItems(items) && y != [] && y[0] == ']'
    ensures |x| < |x + ListTail(items) + y| && !IsDigit((x + ListTail(items) + y)[|x|])
    ensures ListEnd(x + ListTail(items) + y, |x|) == |x| + |ListTail(items)|
    decreases |items|
  {
    var s := x + ListTail(items) + y;
    if items == [] {
      assert s[|x|] == y[0];
    } else {
      var v, n := items[0].0, items[0].1;
      var x2 := x + "," + v + n;
      ItemShape(x, items, y);
      ItemChars(x, v, n, ListTail(items[1..]) + y);
      ItemsTail(items);
      ListEndOver(x2, items[1..], y);
      ListEndStep(s, |x|, |x| + 1 + |v|, |x2|);
    }
  }

  lemma ItemsTail(items: seq<(string, string)>)
    requires items != [] && ListItems(items)
    ensures ListItems(items[1..])
  {
    forall i | 0 <= i < |items[1..]|
      ensures AllSpace(items[1..][i].0) && |items[1..][i].1| > 0 && AllDigits(items[1..][i].1)
    {
      assert items[1..][i] == items[i + 1];
    }
  }

  /** One `,\s*\d+` item from `d` to `d2`, then the repetition goes on from `d2`. */
  lemma ListEndStep(s: string, d: nat, k: nat, d2: nat)
    requires d < k < d2 < |s| && s[d] == ','
    requires forall j | d + 1 <= j < k :: IsSpace(s[j])
    requires !IsSpace(s[k])
    requires forall j | k <= j < d2 :: IsDigit(s[j])
    requires !IsDigit(s[d2])
    ensures ListEnd(s, d) == ListEnd(s, d2)
  {
    SkipSpacesAt(s, d + 1, k);
    SkipDigitsAt(s, k, d2);
  }

  /** Where the pieces of `a + w + "[" + n + t + "]" + b` sit. */
  lemma CitationLayout(a: string, w: string, n: string, t: string, b: string)
    requires AllSpace(w) && AllDigits(n)
    ensures var s := (a + w + "[" + n) + t + ("]" + b);
      var o := |a| + |w|;
      var d := o + 1 + |n|;
      var c := d + |t|;
      && |s| == c + 1 + |b|
      && s == a + w + "[" + n + t + "]" + b
      && (forall k | |a| <= k < o :: IsSpace(s[k]))
      && s[o] == '['
      && (forall k | o + 1 <= k < d :: IsDigit(s[k]))
      && s[c] == ']'
      && (c + 1 < |s| ==> s[c + 1] == b[0])
  {
    var s := (a + w + "[" + n) + t + ("]" + b);
    var o := |a| + |w|;
    var d := o + 1 + |n|;
    assert s == a + w + "[" + n + t + "]" + b;
    forall k | |a| <= k < o ensures IsSpace(s[k]) {
      assert s[k] == w[k - |a|];
    }
    forall k | o + 1 <= k < d ensures IsDigit(s[k]) {
      assert s[k] == n[k - o - 1];
    }
  }

  /** `\s*` from `i` to `o`, then `[`, digits up to `d`, a list tail up to `c` and `]`: a match. */
  lemma ListMatchAt(s: string, i: nat, o: nat, d: nat, c: nat, guard: bool)
    requires i <= o && o + 1 < d <= c < |s|
    requires forall k | i <= k < o :: IsSpace(s[k])
    requires s[o] == '['
    requires forall k | o + 1 <= k < d :: IsDigit(s[k])
    requires !IsDigit(s[d]) && ListEnd(s, d) == c && s[c] == ']'
    requires !guard || c + 1 == |s| || s[c + 1] != '('
    ensures CitationEnd(s, i, guard) == c + 1
  {
    SkipSpacesAt(s, i, o);
    SkipDigitsAt(s, o + 1, d);
  }

  /** Plain text up to `i`, then a match that ends where `p` does: what is left is the plain text and the substitution of `b`. */
  lemma MatchThenRest(p: string, b: string, i: nat, guard: bool)
    requires i < |p|
    requires forall k | 0 <= k < i :: (p + b)[k] != '['
    requires i == 0 || !IsSpace((p + b)[i - 1])
    requires CitationEnd(p + b, i, guard) == |p|
    ensures RemoveCitations(p + b, guard) == (p + b)[..i] + RemoveCitations(b, guard)
  {
    PlainPrefix(p + b, i, guard);
    CitationSkipped(p + b, i, |p|, guard);
    assert (p + b)[|p|..] == b[0..];
    CitationsLocal(p + b, |p|, b, 0, guard);
  }

  /** The match of `[n0, n1, …, nk]` with the spaces in front of it ends right after its `]`. */
  lemma CitationListEnd(a: string, w: string, n: string, items: seq<(string, string)>, b: string, guard: bool)
    requires AllSpace(w) && |n| > 0 && AllDigits(n) && ListItems(items)
    requires !guard || b == [] || b[0] != '('
    ensures CitationEnd(a + w + "[" + n + ListTail(items) + "]" + b, |a|, guard)
      == |a| + |w| + 1 + |n| + |ListTail(items)| + 1
  {
    ListEndOver(a + w + "[" + n, items, "]" + b);
    TailMatch(a, w, n, ListTail(items), b, guard);
  }

  /** `\s*\[\d+` followed by a tail `t` that the repetition consumes whole, then `]`: a match up to that `]`. */
  lemma TailMatch(a: string, w: string, n: string, t: string, b: string, guard: bool)
    requires AllSpace(w) && |n| > 0 && AllDigits(n)
    requires |a + w + "[" + n| < |(a + w + "[" + n) + t + ("]" + b)|
    requires !IsDigit(((a + w + "[" + n) + t + ("]" + b))[|a + w + "[" + n|])
    requires ListEnd((a + w + "[" + n) + t + ("]" + b), |a + w + "[" + n|) == |a + w + "[" + n| + |t|
    requires !guard || b == [] || b[0] != '('
    ensures CitationEnd(a + w + "[" + n + t + "]" + b, |a|, guard) == |a| + |w| + 1 + |n| + |t| + 1
  {
    var s := (a + w + "[" + n) + t + ("]" + b);
    var o := |a| + |w|;
    var d := o + 1 + |n|;
    var c := d + |t|;
    assert |a + w + "[" + n| == d;
    assert s == a + w + "[" + n + t + "]" + b && c < |s| && s[o] == '[' && s[c] == ']' by {
      CitationLayout(a, w, n, t, b);
    }
    assert forall k | |a| <= k < o :: IsSpace(s[k]) by {
      CitationLayout(a, w, n, t, b);
    }
    assert forall k | o + 1 <= k < d :: IsDigit(s[k]) by {
      CitationLayout(a, w, n, t, b);
    }
    assert !guard || c + 1 == |s| || s[c + 1] != '(' by {
      CitationLayout(a, w, n, t, b);
    }
    ListMatchAt(s, |a|, o, d, c, guard);
  }

  /** A '['-free `a` that ends in a non-space, then a match `m`: `a` stays and the substitution goes on over `b`. */
  lemma PrefixThenMatch(a: string, m: string, b: string, guard: bool)
    requires Chapters.NoBracket(a) && (a == [] || !IsSpace(a[|a| - 1]))
    requires |m| > 0 && CitationEnd(a + m + b, |a|, guard) == |a + m|
    ensures RemoveCitations(a + m + b, guard) == a + RemoveCitations(b, guard)
  {
    var s := a + m + b;
    assert s[..|a|] == a;
    forall k | 0 <= k < |a| ensures s[k] != '[' {
      assert s[k] == a[k];
    }
    MatchThenRest(a + m, b, |a|, guard);
  }

  lemma CitationRegroup(a: string, w: string, n: string, t: string, b: string)
    ensures a + w + "[" + n + t + "]" + b == a + (w + "[" + n + t + "]") + b
    ensures |a + (w + "[" + n + t + "]")| == |a| + |w| + 1 + |n| + |t| + 1
  {
  }

  /**
    A citation `[n0, n1, …, nk]` (any spaces after each comma), with the spaces
    in front of it, is deleted; the substitution then carries on over what
    follows as if the citation had never been there.
   */
  lemma CitationListRemoved(a: string, w: string, n: string, items: seq<(string, string)>, b: string, guard: bool)
    requires Chapters.NoBracket(a) && (a == [] || !IsSpace(a[|a| - 1]))
    requires AllSpace(w) && |n| > 0 && AllDigits(n) && ListItems(items)
    requires !guard || b == [] || b[0] != '('
    ensures RemoveCitations(a + w + "[" + n + ListTail(items) + "]" + b, guard) == a + RemoveCitations(b, guard)
  {
    var m := w + "[" + n + ListTail(items) + "]";
    CitationListEnd(a, w, n, items, b, guard);
    CitationRegroup(a, w, n, ListTail(items), b);
    PrefixThenMatch(a, m, b, guard);
  }

  /** A single `[n]` marker, with the spaces in front of it, goes the same way. */
  lemma CitationRemoved(a: string, w: string, n: string, b: string, guard: bool)
    requires Chapters.NoBracket(a) && (a == [] || !IsSpace(a[|a| - 1]))
    requires AllSpace(w) && |n| > 0 && AllDigits(n)
    requires !guard || b == [] || b[0] != '('
    ensures RemoveCitations(a + w + "[" + n + "]" + b, guard) == a + RemoveCitations(b, guard)
  {
    assert ListTail([]) == "";
    assert a + w + "[" + n + "]" + b == a + w + "[" + n + ListTail([]) + "]" + b;
    CitationListRemoved(a, w, n, [], b, guard);
  }

  /** `see [1] and [2, 3, 4].`: with or without the look-ahead, the single marker and the three-number list both go, each with the space in front of it. */
  lemma CitationExample(s: string, guard: bool)
    requires s == "see [1] and [2, 3, 4]."
    ensures RemoveCitations(s, guard) == "see and."
  {
    var rest := " and [2, 3, 4].";
    ExampleMarker(s, rest, guard);
    ExampleList(rest, guard);
    ExampleGlue();
  }

  lemma ExampleGlue()
    ensures "see" + " and." == "see and."
  {
  }

  lemma ExampleMarker(s: string, rest: string, guard: bool)
    requires s == "see [1] and [2, 3, 4]." && rest == " and [2, 3, 4]."
    ensures RemoveCitations(s, guard) == "see" + RemoveCitations(rest, guard)
  {
    assert s == "see" + " " + "[" + "1" + "]" + rest;
    CitationRemoved("see", " ", "1", rest, guard);
  }

  lemma ExampleList(rest: string, guard: bool)
    requires rest == " and [2, 3, 4]."
    ensures RemoveCitations(rest, guard) == " and."
  {
    var items := [(" ", "3"), (" ", "4")];
    assert ListTail(items) == ", 3, 4" by {
      assert items[1..] == [(" ", "4")];
      assert items[1..][1..] == [];
    }
    assert rest == " and" + " " + "[" + "2" + ListTail(items) + "]" + ".";
    CitationListRemoved(" and", " ", "2", items, ".", guard);
    NoCitationUnchanged(".", guard);
  }

  /** Where a '[' that starts no match sits at `o`, no match starts at or before it. */
  lemma NoMatchUpTo(s: string, o: nat, j: nat, guard: bool)
    requires j <= o < |s| && s[o] == '[' && BracketEnd(s, o, guard) == o
    requires forall k | 0 <= k < o :: s[k] != '['
    ensures CitationEnd(s, j, guard) == j
  {
    SkipSpacesSkipped(s, j);
    var e := SkipSpaces(s, j);
    assert !IsSpace(s[o]);
    assert e <= o;
  }

  /** With the look-ahead, a `[n](` link target is kept, spaces in front of it included. */
  lemma LinkKept(a: string, n: string, b: string)
    requires Chapters.NoBracket(a) && |n| > 0 && AllDigits(n) && Chapters.NoBracket(b)
    ensures RemoveCitations(a + "[" + n + "](" + b, true) == a + "[" + n + "](" + b
  {
    var s := a + "[" + n + "](" + b;
    var o := |a|;
    var c := o + 1 + |n|;
    LinkLayout(a, n, b);
    SkipDigitsAt(s, o + 1, c);
    assert ListEnd(s, c) == c;
    assert BracketEnd(s, o, true) == o;
    forall j | 0 <= j < |s| ensures CitationEnd(s, j, true) == j {
      if j <= o {
        NoMatchUpTo(s, o, j, true);
      } else {
        NoMatchWithoutBracket(s, j, true);
      }
    }
    CopyRun(s, 0, |s|, true);
    SliceAll(s);
  }

  lemma SliceAll(s: string)
    ensures s[0..|s|] == s
  {
  }

  /** Where the pieces of `a + "[" + n + "](" + b` sit. */
  lemma LinkLayout(a: string, n: string, b: string)
    requires Chapters.NoBracket(a) && AllDigits(n) && Chapters.NoBracket(b)
    ensures var s := a + "[" + n + "](" + b;
      var o := |a|;
      var c := o + 1 + |n|;
      && |s| == c + 2 + |b| && s[o] == '[' && s[c] == ']' && s[c + 1] == '('
      && (forall k | 0 <= k < o :: s[k] != '[')
      && (forall k | o + 1 <= k < c :: IsDigit(s[k]))
      && (forall k | o < k < |s| :: s[k] != '[')
  {
    var s := a + "[" + n + "](" + b;
    var o := |a|;
    var c := o + 1 + |n|;
    assert s == a + ("[" + n + "](" + b);
    forall k | o + 1 <= k < c ensures IsDigit(s[k]) {
      assert s[k] == n[k - o - 1];
    }
    forall k | c + 2 <= k < |s| ensures s[k] != '[' {
      assert s[k] == b[k - c - 2];
    }
  }

  /** Without the look-ahead, the marker of a `[n](` link is deleted and its `(` is left behind. */
  lemma LinkLosesMarker(a: string, n: string, b: string)
    requires Chapters.NoBracket(a) && (a == [] || !IsSpace(a[|a| - 1]))
    requires |n| > 0 && AllDigits(n) && Chapters.NoBracket(b)
    ensures RemoveCitations(a + "[" + n + "](" + b, false) == a + "(" + b
  {
    assert a + "[" + n + "](" + b == a + "" + "[" + n + "]" + ("(" + b);
    assert Chapters.NoBracket("(" + b) by {
      forall k | 0 <= k < |"(" + b| ensures ("(" + b)[k] != '[' {
        if k > 0 {
          assert ("(" + b)[k] == b[k - 1];
        }
      }
    }
    CitationRemoved(a, "", n, "(" + b, false);
    NoCitationUnchanged("(" + b, false);
    assert a + ("(" + b) == a + "(" + b;
  }

  // ---------------------------------------------------------------------------
  // re.sub(r'\n{4,}', '\n\n\n', output)

  /** From index `i`, the end of the run of '\n' characters. */
  function NewlineRunEnd(s: string, i: nat): (j: nat)
    requires i <= |s|
    ensures i <= j <= |s|
    ensures j < |s| ==> s[j] != '\n'
    decreases |s| - i
  {
    if i == |s| || s[i] != '\n' then i else NewlineRunEnd(s, i + 1)
  }

  /**
    The substitution from index `i` on: where a run of four or more newlines
    starts, the whole run (greedy `\n{4,}`) becomes three newlines; elsewhere
    the character is copied and the scan moves on by one.
   */
  function CollapseFrom(s: string, i: nat): (r: string)
    requires i <= |s|
    decreases |s| - i
  {
    if i == |s| then ""
    else
      var e := NewlineRunEnd(s, i);
      if e - i >= 4 then "\n\n\n" + CollapseFrom(s, e) else [s[i]] + CollapseFrom(s, i + 1)
  }

  function CollapseNewlines(s: string): string {
    CollapseFrom(s, 0)
  }

  /** No run of four newlines starts at index `k`. */
  predicate NoFourAt(s: string, k: nat)
    requires k + 3 < |s|
  {
    !(s[k] == '\n' && s[k + 1] == '\n' && s[k + 2] == '\n' && s[k + 3] == '\n')
  }

  /** Four newlines in a row appear nowhere in `s`. */
  predicate NoFourNewlines(s: string) {
    forall k: nat | k + 3 < |s| :: NoFourAt(s, k)
  }

  function LeadingNewlines(s: string): (n: nat)
    ensures n <= |s|
  {
    if |s| == 0 || s[0] != '\n' then 0 else 1 + LeadingNewlines(s[1..])
  }

  lemma LeadingNewlinesCons(c: char, x: string)
    ensures LeadingNewlines([c] + x) == if c == '\n' then 1 + LeadingNewlines(x) else 0
  {
    assert ([c] + x)[1..] == x;
  }

  lemma {:induction false} LeadingNewlinesBound(x: string, m: nat)
    requires LeadingNewlines(x) == m < |x|
    ensures x[m] != '\n'
  {
    if x[0] == '\n' {
      LeadingNewlinesBound(x[1..], m - 1);
    }
  }

  /** Gluing two texts free of four newlines in a row keeps it so when the seam has a non-newline on one side. */
  lemma NoFourGlue(x: string, y: string)
    requires NoFourNewlines(x) && NoFourNewlines(y)
    requires (|x| > 0 && x[|x| - 1] != '\n') || (|y| > 0 && y[0] != '\n')
    ensures NoFourNewlines(x + y)
  {
    var s := x + y;
    forall k: nat | k + 3 < |s| ensures NoFourAt(s, k) {
      if k + 3 < |x| {
        assert NoFourAt(x, k);
        assert s[k] == x[k] && s[k + 1] == x[k + 1] && s[k + 2] == x[k + 2] && s[k + 3] == x[k + 3];
      } else if k >= |x| {
        var j := k - |x|;
        assert NoFourAt(y, j);
        assert s[k] == y[j] && s[k + 1] == y[j + 1] && s[k + 2] == y[j + 2] && s[k + 3] == y[j + 3];
      } else if |x| > 0 && x[|x| - 1] != '\n' {
        assert s[|x| - 1] == x[|x| - 1];
      } else {
        assert s[|x|] == y[0];
      }
    }
  }

  /** Three newlines in front of a text that starts with none and has no four in a row. */
  lemma ThreeNewlinesBefore(x: string)
    requires NoFourNewlines(x) && LeadingNewlines(x) == 0
    ensures NoFourNewlines("\n\n\n" + x) && LeadingNewlines("\n\n\n" + x) == 3
  {
    var r := "\n\n\n" + x;
    var y1 := ['\n'] + x;
    var y2 := ['\n'] + y1;
    assert r == ['\n'] + y2;
    LeadingNewlinesCons('\n', x);
    LeadingNewlinesCons('\n', y1);
    LeadingNewlinesCons('\n', y2);
    if |x| > 0 {
      assert x[0] != '\n';
      forall k: nat | k + 3 < |r| ensures NoFourAt(r, k) {
        if k < 3 {
          assert r[3] == x[0];
        } else {
          assert NoFourAt(x, k - 3);
          assert r[k] == x[k - 3] && r[k + 1] == x[k - 2] && r[k + 2] == x[k - 1] && r[k + 3] == x[k];
        }
      }
    }
  }

  /** A run of four or more newlines at `i` leaves exactly three. */
  lemma CollapseRun(s: string, i: nat)
    requires i < |s| && NewlineRunEnd(s, i) - i >= 4
    requires var x := CollapseFrom(s, NewlineRunEnd(s, i)); NoFourNewlines(x) && LeadingNewlines(x) == 0
    ensures var r := CollapseFrom(s, i); NoFourNewlines(r) && LeadingNewlines(r) == 3
  {
    ThreeNewlinesBefore(CollapseFrom(s, NewlineRunEnd(s, i)));
  }

  /** A newline whose run is shorter than four is copied; then at most two more follow. */
  lemma CollapseShortRun(s: string, i: nat)
    requires i < |s| && s[i] == '\n' && NewlineRunEnd(s, i) - i < 4
    requires var x := CollapseFrom(s, i + 1); NoFourNewlines(x) && LeadingNewlines(x) <= 2
    ensures var r := CollapseFrom(s, i); NoFourNewlines(r) && LeadingNewlines(r) == 1 + LeadingNewlines(CollapseFrom(s, i + 1))
  {
    var x := CollapseFrom(s, i + 1);
    var r := CollapseFrom(s, i);
    assert r == ['\n'] + x;
    LeadingNewlinesCons('\n', x);
    var m := LeadingNewlines(x);
    if m < |x| {
      LeadingNewlinesBound(x, m);
    }
    forall k: nat | k + 3 < |r| ensures NoFourAt(r, k) {
      if k == 0 {
        assert r[m + 1] == x[m];
      } else {
        assert NoFourAt(x, k - 1);
        assert r[k] == x[k - 1] && r[k + 1] == x[k] && r[k + 2] == x[k + 1] && r[k + 3] == x[k + 2];
      }
    }
  }

  /**
    What the collapse leaves from index `i` on: never four newlines in a row,
    and exactly the run of newlines at `i`, cut down to three.
   */
  lemma {:induction false} CollapseShape(s: string, i: nat)
    requires i <= |s|
    ensures var r := CollapseFrom(s, i);
      var run := NewlineRunEnd(s, i) - i;
      NoFourNewlines(r) && LeadingNewlines(r) == (if run < 3 then run else 3)
    decreases |s| - i
  {
    if i < |s| {
      var e := NewlineRunEnd(s, i);
      if e - i >= 4 {
        CollapseShape(s, e);
        CollapseRun(s, i);
      } else if s[i] == '\n' {
        CollapseShape(s, i + 1);
        assert NewlineRunEnd(s, i) == NewlineRunEnd(s, i + 1);
        CollapseShortRun(s, i);
      } else {
        CollapseShape(s, i + 1);
        var x := CollapseFrom(s, i + 1);
        assert CollapseFrom(s, i) == [s[i]] + x;
        LeadingNewlinesCons(s[i], x);
        NoFourGlue([s[i]], x);
      }
    }
  }

  /** The collapse never leaves four newlines in a row. */
  lemma CollapseNoFour(s: string)
    ensures NoFourNewlines(CollapseNewlines(s))
  {
    CollapseShape(s, 0);
  }

  /** A newline at `k` is single: the character after it exists and is not a newline. */
  predicate SingleAt(x: string, k: nat)
    requires k < |x|
  {
    x[k] == '\n' ==> k + 1 < |x| && x[k + 1] != '\n'
  }

  predicate SingleNewlines(x: string) {
    forall k: nat | k < |x| :: SingleAt(x, k)
  }

  /** Where no run of four starts, the character is copied. */
  lemma CollapseStep(s: string, k: nat)
    requires k < |s| && (s[k] == '\n' ==> k + 1 < |s| && s[k + 1] != '\n')
    ensures CollapseFrom(s, k) == [s[k]] + CollapseFrom(s, k + 1)
  {
    if s[k] == '\n' {
      assert NewlineRunEnd(s, k + 1) == k + 1;
    }
  }

  /** The newline at `j` is followed, before `n`, by a non-newline. */
  predicate SingleBefore(s: string, n: nat, j: nat)
    requires j < n <= |s|
  {
    s[j] == '\n' ==> j + 1 < n && s[j + 1] != '\n'
  }

  lemma {:induction false} CollapseCopiesFrom(s: string, n: nat, k: nat)
    requires k <= n <= |s| && forall j | k <= j < n :: SingleBefore(s, n, j)
    ensures CollapseFrom(s, k) == s[k..n] + CollapseFrom(s, n)
    decreases n - k
  {
    if k < n {
      CollapseCopiesFrom(s, n, k + 1);
      assert SingleBefore(s, n, k);
      CollapseStep(s, k);
      ConsSlice(s, k, n, CollapseFrom(s, n));
    } else {
      assert s[k..n] == [];
    }
  }

  /** A prefix whose newlines are all single is copied by the collapse. */
  lemma CollapseCopies(s: string, n: nat)
    requires n <= |s| && SingleNewlines(s[..n])
    ensures CollapseNewlines(s) == s[..n] + CollapseFrom(s, n)
  {
    forall j | 0 <= j < n ensures SingleBefore(s, n, j) {
      assert SingleAt(s[..n], j);
      assert s[j] == s[..n][j];
      if j + 1 < n {
        assert s[j + 1] == s[..n][j + 1];
      }
    }
    CollapseCopiesFrom(s, n, 0);
    assert s[0..n] == s[..n];
  }

  lemma NoNewlineSingle(x: string)
    requires NoNewline(x)
    ensures SingleNewlines(x)
  {
  }

  /** Two texts with single newlines, glued by one '\n' before a non-newline. */
  lemma SingleGlue(x: string, y: string)
    requires NoNewline(x) && SingleNewlines(y) && |y| > 0 && y[0] != '\n'
    ensures SingleNewlines(x + "\n" + y)
  {
    var s := x + "\n" + y;
    forall k: nat | k < |s| ensures SingleAt(s, k) {
      if k < |x| {
        assert s[k] == x[k];
      } else if k == |x| {
        assert s[k + 1] == y[0];
      } else {
        var j := k - |x| - 1;
        assert SingleAt(y, j);
        assert s[k] == y[j];
        if j + 1 < |y| {
          assert s[k + 1] == y[j + 1];
        }
      }
    }
  }

  /** Non-empty lines free of '\n', joined, have only single newlines. */
  lemma {:induction false} JoinSingle(ls: seq<string>)
    requires ls != [] && forall k | 0 <= k < |ls| :: |ls[k]| > 0 && NoNewline(ls[k])
    ensures SingleNewlines(Join(ls)) && |Join(ls)| > 0 && Join(ls)[0] == ls[0][0]
    decreases |ls|
  {
    if |ls| == 1 {
      NoNewlineSingle(ls[0]);
    } else {
      JoinSingleTail(ls);
    }
  }

  lemma JoinSingleTail(ls: seq<string>)
    requires |ls| > 1 && forall k | 0 <= k < |ls| :: |ls[k]| > 0 && NoNewline(ls[k])
    ensures SingleNewlines(Join(ls)) && |Join(ls)| > 0 && Join(ls)[0] == ls[0][0]
    decreases |ls|, 0
  {
    var t := ls[1..];
    LinesTail(ls);
    JoinSingle(t);
    SingleGlue(ls[0], Join(t));
  }

  lemma LinesTail(ls: seq<string>)
    requires |ls| > 1 && forall k | 0 <= k < |ls| :: |ls[k]| > 0 && NoNewline(ls[k])
    ensures forall k | 0 <= k < |ls[1..]| :: |ls[1..][k]| > 0 && NoNewline(ls[1..][k])
  {
  }

  /** At a newline the collapse writes a newline first. */
  lemma CollapseFromNewline(s: string, i: nat)
    requires i < |s| && s[i] == '\n'
    ensures |CollapseFrom(s, i)| > 0 && CollapseFrom(s, i)[0] == '\n'
  {
  }

  /** A prefix with single newlines, and the newline after it, survive the collapse. */
  lemma CollapseKeepsPrefix(s: string, p: string)
    requires StartsWith(s, p + "\n") && SingleNewlines(p)
    ensures StartsWith(CollapseNewlines(s), p + "\n")
  {
    assert s[..|p|] == p by {
      assert s[..|p|] == s[..|p| + 1][..|p|];
    }
    assert s[|p|] == s[..|p| + 1][|p|];
    CollapseCopies(s, |p|);
    CollapseFromNewline(s, |p|);
    StartsWithNext(p, CollapseFrom(s, |p|));
  }

  /** Two leading newlines in the collapse's output: it starts with at least two newlines. */
  lemma LeadingTwo(r: string)
    requires LeadingNewlines(r) >= 2
    ensures |r| >= 2 && r[0] == '\n' && r[1] == '\n'
  {
    assert r[0] == '\n';
    LeadingNewlinesCons(r[0], r[1..]);
    assert r == [r[0]] + r[1..];
    assert r[1..][0] == '\n';
  }

  /**
    A prefix with single newlines, then a blank line (a newline that ends the
    text or is followed by another), survives the collapse with the blank line.
   */
  lemma CollapseKeepsBlankLine(s: string, p: string)
    requires StartsWith(s, p + "\n") && SingleNewlines(p)
    requires |s| == |p| + 1 || s[|p| + 1] == '\n'
    ensures StartsWith(CollapseNewlines(s), p + "\n")
    ensures |CollapseNewlines(s)| == |p| + 1 || CollapseNewlines(s)[|p| + 1] == '\n'
  {
    CollapseKeepsPrefix(s, p);
    assert s[..|p|] == p by {
      assert s[..|p|] == s[..|p| + 1][..|p|];
    }
    assert s[|p|] == s[..|p| + 1][|p|];
    CollapseCopies(s, |p|);
    var r := CollapseFrom(s, |p|);
    if |s| == |p| + 1 {
      assert NewlineRunEnd(s, |p|) == |p| + 1;
      assert r == "\n";
    } else {
      assert NewlineRunEnd(s, |p|) == NewlineRunEnd(s, |p| + 1) == NewlineRunEnd(s, |p| + 2);
      CollapseShape(s, |p|);
      LeadingTwo(r);
      assert CollapseNewlines(s)[|p| + 1] == r[1];
    }
  }
}
