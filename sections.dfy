/** The section outline of an article's plain text, as src/util.js builds it in
    `getHeadings` and `parseContent`: the headings `== Title ==` a module-level global
    regex finds, each section's content up to the next heading, and the nesting of the
    sections by heading level. */
module Sections {
  import opened JsString

  // ------------------------------------------------------------------ the heading pattern

  /** The end of the run of `=` that starts at `i`. */
  function RunEnd(s: string, i: nat): (r: nat)
    requires i <= |s|
    ensures i <= r <= |s|
    ensures r == |s| || s[r] != '='
    decreases |s| - i
  {
    if i < |s| && s[i] == '=' then RunEnd(s, i + 1) else i
  }

  /** Everything up to the end of the run is `=`. */
  lemma {:induction false} RunEndRun(s: string, i: nat)
    requires i <= |s|
    ensures forall k :: i <= k < RunEnd(s, i) ==> s[k] == '='
    decreases |s| - i
  {
    if i < |s| && s[i] == '=' {
      RunEndRun(s, i + 1);
    }
  }

  /** `==` starts at `p`. */
  predicate DoubleAt(s: string, p: int)
  {
    0 <= p && p + 1 < |s| && s[p] == '=' && s[p + 1] == '='
  }

  /** A character the title group `(?:(?!==|\n)[^])` may take at `k`. */
  predicate Free(s: string, k: int)
    requires 0 <= k < |s|
  {
    !DoubleAt(s, k) && s[k] != '\n'
  }

  /** The blank `(?:(?!\n)\s)` the pattern allows next to the title. */
  predicate Blank(c: char)
  {
    c != '\n' && IsSpace(c)
  }

  /** Where a title group started at `g` can grow no further: the first `==`, '\n'
      or the end of the text. */
  function Stop(s: string, g: nat): (p: nat)
    requires g <= |s|
    ensures g <= p <= |s|
    ensures p == |s| || !Free(s, p)
    decreases |s| - g
  {
    if g == |s| || !Free(s, g) then g else Stop(s, g + 1)
  }

  /** The title group may take every character up to the stop. */
  lemma {:induction false} StopFree(s: string, g: nat)
    requires g <= |s|
    ensures forall k :: g <= k < Stop(s, g) ==> Free(s, k)
    decreases |s| - g
  {
    if g < |s| && Free(s, g) {
      StopFree(s, g + 1);
    }
  }

  /** The title group started at `g` and the closing `==+`: the title runs up to the stop,
      which must be a `==`; the match ends with the run of `=` there. */
  function Close(s: string, g: nat): (r: Option<(nat, nat)>)
    requires g <= |s|
    ensures r.Some? ==> g < r.value.0 && r.value.0 + 2 <= r.value.1 <= |s|
  {
    var p := Stop(s, g);
    if p > g && DoubleAt(s, p) then Some((p, RunEnd(s, p))) else None
  }

  /** A heading as `getHeadings` records it: the length of its opening run of `=`, its
      trimmed title, and where the match starts and ends. */
  datatype Heading = Heading(level: nat, text: string, start: nat, end: nat)

  /** The match of `(==+)(?:(?!\n)\s?)((?:(?!==|\n)[^])+)(?:(?!\n)\s?)(==+)` at `i`, in
      the order the regex engine tries the alternatives. The opening group takes the whole
      run of `=` (a shorter opening can only match where the whole run matches too). The
      blank after it is taken when the title can still be closed behind it, and otherwise
      becomes the title's first character. The title then runs to the first `==` or line
      break: only a `==` there closes it, since stopping earlier would leave a character
      that is neither a blank nor `=` before the closing run. */
  function HeadingAt(s: string, i: nat): (r: Option<Heading>)
    requires i <= |s|
    ensures r.Some? ==> r.value.start == i && i < r.value.end <= |s| && r.value.level >= 2
  {
    var r := RunEnd(s, i);
    if r - i < 2 then None
    else
      var g := TitleStart(s, r);
      var c := Close(s, g);
      if c.None? then None
      else Some(Heading(r - i, Title(s, g, c.value.0), i, c.value.1))
  }

  /** `match[2].trim()`: the title group `s[g..q]`, trimmed. */
  function Title(s: string, g: nat, q: nat): string
    requires g <= q <= |s|
  {
    Trim(s[g..q])
  }

  /** Where the title group starts after an opening run ending at `r`: behind the blank
      there, when the title can be closed from behind it. */
  function TitleStart(s: string, r: nat): (g: nat)
    requires r <= |s|
    ensures g == r || (g == r + 1 && r < |s| && Blank(s[r]))
    ensures g <= |s|
  {
    if r < |s| && Blank(s[r]) && Close(s, r + 1).Some? then r + 1 else r
  }

  /** A match of the heading pattern at `i`, written group by group: the opening run
      `s[i..i + n]`, an optional blank, the title `s[g..q]`, an optional blank and the
      closing run `s[c..e]`. This is the pattern's meaning without the engine's order of
      trial. */
  predicate IsMatch(s: string, i: nat, n: nat, g: nat, q: nat, c: nat, e: nat)
  {
    && 2 <= n && i + n <= |s| && (forall k :: i <= k < i + n ==> s[k] == '=')
    && (g == i + n || (g == i + n + 1 && i + n < |s| && Blank(s[i + n])))
    && g < q <= |s| && (forall k :: g <= k < q ==> Free(s, k))
    && (c == q || (c == q + 1 && q < |s| && Blank(s[q])))
    && c + 2 <= e <= |s| && (forall k :: c <= k < e ==> s[k] == '=')
  }

  /** The heading found at `i` is a match of the pattern whose opening is the whole run of
      `=` there, whose title is the trimmed title group `s[g..q]` and whose closing run
      follows the title directly. */
  lemma HeadingAtMatches(s: string, i: nat) returns (g: nat, q: nat)
    requires i <= |s| && HeadingAt(s, i).Some?
    ensures RunEnd(s, i) == i + HeadingAt(s, i).value.level
    ensures IsMatch(s, i, HeadingAt(s, i).value.level, g, q, q, HeadingAt(s, i).value.end)
    ensures HeadingAt(s, i).value.text == Title(s, g, q)
  {
    var r := RunEnd(s, i);
    RunEndRun(s, i);
    g := TitleStart(s, r);
    q := Close(s, g).value.0;
    CloseMatches(s, g);
  }

  lemma CloseMatches(s: string, g: nat)
    requires g <= |s| && Close(s, g).Some?
    ensures var (q, e) := Close(s, g).value;
      && (forall k :: g <= k < q ==> Free(s, k))
      && e <= |s| && (forall k :: q <= k < e ==> s[k] == '=')
  {
    StopFree(s, g);
    RunEndRun(s, Close(s, g).value.0);
  }

  /** A close succeeds from `g` when some `==` after `g` is reached through free characters. */
  lemma CloseReaches(s: string, g: nat, c: nat)
    requires g < c && c + 1 < |s| && DoubleAt(s, c)
    requires forall k :: g <= k < c ==> Free(s, k)
    ensures Close(s, g).Some?
  {
    var p := Stop(s, g);
    StopFree(s, g);
    assert c < p ==> Free(s, c);
  }

  /** Wherever the pattern matches at `i`, in any way, a heading is found there. */
  lemma MatchFindsHeading(s: string, i: nat, n: nat, g: nat, q: nat, c: nat, e: nat)
    requires IsMatch(s, i, n, g, q, c, e)
    ensures HeadingAt(s, i).Some?
  {
    var r := RunEnd(s, i);
    RunEndRun(s, i);
    assert DoubleAt(s, c);
    assert forall k :: g <= k < c ==> Free(s, k) by {
      if c == q + 1 {
        assert Free(s, q);
      }
    }
    if r == i + n {
      if g == r + 1 {
        CloseReaches(s, r + 1, c);
      } else {
        CloseReaches(s, r, c);
      }
    } else {
      assert s[i + n] == '=' && g == i + n;
      assert Free(s, g);
      assert r == g + 1;
      assert c != r;
      CloseReaches(s, r, c);
    }
  }

  /** `regex.exec(s)` from `from` on: the leftmost position at or after `from` with a
      heading. */
  function Search(s: string, from: nat): (r: Option<Heading>)
    requires from <= |s|
    ensures r.Some? ==> from <= r.value.start <= |s| && HeadingAt(s, r.value.start) == r
    decreases |s| - from
  {
    if HeadingAt(s, from).Some? then HeadingAt(s, from)
    else if from == |s| then None
    else Search(s, from + 1)
  }

  /** No heading starts between `from` and the heading found, nor anywhere after `from`
      when none is found. */
  lemma {:induction false} SearchLeftmost(s: string, from: nat, j: nat)
    requires from <= j <= |s|
    requires Search(s, from).None? || j < Search(s, from).value.start
    ensures HeadingAt(s, j).None?
    decreases j - from
  {
    if j > from {
      assert HeadingAt(s, from).None?;
      SearchLeftmost(s, from + 1, j);
    }
  }

  /** One `exec` of the global regex whose `lastIndex` is `last`: the match and the new
      `lastIndex`, which is the match's end, or 0 when there is no match. */
  function ExecHeading(s: string, last: nat): (Option<Heading>, nat)
  {
    if last > |s| then (None, 0)
    else
      var m := Search(s, last);
      if m.None? then (None, 0) else (m, m.value.end)
  }

  /** The module-level `headingPattern`, a global regex whose `lastIndex` persists between
      calls. */
  class HeadingRegex {
    var lastIndex: nat

    constructor ()
      ensures lastIndex == 0
    {
      lastIndex := 0;
    }

    method Exec(s: string) returns (m: Option<Heading>)
      modifies this
      ensures (m, lastIndex) == ExecHeading(s, old(lastIndex))
    {
      var r := ExecHeading(s, lastIndex);
      m, lastIndex := r.0, r.1;
    }
  }

  // ------------------------------------------------------------------ getHeadings

  /** The headings `exec` returns one after the other from `from` on until it fails. */
  function Headings(s: string, from: nat): seq<Heading>
    decreases |s| - from
  {
    if from > |s| then []
    else
      var m := Search(s, from);
      if m.None? then [] else [m.value] + Headings(s, m.value.end)
  }

  /** One `exec` yields the next heading and moves `lastIndex` past it, or yields none
      when no heading is left and resets `lastIndex` to 0. */
  lemma ExecFinds(s: string, last: nat)
    ensures var (m, next) := ExecHeading(s, last);
      && (m.None? ==> Headings(s, last) == [] && next == 0)
      && (m.Some? ==> last < next <= |s| && Headings(s, last) == [m.value] + Headings(s, next))
  {
    if last <= |s| && Search(s, last).Some? {
      HeadingsStep(s, last, Search(s, last).value);
    }
  }

  lemma Regroup<T>(a: seq<T>, x: T, b: seq<T>, c: seq<T>)
    requires b == [x] + c
    ensures a + b == (a + [x]) + c
  {
  }

  /** `getHeadings(text)`: the headings in text order. The failed `exec` that ends the
      loop leaves `lastIndex` at 0 again. */
  method GetHeadings(rx: HeadingRegex, text: string) returns (matches: seq<Heading>)
    modifies rx
    ensures matches == Headings(text, old(rx.lastIndex))
    ensures rx.lastIndex == 0
  {
    matches := [];
    while true
      invariant matches + Headings(text, rx.lastIndex) == Headings(text, old(rx.lastIndex))
      decreases |text| + 1 - rx.lastIndex
    {
      ghost var last := rx.lastIndex;
      ExecFinds(text, last);
      var m := rx.Exec(text);
      if m.None? {
        return;
      }
      Regroup(matches, m.value, Headings(text, last), Headings(text, rx.lastIndex));
      matches := matches + [m.value];
    }
  }

  /** The `k`th heading found is a match at its start, lies after `from`, and ends before
      the next one starts: the headings come in text order without overlap. */
  lemma {:induction false} HeadingFound(s: string, from: nat, k: nat)
    requires from <= |s| && k < |Headings(s, from)|
    ensures var hs := Headings(s, from);
      && hs[k].start <= |s| && HeadingAt(s, hs[k].start) == Some(hs[k])
      && from <= hs[k].start < hs[k].end <= |s|
      && (k + 1 < |hs| ==> hs[k].end <= hs[k + 1].start)
    decreases |s| - from
  {
    var m := Search(s, from);
    var hs := Headings(s, from);
    var t := Headings(s, m.value.end);
    assert hs == [m.value] + t;
    if k == 0 {
      if 1 < |hs| {
        HeadingFound(s, m.value.end, 0);
        assert hs[1] == t[0];
      }
    } else {
      HeadingFound(s, m.value.end, k - 1);
      assert hs[k] == t[k - 1];
      if k + 1 < |hs| {
        assert hs[k + 1] == t[k];
      }
    }
  }

  /** No heading starts at a position the search passed over. */
  lemma {:induction false} HeadingsSkipNothing(s: string, from: nat, j: nat)
    requires from <= j <= |s|
    requires forall h :: h in Headings(s, from) ==> h.start != j && !(h.start < j < h.end)
    ensures HeadingAt(s, j).None?
    decreases |s| - from
  {
    var m := Search(s, from);
    if m.None? || j < m.value.start {
      SearchLeftmost(s, from, j);
    } else {
      assert Headings(s, from) == [m.value] + Headings(s, m.value.end);
      assert m.value in Headings(s, from);
      HeadingsSkipNothing(s, m.value.end, j);
    }
  }

  // ------------------------------------------------------------------ parseContent

  /** `Math.min(...levels)` over the heading levels. */
  function MinLevel(hs: seq<Heading>): (m: nat)
    requires hs != []
    ensures forall k :: 0 <= k < |hs| ==> m <= hs[k].level
  {
    if |hs| == 1 then hs[0].level
    else
      var rest := MinLevel(hs[1..]);
      if hs[0].level < rest then hs[0].level else rest
  }

  /** The smallest level is the level of some heading. */
  lemma {:induction false} MinLevelAttained(hs: seq<Heading>) returns (k: nat)
    requires hs != []
    ensures k < |hs| && hs[k].level == MinLevel(hs)
  {
    if |hs| == 1 || hs[0].level < MinLevel(hs[1..]) {
      k := 0;
    } else {
      var j := MinLevelAttained(hs[1..]);
      k := j + 1;
    }
  }

  /** Each section's level: its heading's level less the smallest heading level. */
  function Levels(hs: seq<Heading>): (levels: seq<nat>)
    ensures |levels| == |hs|
  {
    if hs == [] then []
    else
      var m := MinLevel(hs);
      seq(|hs|, k requires 0 <= k < |hs| => hs[k].level - m)
  }

  /** The levels keep the headings' order and differences, and the shallowest sections
      are at level 0. */
  lemma LevelsMeaning(hs: seq<Heading>) returns (k: nat)
    requires hs != []
    ensures forall j :: 0 <= j < |hs| ==> Levels(hs)[j] + MinLevel(hs) == hs[j].level
    ensures k < |hs| && Levels(hs)[k] == 0
  {
    k := MinLevelAttained(hs);
  }

  /** `source.substring(heading.end, next ? next.start : undefined).trim()`. */
  function SectionContent(source: string, hs: seq<Heading>, k: nat): string
    requires k < |hs|
  {
    Trim(Substring(source, hs[k].end, if k + 1 < |hs| then hs[k + 1].start else |source|))
  }

  function Contents(source: string, hs: seq<Heading>): (contents: seq<string>)
    ensures |contents| == |hs|
  {
    seq(|hs|, k requires 0 <= k < |hs| => SectionContent(source, hs, k))
  }

  function Titles(hs: seq<Heading>): (titles: seq<string>)
    ensures |titles| == |hs|
  {
    seq(|hs|, k requires 0 <= k < |hs| => hs[k].text)
  }

  /** For the headings `getHeadings` finds, a section's content is the trimmed text from
      its heading's end to the next heading's start, or to the end of the source. */
  lemma ContentBetween(source: string, from: nat, k: nat)
    requires from <= |source| && k < |Headings(source, from)|
    ensures var hs := Headings(source, from);
      var stop := if k + 1 < |hs| then hs[k + 1].start else |source|;
      hs[k].end <= stop <= |source| && SectionContent(source, hs, k) == Trim(source[hs[k].end..stop])
  {
    HeadingFound(source, from, k);
    if k + 1 < |Headings(source, from)| {
      HeadingFound(source, from, k + 1);
    }
  }

  /** `lastParentLevel(index, level)` without the level-0 test: the nearest section before
      `index` whose level is below `level`. */
  function LastLower(levels: seq<nat>, index: nat, level: nat): Option<nat>
    requires index <= |levels|
  {
    if index == 0 then None
    else if levels[index - 1] < level then Some(index - 1)
    else LastLower(levels, index - 1, level)
  }

  /** The parent `parseContent` gives section `k`. */
  function ParentOf(levels: seq<nat>, k: nat): Option<nat>
    requires k < |levels|
  {
    if levels[k] == 0 then None else LastLower(levels, k, levels[k])
  }

  function Parents(levels: seq<nat>): (parents: seq<Option<nat>>)
    ensures |parents| == |levels|
  {
    seq(|levels|, k requires 0 <= k < |levels| => ParentOf(levels, k))
  }

  /** The section found lies before `index`, has a lower level, and every section between
      them has a level at least `level`; when none is found, no earlier section has a
      lower level. */
  lemma {:induction false} LastLowerNearest(levels: seq<nat>, index: nat, level: nat)
    requires index <= |levels|
    ensures var r := LastLower(levels, index, level);
      && (r.Some? ==> r.value < index && levels[r.value] < level &&
                      forall j :: r.value < j < index ==> levels[j] >= level)
      && (r.None? ==> forall j :: 0 <= j < index ==> levels[j] >= level)
    decreases index
  {
    if index > 0 && levels[index - 1] >= level {
      LastLowerNearest(levels, index - 1, level);
    }
  }

  /** A section's parent comes before it and has a lower level; a section at level 0 has
      none, and a section without one has no shallower section before it. */
  lemma ParentOfMeaning(levels: seq<nat>, k: nat)
    requires k < |levels|
    ensures var r := ParentOf(levels, k);
      && (r.Some? ==> r.value < k && levels[r.value] < levels[k] &&
                      forall j :: r.value < j < k ==> levels[j] >= levels[k])
      && (r.None? ==> levels[k] == 0 || forall j :: 0 <= j < k ==> levels[j] >= levels[k])
  {
    LastLowerNearest(levels, k, levels[k]);
  }

  lemma ParentsBefore(levels: seq<nat>)
    ensures var parents := Parents(levels);
      forall k :: 0 <= k < |parents| && parents[k].Some? ==> parents[k].value < k
  {
    forall k | 0 <= k < |levels| && ParentOf(levels, k).Some?
      ensures ParentOf(levels, k).value < k
    {
      ParentOfMeaning(levels, k);
    }
  }

  /** `lastParentLevel(index, level)`: the loop down from `index - 1`. */
  method LastParentLevel(levels: seq<nat>, index: nat, level: nat) returns (parent: Option<nat>)
    requires index <= |levels|
    ensures parent == (if level == 0 then None else LastLower(levels, index, level))
  {
    if level == 0 {
      return None;
    }
    var i: nat := index;
    while i > 0
      invariant i <= index
      invariant LastLower(levels, index, level) == LastLower(levels, i, level)
    {
      if levels[i - 1] < level {
        return Some(i - 1);
      }
      i := i - 1;
    }
    return None;
  }

  /** "Set parents": every section's parent, one section after the other. */
  method SetParents(levels: seq<nat>) returns (parents: array<Option<nat>>)
    ensures fresh(parents) && parents[..] == Parents(levels)
  {
    parents := new Option<nat>[|levels|](_ => None);
    for k := 0 to |levels|
      invariant forall j :: 0 <= j < k ==> parents[j] == ParentOf(levels, j)
    {
      parents[k] := LastParentLevel(levels, k, levels[k]);
    }
  }

  /** The sections in `[a, b)` whose parent is `p`, in order (`None` standing for the
      root). */
  function ChildrenIn(parents: seq<Option<nat>>, p: Option<nat>, a: nat, b: nat): seq<nat>
    requires a <= b <= |parents|
    decreases b - a
  {
    if a == b then [] else (if parents[a] == p then [a] else []) + ChildrenIn(parents, p, a + 1, b)
  }

  /** The children of `p` are exactly the sections of the range whose parent is `p`, each
      once and in order. */
  lemma {:induction false} ChildrenInMeaning(parents: seq<Option<nat>>, p: Option<nat>, a: nat, b: nat)
    requires a <= b <= |parents|
    ensures var cs := ChildrenIn(parents, p, a, b);
      && (forall j :: j in cs <==> a <= j < b && parents[j] == p)
      && (forall i, k :: 0 <= i < k < |cs| ==> cs[i] < cs[k])
    decreases b - a
  {
    if a < b {
      ChildrenInMeaning(parents, p, a + 1, b);
      var rest := ChildrenIn(parents, p, a + 1, b);
      var cs := ChildrenIn(parents, p, a, b);
      if parents[a] == p {
        forall i, k | 0 <= i < k < |cs|
          ensures cs[i] < cs[k]
        {
          assert cs[k] == rest[k - 1] && rest[k - 1] in rest;
          if i > 0 {
            assert cs[i] == rest[i - 1];
          }
        }
      }
    }
  }

  lemma {:induction false} ChildrenSnoc(parents: seq<Option<nat>>, p: Option<nat>, a: nat, b: nat)
    requires a <= b < |parents|
    ensures ChildrenIn(parents, p, a, b + 1) == ChildrenIn(parents, p, a, b) + (if parents[b] == p then [b] else [])
    decreases b - a
  {
    if a < b {
      ChildrenSnoc(parents, p, a + 1, b);
      var head: seq<nat> := if parents[a] == p then [a] else [];
      var last: seq<nat> := if parents[b] == p then [b] else [];
      assert head + (ChildrenIn(parents, p, a + 1, b) + last) == head + ChildrenIn(parents, p, a + 1, b) + last;
    } else {
      assert ChildrenIn(parents, p, b + 1, b + 1) == [];
    }
  }

  lemma {:induction false} ChildrenSplit(parents: seq<Option<nat>>, p: Option<nat>, a: nat, m: nat, b: nat)
    requires a <= m <= b <= |parents|
    ensures ChildrenIn(parents, p, a, b) == ChildrenIn(parents, p, a, m) + ChildrenIn(parents, p, m, b)
    decreases m - a
  {
    if a < m {
      ChildrenSplit(parents, p, a + 1, m, b);
      var head: seq<nat> := if parents[a] == p then [a] else [];
      assert head + (ChildrenIn(parents, p, a + 1, m) + ChildrenIn(parents, p, m, b)) ==
             head + ChildrenIn(parents, p, a + 1, m) + ChildrenIn(parents, p, m, b);
    } else {
      assert ChildrenIn(parents, p, a, m) == [];
    }
  }

  lemma {:induction false} ChildrenNone(parents: seq<Option<nat>>, p: Option<nat>, a: nat, b: nat)
    requires a <= b <= |parents|
    requires forall j :: a <= j < b ==> parents[j] != p
    ensures ChildrenIn(parents, p, a, b) == []
    decreases b - a
  {
    if a < b {
      ChildrenNone(parents, p, a + 1, b);
    }
  }

  /** "Organize": every section is pushed onto the items of its parent, or onto the root's. */
  method Organize(parents: seq<Option<nat>>) returns (roots: seq<nat>, items: array<seq<nat>>)
    requires forall k :: 0 <= k < |parents| && parents[k].Some? ==> parents[k].value < |parents|
    ensures fresh(items) && items.Length == |parents|
    ensures roots == ChildrenIn(parents, None, 0, |parents|)
    ensures forall p :: 0 <= p < |parents| ==> items[p] == ChildrenIn(parents, Some(p), 0, |parents|)
  {
    roots := [];
    items := new seq<nat>[|parents|](_ => []);
    for k := 0 to |parents|
      invariant roots == ChildrenIn(parents, None, 0, k)
      invariant forall p :: 0 <= p < |parents| ==> items[p] == ChildrenIn(parents, Some(p), 0, k)
    {
      ChildrenSnoc(parents, None, 0, k);
      forall p | 0 <= p < |parents|
        ensures ChildrenIn(parents, Some(p), 0, k + 1) ==
                ChildrenIn(parents, Some(p), 0, k) + (if parents[k] == Some(p) then [k] else [])
      {
        ChildrenSnoc(parents, Some(p), 0, k);
      }
      if parents[k].None? {
        roots := roots + [k];
      } else {
        var p := parents[k].value;
        items[p] := items[p] + [k];
      }
    }
  }

  /** A section of the outline; `items` are its subsections, an empty list standing for the
      `items` property that the clean-up deletes. */
  datatype Section = Section(title: string, content: string, items: seq<Section>)

  /** Every child list points forward, to a later section. */
  predicate Forward(kids: seq<seq<nat>>)
  {
    forall p, j :: 0 <= p < |kids| && 0 <= j < |kids[p]| ==> p < kids[p][j] < |kids|
  }

  /** The section object `k` once organized and cleaned up, with its subsections. */
  function Expand(titles: seq<string>, contents: seq<string>, kids: seq<seq<nat>>, k: nat): Section
    requires |titles| == |contents| == |kids| && k < |kids| && Forward(kids)
    decreases |kids| - k
  {
    Section(titles[k], contents[k],
            seq(|kids[k]|, j requires 0 <= j < |kids[k]| => Expand(titles, contents, kids, kids[k][j])))
  }

  /** The items lists once organized: the children of every section. */
  function Kids(parents: seq<Option<nat>>): (kids: seq<seq<nat>>)
    ensures |kids| == |parents|
  {
    seq(|parents|, p requires 0 <= p < |parents| => ChildrenIn(parents, Some(p), 0, |parents|))
  }

  lemma KidsForward(levels: seq<nat>)
    ensures Forward(Kids(Parents(levels)))
  {
    var parents := Parents(levels);
    var kids := Kids(parents);
    ParentsBefore(levels);
    forall p, j | 0 <= p < |kids| && 0 <= j < |kids[p]|
      ensures p < kids[p][j] < |kids|
    {
      ChildrenInMeaning(parents, Some(p), 0, |parents|);
      assert kids[p][j] in kids[p];
    }
  }

  lemma ChildrenBelow(parents: seq<Option<nat>>, p: Option<nat>, a: nat, b: nat)
    requires a <= b <= |parents|
    ensures forall j :: 0 <= j < |ChildrenIn(parents, p, a, b)| ==> ChildrenIn(parents, p, a, b)[j] < b
  {
    ChildrenInMeaning(parents, p, a, b);
    var cs := ChildrenIn(parents, p, a, b);
    assert forall j :: 0 <= j < |cs| ==> cs[j] in cs;
  }

  /** Section `k` with its subsections, as the organized objects hold it, for sections
      with the given titles, contents and levels. */
  function Node(titles: seq<string>, contents: seq<string>, levels: seq<nat>, k: nat): Section
    requires |titles| == |contents| == |levels| && k < |levels|
  {
    KidsForward(levels);
    Expand(titles, contents, Kids(Parents(levels)), k)
  }

  /** The sections `ids` with their subsections. */
  function Forest(titles: seq<string>, contents: seq<string>, levels: seq<nat>, ids: seq<nat>): (f: seq<Section>)
    requires |titles| == |contents| == |levels|
    requires forall j :: 0 <= j < |ids| ==> ids[j] < |levels|
    ensures |f| == |ids|
  {
    seq(|ids|, j requires 0 <= j < |ids| => Node(titles, contents, levels, ids[j]))
  }

  /** The children of `p` in `[a, b)` with their subsections. */
  function Family(titles: seq<string>, contents: seq<string>, levels: seq<nat>, p: Option<nat>, a: nat, b: nat): seq<Section>
    requires |titles| == |contents| == |levels| && a <= b <= |levels|
  {
    ChildrenBelow(Parents(levels), p, a, b);
    Forest(titles, contents, levels, ChildrenIn(Parents(levels), p, a, b))
  }

  /** `parseContent(source)` over the headings found: the root's items. */
  function Outline(source: string, hs: seq<Heading>): seq<Section>
  {
    Family(Titles(hs), Contents(source, hs), Levels(hs), None, 0, |hs|)
  }

  /** `parseContent(source)`: the headings, the sections' levels and contents, their parents,
      the organized tree. */
  method ParseContent(rx: HeadingRegex, source: string) returns (items: seq<Section>)
    modifies rx
    ensures rx.lastIndex == 0
    ensures items == Outline(source, Headings(source, old(rx.lastIndex)))
  {
    var headings := GetHeadings(rx, source);
    var levels := Levels(headings);
    var titles, contents := Titles(headings), Contents(source, headings);
    var parents := SetParents(levels);
    ParentsBefore(levels);
    var roots, kids := Organize(parents[..]);
    var tree := kids[..];
    assert tree == Kids(Parents(levels));
    KidsForward(levels);
    ChildrenBelow(parents[..], None, 0, |headings|);
    items := seq(|roots|, j requires 0 <= j < |roots| => Expand(titles, contents, tree, roots[j]));
  }

  // ------------------------------------------------------------------ the outline's order

  /** The sections of an outline read in document order: each section, then its
      subsections. */
  function Preorder(items: seq<Section>): seq<(string, string)>
    decreases items
  {
    if items == [] then []
    else [(items[0].title, items[0].content)] + Preorder(items[0].items) + Preorder(items[1..])
  }

  /** The pairs of title and content, in order. */
  function Zip(titles: seq<string>, contents: seq<string>): (es: seq<(string, string)>)
    requires |titles| == |contents|
    ensures |es| == |titles|
  {
    seq(|titles|, k requires 0 <= k < |titles| => (titles[k], contents[k]))
  }

  /** Reading the outline in document order gives back every section, each once, in the
      order of its heading, with its title and its content: the tree neither loses, repeats
      nor reorders sections. */
  lemma OutlineInOrder(source: string, hs: seq<Heading>)
    ensures var es := Preorder(Outline(source, hs));
      && |es| == |hs|
      && forall k :: 0 <= k < |hs| ==> es[k] == (hs[k].text, SectionContent(source, hs, k))
  {
    TreeInOrder(Titles(hs), Contents(source, hs), Levels(hs));
  }

  /** The order theorem for any titles, contents and levels. */
  lemma TreeInOrder(titles: seq<string>, contents: seq<string>, levels: seq<nat>)
    requires |titles| == |contents| == |levels|
    ensures Preorder(Family(titles, contents, levels, None, 0, |levels|)) == Zip(titles, contents)
  {
    assert Bound(levels, None) == |levels|;
    SiblingsInOrder(titles, contents, levels, None, 0);
    assert Zip(titles, contents)[0..|levels|] == Zip(titles, contents);
  }

  /** The first section at or after `j` whose level is at most `lv`, or the end. */
  function End(levels: seq<nat>, lv: int, j: nat): (e: nat)
    requires j <= |levels|
    ensures j <= e <= |levels|
    ensures forall i :: j <= i < e ==> levels[i] > lv
    ensures e == |levels| || levels[e] <= lv
    decreases |levels| - j
  {
    if j == |levels| || levels[j] <= lv then j else End(levels, lv, j + 1)
  }

  /** Where the children of `p` may start. */
  function Lo(p: Option<nat>): nat
  {
    if p.None? then 0 else p.value + 1
  }

  /** The level the children of `p` lie below: -1 for the root. */
  function Floor(levels: seq<nat>, p: Option<nat>): int
    requires p.Some? ==> p.value < |levels|
  {
    if p.None? then -1 else levels[p.value]
  }

  /** Where the subsections of `p` end: at the first later section no deeper than `p`. */
  function Bound(levels: seq<nat>, p: Option<nat>): nat
    requires p.Some? ==> p.value < |levels|
  {
    End(levels, Floor(levels, p), Lo(p))
  }

  /** `p` is the parent of `a`, said with levels alone: `p` comes before `a` with a lower
      level, and no section between them is shallower than `a`. */
  predicate IsParent(levels: seq<nat>, p: Option<nat>, a: nat)
    requires a < |levels|
  {
    && (p.Some? ==> p.value < a && levels[p.value] < levels[a])
    && (forall j :: Lo(p) <= j < a ==> levels[j] >= levels[a])
  }

  lemma ParentIff(levels: seq<nat>, p: Option<nat>, a: nat)
    requires a < |levels|
    ensures ParentOf(levels, a) == p <==> IsParent(levels, p, a)
  {
    ParentOfMeaning(levels, a);
  }

  /** A child of `p` inside `p`'s bound ends its own subsections no later than `p` does. */
  lemma ChildBound(levels: seq<nat>, p: Option<nat>, a: nat)
    requires p.Some? ==> p.value < |levels|
    requires a < Bound(levels, p) && IsParent(levels, p, a)
    ensures a + 1 <= Bound(levels, Some(a)) <= Bound(levels, p)
  {
    var e := Bound(levels, p);
    if e < |levels| {
      assert levels[e] <= Floor(levels, p) < levels[a];
      assert a < e;
    }
  }

  /** The section right after `a`, inside `a`'s bound, is a child of `a`. */
  lemma FirstChild(levels: seq<nat>, a: nat)
    requires a < |levels| && a + 1 < Bound(levels, Some(a))
    ensures IsParent(levels, Some(a), a + 1)
  {
  }

  /** The sections inside the bound of a child `a` of `p` are no children of `p`. */
  lemma InsideNotSibling(levels: seq<nat>, p: Option<nat>, a: nat, j: nat)
    requires a < |levels| && IsParent(levels, p, a)
    requires a < j < Bound(levels, Some(a))
    ensures !IsParent(levels, p, j)
  {
    assert levels[a] < levels[j];
  }

  /** The section that ends the subsections of a child `a` of `p`, inside `p`'s bound, is
      the next child of `p`. */
  lemma NextSibling(levels: seq<nat>, p: Option<nat>, a: nat)
    requires p.Some? ==> p.value < |levels|
    requires a < |levels| && IsParent(levels, p, a) && Lo(p) <= a
    requires Bound(levels, Some(a)) < Bound(levels, p)
    ensures IsParent(levels, p, Bound(levels, Some(a)))
  {
    var m := Bound(levels, Some(a));
    assert levels[m] <= levels[a];
    assert Lo(p) <= m;
    assert levels[m] > Floor(levels, p);
  }

  /** No section before `a`, nor any after `a`'s bound, has `a` as its parent. */
  lemma NoKidsOutside(levels: seq<nat>, a: nat)
    requires a < |levels|
    ensures forall j :: 0 <= j < a + 1 ==> Parents(levels)[j] != Some(a)
    ensures forall j :: Bound(levels, Some(a)) <= j < |levels| ==> Parents(levels)[j] != Some(a)
  {
    var parents := Parents(levels);
    var m := Bound(levels, Some(a));
    forall j | 0 <= j < a + 1
      ensures parents[j] != Some(a)
    {
      ParentIff(levels, Some(a), j);
    }
    forall j | m <= j < |levels|
      ensures parents[j] != Some(a)
    {
      ParentIff(levels, Some(a), j);
      if m < j {
        assert levels[m] <= levels[a];
      }
    }
  }

  /** The items of section `a` are its children inside its bound. */
  lemma KidsWithin(levels: seq<nat>, a: nat)
    requires a < |levels|
    ensures Kids(Parents(levels))[a] == ChildrenIn(Parents(levels), Some(a), a + 1, Bound(levels, Some(a)))
  {
    var parents := Parents(levels);
    var m := Bound(levels, Some(a));
    NoKidsOutside(levels, a);
    ChildrenSplit(parents, Some(a), 0, a + 1, |levels|);
    ChildrenSplit(parents, Some(a), a + 1, m, |levels|);
    ChildrenNone(parents, Some(a), 0, a + 1);
    ChildrenNone(parents, Some(a), m, |levels|);
  }

  /** The children of `p` from its child `a` on: `a`, then those from `a`'s bound on. */
  lemma ChildrenStep(levels: seq<nat>, p: Option<nat>, a: nat, e: nat)
    requires a < e <= |levels| && IsParent(levels, p, a)
    requires a + 1 <= Bound(levels, Some(a)) <= e
    ensures ChildrenIn(Parents(levels), p, a, e) == [a] + ChildrenIn(Parents(levels), p, Bound(levels, Some(a)), e)
  {
    var parents := Parents(levels);
    var m := Bound(levels, Some(a));
    ParentIff(levels, p, a);
    forall j | a + 1 <= j < m
      ensures parents[j] != p
    {
      InsideNotSibling(levels, p, a, j);
      ParentIff(levels, p, j);
    }
    ChildrenSplit(parents, p, a + 1, m, e);
    ChildrenNone(parents, p, a + 1, m);
    assert ChildrenIn(parents, p, a + 1, m) + ChildrenIn(parents, p, m, e) == ChildrenIn(parents, p, m, e);
  }

  /** Section `a` is its title and content over its children inside its bound. */
  lemma NodeShape(titles: seq<string>, contents: seq<string>, levels: seq<nat>, a: nat)
    requires |titles| == |contents| == |levels| && a < |levels|
    ensures a + 1 <= Bound(levels, Some(a))
    ensures Node(titles, contents, levels, a) ==
            Section(titles[a], contents[a], Family(titles, contents, levels, Some(a), a + 1, Bound(levels, Some(a))))
  {
    KidsWithin(levels, a);
    KidsForward(levels);
    var n := Node(titles, contents, levels, a);
    var f := Family(titles, contents, levels, Some(a), a + 1, Bound(levels, Some(a)));
    assert |n.items| == |f|;
    forall j | 0 <= j < |f|
      ensures n.items[j] == f[j]
    {
    }
  }

  lemma ForestCons(titles: seq<string>, contents: seq<string>, levels: seq<nat>, a: nat, ids: seq<nat>)
    requires |titles| == |contents| == |levels| && a < |levels|
    requires forall j :: 0 <= j < |ids| ==> ids[j] < |levels|
    ensures Forest(titles, contents, levels, [a] + ids) ==
            [Node(titles, contents, levels, a)] + Forest(titles, contents, levels, ids)
  {
    var all := [a] + ids;
    assert forall j :: 0 <= j < |ids| ==> all[j + 1] == ids[j];
  }

  lemma PreorderCons(x: Section, ys: seq<Section>)
    ensures Preorder([x] + ys) == [(x.title, x.content)] + Preorder(x.items) + Preorder(ys)
  {
    assert ([x] + ys)[0] == x && ([x] + ys)[1..] == ys;
  }

  lemma SliceSplit<T>(s: seq<T>, a: nat, m: nat, e: nat)
    requires a < m <= e <= |s|
    ensures s[a..e] == [s[a]] + s[a + 1..m] + s[m..e]
  {
  }

  /** The children of `p` from its child `a` on, read in document order, are the sections
      from `a` to `p`'s bound. */
  lemma {:induction false} SiblingsInOrder(titles: seq<string>, contents: seq<string>, levels: seq<nat>,
                                           p: Option<nat>, a: nat)
    requires |titles| == |contents| == |levels|
    requires p.Some? ==> p.value < |levels|
    requires Lo(p) <= a <= Bound(levels, p)
    requires a == Bound(levels, p) || IsParent(levels, p, a)
    ensures Preorder(Family(titles, contents, levels, p, a, Bound(levels, p))) == Zip(titles, contents)[a..Bound(levels, p)]
    decreases Bound(levels, p) - a, 1
  {
    if a == Bound(levels, p) {
      FamilyEmpty(titles, contents, levels, p, a);
    } else {
      SiblingsFrom(titles, contents, levels, p, a);
    }
  }

  /** The same from a child `a` of `p`: `a`'s subtree first, then the later siblings. */
  lemma {:induction false} SiblingsFrom(titles: seq<string>, contents: seq<string>, levels: seq<nat>,
                                        p: Option<nat>, a: nat)
    requires |titles| == |contents| == |levels|
    requires p.Some? ==> p.value < |levels|
    requires Lo(p) <= a < Bound(levels, p) && IsParent(levels, p, a)
    ensures Preorder(Family(titles, contents, levels, p, a, Bound(levels, p))) == Zip(titles, contents)[a..Bound(levels, p)]
    decreases Bound(levels, p) - a, 0
  {
    var m := Bound(levels, Some(a));
    ChildRange(levels, p, a);
    SiblingsInOrder(titles, contents, levels, Some(a), a + 1);
    SiblingsInOrder(titles, contents, levels, p, m);
    SiblingsStep(titles, contents, levels, p, a, m, Bound(levels, p));
  }

  lemma FamilyEmpty(titles: seq<string>, contents: seq<string>, levels: seq<nat>, p: Option<nat>, a: nat)
    requires |titles| == |contents| == |levels| && a <= |levels|
    ensures Preorder(Family(titles, contents, levels, p, a, a)) == Zip(titles, contents)[a..a]
  {
    assert ChildrenIn(Parents(levels), p, a, a) == [];
  }

  /** A child `a` of `p`: its own children follow it directly, and its next sibling, if
      any, follows them. */
  lemma ChildRange(levels: seq<nat>, p: Option<nat>, a: nat)
    requires p.Some? ==> p.value < |levels|
    requires Lo(p) <= a < Bound(levels, p) && IsParent(levels, p, a)
    ensures a + 1 <= Bound(levels, Some(a)) <= Bound(levels, p)
    ensures a + 1 == Bound(levels, Some(a)) || IsParent(levels, Some(a), a + 1)
    ensures Bound(levels, Some(a)) == Bound(levels, p) || IsParent(levels, p, Bound(levels, Some(a)))
  {
    ChildBound(levels, p, a);
    if a + 1 < Bound(levels, Some(a)) {
      FirstChild(levels, a);
    }
    if Bound(levels, Some(a)) < Bound(levels, p) {
      NextSibling(levels, p, a);
    }
  }

  /** The preorder of `a`'s family and of its later siblings, put together. */
  lemma SiblingsStep(titles: seq<string>, contents: seq<string>, levels: seq<nat>,
                     p: Option<nat>, a: nat, m: nat, e: nat)
    requires |titles| == |contents| == |levels|
    requires p.Some? ==> p.value < |levels|
    requires a < e == Bound(levels, p) && IsParent(levels, p, a) && m == Bound(levels, Some(a))
    requires a + 1 <= m <= e <= |levels|
    requires Preorder(Family(titles, contents, levels, Some(a), a + 1, m)) == Zip(titles, contents)[a + 1..m]
    requires Preorder(Family(titles, contents, levels, p, m, e)) == Zip(titles, contents)[m..e]
    ensures Preorder(Family(titles, contents, levels, p, a, e)) == Zip(titles, contents)[a..e]
  {
    FamilyStep(titles, contents, levels, p, a, e);
    NodeShape(titles, contents, levels, a);
    Assemble(Node(titles, contents, levels, a), Family(titles, contents, levels, p, m, e), Zip(titles, contents), a, m, e);
  }

  /** The children of `p` from its child `a` on: `a`'s node, then the children from `a`'s
      bound on. */
  lemma FamilyStep(titles: seq<string>, contents: seq<string>, levels: seq<nat>, p: Option<nat>, a: nat, e: nat)
    requires |titles| == |contents| == |levels|
    requires p.Some? ==> p.value < |levels|
    requires a < e == Bound(levels, p) && IsParent(levels, p, a)
    ensures a + 1 <= Bound(levels, Some(a)) <= e
    ensures Family(titles, contents, levels, p, a, e) ==
            [Node(titles, contents, levels, a)] + Family(titles, contents, levels, p, Bound(levels, Some(a)), e)
  {
    var parents := Parents(levels);
    var m := Bound(levels, Some(a));
    ChildBound(levels, p, a);
    ChildrenStep(levels, p, a, e);
    ChildrenBelow(parents, p, m, e);
    ForestCons(titles, contents, levels, a, ChildrenIn(parents, p, m, e));
  }

  lemma Assemble(x: Section, rest: seq<Section>, zs: seq<(string, string)>, a: nat, m: nat, e: nat)
    requires a < m <= e <= |zs|
    requires zs[a] == (x.title, x.content)
    requires Preorder(x.items) == zs[a + 1..m] && Preorder(rest) == zs[m..e]
    ensures Preorder([x] + rest) == zs[a..e]
  {
    PreorderCons(x, rest);
    SliceSplit(zs, a, m, e);
  }

  // ------------------------------------------------------------------ flat outlines

  /** Sections all at level 0 stay flat: every one is a top-level item, in order, without
      subsections. */
  lemma FlatTree(titles: seq<string>, contents: seq<string>, levels: seq<nat>)
    requires |titles| == |contents| == |levels|
    requires forall k :: 0 <= k < |levels| ==> levels[k] == 0
    ensures Family(titles, contents, levels, None, 0, |levels|) ==
            seq(|levels|, k requires 0 <= k < |levels| => Section(titles[k], contents[k], []))
  {
    var parents := Parents(levels);
    var f := Family(titles, contents, levels, None, 0, |levels|);
    ChildrenAll(parents, None, 0, |levels|);
    forall k | 0 <= k < |levels|
      ensures f[k] == Section(titles[k], contents[k], [])
    {
      NodeShape(titles, contents, levels, k);
      ChildrenNone(parents, Some(k), k + 1, Bound(levels, Some(k)));
    }
  }

  /** When every section of the range has parent `p`, all of them are its children. */
  lemma {:induction false} ChildrenAll(parents: seq<Option<nat>>, p: Option<nat>, a: nat, b: nat)
    requires a <= b <= |parents|
    requires forall j :: a <= j < b ==> parents[j] == p
    ensures |ChildrenIn(parents, p, a, b)| == b - a
    ensures forall j :: 0 <= j < b - a ==> ChildrenIn(parents, p, a, b)[j] == a + j
    decreases b - a
  {
    if a < b {
      ChildrenAll(parents, p, a + 1, b);
      var t := ChildrenIn(parents, p, a + 1, b);
      assert ChildrenIn(parents, p, a, b) == [a] + t;
      forall j | 0 <= j < b - a
        ensures ([a] + t)[j] == a + j
      {
        if j > 0 {
          assert ([a] + t)[j] == t[j - 1];
        }
      }
    }
  }

  /** Headings all of one level give a flat outline: one top-level section per heading, in
      order, none with subsections. */
  lemma FlatOutline(source: string, hs: seq<Heading>)
    requires forall k :: 0 <= k < |hs| ==> hs[k].level == hs[0].level
    ensures Outline(source, hs) ==
            seq(|hs|, k requires 0 <= k < |hs| => Section(hs[k].text, SectionContent(source, hs, k), []))
  {
    if hs != [] {
      var j := LevelsMeaning(hs);
    }
    FlatTree(Titles(hs), Contents(source, hs), Levels(hs));
  }

  /** `HeadingAt` assembled from its parts. */
  lemma HeadingParts(s: string, i: nat, r: nat, g: nat)
    requires i <= |s| && r == RunEnd(s, i) && r - i >= 2 && g == TitleStart(s, r) && Close(s, g).Some?
    ensures HeadingAt(s, i) == Some(Heading(r - i, Title(s, g, Close(s, g).value.0), i, Close(s, g).value.1))
  {
  }

  // ------------------------------------------------------------------ an example

  /** An article with three headings of the same level, the second without content, put
      together from its headings and the text between them. */
  const Example: string := Head1 + (Body1 + Rest2)
  const Rest2: string := Head2 + (Body2 + Rest3)
  const Rest3: string := Head3 + Body3

  const Head1: string := "== " + "section 1" + " =="
  const Head2: string := "== " + "section 2 (empty)" + " =="
  const Head3: string := "== " + "section 3" + " =="
  const Body1: string := "\n" + "content 1" + "\n"
  const Body2: string := "\n\n"
  const Body3: string := "\n" + "content 3" + "\n"

  /** A sequence split into its first part and the rest. */
  lemma Parts<T>(a: seq<T>, b: seq<T>)
    ensures |a + b| == |a| + |b|
    ensures (a + b)[..|a|] == a && (a + b)[|a|..] == b
  {
  }

  /** No heading starts where there is no `=`. */
  lemma NoOpening(s: string, j: nat)
    requires j <= |s| && (j == |s| || s[j] != '=')
    ensures HeadingAt(s, j).None?
  {
  }

  /** The search passes over text without `=`. */
  lemma {:induction false} SearchSkips(s: string, from: nat, to: nat)
    requires from <= to <= |s|
    requires '=' !in s[from..to]
    ensures Search(s, from) == Search(s, to)
    decreases (to as int) - (from as int)
  {
    if from < to {
      assert s[from] == s[from..to][0];
      assert s[from + 1..to] == s[from..to][1..];
      SkipOne(s, from);
      SearchSkips(s, from + 1, to);
    }
  }

  lemma SkipOne(s: string, from: nat)
    requires from < |s| && s[from] != '='
    ensures Search(s, from) == Search(s, from + 1)
  {
    NoOpening(s, from);
  }

  /** The run of `=` from `i` ends at the first other character. */
  lemma {:induction false} RunEndIs(s: string, i: nat, r: nat)
    requires i <= r <= |s| && (forall k :: i <= k < r ==> s[k] == '=') && (r == |s| || s[r] != '=')
    ensures RunEnd(s, i) == r
    decreases r - i
  {
    if i < r {
      RunEndIs(s, i + 1, r);
    }
  }

  /** The title group from `g` stops at the first character it may not take. */
  lemma {:induction false} StopIs(s: string, g: nat, p: nat)
    requires g <= p <= |s| && (forall k :: g <= k < p ==> Free(s, k)) && (p == |s| || !Free(s, p))
    ensures Stop(s, g) == p
    decreases p - g
  {
    if g < p {
      StopIs(s, g + 1, p);
    }
  }

  /** The title group from `g` runs over text without `=` or '\n' up to a `==`. */
  lemma StopAt(s: string, g: nat, p: nat)
    requires g <= p && DoubleAt(s, p) && '=' !in s[g..p] && '\n' !in s[g..p]
    ensures Stop(s, g) == p
  {
    forall k | g <= k < p
      ensures Free(s, k)
    {
      assert s[k] == s[g..p][k - g];
    }
    StopIs(s, g, p);
  }

  /** A line `== title ==` is read as a heading of level 2 with that title, whatever
      follows it, as long as that is not one more `=`. */
  lemma SpacedHeading(s: string, i: nat, t: string, rest: string, e: nat)
    requires t != [] && !IsSpace(t[0]) && !IsSpace(t[|t| - 1]) && '=' !in t && '\n' !in t
    requires i <= |s| && s[i..] == "== " + t + " ==" + rest && (rest == [] || rest[0] != '=')
    requires e == i + |t| + 6
    ensures HeadingAt(s, i) == Some(Heading(2, t, i, e))
  {
    SpacedChars(s, i, t, rest);
    var p := i + |t| + 4;
    SpacedTitle(s, i, p, e);
    TitleIs(s, i + 3, p, t + " ");
    TrimSpaced(t);
  }

  /** The characters of `== title ==` at `i`. */
  lemma SpacedChars(s: string, i: nat, t: string, rest: string)
    requires '=' !in t && '\n' !in t
    requires i <= |s| && s[i..] == "== " + t + " ==" + rest && (rest == [] || rest[0] != '=')
    ensures i + |t| + 6 <= |s|
    ensures s[i] == '=' && s[i + 1] == '=' && s[i + 2] == ' '
    ensures s[i + 3..i + |t| + 4] == t + " "
    ensures '=' !in s[i + 3..i + |t| + 4] && '\n' !in s[i + 3..i + |t| + 4]
    ensures s[i + |t| + 4] == '=' && s[i + |t| + 5] == '='
    ensures i + |t| + 6 == |s| || s[i + |t| + 6] != '='
  {
    var w := s[i..];
    var p := |t| + 4;
    assert s[i] == w[0] && s[i + 1] == w[1] && s[i + 2] == w[2];
    assert s[i + p] == w[p] && s[i + p + 1] == w[p + 1];
    assert i + p + 2 == |s| || s[i + p + 2] == w[p + 2] == rest[0];
    assert s[i + 3..i + p] == w[3..p] == t + " ";
    assert '=' !in t + " " && '\n' !in t + " ";
  }

  lemma TrimSpaced(t: string)
    requires t != [] && !IsSpace(t[0]) && !IsSpace(t[|t| - 1])
    ensures Trim(t + " ") == t
  {
    var u := t + " ";
    assert u[..|t|] == t && u[|t|..] == " ";
    TrimIs(u, 0, |t|);
  }

  lemma SpacedTitle(s: string, i: nat, p: nat, e: nat)
    requires i + 3 < p && p + 2 <= |s| && e == p + 2
    requires s[i] == '=' && s[i + 1] == '=' && s[i + 2] == ' '
    requires '=' !in s[i + 3..p] && '\n' !in s[i + 3..p]
    requires s[p] == '=' && s[p + 1] == '=' && (p + 2 == |s| || s[p + 2] != '=')
    ensures HeadingAt(s, i) == Some(Heading(2, Title(s, i + 3, p), i, e))
  {
    SpacedClose(s, i, p);
    HeadingParts(s, i, i + 2, i + 3);
  }

  /** The runs and the title group of `== title ==` at `i`, closed at `p`. */
  lemma SpacedClose(s: string, i: nat, p: nat)
    requires i + 3 < p && p + 2 <= |s|
    requires s[i] == '=' && s[i + 1] == '=' && s[i + 2] == ' '
    requires '=' !in s[i + 3..p] && '\n' !in s[i + 3..p]
    requires s[p] == '=' && s[p + 1] == '=' && (p + 2 == |s| || s[p + 2] != '=')
    ensures RunEnd(s, i) == i + 2 && TitleStart(s, i + 2) == i + 3
    ensures Close(s, i + 3) == Some((p, p + 2))
  {
    RunEndIs(s, i, i + 2);
    StopAt(s, i + 3, p);
    RunEndIs(s, p, p + 2);
    CloseIs(s, i + 3, p, p + 2);
    TitleStartIs(s, i + 2);
  }

  lemma CloseIs(s: string, g: nat, p: nat, e: nat)
    requires g < p <= |s| && Stop(s, g) == p && DoubleAt(s, p) && RunEnd(s, p) == e
    ensures Close(s, g) == Some((p, e))
  {
  }

  lemma TitleStartIs(s: string, r: nat)
    requires r < |s| && Blank(s[r]) && Close(s, r + 1).Some?
    ensures TitleStart(s, r) == r + 1
  {
  }

  lemma TitleIs(s: string, g: nat, q: nat, u: string)
    requires g <= q <= |s| && s[g..q] == u
    ensures Title(s, g, q) == Trim(u)
  {
  }

  lemma ExampleFirst()
    ensures HeadingAt(Example, 0) == Some(Heading(2, "section 1", 0, 15))
  {
    assert Example[0..] == Example;
    SpacedHeading(Example, 0, "section 1", Body1 + Rest2, 15);
  }

  lemma ExampleSecondAt()
    ensures HeadingAt(Example, 26) == Some(Heading(2, "section 2 (empty)", 26, 49))
  {
    Parts(Head1, Body1 + Rest2);
    Parts(Body1, Rest2);
    assert Example[26..] == Rest2;
    SpacedHeading(Example, 26, "section 2 (empty)", Body2 + Rest3, 49);
  }

  lemma ExampleThirdAt()
    ensures HeadingAt(Example, 51) == Some(Heading(2, "section 3", 51, 66))
  {
    Parts(Head1, Body1 + Rest2);
    Parts(Body1, Rest2);
    Parts(Head2, Body2 + Rest3);
    Parts(Body2, Rest3);
    assert Example[51..] == Rest3;
    SpacedHeading(Example, 51, "section 3", Body3, 66);
  }

  /** The text between the headings. */
  lemma ExampleBodies()
    ensures Example[15..26] == Body1 && Example[49..51] == Body2 && Example[66..77] == Body3
    ensures |Example| == 77
  {
    Parts(Head1, Body1 + Rest2);
    Parts(Body1, Rest2);
    Parts(Head2, Body2 + Rest3);
    Parts(Body2, Rest3);
    Parts(Head3, Body3);
    assert Example[15..26] == Example[15..][..11];
    assert Example[49..51] == Example[26..][23..][..2];
    assert Example[66..77] == Example[51..][15..];
  }

  /** The text between the headings has no `=`. */
  lemma ExampleGaps()
    ensures '=' !in Example[15..26] && '=' !in Example[49..51] && '=' !in Example[66..77]
  {
    ExampleBodies();
  }

  lemma HeadingsStep(s: string, from: nat, h: Heading)
    requires from <= |s| && Search(s, from) == Some(h)
    ensures Headings(s, from) == [h] + Headings(s, h.end)
  {
  }

  lemma HeadingsNone(s: string, from: nat)
    requires from <= |s| && Search(s, from).None?
    ensures Headings(s, from) == []
  {
  }

  /** Three searches that find a heading each, and a fourth that finds none, make the
      list of headings. */
  lemma ThreeHeadings(s: string, h1: Heading, h2: Heading, h3: Heading)
    requires Search(s, 0) == Some(h1) && h1.end <= |s| && Search(s, h1.end) == Some(h2)
    requires h2.end <= |s| && Search(s, h2.end) == Some(h3)
    requires h3.end <= |s| && Search(s, h3.end).None?
    ensures Headings(s, 0) == [h1, h2, h3]
  {
    HeadingsStep(s, 0, h1);
    HeadingsStep(s, h1.end, h2);
    HeadingsStep(s, h2.end, h3);
    HeadingsNone(s, h3.end);
    ConsThree(Headings(s, 0), Headings(s, h1.end), Headings(s, h2.end), Headings(s, h3.end), h1, h2, h3);
  }

  lemma ConsThree<T>(a: seq<T>, b: seq<T>, c: seq<T>, d: seq<T>, x: T, y: T, z: T)
    requires a == [x] + b && b == [y] + c && c == [z] + d && d == []
    ensures a == [x, y, z]
  {
  }

  lemma ExampleSearchSecond()
    ensures Search(Example, 15) == Some(Heading(2, "section 2 (empty)", 26, 49))
  {
    ExampleSecondAt();
    ExampleGaps();
    SearchSkips(Example, 15, 26);
  }

  lemma ExampleSearchThird()
    ensures Search(Example, 49) == Some(Heading(2, "section 3", 51, 66))
  {
    ExampleThirdAt();
    ExampleGaps();
    SearchSkips(Example, 49, 51);
  }

  lemma ExampleSearchEnd()
    ensures Search(Example, 66).None?
  {
    ExampleGaps();
    SearchSkips(Example, 66, 77);
    NoOpening(Example, 77);
  }

  /** The headings of the example. */
  const ExampleHeadingList: seq<Heading> := [Heading(2, "section 1", 0, 15), Heading(2, "section 2 (empty)", 26, 49), Heading(2, "section 3", 51, 66)]

  /** The three headings of the example, in order. */
  lemma ExampleHeadings()
    ensures Headings(Example, 0) == ExampleHeadingList
  {
    ExampleFirst();
    ExampleSearchSecond();
    ExampleSearchThird();
    ExampleSearchEnd();
    ThreeHeadings(Example, Heading(2, "section 1", 0, 15), Heading(2, "section 2 (empty)", 26, 49), Heading(2, "section 3", 51, 66));
  }

  /** The content of section `k` is the text from its heading to the next one, trimmed. */
  lemma SectionContentIs(source: string, hs: seq<Heading>, k: nat, b: nat, t: string)
    requires k < |hs| && b == (if k + 1 < |hs| then hs[k + 1].start else |source|)
    requires hs[k].end <= b <= |source| && source[hs[k].end..b] == t
    ensures SectionContent(source, hs, k) == Trim(t)
  {
  }

  /** A line of text between two line breaks trims to itself. */
  lemma TrimLine(t: string)
    requires t != [] && !IsSpace(t[0]) && !IsSpace(t[|t| - 1])
    ensures Trim("\n" + t + "\n") == t
  {
    var u := "\n" + t + "\n";
    assert u[..1] == "\n" && u[1..|t| + 1] == t && u[|t| + 1..] == "\n";
    TrimIs(u, 1, |t| + 1);
  }

  lemma ExampleFirstSection(hs: seq<Heading>)
    requires |hs| == 3 && hs[0].end == 15 && hs[1].start == 26
    ensures SectionContent(Example, hs, 0) == "content 1"
  {
    ExampleBodies();
    SectionContentIs(Example, hs, 0, 26, Body1);
    TrimLine("content 1");
  }

  lemma ExampleSecondSection(hs: seq<Heading>)
    requires |hs| == 3 && hs[1].end == 49 && hs[2].start == 51
    ensures SectionContent(Example, hs, 1) == ""
  {
    ExampleBodies();
    SectionContentIs(Example, hs, 1, 51, Body2);
    TrimAllSpace(Body2);
  }

  lemma ExampleThirdSection(hs: seq<Heading>)
    requires |hs| == 3 && hs[2].end == 66
    ensures SectionContent(Example, hs, 2) == "content 3"
  {
    ExampleBodies();
    SectionContentIs(Example, hs, 2, 77, Body3);
    TrimLine("content 3");
  }

  /** Three headings of one level, with the contents given, make three sections side by
      side. */
  lemma FlatThree(source: string, hs: seq<Heading>, c0: string, c1: string, c2: string)
    requires |hs| == 3 && hs[1].level == hs[0].level && hs[2].level == hs[0].level
    requires SectionContent(source, hs, 0) == c0 && SectionContent(source, hs, 1) == c1
    requires SectionContent(source, hs, 2) == c2
    ensures Outline(source, hs) ==
            [Section(hs[0].text, c0, []), Section(hs[1].text, c1, []), Section(hs[2].text, c2, [])]
  {
    FlatLevels(hs);
    ContentsAt(source, hs, 0);
    ContentsAt(source, hs, 1);
    ContentsAt(source, hs, 2);
    FlatFamily(Titles(hs), Contents(source, hs), Levels(hs));
  }

  lemma FlatLevels(hs: seq<Heading>)
    requires |hs| == 3 && hs[1].level == hs[0].level && hs[2].level == hs[0].level
    ensures Levels(hs)[0] == 0 && Levels(hs)[1] == 0 && Levels(hs)[2] == 0
  {
    var j := LevelsMeaning(hs);
    assert hs[j].level == hs[0].level by {
      if j == 1 {
      } else if j == 2 {
      }
    }
  }

  lemma ContentsAt(source: string, hs: seq<Heading>, k: nat)
    requires k < |hs|
    ensures Contents(source, hs)[k] == SectionContent(source, hs, k)
  {
  }

  /** Three sections at level 0 are three leaves side by side. */
  lemma FlatFamily(titles: seq<string>, contents: seq<string>, levels: seq<nat>)
    requires |titles| == |contents| == |levels| == 3
    requires levels[0] == 0 && levels[1] == 0 && levels[2] == 0
    ensures Family(titles, contents, levels, None, 0, 3) ==
            [Section(titles[0], contents[0], []), Section(titles[1], contents[1], []),
             Section(titles[2], contents[2], [])]
  {
    forall k | 0 <= k < |levels|
      ensures levels[k] == 0
    {
      if k == 1 {
      } else if k == 2 {
      }
    }
    FlatTree(titles, contents, levels);
    var f := Family(titles, contents, levels, None, 0, 3);
    ThreeLeaves(f, titles[0], titles[1], titles[2], contents[0], contents[1], contents[2]);
  }

  lemma ThreeLeaves(o: seq<Section>, t0: string, t1: string, t2: string, c0: string, c1: string, c2: string)
    requires |o| == 3
    requires o[0] == Section(t0, c0, []) && o[1] == Section(t1, c1, []) && o[2] == Section(t2, c2, [])
    ensures o == [Section(t0, c0, []), Section(t1, c1, []), Section(t2, c2, [])]
  {
  }

  /** The sections of the example's headings: three top-level sections without
      subsections, the second with empty content. */
  lemma ExampleSections()
    ensures Outline(Example, ExampleHeadingList) ==
            [Section("section 1", "content 1", []), Section("section 2 (empty)", "", []),
             Section("section 3", "content 3", [])]
  {
    var hs := ExampleHeadingList;
    ExampleFirstSection(hs);
    ExampleSecondSection(hs);
    ExampleThirdSection(hs);
    FlatThree(Example, hs, "content 1", "", "content 3");
  }

  /** `parseContent` on the example. */
  lemma ExampleOutline()
    ensures Outline(Example, Headings(Example, 0)) ==
            [Section("section 1", "content 1", []), Section("section 2 (empty)", "", []),
             Section("section 3", "content 3", [])]
  {
    ExampleHeadings();
    ExampleSections();
  }
}
