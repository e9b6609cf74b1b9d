/** Hand-coded scanners for the fixed regular expressions the infobox parsers use,
    and the global (`/g`) search, match and replace built on them.

    Each scanner `XAt(s, i)` answers what the JavaScript regex engine answers when it
    tries the pattern at index `i`: the end of the match it commits to (greedy or lazy
    as the pattern says), or None. A `.` matches any character but the four line
    terminators of ECMA-262: '\n', '\r', U+2028 and U+2029. */
module Patterns {
  import opened JsString

  datatype Pattern =
    | Literal(text: string)  // a pattern without metacharacters: /&nbsp/, /\n\}\}/
    | Infobox                // /{{[Ii]nfobox(.|\n)*}}/
    | Comment                // /<!--.*-->/
    | Ref                    // /<ref.*(\/>|>.*<\/ref>)/
    | Tag                    // /<[^>]+>/
    | Template(name: string) // /\{\{name[^\}\}]*?\}\}/  (refn, native, unbulleted, vunblist, hlist, efn)
    | Wikilink               // /\[\[.*?\]\]/
    | ListTemplate           // /\{\{(order|bulleted|unbulleted|Pagelist)(.*\n)*?\}\}/
    | ListLabel              // /(order|bulleted|unbulleted)\slist\n\|/
    | UrlTemplate            // /\{\{(URL)(.*)\}\}/
    | StartDateTemplate      // /\{\{(Start\sdate)(.*)\}\}/

  /** The line terminators other than '\n': neither `.` nor `(.|\n)` matches them. */
  predicate OtherTerminator(c: char)
  {
    c == '\r' || c == '\U{2028}' || c == '\U{2029}'
  }

  /** The characters `.` does not match. */
  predicate LineTerminator(c: char)
  {
    c == '\n' || OtherTerminator(c)
  }

  /** The first line terminator at or after `i`, or |s|: where a run of `.` must stop. */
  function LineEnd(s: string, i: nat): (e: nat)
    requires i <= |s|
    ensures i <= e <= |s|
    ensures e == |s| || LineTerminator(s[e])
    ensures forall k :: i <= k < e ==> !LineTerminator(s[k])
    decreases |s| - i
  {
    if i == |s| || LineTerminator(s[i]) then i else LineEnd(s, i + 1)
  }

  /** The first '\r', U+2028 or U+2029 at or after `i`, or |s|: where a run of `(.|\n)`
      must stop. */
  function BreakEnd(s: string, i: nat): (e: nat)
    requires i <= |s|
    ensures i <= e <= |s|
    ensures e == |s| || OtherTerminator(s[e])
    ensures forall k :: i <= k < e ==> !OtherTerminator(s[k])
    decreases |s| - i
  {
    if i == |s| || OtherTerminator(s[i]) then i else BreakEnd(s, i + 1)
  }

  /** The largest k with lo <= k and k + |t| <= hi where `t` occurs: the position a greedy
      `.*` followed by `t` backtracks to. */
  function LastIn(s: string, t: string, lo: nat, hi: nat): (r: Option<nat>)
    requires hi <= |s|
    ensures r.Some? ==> lo <= r.value && r.value + |t| <= hi && At(s, r.value, t)
    ensures r.Some? ==> forall k :: r.value < k && k + |t| <= hi ==> !At(s, k, t)
    ensures r.None? ==> forall k :: lo <= k && k + |t| <= hi ==> !At(s, k, t)
    decreases hi
  {
    if hi < lo + |t| then None
    else if At(s, hi - |t|, t) then Some(hi - |t|)
    else LastIn(s, t, lo, hi - 1)
  }

  // ---------------------------------------------------------------- the scanners

  function LiteralAt(t: string, s: string, i: nat): (r: Option<nat>)
    ensures r.Some? <==> t != "" && At(s, i, t)
    ensures r.Some? ==> r.value == i + |t|
  {
    if t != "" && At(s, i, t) then Some(i + |t|) else None
  }

  /** The greedy `(.|\n)*` runs up to the first '\r', U+2028 or U+2029 and backs off to
      the last `}}` before it. */
  function InfoboxAt(s: string, i: nat): (r: Option<nat>)
    ensures r.Some? ==> (At(s, i, "{{Infobox") || At(s, i, "{{infobox")) && i + 11 <= r.value <= |s|
    ensures r.Some? ==> r.value <= BreakEnd(s, i + 9) && At(s, r.value - 2, "}}")
    ensures r.Some? ==> forall k :: r.value - 2 < k && k + 2 <= BreakEnd(s, i + 9) ==> !At(s, k, "}}")
    ensures r.None? && (At(s, i, "{{Infobox") || At(s, i, "{{infobox")) ==>
              forall k :: i + 9 <= k && k + 2 <= BreakEnd(s, i + 9) ==> !At(s, k, "}}")
  {
    if At(s, i, "{{Infobox") || At(s, i, "{{infobox") then
      match LastIn(s, "}}", i + 9, BreakEnd(s, i + 9))
      case Some(k) => Some(k + 2)
      case None => None
    else None
  }

  function CommentAt(s: string, i: nat): (r: Option<nat>)
    ensures r.Some? ==> At(s, i, "<!--") && i + 7 <= r.value <= |s| && At(s, r.value - 3, "-->")
  {
    if At(s, i, "<!--") then
      match LastIn(s, "-->", i + 4, LineEnd(s, i + 4))
      case Some(k) => Some(k + 3)
      case None => None
    else None
  }

  /** What `(\/>|>.*<\/ref>)` gives when the greedy `.*` before it has stopped at `k`,
      trying `k`, then `k - 1`, ... down to `lo`; `e` is the end of the line. */
  function RefTail(s: string, lo: nat, k: nat, e: nat): (r: Option<nat>)
    requires lo <= k <= e <= |s|
    ensures r.Some? ==> lo < r.value <= e
    decreases k
  {
    var here :=
      if At(s, k, "/>") && k + 2 <= e then Some(k + 2)
      else if At(s, k, ">") && k < e then
        (match LastIn(s, "</ref>", k + 1, e)
         case Some(m) => Some(m + 6)
         case None => None)
      else None;
    if here.Some? then here
    else if k == lo then None
    else RefTail(s, lo, k - 1, e)
  }

  function RefAt(s: string, i: nat): (r: Option<nat>)
    ensures r.Some? ==> At(s, i, "<ref") && i + 4 < r.value <= |s|
  {
    if At(s, i, "<ref") then
      var e := LineEnd(s, i + 4);
      RefTail(s, i + 4, e, e)
    else None
  }

  function TagAt(s: string, i: nat): (r: Option<nat>)
    ensures r.Some? ==> At(s, i, "<") && i + 3 <= r.value <= |s| && At(s, r.value - 1, ">")
    ensures r.Some? ==> forall k :: i < k < r.value - 1 ==> !At(s, k, ">")
  {
    if At(s, i, "<") then
      var j := IndexFrom(s, ">", i + 1);
      if j > i + 1 then Some(j + 1) else None
    else None
  }

  function TemplateAt(name: string, s: string, i: nat): (r: Option<nat>)
    ensures r.Some? ==> At(s, i, "{{" + name) && i + 2 + |name| + 2 <= r.value <= |s|
    ensures r.Some? ==> At(s, r.value - 2, "}}")
    ensures r.Some? ==> forall k :: i + 2 + |name| <= k < r.value - 2 ==> !At(s, k, "}")
  {
    if At(s, i, "{{" + name) then
      var j := IndexFrom(s, "}", i + 2 + |name|);
      if j != -1 && At(s, j, "}}") then Some(j + 2) else None
    else None
  }

  function WikilinkAt(s: string, i: nat): (r: Option<nat>)
    ensures r.Some? ==> At(s, i, "[[") && i + 4 <= r.value <= |s| && At(s, r.value - 2, "]]")
    ensures r.Some? ==> forall k :: i + 2 <= k < r.value - 2 ==> !At(s, k, "]]")
  {
    if At(s, i, "[[") then
      var k := IndexFrom(s, "]]", i + 2);
      if k != -1 && k + 2 <= LineEnd(s, i + 2) then Some(k + 2) else None
    else None
  }

  /** Length of the alternative of `names` (tried in order) that occurs at `j`, or 0. */
  function NameAt(s: string, j: nat, names: seq<string>): (n: nat)
    ensures n > 0 ==> exists k :: 0 <= k < |names| && n == |names[k]| && At(s, j, names[k])
  {
    if names == [] then 0
    else if names[0] != "" && At(s, j, names[0]) then |names[0]|
    else NameAt(s, j, names[1..])
  }

  /** `(.*\n)*?\}\}` from `q`: the first line start (q itself, or just after a '\n')
      where `}}` begins, passing only lines that end in '\n' with no other terminator
      before it. */
  function LineStartClose(s: string, q: nat): (r: Option<nat>)
    requires q <= |s|
    ensures r.Some? ==> q < r.value <= |s| && At(s, r.value - 2, "}}")
    decreases |s| - q
  {
    if At(s, q, "}}") then Some(q + 2)
    else
      var n := LineEnd(s, q);
      if n < |s| && s[n] == '\n' then LineStartClose(s, n + 1) else None
  }

  function ListTemplateAt(s: string, i: nat): (r: Option<nat>)
    ensures r.Some? ==> At(s, i, "{{") && i + 2 < r.value <= |s|
  {
    if At(s, i, "{{") then
      var n := NameAt(s, i + 2, ["order", "bulleted", "unbulleted", "Pagelist"]);
      if n > 0 then LineStartClose(s, i + 2 + n) else None
    else None
  }

  function ListLabelAt(s: string, i: nat): (r: Option<nat>)
    ensures r.Some? ==> i < r.value <= |s| && At(s, r.value - 6, "list\n|")
  {
    if i <= |s| then
      var n := NameAt(s, i, ["order", "bulleted", "unbulleted"]);
      if n > 0 && i + n < |s| && IsSpace(s[i + n]) && At(s, i + n + 1, "list\n|") then Some(i + n + 7)
      else None
    else None
  }

  function UrlTemplateAt(s: string, i: nat): (r: Option<nat>)
    ensures r.Some? ==> At(s, i, "{{URL") && i + 7 <= r.value <= |s| && At(s, r.value - 2, "}}")
  {
    if At(s, i, "{{URL") then
      match LastIn(s, "}}", i + 5, LineEnd(s, i + 5))
      case Some(k) => Some(k + 2)
      case None => None
    else None
  }

  function StartDateAt(s: string, i: nat): (r: Option<nat>)
    ensures r.Some? ==> At(s, i, "{{Start") && i + 14 <= r.value <= |s| && At(s, r.value - 2, "}}")
  {
    if At(s, i, "{{Start") && i + 7 < |s| && IsSpace(s[i + 7]) && At(s, i + 8, "date") then
      match LastIn(s, "}}", i + 12, LineEnd(s, i + 12))
      case Some(k) => Some(k + 2)
      case None => None
    else None
  }

  /** The end of the match the pattern commits to when tried at index `i`. */
  function MatchAt(p: Pattern, s: string, i: nat): (r: Option<nat>)
    ensures r.Some? ==> i < r.value <= |s|
  {
    match p
    case Literal(t) => LiteralAt(t, s, i)
    case Infobox => InfoboxAt(s, i)
    case Comment => CommentAt(s, i)
    case Ref => RefAt(s, i)
    case Tag => TagAt(s, i)
    case Template(name) => TemplateAt(name, s, i)
    case Wikilink => WikilinkAt(s, i)
    case ListTemplate => ListTemplateAt(s, i)
    case ListLabel => ListLabelAt(s, i)
    case UrlTemplate => UrlTemplateAt(s, i)
    case StartDateTemplate => StartDateAt(s, i)
  }

  // ---------------------------------------------------------------- global search

  /** The leftmost match at or after `from`, as (start, end). */
  function FindFrom(p: Pattern, s: string, from: nat): (r: Option<(nat, nat)>)
    ensures r.Some? ==> from <= r.value.0 && MatchAt(p, s, r.value.0) == Some(r.value.1)
    ensures r.Some? ==> forall j :: from <= j < r.value.0 ==> MatchAt(p, s, j).None?
    ensures r.None? ==> forall j :: from <= j ==> MatchAt(p, s, j).None?
    decreases |s| + 1 - from
  {
    if from > |s| then None
    else
      match MatchAt(p, s, from)
      case Some(e) => Some((from, e))
      case None => FindFrom(p, s, from + 1)
  }

  /** `s.replace(/p/g, rep)` on the part of `s` from `from` on. */
  function ReplaceFrom(p: Pattern, s: string, rep: string, from: nat): string
    requires from <= |s|
    decreases |s| - from
  {
    match FindFrom(p, s, from)
    case None => s[from..]
    case Some((i, e)) => s[from..i] + rep + ReplaceFrom(p, s, rep, e)
  }

  /** `s.replace(/p/g, rep)` with a replacement string holding no `$` pattern. */
  function ReplaceGlobal(p: Pattern, s: string, rep: string): string
  {
    ReplaceFrom(p, s, rep, 0)
  }

  /** The matches `s.match(/p/g)` returns (none: the empty list instead of null). */
  function MatchesFrom(p: Pattern, s: string, from: nat): seq<string>
    requires from <= |s|
    decreases |s| - from
  {
    match FindFrom(p, s, from)
    case None => []
    case Some((i, e)) => [s[i..e]] + MatchesFrom(p, s, e)
  }

  function Matches(p: Pattern, s: string): seq<string>
  {
    MatchesFrom(p, s, 0)
  }

  lemma {:induction false} ReplaceWithoutMatch(p: Pattern, s: string, rep: string, from: nat)
    requires from <= |s|
    requires forall j :: from <= j ==> MatchAt(p, s, j).None?
    ensures ReplaceFrom(p, s, rep, from) == s[from..]
  {
  }
}
