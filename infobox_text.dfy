/** What the two infobox parsers (src/wiki-markup-parser.js and src/parser/index.js) share:
    the infobox search, the scrubbing of the span, the per-match rewrites of links and inline
    templates, the wrapper-removing loops and the filling of the result object. */
module InfoboxText {
  import opened JsString
  import opened Patterns
  import opened ParserUtils

  /** A parser's result object: field name to value, null (None) for a value emptied by
      `replaceAll`. */
  type Fields = map<string, Option<string>>

  type Entry = (string, Option<string>)

  // ------------------------------------------------------------ the infobox search

  /** `exec` of the global regex `/{{[Ii]nfobox(.|\n)*}}/g` whose `lastIndex` is `lastIndex`:
      the matched text and the new `lastIndex`. The span is the leftmost opener and runs to
      the last `}}` before the first '\r', U+2028 or U+2029 that follows it. */
  function ExecInfobox(data: string, lastIndex: nat): (r: (Option<string>, nat))
    ensures r.0.None? ==> r.1 == 0
    ensures r.0.None? <==> lastIndex > |data| || forall j :: lastIndex <= j ==> MatchAt(Infobox, data, j).None?
    ensures r.0.Some? ==> lastIndex + |r.0.value| <= r.1 <= |data| && r.0.value == data[r.1 - |r.0.value|..r.1]
    ensures r.0.Some? ==> forall j :: lastIndex <= j < r.1 - |r.0.value| ==> MatchAt(Infobox, data, j).None?
  {
    if lastIndex > |data| then (None, 0)
    else
      match FindFrom(Infobox, data, lastIndex)
      case None => (None, 0)
      case Some((i, e)) => (Some(data[i..e]), e)
  }

  /** The span starts with the opener. */
  lemma ExecInfoboxOpens(data: string, lastIndex: nat)
    requires ExecInfobox(data, lastIndex).0.Some?
    ensures |ExecInfobox(data, lastIndex).0.value| >= 11
    ensures At(ExecInfobox(data, lastIndex).0.value, 0, "{{Infobox") || At(ExecInfobox(data, lastIndex).0.value, 0, "{{infobox")
  {
    var (i, e) := FindFrom(Infobox, data, lastIndex).value;
    assert MatchAt(Infobox, data, i) == InfoboxAt(data, i);
    SliceOfSlice(data, i, e, 0, 9);
  }

  /** The span holds no '\r', U+2028 or U+2029 and ends with `}}`, and no `}}` ends between
      it and the next of those terminators (or the end of the input). */
  lemma ExecInfoboxCloses(data: string, lastIndex: nat)
    requires ExecInfobox(data, lastIndex).0.Some?
    ensures At(data, ExecInfobox(data, lastIndex).1 - 2, "}}")
    ensures forall k :: ExecInfobox(data, lastIndex).1 - |ExecInfobox(data, lastIndex).0.value| <= k < ExecInfobox(data, lastIndex).1
              ==> !OtherTerminator(data[k])
    ensures forall k :: ExecInfobox(data, lastIndex).1 - 2 < k && k + 2 <= BreakEnd(data, ExecInfobox(data, lastIndex).1)
              ==> !At(data, k, "}}")
  {
    var (i, e) := FindFrom(Infobox, data, lastIndex).value;
    assert MatchAt(Infobox, data, i) == InfoboxAt(data, i);
    assert ExecInfobox(data, lastIndex) == (Some(data[i..e]), e);
    assert e - |data[i..e]| == i;
    InfoboxSpanClean(data, i);
  }

  /** The span `InfoboxAt` finds holds no '\r', U+2028 or U+2029, and ends at the last `}}`
      before the next of them. */
  lemma InfoboxSpanClean(s: string, i: nat)
    requires InfoboxAt(s, i).Some?
    ensures forall k :: i <= k < InfoboxAt(s, i).value ==> !OtherTerminator(s[k])
    ensures At(s, InfoboxAt(s, i).value - 2, "}}")
    ensures forall k :: InfoboxAt(s, i).value - 2 < k && k + 2 <= BreakEnd(s, InfoboxAt(s, i).value) ==> !At(s, k, "}}")
  {
    forall k | i <= k < i + 9 ensures !OtherTerminator(s[k]) {
      assert s[k] == s[i..i + 9][k - i];
    }
    BreakEndFrom(s, i + 9, InfoboxAt(s, i).value);
  }

  /** Between `a` and the break `BreakEnd` finds, every start finds the same break. */
  lemma {:induction false} BreakEndFrom(s: string, a: nat, b: nat)
    requires a <= b <= |s| && b <= BreakEnd(s, a)
    ensures BreakEnd(s, b) == BreakEnd(s, a)
    decreases b - a
  {
    if a < b {
      BreakEndFrom(s, a + 1, b);
    }
  }

  /** Once the greedy span has ended, no infobox can start before the next '\r', U+2028 or
      U+2029: when none follows the span, the next `exec` on the same text fails and rewinds
      the regex. */
  lemma ExecAfterMatchFails(data: string, lastIndex: nat)
    requires ExecInfobox(data, lastIndex).0.Some?
    requires forall k :: ExecInfobox(data, lastIndex).1 <= k < |data| ==> !OtherTerminator(data[k])
    ensures ExecInfobox(data, ExecInfobox(data, lastIndex).1) == (None, 0)
  {
    var e := ExecInfobox(data, lastIndex).1;
    ExecInfoboxCloses(data, lastIndex);
    assert BreakEnd(data, e) == |data|;
    forall j | e <= j ensures MatchAt(Infobox, data, j).None? {
      assert MatchAt(Infobox, data, j) == InfoboxAt(data, j);
      if j + 9 <= |data| {
        BreakEndFrom(data, e, j + 9);
      }
    }
  }

  /** A '\r' after the span: the next `exec` finds the infobox behind it. */
  lemma ExecAfterReturnMatches()
    ensures ExecInfobox(TwoBoxes(), 0) == (Some("{{Infobox a}}"), 13)
    ensures ExecInfobox(TwoBoxes(), 13) == (Some("{{Infobox b}}"), 27)
  {
    FirstBox(TwoBoxes());
    SecondBox(TwoBoxes());
  }

  lemma FirstBox(d: string)
    requires d == TwoBoxes()
    ensures ExecInfobox(d, 0) == (Some("{{Infobox a}}"), 13)
  {
    BoxAt(d, 0);
    assert FindFrom(Infobox, d, 0) == Some((0, 13));
  }

  lemma SecondBox(d: string)
    requires d == TwoBoxes()
    ensures ExecInfobox(d, 13) == (Some("{{Infobox b}}"), 27)
  {
    NoBoxAtReturn(d);
    BoxAt(d, 14);
    assert FindFrom(Infobox, d, 14) == Some((14, 27));
    assert FindFrom(Infobox, d, 13) == Some((14, 27));
  }

  lemma NoBoxAtReturn(d: string)
    requires d == TwoBoxes()
    ensures MatchAt(Infobox, d, 13).None?
  {
    assert d[13] == '\r' && d[13..22][0] == d[13];
    assert !At(d, 13, "{{Infobox") && !At(d, 13, "{{infobox");
    assert MatchAt(Infobox, d, 13) == InfoboxAt(d, 13);
  }

  function TwoBoxes(): string
  {
    "{{Infobox a}}" + "\r" + "{{Infobox b}}"
  }

  lemma BoxAt(d: string, i: nat)
    requires d == TwoBoxes() && (i == 0 || i == 14)
    ensures InfoboxAt(d, i) == Some(i + 13)
    ensures d[i..i + 13] == (if i == 0 then "{{Infobox a}}" else "{{Infobox b}}")
  {
    assert d[i..i + 9] == "{{Infobox";
    assert BreakEnd(d, i + 13) == i + 13;
    assert BreakEnd(d, i + 9) == i + 13 by {
      assert BreakEnd(d, i + 12) == i + 13;
      assert BreakEnd(d, i + 11) == i + 13;
      assert BreakEnd(d, i + 10) == i + 13;
    }
    assert d[i + 11..i + 13] == "}}";
    assert LastIn(d, "}}", i + 9, i + 13) == Some(i + 11);
  }

  /** Comments, references, HTML tags and `{{refn}}` templates removed, each step trimming. */
  function Scrub(text: string): Option<string>
  {
    ReplaceAll(Template("refn"), "", ReplaceAll(Tag, "", ReplaceAll(Ref, "", ReplaceAll(Comment, "", Some(text)))))
  }

  /** The first three characters of an infobox span: `{{I` or `{{i`. */
  predicate Opener(s: string)
  {
    |s| >= 3 && s[0] == '{' && s[1] == '{' && (s[2] == 'I' || s[2] == 'i')
  }

  /** No pattern the scrubbing removes can match inside the opener. */
  lemma NoScrubMatchInOpener(p: Pattern, s: string, j: nat)
    requires Opener(s) && j < 3
    requires p == Comment || p == Ref || p == Tag || p == Template("refn")
    ensures MatchAt(p, s, j).None?
  {
    if p == Template("refn") {
      RefnStart(s, j);
    } else {
      AngleStart(p, s, j);
    }
  }

  lemma AngleStart(p: Pattern, s: string, j: nat)
    requires p == Comment || p == Ref || p == Tag
    ensures MatchAt(p, s, j).Some? ==> j < |s| && s[j] == '<'
  {
    if MatchAt(p, s, j).Some? {
      assert s[j..j + 1][0] == s[j];
    }
  }

  lemma RefnStart(s: string, j: nat)
    ensures MatchAt(Template("refn"), s, j).Some? ==>
              j + 2 < |s| && s[j] == '{' && s[j + 1] == '{' && s[j + 2] == 'r'
  {
    if MatchAt(Template("refn"), s, j).Some? {
      assert s[j..j + 6][0] == s[j] && s[j..j + 6][1] == s[j + 1] && s[j..j + 6][2] == s[j + 2];
    }
  }

  /** A global replace keeps the text before the first match. */
  lemma ReplaceKeepsPrefix(p: Pattern, s: string, rep: string, n: nat)
    requires n <= |s|
    requires forall j :: 0 <= j < n ==> MatchAt(p, s, j).None?
    ensures n <= |ReplaceGlobal(p, s, rep)| && ReplaceGlobal(p, s, rep)[..n] == s[..n]
  {
    match FindFrom(p, s, 0)
    case None =>
      assert ReplaceGlobal(p, s, rep) == s[0..];
    case Some((i, e)) =>
      assert n <= i;
      assert ReplaceGlobal(p, s, rep) == s[0..i] + rep + ReplaceFrom(p, s, rep, e);
  }

  /** Trimming keeps the opener. */
  lemma TrimKeepsOpener(s: string)
    requires Opener(s)
    ensures Opener(Trim(s)) && Trim(s)[..3] == s[..3]
  {
    TrimStartKeeps(s);
    TrimEndKeeps(s, 3);
  }

  /** One scrubbing step keeps the opener. */
  lemma ScrubStepKeepsOpener(p: Pattern, s: string)
    requires Opener(s)
    requires p == Comment || p == Ref || p == Tag || p == Template("refn")
    ensures ReplaceAll(p, "", Some(s)).Some?
    ensures Opener(ReplaceAll(p, "", Some(s)).value) && ReplaceAll(p, "", Some(s)).value[..3] == s[..3]
  {
    forall j | 0 <= j < 3 ensures MatchAt(p, s, j).None? {
      NoScrubMatchInOpener(p, s, j);
    }
    ReplaceKeepsPrefix(p, s, "", 3);
    TrimKeepsOpener(ReplaceGlobal(p, s, ""));
  }

  /** Scrubbing a span that starts like an infobox never empties it: its first three
      characters survive. */
  lemma ScrubKeepsOpener(span: string)
    requires Opener(span)
    ensures Scrub(span).Some? && Opener(Scrub(span).value) && Scrub(span).value[..3] == span[..3]
  {
    ScrubStepKeepsOpener(Comment, span);
    var t1 := ReplaceAll(Comment, "", Some(span)).value;
    ScrubStepKeepsOpener(Ref, t1);
    var t2 := ReplaceAll(Ref, "", Some(t1)).value;
    ScrubStepKeepsOpener(Tag, t2);
    var t3 := ReplaceAll(Tag, "", Some(t2)).value;
    ScrubStepKeepsOpener(Template("refn"), t3);
  }

  /** The span `exec` finds scrubs to a text starting with `{{I` or `{{i`. */
  lemma ScrubbedSpan(data: string, lastIndex: nat)
    requires ExecInfobox(data, lastIndex).0.Some?
    ensures Scrub(ExecInfobox(data, lastIndex).0.value).Some?
    ensures Opener(Scrub(ExecInfobox(data, lastIndex).0.value).value)
  {
    var span := ExecInfobox(data, lastIndex).0.value;
    ExecInfoboxOpens(data, lastIndex);
    assert span[..9][2] == span[2];
    ScrubKeepsOpener(span);
  }

  // ------------------------------------------------------------ per-match rewrites

  /** How one `forEach` pass rewrites each matched link or template. */
  datatype Rewrite =
    | LinkText        // [[a]] -> a, [[a|b]] -> b, more pipes: left alone
    | LinkLastSegment // [[a|...|z]] -> z
    | NativeArg       // {{native|...}} -> its second argument ("undefined" if absent)
    | ListArgs        // {{hlist|a|b}} -> a,b
    | Drop            // {{efn|...}} -> ""
    | ListBlock       // {{bulleted list\n|a\n|b\n}} -> one line, items joined with ", "
    | UrlArg          // {{URL|...|x}} -> x
    | DateArgs        // {{Start date|y|m|d}} -> y/m/d

  /** The text that replaces the matched `sub`, or None when the source leaves it alone. */
  function Replacement(kind: Rewrite, sub: string): Option<string>
  {
    match kind
    case LinkText => LinkReplacement(sub)
    case LinkLastSegment => Some(LinkLastReplacement(sub))
    case NativeArg => Some(NativeReplacement(sub))
    case ListArgs => Some(ListReplacement(sub))
    case Drop => Some("")
    case ListBlock => Some(ListBlockReplacement(sub))
    case UrlArg => Some(UrlReplacement(sub))
    case DateArgs => Some(DateReplacement(sub))
  }

  /** `[[inner]]` -> inner; `[[target|label]]` -> label; more pipes: no change. */
  function LinkReplacement(sub: string): Option<string>
  {
    LinkPick(sub, Split(sub, "|"))
  }

  /** The choice `LinkReplacement` makes on the link `sub` split on `|` into `arr`. */
  function LinkPick(sub: string, arr: seq<string>): Option<string>
  {
    if |arr| == 1 then Some(Substr(sub, 2, |sub| - 4))
    else if |arr| == 2 then Some(Substr(arr[1], 0, |arr[1]| - 2))
    else None
  }

  /** The link without its first `[[` and first `]]`, then its last `|`-separated segment. */
  function LinkLastReplacement(sub: string): string
  {
    Last(Split(ReplaceFirst(ReplaceFirst(sub, "[[", ""), "]]", ""), "|"))
  }

  /** `arr[2]` of the template split on `|`; a missing element prints as "undefined". */
  function NativeReplacement(sub: string): string
  {
    ThirdOr(Split(sub, "|"))
  }

  function ThirdOr(arr: seq<string>): string
  {
    if |arr| > 2 then arr[2] else "undefined"
  }

  /** `arr.shift(); arr.join(',').replace('}}', '')`. */
  function ListReplacement(sub: string): string
  {
    ReplaceFirst(Join(Tail(Split(sub, "|")), ","), "}}", "")
  }

  /** The template without its first `{{` and its first `}}`. */
  function Unbraced(l: string): string
  {
    ReplaceFirst(ReplaceFirst(l, "{{", ""), "}}", "")
  }

  /** A list block with its braces and `order|bulleted|unbulleted list\n|` labels removed and
      its `\n|` item breaks turned into `, `. */
  function ListBlockReplacement(l: string): string
  {
    Join(Split(ReplaceGlobal(ListLabel, Unbraced(l), ""), "\n|"), ", ")
  }

  /** The last `|`-separated part of the unbraced template. */
  function UrlReplacement(l: string): string
  {
    Last(Split(Unbraced(l), "|"))
  }

  /** The `|`-separated parts of the unbraced template after the first, joined with `/`. */
  function DateReplacement(l: string): string
  {
    Join(Tail(Split(Unbraced(l), "|")), "/")
  }

  /** The `forEach` over the matches: each replaces the first occurrence of its text in the
      string as rewritten so far. */
  function Rewritten(c: string, subs: seq<string>, kind: Rewrite): string
    decreases |subs|
  {
    if subs == [] then c
    else
      var prev := Rewritten(c, subs[..|subs| - 1], kind);
      var sub := subs[|subs| - 1];
      match Replacement(kind, sub)
      case None => prev
      case Some(rep) => ReplaceFirst(prev, sub, rep)
  }

  /** The `while` loop that removes a wrapper template: each pass drops the first opener and
      the first `}}`. The value shrinks on every pass and ends with no opener left. */
  function Strip(c: string, opener: string): (r: string)
    requires opener != ""
    ensures !Contains(r, opener)
    ensures |r| <= |c|
    ensures Contains(c, opener) ==> |r| < |c|
    decreases |c|
  {
    if Contains(c, opener) then
      var c' := ReplaceFirst(c, opener, "");
      ReplaceFirstShrinks(c, opener);
      ReplaceFirstShrinks(c', "}}");
      Strip(ReplaceFirst(c', "}}", ""), opener)
    else c
  }

  /** One rewrite of a value or of the infobox text. */
  datatype Step =
    | Each(p: Pattern, kind: Rewrite)          // a forEach over every match of `p`
    | Unwrap(name: string)                     // the while loop over `{{name|`
    | Templates(name: string, kind: Rewrite)   // the same, guarded by indexOf('{{name') !== -1
    | VunblistIfSingle                         // vunblist, only when the value holds one `{{`

  function ApplyStep(c: string, step: Step): string
  {
    match step
    case Each(p, kind) => Rewritten(c, Matches(p, c), kind)
    case Unwrap(name) => Strip(c, "{{" + name + "|")
    case Templates(name, kind) =>
      if Contains(c, "{{" + name) then Rewritten(c, Matches(Template(name), c), kind) else c
    case VunblistIfSingle =>
      if Contains(c, "{{vunblist") && |Split(c, "{{")| < 3 then Rewritten(c, Matches(Template("vunblist"), c), ListArgs)
      else c
  }

  function ApplySteps(c: string, steps: seq<Step>): string
    decreases |steps|
  {
    if steps == [] then c else ApplySteps(ApplyStep(c, steps[0]), steps[1..])
  }

  /** Running the steps from index `k` on is running step `k`, then the rest. */
  lemma StepNext(c0: string, c: string, steps: seq<Step>, k: nat)
    requires k < |steps| && ApplySteps(c0, steps) == ApplySteps(c, steps[k..])
    ensures ApplySteps(c0, steps) == ApplySteps(ApplyStep(c, steps[k]), steps[k + 1..])
  {
    assert steps[k..][1..] == steps[k + 1..];
  }

  /** No rewrite changes the empty string. */
  lemma ApplyStepEmpty(step: Step)
    ensures ApplyStep("", step) == ""
  {
    match step
    case Each(p, kind) =>
      assert FindFrom(p, "", 1).None?;
      assert Matches(p, "") == [];
    case Unwrap(name) =>
    case Templates(name, kind) =>
    case VunblistIfSingle =>
  }

  lemma {:induction false} ApplyStepsEmpty(steps: seq<Step>)
    ensures ApplySteps("", steps) == ""
    decreases |steps|
  {
    if steps != [] {
      ApplyStepEmpty(steps[0]);
      ApplyStepsEmpty(steps[1..]);
    }
  }

  /** An empty value ends as null whatever the rewrites. */
  lemma EmptyValueIsNull(steps: seq<Step>)
    ensures Finish(ApplySteps("", steps)).None?
  {
    ApplyStepsEmpty(steps);
  }

  /** The last two statements of each field: `&nbsp` to a space, `\n}}` removed, each through
      `replaceAll` (so an empty value becomes null). */
  function Finish(c: string): Option<string>
  {
    ReplaceAll(Literal("\n}}"), "", ReplaceAll(Literal("&nbsp"), " ", Some(c)))
  }

  /** The one field name a plain `{}` does not store as an own key: `Object.prototype` has an
      accessor under it. */
  const ProtoName := "__proto__"

  /** Whether `result` still inherits from `Object.prototype` after the entries. Only a null
      `__proto__` value, passed to the inherited setter, cuts it off; a string is ignored. */
  predicate Inherits(es: seq<Entry>)
  {
    forall k :: 0 <= k < |es| ==> es[k] != (ProtoName, None)
  }

  /** `result[name] = value` for each entry in turn, on `result = {}`: the own keys of the
      object. While the object inherits, `__proto__` goes to the setter and creates no key;
      once the prototype is null it is an ordinary key. */
  function Assign(es: seq<Entry>): Fields
    decreases |es|
  {
    if es == [] then map[]
    else
      var e := es[|es| - 1];
      if e.0 == ProtoName && Inherits(es[..|es| - 1]) then Assign(es[..|es| - 1])
      else Assign(es[..|es| - 1])[e.0 := e.1]
  }

  function Contribution(e: Option<Entry>): seq<Entry>
  {
    if e.None? then [] else [e.value]
  }

  // ------------------------------------------------------------ the loops

  method ReplaceEach(c: string, subs: seq<string>, kind: Rewrite) returns (r: string)
    ensures r == Rewritten(c, subs, kind)
  {
    r := c;
    for k := 0 to |subs|
      invariant r == Rewritten(c, subs[..k], kind)
    {
      assert subs[..k + 1][..k] == subs[..k];
      var sub := subs[k];
      match Replacement(kind, sub)
      case Some(rep) =>
        r := ReplaceFirst(r, sub, rep);
      case None =>
    }
    assert subs[..|subs|] == subs;
  }

  /** `find = c.match(/p/g); find && find.forEach(...)`. */
  method RewriteEach(c: string, p: Pattern, kind: Rewrite) returns (r: string)
    ensures r == ApplyStep(c, Each(p, kind))
  {
    r := ReplaceEach(c, Matches(p, c), kind);
  }

  /** `while (c.indexOf('{{name|') !== -1)`: drop the opener and the first `}}`. */
  method StripWrapper(c: string, name: string) returns (r: string)
    ensures r == ApplyStep(c, Unwrap(name))
  {
    var opener := "{{" + name + "|";
    r := c;
    while Contains(r, opener)
      invariant Strip(r, opener) == Strip(c, opener)
      decreases |r|
    {
      ReplaceFirstShrinks(r, opener);
      r := ReplaceFirst(r, opener, "");
      ReplaceFirstShrinks(r, "}}");
      r := ReplaceFirst(r, "}}", "");
    }
  }

  method RewriteTemplate(c: string, name: string, kind: Rewrite) returns (r: string)
    ensures r == ApplyStep(c, Templates(name, kind))
  {
    r := c;
    if Contains(c, "{{" + name) {
      r := ReplaceEach(c, Matches(Template(name), c), kind);
    }
  }

  method RewriteVunblist(c: string) returns (r: string)
    ensures r == ApplyStep(c, VunblistIfSingle)
  {
    r := c;
    if Contains(c, "{{vunblist") && |Split(c, "{{")| < 3 {
      r := ReplaceEach(c, Matches(Template("vunblist"), c), ListArgs);
    }
  }

  // ------------------------------------------------------------ the result object

  lemma AssignNext(es: seq<Entry>, e: Entry)
    ensures Inherits(es + [e]) <==> Inherits(es) && e != (ProtoName, None)
    ensures e.0 == ProtoName && Inherits(es) ==> Assign(es + [e]) == Assign(es)
    ensures e.0 != ProtoName || !Inherits(es) ==> Assign(es + [e]) == Assign(es)[e.0 := e.1]
  {
    assert (es + [e])[..|es|] == es;
    assert (es + [e])[|es|] == e;
    if Inherits(es) && e != (ProtoName, None) {
      forall k | 0 <= k < |es + [e]| ensures (es + [e])[k] != (ProtoName, None) {
        if k < |es| {
          assert (es + [e])[k] == es[k];
        }
      }
    }
    if !Inherits(es) {
      var k :| 0 <= k < |es| && es[k] == (ProtoName, None);
      assert (es + [e])[k] == es[k];
    }
  }

  /** While the object inherits, it has no own `__proto__` key. */
  lemma {:induction false} InheritingHasNoProtoKey(es: seq<Entry>)
    requires Inherits(es)
    ensures ProtoName !in Assign(es)
    decreases |es|
  {
    if es != [] {
      var init := es[..|es| - 1];
      assert init + [es[|es| - 1]] == es;
      AssignNext(init, es[|es| - 1]);
      InheritingHasNoProtoKey(init);
    }
  }

  /** A field name other than `__proto__` is in the result exactly when some entry carries it;
      `__proto__` is there exactly when an entry carries it after an earlier null `__proto__`
      entry has cut the object off from `Object.prototype`. */
  lemma {:induction false} AssignKeys(es: seq<Entry>, name: string)
    ensures name != ProtoName ==> (name in Assign(es) <==> exists k :: 0 <= k < |es| && es[k].0 == name)
    ensures ProtoName in Assign(es) <==>
      exists j, k :: 0 <= j < k < |es| && es[j] == (ProtoName, None) && es[k].0 == ProtoName
    decreases |es|
  {
    if es != [] {
      var init := es[..|es| - 1];
      var e := es[|es| - 1];
      assert init + [e] == es;
      AssignNext(init, e);
      AssignKeys(init, name);
      forall k | 0 <= k < |init| ensures init[k] == es[k] { }
      if name != ProtoName {
        if exists k :: 0 <= k < |es| && es[k].0 == name {
          var k :| 0 <= k < |es| && es[k].0 == name;
          if k < |init| {
            assert init[k].0 == name;
          }
        }
      }
      if exists j, k :: 0 <= j < k < |es| && es[j] == (ProtoName, None) && es[k].0 == ProtoName {
        var j, k :| 0 <= j < k < |es| && es[j] == (ProtoName, None) && es[k].0 == ProtoName;
        if k < |init| {
          assert init[j] == (ProtoName, None) && init[k].0 == ProtoName;
        } else {
          assert !Inherits(init) by { assert init[j] == (ProtoName, None); }
        }
      }
      if ProtoName in Assign(es) && !(ProtoName in Assign(init)) {
        assert e.0 == ProtoName && !Inherits(init);
        var j :| 0 <= j < |init| && init[j] == (ProtoName, None);
        assert es[j] == (ProtoName, None) && es[|es| - 1].0 == ProtoName;
      }
    }
  }

  /** A repeated field name keeps the value of its last occurrence, except that a `__proto__`
      entry reached while the object still inherits is stored nowhere. */
  lemma {:induction false} AssignLastWins(es: seq<Entry>, k: nat)
    requires k < |es|
    requires forall j :: k < j < |es| ==> es[j].0 != es[k].0
    ensures es[k].0 != ProtoName || !Inherits(es[..k]) ==>
      es[k].0 in Assign(es) && Assign(es)[es[k].0] == es[k].1
    ensures es[k].0 == ProtoName && Inherits(es[..k]) ==> ProtoName !in Assign(es)
    decreases |es|
  {
    var init := es[..|es| - 1];
    var e := es[|es| - 1];
    assert init + [e] == es;
    AssignNext(init, e);
    if k < |es| - 1 {
      assert init[k] == es[k];
      assert init[..k] == es[..k];
      forall j | k < j < |init| ensures init[j].0 != init[k].0 {
        assert init[j] == es[j];
      }
      AssignLastWins(init, k);
    } else {
      assert es[..k] == init;
      if e.0 == ProtoName && Inherits(init) {
        InheritingHasNoProtoKey(init);
      }
    }
  }

  /** A `__proto__` field with a string value never reaches the result. */
  lemma ProtoFieldDropped()
    ensures Assign([(ProtoName, Some("x")), ("name", Some("y"))]) == map["name" := Some("y")]
  {
    var es: seq<Entry> := [(ProtoName, Some("x")), ("name", Some("y"))];
    assert es[..1][..0] == [];
    assert Inherits(es[..1][..0]);
    assert Assign(es[..1]) == map[];
    assert "name" != ProtoName;
  }

  /** After a null `__proto__` the object has no prototype, and a later `__proto__` is an own key. */
  lemma ProtoAfterNull()
    ensures Assign([(ProtoName, None), (ProtoName, Some("x"))]) == map[ProtoName := Some("x")]
  {
    var es: seq<Entry> := [(ProtoName, None), (ProtoName, Some("x"))];
    assert es[..1][..0] == [];
    assert Assign(es[..1]) == map[];
    assert es[..1][0] == (ProtoName, None);
    assert !Inherits(es[..1]);
  }

  // ------------------------------------------------------------ what the rewrites give

  /** A link with no pipe becomes its inner text. */
  lemma LinkWithoutPipe(t: string)
    requires '|' !in t
    ensures LinkReplacement("[[" + t + "]]") == Some(t)
  {
    var sub := "[[" + t + "]]";
    ContainsChar(sub, '|');
    SplitNoSep(sub, "|");
  }

  /** A link with one pipe becomes the text after it. */
  lemma LinkWithOnePipe(a: string, b: string)
    requires '|' !in a && '|' !in b
    ensures LinkReplacement("[[" + a + "|" + b + "]]") == Some(b)
  {
    var sub := "[[" + a + "|" + b + "]]";
    assert sub == ("[[" + a) + ['|'] + (b + "]]");
    SplitCharConcat("[[" + a, '|', b + "]]");
    ContainsChar("[[" + a, '|');
    ContainsChar(b + "]]", '|');
    SplitNoSep("[[" + a, "|");
    SplitNoSep(b + "]]", "|");
  }

  /** A link with two or more pipes is left as it is. */
  lemma LinkWithPipes(sub: string, i: int, j: int)
    requires 0 <= i < j < |sub| && sub[i] == '|' && sub[j] == '|'
    ensures LinkReplacement(sub).None?
  {
    assert sub[i..i + 1] == "|";
    assert sub[j..j + 1] == "|";
    SplitAtLeastThree(sub, "|", i, j);
  }

  /** Every link becomes its last segment, or its inner text when it has no pipe. */
  lemma LinkLastSegmentOf(parts: seq<string>)
    requires parts != []
    requires forall k :: 0 <= k < |parts| ==> '|' !in parts[k] && ']' !in parts[k]
    ensures LinkLastReplacement("[[" + Join(parts, "|") + "]]") == parts[|parts| - 1]
  {
    var x := Join(parts, "|");
    var inner := ReplaceFirst(ReplaceFirst("[[" + x + "]]", "[[", ""), "]]", "");
    assert inner == x by {
      CharNotInJoin(parts, "|", ']');
      LinkInner(x);
    }
    assert Split(inner, "|") == parts by {
      NoPipeInParts(parts);
      SplitJoinChar(parts, '|');
    }
  }

  lemma NoPipeInParts(parts: seq<string>)
    requires forall k :: 0 <= k < |parts| ==> '|' !in parts[k]
    ensures forall k :: 0 <= k < |parts| ==> !Contains(parts[k], ['|'])
  {
    forall k | 0 <= k < |parts| ensures !Contains(parts[k], ['|']) {
      ContainsChar(parts[k], '|');
    }
  }

  /** A list template becomes its arguments joined with `,`. */
  lemma ListTemplateArgs(name: string, args: seq<string>)
    requires args != [] && '|' !in name
    requires forall k :: 0 <= k < |args| ==> '|' !in args[k] && '}' !in args[k]
    ensures ListReplacement("{{" + name + "|" + Join(args, "|") + "}}") == Join(args, ",")
  {
    ListTemplateTail(name, args);
    ClosedJoin(args);
  }

  /** The template's parts after the name, the last one still carrying the closing braces. */
  lemma ListTemplateTail(name: string, args: seq<string>)
    requires args != [] && '|' !in name
    requires forall k :: 0 <= k < |args| ==> '|' !in args[k]
    ensures ListReplacement("{{" + name + "|" + Join(args, "|") + "}}")
         == ReplaceFirst(Join(args[..|args| - 1] + [args[|args| - 1] + "}}"], ","), "}}", "")
  {
    SplitListTemplate("{{" + name, args);
    ListReplacementOf("{{" + name + "|" + Join(args, "|") + "}}", args[..|args| - 1] + [args[|args| - 1] + "}}"]);
  }

  /** Joining with the closing braces on the last part, then removing them, gives the plain join. */
  lemma ClosedJoin(args: seq<string>)
    requires args != []
    requires forall k :: 0 <= k < |args| ==> '}' !in args[k]
    ensures ReplaceFirst(Join(args[..|args| - 1] + [args[|args| - 1] + "}}"], ","), "}}", "") == Join(args, ",")
  {
    JoinSnoc(args, "}}", ",");
    CharNotInJoin(args, ",", '}');
    ReplaceTrailing(Join(args, ","), "}}");
  }

  lemma ListReplacementOf(sub: string, rest: seq<string>)
    requires Tail(Split(sub, "|")) == rest
    ensures ListReplacement(sub) == ReplaceFirst(Join(rest, ","), "}}", "")
  {
  }

  lemma SplitListTemplate(head: string, args: seq<string>)
    requires args != [] && '|' !in head
    requires forall k :: 0 <= k < |args| ==> '|' !in args[k]
    ensures Tail(Split(head + "|" + Join(args, "|") + "}}", "|")) == args[..|args| - 1] + [args[|args| - 1] + "}}"]
  {
    var rest := Join(args, "|") + "}}";
    assert head + "|" + Join(args, "|") + "}}" == head + ['|'] + rest;
    SplitAfterHead(head, '|', rest);
    ClosedParts(args);
  }

  /** The arguments joined with `|` and closed by `}}` split back into the arguments, the
      last one carrying the braces. */
  lemma ClosedParts(args: seq<string>)
    requires args != []
    requires forall k :: 0 <= k < |args| ==> '|' !in args[k]
    ensures Split(Join(args, "|") + "}}", "|") == args[..|args| - 1] + [args[|args| - 1] + "}}"]
  {
    var args' := args[..|args| - 1] + [args[|args| - 1] + "}}"];
    JoinSnoc(args, "}}", "|");
    forall k | 0 <= k < |args'| ensures '|' !in args'[k] {
      if k < |args| - 1 {
        assert args'[k] == args[k];
      }
    }
    SplitJoinPipes(args');
  }

  lemma SplitJoinPipes(parts: seq<string>)
    requires parts != []
    requires forall k :: 0 <= k < |parts| ==> '|' !in parts[k]
    ensures Split(Join(parts, "|"), "|") == parts
  {
    NoPipeInParts(parts);
    SplitJoinChar(parts, '|');
  }

  /** With no `|` or `}` in its parts, a template loses its braces cleanly and splits back
      into its parts: the name, then the arguments. */
  lemma UnbracedParts(parts: seq<string>)
    requires parts != []
    requires forall k :: 0 <= k < |parts| ==> '|' !in parts[k] && '}' !in parts[k]
    ensures Split(Unbraced("{{" + Join(parts, "|") + "}}"), "|") == parts
  {
    CharNotInJoin(parts, "|", '}');
    UnbracedOf(Join(parts, "|"));
    SplitJoinPipes(parts);
  }

  /** A URL template becomes its last part. */
  lemma UrlLastArg(parts: seq<string>)
    requires parts != []
    requires forall k :: 0 <= k < |parts| ==> '|' !in parts[k] && '}' !in parts[k]
    ensures UrlReplacement("{{" + Join(parts, "|") + "}}") == Last(parts)
  {
    UnbracedParts(parts);
  }

  /** A start-date template becomes its parts after the name joined with `/`. */
  lemma StartDateJoined(parts: seq<string>)
    requires parts != []
    requires forall k :: 0 <= k < |parts| ==> '|' !in parts[k] && '}' !in parts[k]
    ensures DateReplacement("{{" + Join(parts, "|") + "}}") == Join(parts[1..], "/")
  {
    UnbracedParts(parts);
  }

  /** `[[x]]` loses its brackets when `x` holds no `]`. */
  lemma LinkInner(x: string)
    requires ']' !in x
    ensures ReplaceFirst(ReplaceFirst("[[" + x + "]]", "[[", ""), "]]", "") == x
  {
    ReplaceAround("[[", x, "]]");
  }

  /** `{{x}}` loses its braces when `x` holds no `}`. */
  lemma UnbracedOf(x: string)
    requires '}' !in x
    ensures Unbraced("{{" + x + "}}") == x
  {
    ReplaceAround("{{", x, "}}");
  }

  /** With two or more `{{` in the value, `vunblist` templates are left as they are. */
  lemma VunblistNeedsSingleTemplate(c: string, i: int, j: int)
    requires At(c, i, "{{") && At(c, j, "{{") && i + 2 <= j
    ensures ApplyStep(c, VunblistIfSingle) == c
  {
    SplitAtLeastThree(c, "{{", i, j);
  }
}
