/** src/wiki-markup-parser.js: isolates the `{{Infobox ...}}` span of raw wikitext with a
    module-level global regex, scrubs it, splits it into `name = value` fields and
    rewrites wikilinks and a fixed set of inline templates in each value. */
module MarkupParser {
  import opened JsString
  import opened Patterns
  import opened ParserUtils
  import opened InfoboxText

  // ------------------------------------------------------------ the module-level regex

  /** The regex object `infoboxPattern`, shared by every call of the parser. */
  class InfoboxRegex {
    var lastIndex: nat

    constructor ()
      ensures lastIndex == 0
    {
      lastIndex := 0;
    }

    method Exec(data: string) returns (m: Option<string>)
      modifies this
      ensures (m, lastIndex) == ExecInfobox(data, old(lastIndex))
    {
      var r := ExecInfobox(data, lastIndex);
      m, lastIndex := r.0, r.1;
    }
  }

  // ------------------------------------------------------------ specification

  /** The rewrites of one value, in the order the source applies them. */
  function ValueSteps(): seq<Step>
  {
    [
    Each(Wikilink, LinkText), Unwrap("nowrap"), Unwrap("small"), Templates("native", NativeArg),
    Templates("unbulleted", ListArgs), VunblistIfSingle, Templates("hlist", ListArgs),
    Templates("efn", Drop)]
  }

  /** The value stored for a field whose first value line is `content`. */
  function MarkupValue(content: string): Option<string>
  {
    Finish(ApplySteps(content, ValueSteps()))
  }

  /** The name and the first value line of an item that passes the ` = ` test: splitting on
      ` = ` must give exactly two parts, the second not blank. */
  function ItemLine(item: string): Option<(string, string)>
  {
    var temp := Split(item, " = ");
    if |temp| == 2 && Trim(temp[1]) != "" then Some((Trim(temp[0]), FirstLine(Trim(temp[1])))) else None
  }

  /** The entry one `\n|`-separated item contributes, if any. */
  function ItemEntry(item: string): Option<Entry>
  {
    match ItemLine(item)
    case None => None
    case Some((name, line)) => Some((name, MarkupValue(line)))
  }

  /** The entries the items contribute, in order. */
  function Entries(items: seq<string>): seq<Entry>
    decreases |items|
  {
    if items == [] then []
    else
      Entries(items[..|items| - 1]) + Contribution(ItemEntry(items[|items| - 1]))
  }

  /** The result for the span `exec` returned (None: no match). */
  function FieldsOf(span: Option<string>): Fields
  {
    if span.None? then map[]
    else
      var text := Scrub(span.value);
      if text.None? || text.value == "" then map[] else Assign(Entries(Split(text.value, "\n|")))
  }

  /** What a parse of `data` gives when the regex starts from index 0. */
  function WikitextFields(data: string): Fields
  {
    FieldsOf(ExecInfobox(data, 0).0)
  }

  // ------------------------------------------------------------ the parser

  /** The body of the field loop from the link rewrite to the final `replaceAll`s. */
  method RewriteValue(content: string) returns (v: Option<string>)
    ensures v == MarkupValue(content)
  {
    ghost var steps := ValueSteps();
    var c := content;
    assert steps[0..] == steps;
    StepNext(content, c, steps, 0);
    c := RewriteEach(c, Wikilink, LinkText);
    StepNext(content, c, steps, 1);
    c := StripWrapper(c, "nowrap");
    StepNext(content, c, steps, 2);
    c := StripWrapper(c, "small");
    StepNext(content, c, steps, 3);
    c := RewriteTemplate(c, "native", NativeArg);
    StepNext(content, c, steps, 4);
    c := RewriteTemplate(c, "unbulleted", ListArgs);
    StepNext(content, c, steps, 5);
    c := RewriteVunblist(c);
    StepNext(content, c, steps, 6);
    c := RewriteTemplate(c, "hlist", ListArgs);
    StepNext(content, c, steps, 7);
    c := RewriteTemplate(c, "efn", Drop);
    v := ReplaceAll(Literal("&nbsp"), " ", Some(c));
    v := ReplaceAll(Literal("\n}}"), "", v);
  }

  /** The body of the `forEach` over the items, up to the assignment. */
  method ParseItem(item: string) returns (e: Option<Entry>)
    ensures e == ItemEntry(item)
  {
    var temp := Split(item, " = ");
    e := None;
    if |temp| == 2 && Trim(temp[1]) != "" {
      var name := Trim(temp[0]);
      var content := FirstLine(Trim(temp[1]));
      var value := RewriteValue(content);
      e := Some((name, value));
    }
  }

  lemma EntriesNext(items: seq<string>, k: nat)
    requires k < |items|
    ensures Entries(items[..k + 1]) == Entries(items[..k]) + Contribution(ItemEntry(items[k]))
  {
    assert items[..k + 1][..k] == items[..k];
  }

  /** The `forEach` over the items, filling `result`. */
  method CollectFields(items: seq<string>) returns (result: Fields)
    ensures result == Assign(Entries(items))
  {
    result := map[];
    var inherits := true;
    for k := 0 to |items|
      invariant result == Assign(Entries(items[..k]))
      invariant inherits == Inherits(Entries(items[..k]))
    {
      var entry := ParseItem(items[k]);
      ghost var es := Entries(items[..k]);
      EntriesNext(items, k);
      if entry.Some? {
        AssignNext(es, entry.value);
        assert Entries(items[..k + 1]) == es + [entry.value];
        var (name, value) := entry.value;
        if name == ProtoName && inherits {
          // the inherited setter: a string is ignored, null drops the prototype
          inherits := value.Some?;
        } else {
          result := result[name := value];
        }
      } else {
        assert Entries(items[..k + 1]) == es + [] == es;
      }
    }
    assert items[..|items|] == items;
  }

  /** The default export, as written: the regex resumes at the `lastIndex` its previous
      call left behind. */
  method Parse(rx: InfoboxRegex, data: string) returns (result: Fields)
    modifies rx
    ensures result == FieldsOf(ExecInfobox(data, old(rx.lastIndex)).0)
    ensures rx.lastIndex == ExecInfobox(data, old(rx.lastIndex)).1
  {
    result := map[];
    var span := rx.Exec(data);
    if span.None? {
      return;
    }
    var text := Scrub(span.value);
    if text.Some? && text.value != "" {
      result := CollectFields(Split(text.value, "\n|"));
    }
  }

  /** The parser with the regex rewound before each search: its result depends on `data` alone. */
  method ParseFromStart(rx: InfoboxRegex, data: string) returns (result: Fields)
    modifies rx
    ensures result == WikitextFields(data)
  {
    rx.lastIndex := 0;
    result := Parse(rx, data);
  }

  // ------------------------------------------------------------ properties

  /** Two parses of the same wikitext through one regex object: when the wikitext breaks its
      lines with '\n' only, the second finds nothing (ExecAfterReturnMatches shows a '\r'
      letting it find a later infobox instead). */
  method ParseTwice(data: string) returns (first: Fields, second: Fields)
    requires ExecInfobox(data, 0).0.Some?
    requires forall k :: 0 <= k < |data| ==> !OtherTerminator(data[k])
    ensures first == WikitextFields(data)
    ensures second == map[]
  {
    var rx := new InfoboxRegex();
    first := Parse(rx, data);
    ExecAfterMatchFails(data, 0);
    second := Parse(rx, data);
  }

  /** With no infobox at or after `lastIndex`, the result is the empty object. */
  lemma NoInfoboxNoFields(data: string, lastIndex: nat)
    requires forall j :: lastIndex <= j ==> MatchAt(Infobox, data, j).None?
    ensures FieldsOf(ExecInfobox(data, lastIndex).0) == map[]
  {
  }

  /** An item without ` = ` (such as `name=Dublin`) is dropped. */
  lemma UnspacedItemDropped(item: string)
    requires !Contains(item, " = ")
    ensures ItemLine(item).None? && ItemEntry(item).None?
  {
    SplitNoSep(item, " = ");
  }

  /** An item with two separate ` = ` is dropped. */
  lemma TwiceSpacedItemDropped(item: string, i: int, j: int)
    requires At(item, i, " = ") && At(item, j, " = ") && i + 3 <= j
    ensures ItemLine(item).None? && ItemEntry(item).None?
  {
    SplitAtLeastThree(item, " = ", i, j);
  }

  /** An item with exactly one ` = ` and a non-blank right part: the name is the trimmed
      left part, the value line is the first line of the trimmed right part. */
  lemma OnceSpacedItem(item: string, i: int)
    requires At(item, i, " = ")
    requires forall j :: At(item, j, " = ") ==> j == i
    requires Trim(item[i + 3..]) != ""
    ensures ItemLine(item) == Some((Trim(item[..i]), FirstLine(Trim(item[i + 3..]))))
  {
    SplitOnce(item, i);
  }

  lemma SplitOnce(item: string, i: int)
    requires At(item, i, " = ")
    requires forall j :: At(item, j, " = ") ==> j == i
    ensures Split(item, " = ") == [item[..i], item[i + 3..]]
  {
    assert IndexOf(item, " = ") == i;
    SplitAtFirst(item, " = ", i);
    NothingAfterOnly(item, i);
    SplitNoSep(item[i + 3..], " = ");
  }

  lemma NothingAfterOnly(item: string, i: int)
    requires At(item, i, " = ")
    requires forall j :: At(item, j, " = ") ==> j == i
    ensures !Contains(item[i + 3..], " = ")
  {
    var rest := item[i + 3..];
    forall q ensures !At(rest, q, " = ") {
      if 0 <= q && q + 3 <= |rest| {
        assert rest[q..q + 3] == item[i + 3 + q..i + 3 + q + 3];
        assert !At(item, i + 3 + q, " = ");
      }
    }
  }
}
