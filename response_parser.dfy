/** src/parser/index.js: the parser of a MediaWiki `query` response holding one page's latest
    revision. It checks the response's shape, isolates the infobox of the revision's wikitext,
    flattens list, URL and start-date templates, then splits the infobox into fields at the
    first `=` of each item and rewrites links and inline templates in each value. */
module ResponseParser {
  import opened JsString
  import opened Patterns
  import opened ParserUtils
  import opened InfoboxText

  // ------------------------------------------------------------ the response

  /** A page record of `query.pages`: the `*` member (the wikitext) of each revision, None
      where a revision has no such member. A record without `revisions` has none. */
  datatype PageRecord = PageRecord(revisions: seq<Option<string>>)

  /** `query`: its `pages` object as its keys in `Object.keys` order, each with its record
      (None: a null record); `pages` itself may be missing. */
  datatype Query = Query(pages: Option<seq<(string, Option<PageRecord>)>>)

  /** What `JSON.parse(data)` gives: an error, `null`, or a value whose `query` member may be
      missing. */
  datatype Payload = Unparsable | NullJson | Content(query: Option<Query>)

  /** How the parser ends without a result: an error handed to the callback, or (`Thrown`)
      a TypeError raised out of the parser before the callback is called. */
  datatype Failure =
    | JsonError
    | QueryNotFound
    | PageIndexNotFound
    | MalformedResponsePayload
    | Redirect(message: string)
    | InfoboxNotFound
    | Thrown

  datatype Outcome = Fail(failure: Failure) | Parsed(fields: Fields)

  // ------------------------------------------------------------ specification

  /** The three whole-text rewrites, in the order the source applies them. */
  function TextSteps(): seq<Step>
  {
    [Each(ListTemplate, ListBlock), Each(UrlTemplate, UrlArg), Each(StartDateTemplate, DateArgs)]
  }

  /** The rewrites of one value, in the order the source applies them. */
  function ValueSteps(): seq<Step>
  {
    [Each(Wikilink, LinkLastSegment), Unwrap("nowrap"), Unwrap("small"), Templates("native", NativeArg),
     VunblistIfSingle, Templates("hlist", ListArgs), Templates("efn", Drop)]
  }

  function ResponseValue(content: string): Option<string>
  {
    Finish(ApplySteps(content, ValueSteps()))
  }

  /** The name and the first value line of an item holding an `=`: the item is cut at its
      first `=`. */
  function ItemLine(item: string): Option<(string, string)>
  {
    CutAt(item, IndexOf(item, "="))
  }

  /** The trimmed text before index `i` and the first line of the trimmed text after it. */
  function CutAt(item: string, i: int): Option<(string, string)>
    requires i == -1 || 0 <= i < |item|
  {
    if i == -1 then None else Some((Trim(item[..i]), FirstLine(Trim(item[i + 1..]))))
  }

  function ItemEntry(item: string): Option<Entry>
  {
    match ItemLine(item)
    case None => None
    case Some((name, line)) => Some((name, ResponseValue(line)))
  }

  function Entries(items: seq<string>): seq<Entry>
    decreases |items|
  {
    if items == [] then []
    else Entries(items[..|items| - 1]) + Contribution(ItemEntry(items[|items| - 1]))
  }

  /** The part of the parser after the shape checks: `w` is the revision's wikitext. */
  function WikitextOutcome(w: string): Outcome
  {
    match ExecInfobox(w, 0).0
    case None => Fail(InfoboxNotFound)
    case Some(span) =>
      match Scrub(span)
      case None => Fail(Thrown)
      case Some(text) => Parsed(Assign(Entries(Split(ApplySteps(text, TextSteps()), "\n|"))))
  }

  /** The checks on the single page record, then the wikitext. */
  function PageOutcome(page: PageRecord): Outcome
  {
    if page.revisions == [] || page.revisions[0].None? then Fail(Thrown)
    else if Contains(page.revisions[0].value, "REDIRECT") then Fail(Redirect(page.revisions[0].value))
    else WikitextOutcome(page.revisions[0].value)
  }

  /** The parser's outcome for a response. `json[key]` looks the page up by the key list
      itself, that is by the keys joined with `,`: it names a record only when there is
      exactly one key. */
  function ResponseOutcome(payload: Payload): Outcome
  {
    match payload
    case Unparsable => Fail(JsonError)
    case NullJson => Fail(Thrown)
    case Content(query) =>
      if query.None? then Fail(QueryNotFound)
      else if query.value.pages.None? then Fail(Thrown)
      else PagesOutcome(query.value.pages.value)
  }

  /** The checks on `query.pages`: the first key, then the record found by `json[key]`. */
  function PagesOutcome(pages: seq<(string, Option<PageRecord>)>): Outcome
  {
    if pages != [] && pages[0].0 == "-1" then Fail(PageIndexNotFound)
    else
      match Lookup(pages, Join(Keys(pages), ","))
      case None => Fail(MalformedResponsePayload)
      case Some(page) => PageOutcome(page)
  }

  /** `Object.keys(pages)`. */
  function Keys(pages: seq<(string, Option<PageRecord>)>): (keys: seq<string>)
    ensures |keys| == |pages| && forall k :: 0 <= k < |pages| ==> keys[k] == pages[k].0
  {
    seq(|pages|, k requires 0 <= k < |pages| => pages[k].0)
  }

  /** `pages[name]` as a truthiness test sees it: the record of the member `name`, None when
      there is no such member or its value is falsy. */
  function Lookup(pages: seq<(string, Option<PageRecord>)>, name: string): Option<PageRecord>
    decreases |pages|
  {
    if pages == [] then None else if pages[0].0 == name then pages[0].1 else Lookup(pages[1..], name)
  }

  // ------------------------------------------------------------ the parser

  /** Lists merged to one line, then URL and start-date templates replaced. */
  method RewriteText(text: string) returns (t: string)
    ensures t == ApplySteps(text, TextSteps())
  {
    ghost var steps := TextSteps();
    t := text;
    assert steps[0..] == steps;
    StepNext(text, t, steps, 0);
    t := RewriteEach(t, ListTemplate, ListBlock);
    StepNext(text, t, steps, 1);
    t := RewriteEach(t, UrlTemplate, UrlArg);
    StepNext(text, t, steps, 2);
    t := RewriteEach(t, StartDateTemplate, DateArgs);
  }

  method RewriteValue(content: string) returns (v: Option<string>)
    ensures v == ResponseValue(content)
  {
    ghost var steps := ValueSteps();
    var c := content;
    assert steps[0..] == steps;
    StepNext(content, c, steps, 0);
    c := RewriteEach(c, Wikilink, LinkLastSegment);
    StepNext(content, c, steps, 1);
    c := StripWrapper(c, "nowrap");
    StepNext(content, c, steps, 2);
    c := StripWrapper(c, "small");
    StepNext(content, c, steps, 3);
    c := RewriteTemplate(c, "native", NativeArg);
    StepNext(content, c, steps, 4);
    c := RewriteVunblist(c);
    StepNext(content, c, steps, 5);
    c := RewriteTemplate(c, "hlist", ListArgs);
    StepNext(content, c, steps, 6);
    c := RewriteTemplate(c, "efn", Drop);
    v := ReplaceAll(Literal("&nbsp"), " ", Some(c));
    v := ReplaceAll(Literal("\n}}"), "", v);
  }

  method ParseItem(item: string) returns (e: Option<Entry>)
    ensures e == ItemEntry(item)
  {
    var i := IndexOf(item, "=");
    e := None;
    if i != -1 {
      var name := Trim(item[..i]);
      var content := FirstLine(Trim(item[i + 1..]));
      var value := RewriteValue(content);
      e := Some((name, value));
    }
  }

  lemma EntriesNext(items: seq<string>, k: nat)
    requires k < |items|
    ensures Entries(items[..k + 1]) == Entries(items[..k]) + Contribution(ItemEntry(items[k]))
  {
    assert items[..k + 1][..k] == items[..k];
  }

  method CollectFields(items: seq<string>) returns (result: Fields)
    ensures result == Assign(Entries(items))
  {
    result := map[];
    var inherits := true;
    for k := 0 to |items|
      invariant result == Assign(Entries(items[..k]))
      invariant inherits == Inherits(Entries(items[..k]))
    {
      var entry := ParseItem(items[k]);
      ghost var es := Entries(items[..k]);
      EntriesNext(items, k);
      if entry.Some? {
        AssignNext(es, entry.value);
        assert Entries(items[..k + 1]) == es + [entry.value];
        var (name, value) := entry.value;
        if name == ProtoName && inherits {
          // the inherited setter: a string is ignored, null drops the prototype
          inherits := value.Some?;
        } else {
          result := result[name := value];
        }
      } else {
        assert Entries(items[..k + 1]) == es;
      }
    }
    assert items[..|items|] == items;
  }

  /** The parser. Each early return of the source is an early return here. */
  method Parse(payload: Payload) returns (out: Outcome)
    ensures out == ResponseOutcome(payload)
  {
    if payload.Unparsable? {
      return Fail(JsonError);
    }
    if payload.NullJson? {
      return Fail(Thrown);
    }
    if payload.query.None? {
      return Fail(QueryNotFound);
    }
    var json := payload.query.value.pages;
    if json.None? {
      return Fail(Thrown);
    }
    var pages := json.value;
    if pages != [] && pages[0].0 == "-1" {
      return Fail(PageIndexNotFound);
    }
    var record := Lookup(pages, Join(Keys(pages), ","));
    if record.None? {
      return Fail(MalformedResponsePayload);
    }
    var revisions := record.value.revisions;
    if revisions == [] || revisions[0].None? {
      return Fail(Thrown);
    }
    var w := revisions[0].value;
    if Contains(w, "REDIRECT") {
      return Fail(Redirect(w));
    }
    out := ParseWikitext(w);
  }

  method ParseWikitext(w: string) returns (out: Outcome)
    ensures out == WikitextOutcome(w)
  {
    var reg := ExecInfobox(w, 0);
    if reg.0.None? {
      return Fail(InfoboxNotFound);
    }
    var text := Scrub(reg.0.value);
    if text.None? {
      return Fail(Thrown);
    }
    var t := RewriteText(text.value);
    var result := CollectFields(Split(t, "\n|"));
    return Parsed(result);
  }

  // ------------------------------------------------------------ properties

  /** A name that is no key finds nothing. */
  lemma {:induction false} LookupAbsent(pages: seq<(string, Option<PageRecord>)>, name: string)
    requires forall k :: 0 <= k < |pages| ==> pages[k].0 != name
    ensures Lookup(pages, name).None?
    decreases |pages|
  {
    if pages != [] {
      LookupAbsent(pages[1..], name);
    }
  }

  /** The keys joined with `,` name the record of the only key, and no key at all when there
      are none or several: `json[key]` is truthy exactly when `pages` has one member whose
      value is truthy. */
  lemma JoinedKeyLookup(pages: seq<(string, Option<PageRecord>)>)
    ensures Lookup(pages, Join(Keys(pages), ",")) == if |pages| == 1 then pages[0].1 else None
  {
    var keys := Keys(pages);
    if |pages| != 1 {
      forall k | 0 <= k < |pages| ensures pages[k].0 != Join(keys, ",") {
        JoinLonger(keys, ",", k);
      }
      LookupAbsent(pages, Join(keys, ","));
    }
  }

  /** With two or more parts, the join is longer than any part. */
  lemma JoinLonger(xs: seq<string>, sep: string, i: nat)
    requires 2 <= |xs| && i < |xs| && sep != ""
    ensures |xs[i]| < |Join(xs, sep)|
  {
    if i > 0 {
      JoinAtLeast(xs[1..], sep, i - 1);
    }
  }

  lemma {:induction false} JoinAtLeast(xs: seq<string>, sep: string, i: nat)
    requires i < |xs|
    ensures |xs[i]| <= |Join(xs, sep)|
    decreases |xs|
  {
    if i > 0 {
      JoinAtLeast(xs[1..], sep, i - 1);
    }
  }

  /** After the shape checks the parser fails only when the wikitext holds no infobox: the
      scrubbed span always keeps its opener, so `text.match` is never called on null. */
  lemma WikitextFailsOnlyWithoutInfobox(w: string)
    ensures WikitextOutcome(w).Fail? <==> ExecInfobox(w, 0).0.None?
    ensures WikitextOutcome(w).Fail? ==> WikitextOutcome(w).failure == InfoboxNotFound
  {
    if ExecInfobox(w, 0).0.Some? {
      ScrubbedSpan(w, 0);
    }
  }

  /** The record the checks reach, when there is one: the only page, keyed other than `-1`,
      with a truthy record. */
  predicate OnePage(payload: Payload)
  {
    payload.Content? && payload.query.Some? && payload.query.value.pages.Some? &&
    |payload.query.value.pages.value| == 1 && payload.query.value.pages.value[0].0 != "-1" &&
    payload.query.value.pages.value[0].1.Some?
  }

  function PageOf(payload: Payload): PageRecord
    requires OnePage(payload)
  {
    payload.query.value.pages.value[0].1.value
  }

  /** The page checks apply to the only page's record. */
  lemma OnePageOutcome(payload: Payload)
    requires OnePage(payload)
    ensures ResponseOutcome(payload) == PageOutcome(PageOf(payload))
  {
    JoinedKeyLookup(payload.query.value.pages.value);
  }

  /** `Malformed Response Payload` exactly when the first key is not `-1` and the pages are
      not a single truthy record. */
  lemma MalformedIff(pages: seq<(string, Option<PageRecord>)>)
    ensures PagesOutcome(pages) == Fail(MalformedResponsePayload)
        <==> (pages == [] || pages[0].0 != "-1") && (|pages| != 1 || pages[0].1.None?)
  {
    JoinedKeyLookup(pages);
    if |pages| == 1 && pages[0].1.Some? {
      PageNeverMalformed(pages[0].1.value);
    }
  }

  lemma PageNeverMalformed(page: PageRecord)
    ensures PageOutcome(page) != Fail(MalformedResponsePayload)
  {
    if page.revisions != [] && page.revisions[0].Some? {
      WikitextFailsOnlyWithoutInfobox(page.revisions[0].value);
    }
  }

  /** The parser hands back fields exactly when the response holds one page, keyed other
      than `-1`, whose first revision has wikitext that is not a redirect and holds an
      infobox. */
  lemma ParsedIff(payload: Payload)
    ensures ResponseOutcome(payload).Parsed? <==>
      OnePage(payload) && PageOf(payload).revisions != [] && PageOf(payload).revisions[0].Some? &&
      !Contains(PageOf(payload).revisions[0].value, "REDIRECT") &&
      ExecInfobox(PageOf(payload).revisions[0].value, 0).0.Some?
  {
    if payload.Content? && payload.query.Some? && payload.query.value.pages.Some? {
      var pages := payload.query.value.pages.value;
      JoinedKeyLookup(pages);
      if OnePage(payload) && PageOf(payload).revisions != [] && PageOf(payload).revisions[0].Some? {
        WikitextFailsOnlyWithoutInfobox(PageOf(payload).revisions[0].value);
      }
    }
  }

  /** The parser throws instead of calling back exactly when `JSON.parse` gives null, when
      `query.pages` is missing, or when the one page has no first revision with wikitext. */
  lemma ThrownIff(payload: Payload)
    ensures ResponseOutcome(payload) == Fail(Thrown) <==>
      payload.NullJson? ||
      (payload.Content? && payload.query.Some? && payload.query.value.pages.None?) ||
      (OnePage(payload) && (PageOf(payload).revisions == [] || PageOf(payload).revisions[0].None?))
  {
    if payload.Content? && payload.query.Some? && payload.query.value.pages.Some? {
      var pages := payload.query.value.pages.value;
      JoinedKeyLookup(pages);
      if OnePage(payload) && PageOf(payload).revisions != [] && PageOf(payload).revisions[0].Some? {
        WikitextFailsOnlyWithoutInfobox(PageOf(payload).revisions[0].value);
      }
    }
  }

  /** `Query Not Found` exactly when the parsed response has no `query`. */
  lemma QueryNotFoundIff(payload: Payload)
    ensures ResponseOutcome(payload) == Fail(QueryNotFound) <==> payload == Content(None)
  {
    if payload.Content? && payload.query.Some? && payload.query.value.pages.Some? {
      var pages := payload.query.value.pages.value;
      JoinedKeyLookup(pages);
      if |pages| == 1 && pages[0].1.Some? {
        var page := pages[0].1.value;
        if page.revisions != [] && page.revisions[0].Some? {
          WikitextFailsOnlyWithoutInfobox(page.revisions[0].value);
        }
      }
    }
  }

  /** A redirect is reported, with the whole wikitext as its message, exactly when the one
      page's first revision mentions `REDIRECT` anywhere. */
  lemma RedirectIff(payload: Payload)
    ensures ResponseOutcome(payload).Fail? && ResponseOutcome(payload).failure.Redirect? <==>
      OnePage(payload) && PageOf(payload).revisions != [] && PageOf(payload).revisions[0].Some? &&
      Contains(PageOf(payload).revisions[0].value, "REDIRECT")
    ensures ResponseOutcome(payload).Fail? && ResponseOutcome(payload).failure.Redirect? ==>
      ResponseOutcome(payload).failure.message == PageOf(payload).revisions[0].value
  {
    if payload.Content? && payload.query.Some? && payload.query.value.pages.Some? {
      var pages := payload.query.value.pages.value;
      JoinedKeyLookup(pages);
      if OnePage(payload) && PageOf(payload).revisions != [] && PageOf(payload).revisions[0].Some? {
        WikitextFailsOnlyWithoutInfobox(PageOf(payload).revisions[0].value);
      }
    }
  }

  /** An item is cut at its first `=`: a later `=` stays in the value. */
  lemma ItemCutAtFirstEquals(name: string, value: string)
    requires '=' !in name
    ensures ItemLine(name + "=" + value) == Some((Trim(name), FirstLine(Trim(value))))
  {
    var item := name + "=" + value;
    ContainsChar(name, '=');
    FirstAtJoint(name, '=', value);
    assert item[..|name|] == name;
    assert item[|name| + 1..] == value;
  }

  /** An item without `=` contributes nothing. */
  lemma ItemWithoutEquals(item: string)
    requires '=' !in item
    ensures ItemEntry(item).None?
  {
    ContainsChar(item, '=');
  }

  /** An item whose value is blank is kept, with the value null. */
  lemma BlankValueIsNull(name: string, value: string)
    requires '=' !in name && Trim(value) == ""
    ensures ItemEntry(name + "=" + value) == Some((Trim(name), None))
  {
    ItemCutAtFirstEquals(name, value);
    FirstLineEmpty();
    EmptyResponseValue();
  }

  lemma EmptyResponseValue()
    ensures ResponseValue("").None?
  {
    EmptyValueIsNull(ValueSteps());
  }
}
