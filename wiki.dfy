/** The `Wiki` class of src/wiki.js: its own `api` (which merges `format` and `action`
    into the caller's params object in place and checks no error), its own `pagination`
    (no search query in the resolution), `search`, the `page` lookup, and the listings of
    its `WikiPage`. `aggregatePagination` there is the same recursion as in src/util.js
    (Util.AggregatePagination); `images`, `coordinates` and `info` are the same code as in
    src/page.js (Page.Images, Page.Coordinates, Page.Info). */
module Wiki {
  import opened JsString
  import opened Json
  import opened Util
  import Page

  // ------------------------------------------------------------------ api

  /** `_.extend(params, {format: 'json', action: 'query'})`: the caller's params with
      `format` and `action` overridden, every other entry kept. */
  function Merged(entries: map<string, Json>): (m: map<string, Json>)
    ensures m.Keys == entries.Keys + {"format", "action"}
    ensures m["format"] == Text("json") && m["action"] == Text("query")
    ensures forall k :: k in entries && k != "format" && k != "action" ==> m[k] == entries[k]
  {
    entries["format" := Text("json")]["action" := Text("query")]
  }

  /** `Wiki.api(params)`: the merge happens in the caller's own object, which is also
      what is sent. */
  method Api(p: Params) returns (qs: map<string, Json>)
    modifies p
    ensures p.entries == Merged(old(p.entries))
    ensures qs == p.entries
  {
    p.entries := p.entries["format" := Text("json")];
    p.entries := p.entries["action" := Text("query")];
    qs := p.entries;
  }

  // ------------------------------------------------------------------ pagination

  /** One `Wiki.pagination` call on the params it finds and the response it receives: the
      merge of `api`, then `parseResults(res)`, then the read of `res.continue`. */
  function WikiStep(entries: map<string, Json>, res: Json, parse: Json -> Result<seq<Json>>)
    : (Result<Resolution>, map<string, Json>)
  {
    var merged := Merged(entries);
    var results := parse(res);
    if results.Thrown? then (Thrown(results.error), merged)
    else
      var cont := Prop(res, "continue");
      if cont.Thrown? then (Thrown(cont.error), merged)
      else if Truthy(cont.value) then
        var t := ContinueType(cont.value);
        (Ok(Resolution(results.value, Undef, true)), merged[t := Property(cont.value, t)])
      else
        (Ok(Resolution(results.value, Undef, false)), merged)
  }

  function WikiStepWith(parse: Json -> Result<seq<Json>>): Stepper
  {
    (entries, res) => WikiStep(entries, res, parse)
  }

  /** `this.pagination(params, parseResults)` receiving `res`. */
  method WikiPagination(p: Params, res: Json, parse: Json -> Result<seq<Json>>)
    returns (sent: map<string, Json>, r: Result<Resolution>)
    modifies p
    ensures sent == Merged(old(p.entries))
    ensures (r, p.entries) == WikiStep(old(p.entries), res, parse)
  {
    sent := Api(p);
    var results := parse(res);
    if results.Thrown? {
      return sent, Thrown(results.error);
    }
    var cont := Prop(res, "continue");
    if cont.Thrown? {
      return sent, Thrown(cont.error);
    }
    var resolution := Resolution(results.value, Undef, false);
    if Truthy(cont.value) {
      var t := ContinueType(cont.value);
      p.entries := p.entries[t := Property(cont.value, t)];
      resolution := resolution.(next := true);
    }
    r := Ok(resolution);
  }

  /** A call on a response the parser accepts resolves to the parsed results, with no
      search query; `next` is offered exactly when `res.continue` is truthy, and then the
      token is written, after the merge, under the first key other than `continue`. */
  lemma WikiStepResolves(entries: map<string, Json>, res: Json, parse: Json -> Result<seq<Json>>)
    requires !Stuck(res) && parse(res).Ok?
    ensures var (r, after) := WikiStep(entries, res, parse);
      var cont := Property(res, "continue");
      && r.Ok?
      && r.value.results == parse(res).value
      && r.value.query == Undef
      && (r.value.next <==> Truthy(cont))
      && (r.value.next ==> after == Merged(entries)[ContinueType(cont) := Property(cont, ContinueType(cont))])
      && (!r.value.next ==> after == Merged(entries))
  {
  }

  /** Unlike src/util.js, this `pagination` does not reject a response that carries an API
      `error`: it parses it like any other. */
  lemma WikiStepKeepsErrors(entries: map<string, Json>, res: Json, parse: Json -> Result<seq<Json>>)
    requires res.Object? && Truthy(Property(res, "error")) && parse(res).Ok?
    ensures WikiStep(entries, res, parse).0.Ok?
    ensures Step(entries, res, parse).0 == Thrown(ApiError(Property(Property(res, "error"), "info")))
  {
    CheckResponseMeaning(res);
  }

  /** `aggregatePagination(this.pagination(params, parseResults))`, one response per call. */
  method WikiPaginate(p: Params, responses: seq<Json>, parse: Json -> Result<seq<Json>>)
    returns (out: Aggregated, ghost steps: seq<Result<Resolution>>, ghost states: seq<map<string, Json>>)
    modifies p
    ensures IsRun(old(p.entries), responses, WikiStepWith(parse), steps, states)
    ensures p.entries == states[|steps|]
    ensures out == AggregatePagination(steps, [])
  {
    var results: seq<Json> := [];
    steps, states := [], [p.entries];
    var i := 0;
    while true
      invariant i == |steps| <= |responses|
      invariant states != [] && states[0] == old(p.entries) && Linked(states, steps, responses, WikiStepWith(parse))
      invariant states[i] == p.entries
      invariant Open(steps)
      invariant results == Concat(steps)
      decreases |responses| - i
    {
      if i == |responses| {
        RunOut(old(p.entries), responses, WikiStepWith(parse), steps, states);
        AggregateOpen(steps, []);
        out := Unfinished(results);
        return;
      }
      var sent, r := WikiPagination(p, responses[i], parse);
      if r.Thrown? || !r.value.next {
        CloseRun(old(p.entries), responses, WikiStepWith(parse), steps, states, r, p.entries);
        steps, states := steps + [r], states + [p.entries];
        out := if r.Thrown? then Failed(r.error) else Done(results + r.value.results);
        return;
      }
      ExtendRun(old(p.entries), responses, WikiStepWith(parse), steps, states, r, p.entries);
      results := results + r.value.results;
      steps, states := steps + [r], states + [p.entries];
      i := i + 1;
    }
  }

  // ------------------------------------------------------------------ search

  /** The params of `search(query, limit)`. */
  function SearchParams(query: Json, limit: Json): map<string, Json>
  {
    map["list" := Text("search"), "srsearch" := query, "srlimit" := limit]
  }

  /** `res => _.pluck(res.query.search, 'title')`. */
  function SearchParse(): Json -> Result<seq<Json>>
  {
    res => Page.PluckAt(res, ["query", "search"], "title")
  }

  /** `search(query, limit = 50)`: one `pagination` call over a fresh params object. */
  method Search(query: Json, res: Json, limit: Json := Number(50.0))
    returns (sent: map<string, Json>, r: Result<Resolution>)
    ensures sent == Merged(SearchParams(query, Defaulted(limit, Number(50.0))))
    ensures r == WikiStep(SearchParams(query, Defaulted(limit, Number(50.0))), res, SearchParse()).0
  {
    var p := new Params(SearchParams(query, Defaulted(limit, Number(50.0))));
    sent, r := WikiPagination(p, res, SearchParse());
  }

  /** The request asks for `limit` results (50 unless given) of `query`; the results are
      the titles of `query.search`, in order. */
  lemma SearchTitles(query: Json, limit: Json, res: Json)
    requires Reached(res, ["query", "search"]).List?
    ensures Merged(SearchParams(query, limit))["srlimit"] == limit
    ensures Merged(SearchParams(query, limit))["srsearch"] == query
    ensures var r := WikiStep(SearchParams(query, limit), res, SearchParse()).0;
      var items := Reached(res, ["query", "search"]).items;
      && r.Ok? && |r.value.results| == |items|
      && (forall i :: 0 <= i < |items| ==> r.value.results[i] == Property(items[i], "title"))
      && (r.value.next <==> Truthy(Property(res, "continue")))
  {
    Page.PluckAtList(res, ["query", "search"], "title");
    if Stuck(res) {
      ReachedUndef(["search"]);
      assert false;
    }
  }

  // ------------------------------------------------------------------ page

  /** `_.findKey(pages, page => page.title === title)`: the key of the first page whose
      title is `title`, reading each page's `title` (which throws on undefined and null). */
  function FindKey(fields: seq<(string, Json)>, title: string): Result<Option<string>>
  {
    if fields == [] then Ok(None)
    else
      var t := Prop(fields[0].1, "title");
      if t.Thrown? then Thrown(t.error)
      else if t.value == Text(title) then Ok(Some(fields[0].0))
      else FindKey(fields[1..], title)
  }

  /** `page(title)` receiving `res`: the record of the page titled `title`, or
      `Error('No article found')` when no page has that title (or its key is empty). */
  function PageLookup(res: Json, title: string): Result<Json>
  {
    var pages := Path(res, ["query", "pages"]);
    if pages.Thrown? then Thrown(pages.error)
    else
      var fields := if pages.value.Object? then pages.value.fields else [];
      var id := FindKey(fields, title);
      if id.Thrown? then Thrown(id.error)
      else if id.value.None? || id.value.value == "" then Thrown(Failure("No article found"))
      else Ok(Lookup(fields, id.value.value))
  }

  /** Pages that are all records. */
  predicate Records(fields: seq<(string, Json)>)
  {
    forall j :: 0 <= j < |fields| ==> !Stuck(fields[j].1)
  }

  /** Keys that appear once each, as `JSON.parse` leaves them. */
  predicate Distinct(fields: seq<(string, Json)>)
  {
    forall a, b :: 0 <= a < b < |fields| ==> fields[a].0 != fields[b].0
  }

  /** The first page whose title matches is found, by its key. */
  lemma {:induction false} FindKeyFirst(fields: seq<(string, Json)>, title: string, i: nat)
    requires Records(fields) && i < |fields|
    requires Property(fields[i].1, "title") == Text(title)
    requires forall j :: 0 <= j < i ==> Property(fields[j].1, "title") != Text(title)
    ensures FindKey(fields, title) == Ok(Some(fields[i].0))
    decreases i
  {
    if i > 0 {
      assert Property(fields[0].1, "title") != Text(title);
      assert fields[1..][i - 1] == fields[i];
      FindKeyFirst(fields[1..], title, i - 1);
    }
  }

  /** No page with the title: nothing is found. */
  lemma {:induction false} FindKeyNone(fields: seq<(string, Json)>, title: string)
    requires Records(fields)
    requires forall j :: 0 <= j < |fields| ==> Property(fields[j].1, "title") != Text(title)
    ensures FindKey(fields, title) == Ok(None)
    decreases |fields|
  {
    if fields != [] {
      assert Property(fields[0].1, "title") != Text(title);
      FindKeyNone(fields[1..], title);
    }
  }

  /** The page returned is the first one whose title is exactly the one asked for. */
  lemma PageFound(res: Json, title: string, i: nat)
    requires Reached(res, ["query", "pages"]).Object?
    requires var fields := Reached(res, ["query", "pages"]).fields;
      && Records(fields) && Distinct(fields) && i < |fields| && fields[i].0 != ""
      && Property(fields[i].1, "title") == Text(title)
      && (forall j :: 0 <= j < i ==> Property(fields[j].1, "title") != Text(title))
    ensures PageLookup(res, title) == Ok(Reached(res, ["query", "pages"]).fields[i].1)
  {
    var fields := Reached(res, ["query", "pages"]).fields;
    PathReaches(res, ["query", "pages"]);
    FindKeyFirst(fields, title, i);
    LookupFirst(fields, fields[i].0);
  }

  /** When no page has exactly that title the lookup fails with `No article found`. */
  lemma PageNotFound(res: Json, title: string)
    requires Reached(res, ["query", "pages"]).Object?
    requires var fields := Reached(res, ["query", "pages"]).fields;
      && Records(fields) && forall j :: 0 <= j < |fields| ==> Property(fields[j].1, "title") != Text(title)
    ensures PageLookup(res, title) == Thrown(Failure("No article found"))
  {
    PathReaches(res, ["query", "pages"]);
    FindKeyNone(Reached(res, ["query", "pages"]).fields, title);
  }

  // ------------------------------------------------------------------ WikiPage listings

  /** `if (aggregated) return this.wiki.aggregatePagination(pagination); return pagination;`
      over a fresh params object. */
  method WikiListed(init: map<string, Json>, parse: Json -> Result<seq<Json>>,
                    aggregated: Json, first: Json, later: seq<Json>)
    returns (out: Page.Listing, ghost steps: seq<Result<Resolution>>, ghost states: seq<map<string, Json>>)
    ensures Truthy(aggregated) ==>
      && IsRun(init, [first] + later, WikiStepWith(parse), steps, states)
      && out == Page.All(AggregatePagination(steps, []))
    ensures !Truthy(aggregated) ==> out == Page.Batch(WikiStep(init, first, parse).0)
  {
    var p := new Params(init);
    if Truthy(aggregated) {
      var all;
      all, steps, states := WikiPaginate(p, [first] + later, parse);
      out := Page.All(all);
    } else {
      var sent, r := WikiPagination(p, first, parse);
      out := Page.Batch(r);
      steps, states := [r], [init, p.entries];
    }
  }

  /** `WikiPage.links(aggregated = true, limit = 100)`. */
  method Links(title: Json, pageid: string, first: Json, later: seq<Json>,
               aggregated: Json := Boolean(true), limit: Json := Number(100.0))
    returns (out: Page.Listing, ghost steps: seq<Result<Resolution>>, ghost states: seq<map<string, Json>>)
    ensures Truthy(Defaulted(aggregated, Boolean(true))) ==>
      && IsRun(Page.LinksParams(title, Defaulted(limit, Number(100.0))), [first] + later, WikiStepWith(Page.LinksParse(pageid)), steps, states)
      && out == Page.All(AggregatePagination(steps, []))
    ensures !Truthy(Defaulted(aggregated, Boolean(true))) ==> out == Page.Batch(WikiStep(Page.LinksParams(title, Defaulted(limit, Number(100.0))), first, Page.LinksParse(pageid)).0)
  {
    out, steps, states := WikiListed(Page.LinksParams(title, Defaulted(limit, Number(100.0))), Page.LinksParse(pageid), Defaulted(aggregated, Boolean(true)), first, later);
  }

  /** `WikiPage.categories(aggregated = true, limit = 100)`. */
  method Categories(title: Json, pageid: string, first: Json, later: seq<Json>,
                    aggregated: Json := Boolean(true), limit: Json := Number(100.0))
    returns (out: Page.Listing, ghost steps: seq<Result<Resolution>>, ghost states: seq<map<string, Json>>)
    ensures Truthy(Defaulted(aggregated, Boolean(true))) ==>
      && IsRun(Page.CategoriesParams(title, Defaulted(limit, Number(100.0))), [first] + later, WikiStepWith(Page.CategoriesParse(pageid)), steps, states)
      && out == Page.All(AggregatePagination(steps, []))
    ensures !Truthy(Defaulted(aggregated, Boolean(true))) ==> out == Page.Batch(WikiStep(Page.CategoriesParams(title, Defaulted(limit, Number(100.0))), first, Page.CategoriesParse(pageid)).0)
  {
    out, steps, states := WikiListed(Page.CategoriesParams(title, Defaulted(limit, Number(100.0))), Page.CategoriesParse(pageid), Defaulted(aggregated, Boolean(true)), first, later);
  }

  /** `WikiPage.backlinks(aggregated = true, limit = 100)`. */
  method Backlinks(title: Json, first: Json, later: seq<Json>,
                   aggregated: Json := Boolean(true), limit: Json := Number(100.0))
    returns (out: Page.Listing, ghost steps: seq<Result<Resolution>>, ghost states: seq<map<string, Json>>)
    ensures Truthy(Defaulted(aggregated, Boolean(true))) ==>
      && IsRun(Page.BacklinksParams(title, Defaulted(limit, Number(100.0))), [first] + later, WikiStepWith(Page.BacklinksParse()), steps, states)
      && out == Page.All(AggregatePagination(steps, []))
    ensures !Truthy(Defaulted(aggregated, Boolean(true))) ==> out == Page.Batch(WikiStep(Page.BacklinksParams(title, Defaulted(limit, Number(100.0))), first, Page.BacklinksParse()).0)
  {
    out, steps, states := WikiListed(Page.BacklinksParams(title, Defaulted(limit, Number(100.0))), Page.BacklinksParse(), Defaulted(aggregated, Boolean(true)), first, later);
  }
}
