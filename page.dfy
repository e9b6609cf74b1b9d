/** The page interface of src/page.js: the response shaping of `images`, `coordinates`,
    `links`, `categories` and `backlinks`, the choice between the aggregated list and the
    first batch, and the key resolution of `info`. The same code appears again as the
    `WikiPage` methods of src/wiki.js; `Images`, `Coordinates` and `Info` stand for both,
    and module Wiki drives the listings through that file's own `pagination`. */
module Page {
  import opened JsString
  import opened Json
  import opened Util
  import Metadata
  import Determiners

  // ------------------------------------------------------------------ images

  /** The `.then` of `images`: `[]` when the response has no truthy `query`, otherwise
      `_.chain(res.query.pages).pluck('imageinfo').flatten().pluck('url').value()`. */
  function Images(res: Json): (r: Result<seq<Json>>)
    ensures r.Thrown? <==> Stuck(res)
    ensures !Stuck(res) && !Truthy(Property(res, "query")) ==> r == Ok([])
  {
    var q := Prop(res, "query");
    if q.Thrown? then Thrown(q.error)
    else if !Truthy(q.value) then Ok([])
    else Ok(PluckAll(Flatten(Pluck(Property(q.value, "pages"), "imageinfo")), "url"))
  }

  /** The urls one page contributes: those of its `imageinfo` entries when that is an array
      (arrays inside it spliced in), the `url` of the value itself otherwise. */
  function ImageUrls(info: Json): seq<Json>
  {
    if info.List? then PluckAll(Flatten(info.items), "url") else [Property(info, "url")]
  }

  /** Page by page, in the order the pages are listed. */
  function UrlsOf(pages: seq<Json>): seq<Json>
  {
    if pages == [] then [] else ImageUrls(Property(pages[0], "imageinfo")) + UrlsOf(pages[1..])
  }

  /** With a `query`, the urls are those of the first page's images, then the second
      page's, and so on. */
  lemma ImagesPerPage(res: Json)
    requires Truthy(Property(res, "query"))
    ensures Images(res) == Ok(UrlsOf(Elements(Property(Property(res, "query"), "pages"))))
  {
    UrlsPluck(Elements(Property(Property(res, "query"), "pages")));
  }

  lemma {:induction false} UrlsPluck(pages: seq<Json>)
    ensures PluckAll(Flatten(PluckAll(pages, "imageinfo")), "url") == UrlsOf(pages)
    decreases |pages|
  {
    if pages != [] {
      var info := Property(pages[0], "imageinfo");
      var infos := PluckAll(pages, "imageinfo");
      assert infos == [info] + PluckAll(pages[1..], "imageinfo");
      FlattenAppend([info], PluckAll(pages[1..], "imageinfo"));
      FlattenOne(info);
      PluckAllAppend(Flatten([info]), Flatten(PluckAll(pages[1..], "imageinfo")), "url");
      UrlsPluck(pages[1..]);
    }
  }

  lemma FlattenOne(v: Json)
    ensures Flatten([v]) == if v.List? then Flatten(v.items) else [v]
  {
    assert [v][1..] == [];
  }

  lemma PluckAllAppend(xs: seq<Json>, ys: seq<Json>, key: string)
    ensures PluckAll(xs + ys, key) == PluckAll(xs, key) + PluckAll(ys, key)
  {
  }

  // ------------------------------------------------------------------ coordinates

  function CoordinatesPath(pageid: string): seq<string>
  {
    ["query", "pages", pageid, "coordinates"]
  }

  /** The `.then` of `coordinates`: `res.query.pages[pageid].coordinates[0]`, the page
      id read as the property name it becomes. */
  function Coordinates(res: Json, pageid: string): Result<Json>
  {
    var c := Path(res, CoordinatesPath(pageid));
    if c.Thrown? then Thrown(c.error) else First(c.value)
  }

  /** A page with a non-empty `coordinates` array gives its first element. */
  lemma CoordinatesFirst(res: Json, pageid: string)
    requires Reached(res, CoordinatesPath(pageid)).List?
    requires Reached(res, CoordinatesPath(pageid)).items != []
    ensures Coordinates(res, pageid) == Ok(Reached(res, CoordinatesPath(pageid)).items[0])
  {
    PathReaches(res, CoordinatesPath(pageid));
  }

  /** A response without the page throws a TypeError, as does one whose page has no
      `coordinates`. */
  lemma CoordinatesMissing(res: Json, pageid: string)
    requires Stuck(Reached(res, ["query", "pages", pageid])) ||
             Reached(res, CoordinatesPath(pageid)) == Undef
    ensures Coordinates(res, pageid) == Thrown(TypeError)
  {
    var path := CoordinatesPath(pageid);
    assert path[..3] == ["query", "pages", pageid];
    if Stuck(Reached(res, path[..3])) {
      PathStuckThrows(res, path, 3);
    } else {
      var c := Path(res, path);
      if c.Ok? {
        PathValue(res, path);
      }
    }
  }

  // ------------------------------------------------------------------ listings

  /** `_.pluck(v.k1…kn, key)`: the reads along the path may throw; the pluck itself
      never does. */
  function PluckAt(res: Json, path: seq<string>, key: string): Result<seq<Json>>
  {
    var v := Path(res, path);
    if v.Thrown? then Thrown(v.error) else Ok(Pluck(v.value, key))
  }

  /** An array at the end of the path gives the `key` of each of its elements, in order. */
  lemma PluckAtList(res: Json, path: seq<string>, key: string)
    requires Reached(res, path).List?
    ensures var r := PluckAt(res, path, key);
      && r.Ok? && |r.value| == |Reached(res, path).items|
      && forall i :: 0 <= i < |r.value| ==> r.value[i] == Property(Reached(res, path).items[i], key)
  {
    PathReaches(res, path);
  }

  /** A missing last property, on an object that is there, gives no results. */
  lemma PluckAtMissing(res: Json, path: seq<string>, last: string, key: string)
    requires !Stuck(Reached(res, path)) && Reached(res, path + [last]) == Undef
    ensures PluckAt(res, path + [last], key) == Ok([])
  {
    PathReaches(res, path);
    PathSnoc(res, path, last);
    ReachedSnoc(res, path, last);
  }

  lemma {:induction false} PathSnoc(v: Json, keys: seq<string>, last: string)
    requires Path(v, keys).Ok?
    ensures Path(v, keys + [last]) == Prop(Path(v, keys).value, last)
    decreases |keys|
  {
    if keys == [] {
      assert keys + [last] == [last];
    } else {
      assert (keys + [last])[0] == keys[0] && (keys + [last])[1..] == keys[1..] + [last];
      PathSnoc(Prop(v, keys[0]).value, keys[1..], last);
    }
  }

  lemma {:induction false} ReachedSnoc(v: Json, keys: seq<string>, last: string)
    ensures Reached(v, keys + [last]) == Property(Reached(v, keys), last)
    decreases |keys|
  {
    if keys == [] {
      assert keys + [last] == [last];
    } else {
      assert (keys + [last])[0] == keys[0] && (keys + [last])[1..] == keys[1..] + [last];
      ReachedSnoc(Property(v, keys[0]), keys[1..], last);
    }
  }

  /** The params of `links(aggregated, limit)`. */
  function LinksParams(title: Json, limit: Json): map<string, Json>
  {
    map["prop" := Text("links"), "plnamespace" := Number(0.0), "pllimit" := limit, "titles" := title]
  }

  /** The params of `categories(aggregated, limit)`: the limit goes out as `pllimit`. */
  function CategoriesParams(title: Json, limit: Json): map<string, Json>
  {
    map["prop" := Text("categories"), "pllimit" := limit, "titles" := title]
  }

  /** The params of `backlinks(aggregated, limit)`. */
  function BacklinksParams(title: Json, limit: Json): map<string, Json>
  {
    map["list" := Text("backlinks"), "bllimit" := limit, "bltitle" := title]
  }

  /** `res => _.pluck(res.query.pages[pageid].links, 'title')`. */
  function LinksParse(pageid: string): Json -> Result<seq<Json>>
  {
    res => PluckAt(res, ["query", "pages", pageid, "links"], "title")
  }

  /** `res => _.pluck(res.query.pages[pageid].categories, 'title')`. */
  function CategoriesParse(pageid: string): Json -> Result<seq<Json>>
  {
    res => PluckAt(res, ["query", "pages", pageid, "categories"], "title")
  }

  /** `res => _.pluck(res.query.backlinks, 'title')`. */
  function BacklinksParse(): Json -> Result<seq<Json>>
  {
    res => PluckAt(res, ["query", "backlinks"], "title")
  }

  /** What a listing returns: the first call's resolution (with `next` for more), or what
      following the whole chain settles to. */
  datatype Listing = Batch(first: Result<Resolution>) | All(all: Aggregated)

  /** `if (aggregated) return aggregatePagination(_pagination); return _pagination;` over
      a fresh params object and the responses the calls receive, the first one first. */
  method Listed(init: map<string, Json>, origin: Json, parse: Json -> Result<seq<Json>>,
                aggregated: Json, first: Json, later: seq<Json>)
    returns (out: Listing, ghost steps: seq<Result<Resolution>>, ghost states: seq<map<string, Json>>)
    ensures Truthy(aggregated) ==>
      && IsRun(init, [first] + later, StepWith(parse), steps, states)
      && out == All(AggregatePagination(steps, []))
    ensures !Truthy(aggregated) ==> out == Batch(Step(init, first, parse).0)
  {
    var p := new Params(init);
    if Truthy(aggregated) {
      var all;
      all, steps, states := Paginate(p, origin, [first] + later, parse);
      out := All(all);
    } else {
      var sent, r := Pagination(p, origin, first, parse);
      out := Batch(r);
      steps, states := [r], [init, p.entries];
    }
  }

  /** `links(aggregated = true, limit = 100)` of the page titled `title` with id `pageid`. */
  method Links(title: Json, pageid: string, origin: Json, first: Json, later: seq<Json>,
               aggregated: Json := Boolean(true), limit: Json := Number(100.0))
    returns (out: Listing, ghost steps: seq<Result<Resolution>>, ghost states: seq<map<string, Json>>)
    ensures Truthy(Defaulted(aggregated, Boolean(true))) ==>
      && IsRun(LinksParams(title, Defaulted(limit, Number(100.0))), [first] + later, StepWith(LinksParse(pageid)), steps, states)
      && out == All(AggregatePagination(steps, []))
    ensures !Truthy(Defaulted(aggregated, Boolean(true))) ==> out == Batch(Step(LinksParams(title, Defaulted(limit, Number(100.0))), first, LinksParse(pageid)).0)
  {
    out, steps, states := Listed(LinksParams(title, Defaulted(limit, Number(100.0))), origin, LinksParse(pageid), Defaulted(aggregated, Boolean(true)), first, later);
  }

  /** `categories(aggregated = true, limit = 100)`. */
  method Categories(title: Json, pageid: string, origin: Json, first: Json, later: seq<Json>,
                    aggregated: Json := Boolean(true), limit: Json := Number(100.0))
    returns (out: Listing, ghost steps: seq<Result<Resolution>>, ghost states: seq<map<string, Json>>)
    ensures Truthy(Defaulted(aggregated, Boolean(true))) ==>
      && IsRun(CategoriesParams(title, Defaulted(limit, Number(100.0))), [first] + later, StepWith(CategoriesParse(pageid)), steps, states)
      && out == All(AggregatePagination(steps, []))
    ensures !Truthy(Defaulted(aggregated, Boolean(true))) ==> out == Batch(Step(CategoriesParams(title, Defaulted(limit, Number(100.0))), first, CategoriesParse(pageid)).0)
  {
    out, steps, states := Listed(CategoriesParams(title, Defaulted(limit, Number(100.0))), origin, CategoriesParse(pageid), Defaulted(aggregated, Boolean(true)), first, later);
  }

  /** `backlinks(aggregated = true, limit = 100)`. */
  method Backlinks(title: Json, origin: Json, first: Json, later: seq<Json>,
                   aggregated: Json := Boolean(true), limit: Json := Number(100.0))
    returns (out: Listing, ghost steps: seq<Result<Resolution>>, ghost states: seq<map<string, Json>>)
    ensures Truthy(Defaulted(aggregated, Boolean(true))) ==>
      && IsRun(BacklinksParams(title, Defaulted(limit, Number(100.0))), [first] + later, StepWith(BacklinksParse()), steps, states)
      && out == All(AggregatePagination(steps, []))
    ensures !Truthy(Defaulted(aggregated, Boolean(true))) ==> out == Batch(Step(BacklinksParams(title, Defaulted(limit, Number(100.0))), first, BacklinksParse()).0)
  {
    out, steps, states := Listed(BacklinksParams(title, Defaulted(limit, Number(100.0))), origin, BacklinksParse(), Defaulted(aggregated, Boolean(true)), first, later);
  }

  /** The first batch of links is the titles of the page's `links`, in order; `next` is
      offered exactly when the response carries a truthy `continue`. */
  lemma FirstLinks(title: Json, limit: Json, pageid: string, res: Json)
    requires CheckResponse(res).Ok?
    requires Reached(res, ["query", "pages", pageid, "links"]).List?
    ensures var r := Step(LinksParams(title, limit), res, LinksParse(pageid)).0;
      var items := Reached(res, ["query", "pages", pageid, "links"]).items;
      && r.Ok? && |r.value.results| == |items|
      && (forall i :: 0 <= i < |items| ==> r.value.results[i] == Property(items[i], "title"))
      && (r.value.next <==> Truthy(Property(res, "continue")))
  {
    PluckAtList(res, ["query", "pages", pageid, "links"], "title");
  }

  /** A page without `links` gives an empty batch instead of failing. */
  lemma NoLinks(title: Json, limit: Json, pageid: string, res: Json)
    requires CheckResponse(res).Ok?
    requires !Stuck(Reached(res, ["query", "pages", pageid]))
    requires Reached(res, ["query", "pages", pageid, "links"]) == Undef
    ensures var r := Step(LinksParams(title, limit), res, LinksParse(pageid)).0;
      r.Ok? && r.value.results == []
  {
    assert ["query", "pages", pageid] + ["links"] == ["query", "pages", pageid, "links"];
    PluckAtMissing(res, ["query", "pages", pageid], "links", "title");
  }

  // ------------------------------------------------------------------ info

  /** What `info(key)` resolves to: the whole record, one value, or a rejection (the age
      determiner calling `match` on a `birth_date` that is no string). */
  datatype InfoResult = Whole(metadata: Metadata.Record) | Value(value: Metadata.JsValue) | InfoThrown

  /** The names `determiners` registers. */
  const DeterminerNames: set<string> := {"age"}

  /** The key resolution of `info(key)`: no key (undefined or "") gives the whole record;
      an own property wins; then a registered determiner's value when truthy; otherwise
      undefined. `now` and `birthMillis` stand for `Date.now()` and `new Date(y, m, d)`. */
  function Info(metadata: Metadata.Record, key: Option<string>, now: int,
                birthMillis: (nat, nat, nat) -> int): (r: InfoResult)
    ensures r.Whole? <==> key.None? || key.value == ""
    ensures r.Whole? ==> r.metadata == metadata
    ensures r.InfoThrown? ==> key == Some("age") && "age" !in metadata
    ensures key.Some? && key.value != "" && key.value in metadata ==> r == Value(metadata[key.value])
    ensures key.Some? && key.value != "" && key.value !in metadata && key.value !in DeterminerNames ==>
              r == Value(Metadata.Undefined)
  {
    if key.None? || key.value == "" then Whole(metadata)
    else if key.value in metadata then Value(metadata[key.value])
    else if key.value in DeterminerNames then
      match Determiners.Age(metadata, now, birthMillis)
      case AgeThrown => InfoThrown
      case Years(n) => if n != 0 then Value(Metadata.Num(n as real)) else Value(Metadata.Undefined)
      case NoAge => Value(Metadata.Undefined)
    else Value(Metadata.Undefined)
  }

  /** Asked for `age` on a record without its own `age`: undefined exactly when
      `birth_date` is falsy, holds no `d|d|d` date, or gives zero whole years (a falsy
      determiner value is reported as undefined); otherwise that number of years. */
  lemma InfoAge(metadata: Metadata.Record, now: int, birthMillis: (nat, nat, nat) -> int)
    requires "age" !in metadata
    ensures var r := Info(metadata, Some("age"), now, birthMillis);
      var b := Metadata.Get(metadata, "birth_date");
      && (r == Value(Metadata.Undefined) <==>
            !Metadata.Truthy(b) ||
            (b.Str? && forall k :: 0 <= k <= |b.s| ==> Determiners.DateAt(b.s, k).None?) ||
            Determiners.Age(metadata, now, birthMillis) == Determiners.Years(0))
      && (r.InfoThrown? <==> Metadata.Truthy(b) && !b.Str?)
      && (Determiners.Age(metadata, now, birthMillis).Years? && Determiners.Age(metadata, now, birthMillis).years != 0 ==>
            r == Value(Metadata.Num(Determiners.Age(metadata, now, birthMillis).years as real)))
  {
    Determiners.AgeUndefinedIff(metadata, now, birthMillis);
  }

  /** An own `age` property is returned as it is, without consulting the determiner. */
  lemma InfoOwnAge(metadata: Metadata.Record, now: int, birthMillis: (nat, nat, nat) -> int)
    requires "age" in metadata
    ensures Info(metadata, Some("age"), now, birthMillis) == Value(metadata["age"])
  {
  }
}
