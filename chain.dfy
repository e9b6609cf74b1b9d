/** src/chain.js: `QueryChain`, a builder that collects a set of `prop` names and a
    parameter object over several calls and then sends one combined request, whose page
    records are shaped by the `processors` of the props asked for. */
module Chain {
  import opened JsString
  import opened Json
  import opened Util

  // ------------------------------------------------------------------ processors

  /** The props that have a processor. */
  const ProcessorNames: set<string> :=
    {"extracts", "links", "extlinks", "langlinks", "coordinates", "categories", "pageimages"}

  /** A single-entry output from a read that may have thrown. */
  function Entry(key: string, v: Result<Json>): Result<seq<(string, Json)>>
  {
    if v.Thrown? then Thrown(v.error) else Ok([(key, v.value)])
  }

  /** `data[field].map(e => e[key])` as an array. */
  function Mapped(data: Json, field: string, key: string): Result<Json>
  {
    var v := Prop(data, field);
    if v.Thrown? then Thrown(v.error)
    else
      var m := MapProp(v.value, key);
      if m.Thrown? then Thrown(m.error) else Ok(List(m.value))
  }

  /** `{lang: link.lang, title: link['*'], url: link.url}`. */
  function LangLink(link: Json): Result<Json>
  {
    if Stuck(link) then Thrown(TypeError)
    else Ok(Object([("lang", Property(link, "lang")), ("title", Property(link, "*")), ("url", Property(link, "url"))]))
  }

  function LangLinks(links: seq<Json>): Result<seq<Json>>
  {
    if links == [] then Ok([])
    else
      var head := LangLink(links[0]);
      if head.Thrown? then Thrown(head.error)
      else
        var tail := LangLinks(links[1..]);
        if tail.Thrown? then tail else Ok([head.value] + tail.value)
  }

  /** `processors[prop](data)`: None for a prop without a processor, otherwise the entries
      the processor returns (or what it throws). */
  function Processor(prop: string, data: Json): (r: Option<Result<seq<(string, Json)>>>)
    ensures r.None? <==> prop !in ProcessorNames
    ensures r.Some? && r.value.Ok? ==> |r.value.value| <= 1
  {
    if prop == "extracts" then Some(Entry("extract", Prop(data, "extract")))
    else if prop == "links" then Some(Entry("links", Mapped(data, "links", "title")))
    else if prop == "extlinks" then Some(Entry("extlinks", Mapped(data, "extlinks", "*")))
    else if prop == "langlinks" then
      var v := Prop(data, "langlinks");
      Some(if v.Thrown? then Thrown(v.error)
           else if !v.value.List? then Thrown(TypeError)
           else
             var ls := LangLinks(v.value.items);
             if ls.Thrown? then Thrown(ls.error) else Ok([("langlinks", List(ls.value))]))
    else if prop == "coordinates" then
      var c := Prop(data, "coordinates");
      Some(if c.Thrown? then Thrown(c.error)
           else if Truthy(c.value) then Entry("coordinates", First(c.value))
           else Ok([]))
    else if prop == "categories" then Some(Entry("categories", Mapped(data, "categories", "title")))
    else if prop == "pageimages" then
      Some(if Stuck(data) then Thrown(TypeError)
           else Ok([("image", Object([("name", Property(data, "pageimage")),
                                       ("thumbnail", Property(data, "thumbnail")),
                                       ("original", Property(data, "original"))]))]))
    else None
  }

  /** The keys the processors write. */
  const ProcessorKeys: set<string> :=
    {"extract", "links", "extlinks", "langlinks", "coordinates", "categories", "image"}

  lemma ProcessorWrites(prop: string, data: Json)
    requires Processor(prop, data).Some? && Processor(prop, data).value.Ok?
    ensures forall i :: 0 <= i < |Processor(prop, data).value.value| ==>
              Processor(prop, data).value.value[i].0 in ProcessorKeys
  {
  }

  /** The coordinates processor: `{}` without `coordinates`, `{coordinates: first}` with a
      non-empty array of them. */
  lemma CoordinatesProcessor(data: Json)
    requires !Stuck(data)
    ensures Property(data, "coordinates") == Undef ==> Processor("coordinates", data) == Some(Ok([]))
    ensures Property(data, "coordinates").List? && Property(data, "coordinates").items != [] ==>
              Processor("coordinates", data) == Some(Ok([("coordinates", Property(data, "coordinates").items[0])]))
  {
  }

  // ------------------------------------------------------------------ Object.assign

  /** `memo[key] = value` on an object: a key already there keeps its place and takes the
      new value; a new key goes last. */
  function Put(fields: seq<(string, Json)>, key: string, value: Json): seq<(string, Json)>
  {
    if fields == [] then [(key, value)]
    else if fields[0].0 == key then [(key, value)] + fields[1..]
    else [fields[0]] + Put(fields[1..], key, value)
  }

  /** `Object.assign(memo, src)`: the entries of `src` written in order. */
  function Assign(memo: seq<(string, Json)>, src: seq<(string, Json)>): seq<(string, Json)>
    decreases |src|
  {
    if src == [] then memo else Assign(Put(memo, src[0].0, src[0].1), src[1..])
  }

  /** After `memo[key] = value`, `key` reads `value` and every other key reads as before. */
  lemma {:induction false} PutLookup(fields: seq<(string, Json)>, key: string, value: Json, other: string)
    ensures Lookup(Put(fields, key, value), key) == value
    ensures other != key ==> Lookup(Put(fields, key, value), other) == Lookup(fields, other)
    decreases |fields|
  {
    if fields != [] && fields[0].0 != key {
      PutLookup(fields[1..], key, value, other);
      assert Put(fields, key, value)[1..] == Put(fields[1..], key, value);
    } else if fields != [] {
      assert Put(fields, key, value)[1..] == fields[1..];
    }
  }

  /** Assigning entries with other keys leaves a key's value alone. */
  lemma {:induction false} AssignKeeps(memo: seq<(string, Json)>, src: seq<(string, Json)>, key: string)
    requires forall i :: 0 <= i < |src| ==> src[i].0 != key
    ensures Lookup(Assign(memo, src), key) == Lookup(memo, key)
    decreases |src|
  {
    if src != [] {
      PutLookup(memo, src[0].0, src[0].1, key);
      AssignKeeps(Put(memo, src[0].0, src[0].1), src[1..], key);
    }
  }

  // ------------------------------------------------------------------ process

  /** `props.reduce((memo, prop) => …, memo)`: each prop with a processor, in order, has
      its output assigned into `memo`; the first processor that throws ends it. */
  function Fold(props: seq<string>, memo: seq<(string, Json)>, data: Json): Result<seq<(string, Json)>>
    decreases |props|
  {
    if props == [] then Ok(memo)
    else
      match Processor(props[0], data)
      case None => Fold(props[1..], memo, data)
      case Some(out) =>
        if out.Thrown? then Thrown(out.error) else Fold(props[1..], Assign(memo, out.value), data)
  }

  /** `process(props, rawPageData)`: start from `{title}` and fold the processors in. */
  function ProcessSpec(props: seq<string>, data: Json): Result<Json>
  {
    var t := Prop(data, "title");
    if t.Thrown? then Thrown(t.error)
    else
      var f := Fold(props, [("title", t.value)], data);
      if f.Thrown? then Thrown(f.error) else Ok(Object(f.value))
  }

  /** `process` as written: a loop that assigns into `memo`. */
  method Process(props: seq<string>, data: Json) returns (r: Result<Json>)
    ensures r == ProcessSpec(props, data)
  {
    var t := Prop(data, "title");
    if t.Thrown? {
      return Thrown(t.error);
    }
    var memo := [("title", t.value)];
    var i := 0;
    while i < |props|
      invariant 0 <= i <= |props|
      invariant Fold(props, [("title", t.value)], data) == Fold(props[i..], memo, data)
    {
      assert props[i..][0] == props[i] && props[i..][1..] == props[i + 1..];
      match Processor(props[i], data) {
        case None =>
        case Some(out) =>
          if out.Thrown? {
            return Thrown(out.error);
          }
          memo := Assign(memo, out.value);
      }
      i := i + 1;
    }
    assert props[i..] == [];
    r := Ok(Object(memo));
  }

  /** Processors never touch `title`: a processed record keeps the page's title. */
  lemma ProcessKeepsTitle(props: seq<string>, data: Json)
    requires ProcessSpec(props, data).Ok?
    ensures ProcessSpec(props, data).value.Object?
    ensures Lookup(ProcessSpec(props, data).value.fields, "title") == Property(data, "title")
  {
    FoldKeeps(props, [("title", Property(data, "title"))], data, "title");
  }

  lemma {:induction false} FoldKeeps(props: seq<string>, memo: seq<(string, Json)>, data: Json, key: string)
    requires key !in ProcessorKeys
    requires Fold(props, memo, data).Ok?
    ensures Lookup(Fold(props, memo, data).value, key) == Lookup(memo, key)
    decreases |props|
  {
    if props != [] {
      match Processor(props[0], data)
      case None =>
        FoldKeeps(props[1..], memo, data, key);
      case Some(out) =>
        ProcessorWrites(props[0], data);
        AssignKeeps(memo, out.value, key);
        FoldKeeps(props[1..], Assign(memo, out.value), data, key);
    }
  }

  /** The props with a processor. */
  function Handled(props: seq<string>): (h: seq<string>)
    ensures forall p :: p in h <==> p in props && p in ProcessorNames
    ensures |h| <= |props|
  {
    if props == [] then []
    else if props[0] in ProcessorNames then [props[0]] + Handled(props[1..])
    else Handled(props[1..])
  }

  /** Handled keeps the order of the props: it filters a list piece by piece. */
  lemma {:induction false} HandledAppend(a: seq<string>, b: seq<string>)
    ensures Handled(a + b) == Handled(a) + Handled(b)
    decreases |a|
  {
    if a == [] {
      assert a + b == b;
    } else {
      assert (a + b)[0] == a[0] && (a + b)[1..] == a[1..] + b;
      HandledAppend(a[1..], b);
      if a[0] in ProcessorNames {
        assert [a[0]] + (Handled(a[1..]) + Handled(b)) == [a[0]] + Handled(a[1..]) + Handled(b);
      }
    }
  }

  /** Props without a processor are ignored: processing sees only the handled ones. */
  lemma {:induction false} FoldIgnores(props: seq<string>, memo: seq<(string, Json)>, data: Json)
    ensures Fold(props, memo, data) == Fold(Handled(props), memo, data)
    decreases |props|
  {
    if props != [] {
      var h := Handled(props);
      if props[0] in ProcessorNames {
        assert h[0] == props[0] && h[1..] == Handled(props[1..]);
        match Processor(props[0], data)
        case Some(out) =>
          if out.Ok? {
            FoldIgnores(props[1..], Assign(memo, out.value), data);
          }
      } else {
        FoldIgnores(props[1..], memo, data);
      }
    }
  }

  /** `data.map(e => process(props, e))`. */
  function ProcessAll(props: seq<string>, items: seq<Json>): Result<seq<Json>>
  {
    if items == [] then Ok([])
    else
      var head := ProcessSpec(props, items[0]);
      if head.Thrown? then Thrown(head.error)
      else
        var tail := ProcessAll(props, items[1..]);
        if tail.Thrown? then tail else Ok([head.value] + tail.value)
  }

  /** When every record processes, the records come out processed one by one, in order. */
  lemma {:induction false} ProcessAllEach(props: seq<string>, items: seq<Json>)
    requires forall i :: 0 <= i < |items| ==> ProcessSpec(props, items[i]).Ok?
    ensures var r := ProcessAll(props, items);
      && r.Ok? && |r.value| == |items|
      && forall i :: 0 <= i < |items| ==> r.value[i] == ProcessSpec(props, items[i]).value
    decreases |items|
  {
    if items != [] {
      assert forall i :: 0 <= i < |items[1..]| ==> items[1..][i] == items[i + 1];
      ProcessAllEach(props, items[1..]);
    }
  }

  // ------------------------------------------------------------------ the chain

  /** `chain(undefined, …)` is written with the empty prop name (both are falsy). */
  class QueryChain {
    /** The page id the chain was created for, spelled as the property name it becomes;
        "" when it was created without one. */
    var id: string
    var params: map<string, Json>
    /** The prop set, in insertion order. */
    var props: seq<string>

    ghost predicate Valid()
      reads this
    {
      && (forall i :: 0 <= i < |props| ==> props[i] != "")
      && (forall i, j :: 0 <= i < j < |props| ==> props[i] != props[j])
    }

    /** `new QueryChain(apiOptions, id)`. */
    constructor (id: string)
      ensures Valid()
      ensures this.id == id
      ensures params == map["pageids" := if id == "" then Undef else Text(id)]
      ensures props == []
    {
      this.id := id;
      params := map["pageids" := if id == "" then Undef else Text(id)];
      props := [];
    }

    /** `params()`: a fresh object, the collected params with `prop` set to the props
        joined by `|`; the chain itself is not changed. */
    function Params(): (m: map<string, Json>)
      reads this
      ensures m.Keys == params.Keys + {"prop"}
      ensures m["prop"] == Text(Join(props, "|"))
      ensures forall k :: k in params && k != "prop" ==> m[k] == params[k]
    {
      params["prop" := Text(Join(props, "|"))]
    }

    /** `chain(prop, params)`: a truthy prop joins the set once, at the end; the params
        are merged in, later values winning; the same chain is returned. */
    method Chain(prop: string, extra: map<string, Json>) returns (c: QueryChain)
      requires Valid()
      modifies this
      ensures Valid() && c == this && id == old(id)
      ensures props == if prop != "" && prop !in old(props) then old(props) + [prop] else old(props)
      ensures params == old(params) + extra
    {
      if prop != "" && prop !in props {
        props := props + [prop];
      }
      params := params + extra;
      c := this;
    }

    /** `content()`. */
    method Content() returns (c: QueryChain)
      requires Valid()
      modifies this
      ensures Valid() && c == this && id == old(id)
      ensures props == if "extracts" in old(props) then old(props) else old(props) + ["extracts"]
      ensures params == old(params)["explaintext" := Text("1")]
    {
      c := Chain("extracts", map["explaintext" := Text("1")]);
    }

    /** `summary()`: like `content()`, with `exintro` as well. */
    method Summary() returns (c: QueryChain)
      requires Valid()
      modifies this
      ensures Valid() && c == this && id == old(id)
      ensures props == if "extracts" in old(props) then old(props) else old(props) + ["extracts"]
      ensures params == old(params)["explaintext" := Text("1")]["exintro" := Text("1")]
    {
      c := Chain("extracts", map["explaintext" := Text("1"), "exintro" := Text("1")]);
    }

    /** `image(types = {thumbnail: true, original: false, name: true})`. */
    method Image(types: seq<(string, Json)> := DefaultImageTypes()) returns (c: QueryChain)
      requires Valid()
      modifies this
      ensures Valid() && c == this && id == old(id)
      ensures props == if "pageimages" in old(props) then old(props) else old(props) + ["pageimages"]
      ensures params == old(params)["piprop" := Text(Join(TruthyKeys(types), "|"))]
    {
      c := Chain("pageimages", map["piprop" := Text(Join(TruthyKeys(types), "|"))]);
    }

    /** `extlinks()`. */
    method Extlinks() returns (c: QueryChain)
      requires Valid()
      modifies this
      ensures Valid() && c == this && id == old(id)
      ensures props == if "extlinks" in old(props) then old(props) else old(props) + ["extlinks"]
      ensures params == old(params)["ellimit" := Text("max")]
    {
      c := Chain("extlinks", map["ellimit" := Text("max")]);
    }

    /** `links(limit = 100)`. */
    method Links(limit: Json := Number(100.0)) returns (c: QueryChain)
      requires Valid()
      modifies this
      ensures Valid() && c == this && id == old(id)
      ensures props == if "links" in old(props) then old(props) else old(props) + ["links"]
      ensures params == old(params)["plnamespace" := Number(0.0)]["pllimit" := Defaulted(limit, Number(100.0))]
    {
      c := Chain("links", map["plnamespace" := Number(0.0), "pllimit" := Defaulted(limit, Number(100.0))]);
    }

    /** `categories(limit = 100)`: the limit goes out as `pllimit`. */
    method Categories(limit: Json := Number(100.0)) returns (c: QueryChain)
      requires Valid()
      modifies this
      ensures Valid() && c == this && id == old(id)
      ensures props == if "categories" in old(props) then old(props) else old(props) + ["categories"]
      ensures params == old(params)["pllimit" := Defaulted(limit, Number(100.0))]
    {
      c := Chain("categories", map["pllimit" := Defaulted(limit, Number(100.0))]);
    }

    /** `coordinates()`. */
    method Coordinates() returns (c: QueryChain)
      requires Valid()
      modifies this
      ensures Valid() && c == this && id == old(id)
      ensures props == if "coordinates" in old(props) then old(props) else old(props) + ["coordinates"]
      ensures params == old(params)
    {
      c := Chain("coordinates", map[]);
    }

    /** `langlinks()`. */
    method Langlinks() returns (c: QueryChain)
      requires Valid()
      modifies this
      ensures Valid() && c == this && id == old(id)
      ensures props == if "langlinks" in old(props) then old(props) else old(props) + ["langlinks"]
      ensures params == old(params)["lllimit" := Text("max")]["llprop" := Text("url")]
    {
      c := Chain("langlinks", map["lllimit" := Text("max"), "llprop" := Text("url")]);
    }

    /** `search(query, limit = 50)`: params only, no prop. */
    method Search(query: Json, limit: Json := Number(50.0)) returns (c: QueryChain)
      requires Valid()
      modifies this
      ensures Valid() && c == this && id == old(id) && props == old(props)
      ensures params == old(params)["list" := Text("search")]["srsearch" := query]["srlimit" := Defaulted(limit, Number(50.0))]
    {
      c := Chain("", map["list" := Text("search"), "srsearch" := query, "srlimit" := Defaulted(limit, Number(50.0))]);
    }

    /** `geosearch(latitude, longitude, radius)`, the coordinates given as the text they
        print as. */
    method Geosearch(latitude: string, longitude: string, radius: Json) returns (c: QueryChain)
      requires Valid()
      modifies this
      ensures Valid() && c == this && id == old(id) && props == old(props)
      ensures params == old(params)["generator" := Text("geosearch")]["ggsradius" := radius]
                                   ["ggscoord" := Text(latitude + "|" + longitude)]
    {
      c := Chain("", map["generator" := Text("geosearch"), "ggsradius" := radius,
                         "ggscoord" := Text(latitude + "|" + longitude)]);
    }

    /** `request()` receiving `res`: the query it sends, and the processed record of the
        chain's page (every record when the chain has no id). */
    method Request(origin: Json, res: Json) returns (sent: map<string, Json>, out: Result<Json>)
      ensures sent == QueryMap(origin, Params())
      ensures out == RequestSpec(props, id, res)
    {
      var ps := props;
      sent := BuildQuery(origin, Params());
      var checked := CheckResponse(res);
      if checked.Thrown? {
        return sent, Thrown(checked.error);
      }
      var data: Json;
      if id != "" {
        var page := Path(res, ["query", "pages", id]);
        if page.Thrown? {
          return sent, Thrown(page.error);
        }
        data := page.value;
      } else {
        var pages := Path(res, ["query", "pages"]);
        if pages.Thrown? {
          return sent, Thrown(pages.error);
        }
        var values := Values(pages.value);
        if values.Thrown? {
          return sent, Thrown(values.error);
        }
        data := List(values.value);
      }
      if data.List? {
        var all := ProcessEach(ps, data.items);
        out := if all.Thrown? then Thrown(all.error) else Ok(List(all.value));
      } else {
        out := Process(ps, data);
      }
    }
  }

  /** `image()`'s default `types`. */
  function DefaultImageTypes(): seq<(string, Json)>
  {
    [("thumbnail", Boolean(true)), ("original", Boolean(false)), ("name", Boolean(true))]
  }

  /** `Object.keys(types).filter(k => types[k])`. */
  function TruthyKeys(types: seq<(string, Json)>): (keys: seq<string>)
    ensures forall k :: k in keys <==> exists i :: 0 <= i < |types| && types[i].0 == k && Truthy(types[i].1)
    ensures |keys| <= |types|
  {
    if types == [] then []
    else if Truthy(types[0].1) then [types[0].0] + TruthyKeys(types[1..])
    else TruthyKeys(types[1..])
  }

  /** TruthyKeys keeps the order of the entries: it filters a list piece by piece. */
  lemma {:induction false} TruthyKeysAppend(a: seq<(string, Json)>, b: seq<(string, Json)>)
    ensures TruthyKeys(a + b) == TruthyKeys(a) + TruthyKeys(b)
    decreases |a|
  {
    if a == [] {
      assert a + b == b;
    } else {
      assert (a + b)[0] == a[0] && (a + b)[1..] == a[1..] + b;
      TruthyKeysAppend(a[1..], b);
      if Truthy(a[0].1) {
        assert [a[0].0] + (TruthyKeys(a[1..]) + TruthyKeys(b)) == [a[0].0] + TruthyKeys(a[1..]) + TruthyKeys(b);
      }
    }
  }

  /** The default asks for the thumbnail and the name. */
  lemma DefaultPiprop()
    ensures Join(TruthyKeys(DefaultImageTypes()), "|") == "thumbnail|name"
  {
    var t := DefaultImageTypes();
    assert TruthyKeys(t[2..]) == ["name"];
    assert TruthyKeys(t[1..]) == ["name"];
    assert TruthyKeys(t) == ["thumbnail", "name"];
  }

  /** The `prop` sent lists the props back: split on `|` it gives them in order (when
      there is one and no name holds a `|`), each named once and none empty, since the
      props are kept in a `Set` of truthy names. */
  lemma PropListsProps(c: QueryChain)
    requires c.Valid()
    requires c.props != [] && forall k :: 0 <= k < |c.props| ==> !Contains(c.props[k], "|")
    ensures Split(c.Params()["prop"].s, "|") == c.props
    ensures var names := Split(c.Params()["prop"].s, "|");
      forall i, j :: 0 <= i < |names| && 0 <= j < |names| ==> (names[i] == names[j] <==> i == j) && names[i] != ""
  {
    SplitJoinChar(c.props, '|');
  }

  /** What `request()` resolves to for the props and id of the chain. */
  function RequestSpec(props: seq<string>, id: string, res: Json): Result<Json>
  {
    var checked := CheckResponse(res);
    if checked.Thrown? then Thrown(checked.error)
    else
      var data :=
        if id != "" then Path(res, ["query", "pages", id])
        else
          var pages := Path(res, ["query", "pages"]);
          if pages.Thrown? then pages
          else
            var values := Values(pages.value);
            if values.Thrown? then Thrown(values.error) else Ok(List(values.value));
      if data.Thrown? then Thrown(data.error)
      else if data.value.List? then
        var all := ProcessAll(props, data.value.items);
        if all.Thrown? then Thrown(all.error) else Ok(List(all.value))
      else ProcessSpec(props, data.value)
  }

  /** `data.map(e => process(props, e))` as a loop. */
  method ProcessEach(props: seq<string>, items: seq<Json>) returns (r: Result<seq<Json>>)
    ensures r == ProcessAll(props, items)
  {
    var done: seq<Json> := [];
    var i := 0;
    assert items[0..] == items;
    var whole := ProcessAll(props, items);
    assert whole.Ok? ==> [] + whole.value == whole.value;
    while i < |items|
      invariant 0 <= i <= |items|
      invariant ProcessAll(props, items) == After(done, ProcessAll(props, items[i..]))
    {
      assert items[i..][0] == items[i] && items[i..][1..] == items[i + 1..];
      var one := Process(props, items[i]);
      if one.Thrown? {
        return Thrown(one.error);
      }
      var rest := ProcessAll(props, items[i + 1..]);
      if rest.Ok? {
        assert done + ([one.value] + rest.value) == (done + [one.value]) + rest.value;
      }
      done := done + [one.value];
      i := i + 1;
    }
    assert items[i..] == [];
    assert done + [] == done;
    r := Ok(done);
  }

  /** The results before position `i` followed by those from `i` on. */
  function After(done: seq<Json>, rest: Result<seq<Json>>): Result<seq<Json>>
  {
    if rest.Thrown? then rest else Ok(done + rest.value)
  }

  /** A chain made for a page gets that page's record, processed. */
  lemma RequestOnePage(props: seq<string>, id: string, res: Json)
    requires id != "" && CheckResponse(res).Ok?
    requires Reached(res, ["query", "pages", id]).Object?
    ensures RequestSpec(props, id, res) == ProcessSpec(props, Reached(res, ["query", "pages", id]))
  {
    PathReaches(res, ["query", "pages", id]);
  }

  /** A chain made without a page gets every returned page, processed, in order. */
  lemma RequestAllPages(props: seq<string>, res: Json)
    requires CheckResponse(res).Ok?
    requires Reached(res, ["query", "pages"]).Object?
    requires var fields := Reached(res, ["query", "pages"]).fields;
      forall i :: 0 <= i < |fields| ==> ProcessSpec(props, fields[i].1).Ok?
    ensures var r := RequestSpec(props, "", res);
      var fields := Reached(res, ["query", "pages"]).fields;
      && r.Ok? && r.value.List? && |r.value.items| == |fields|
      && forall i :: 0 <= i < |fields| ==> r.value.items[i] == ProcessSpec(props, fields[i].1).value
  {
    var pages := Reached(res, ["query", "pages"]);
    PathReaches(res, ["query", "pages"]);
    var values := Values(pages).value;
    assert forall i :: 0 <= i < |values| ==> values[i] == pages.fields[i].1;
    ProcessAllEach(props, values);
  }
}
