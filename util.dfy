/** The request side of src/util.js: the query map `api` sends, its error check, the
    continuation-following of `pagination` and `aggregate`, and `aggregatePagination`.
    Each HTTP response is an input value; a chain of promises is a loop over a finite list
    of responses, the n-th call receiving the n-th response. */
module Util {
  import opened JsString
  import opened Json

  /** The `params` object a pagination or aggregate chain shares between its calls: every
      call reads it and writes the next continuation token into it. */
  class Params {
    var entries: map<string, Json>

    constructor (init: map<string, Json>)
      ensures entries == init
    {
      entries := init;
    }
  }

  // ------------------------------------------------------------------ api

  /** The query `api` starts from before the caller's params are merged in. */
  function Defaults(): map<string, Json>
  {
    map["format" := Text("json"), "action" := Text("query"), "redirects" := Text("")]
  }

  /** The query map `api` sends: the defaults overridden by the caller's params, without
      the keys whose value is undefined, plus `origin` when the client's option is truthy. */
  function QueryMap(origin: Json, params: map<string, Json>): map<string, Json>
  {
    var kept := Defined(Defaults() + params);
    if Truthy(origin) then kept["origin" := origin] else kept
  }

  /** The entries whose value is not undefined. */
  function Defined(m: map<string, Json>): map<string, Json>
  {
    map k | k in m && m[k] != Undef :: m[k]
  }

  /** `api`'s own work before the request goes out: copy, delete undefined keys, add origin. */
  method BuildQuery(origin: Json, params: map<string, Json>) returns (qs: map<string, Json>)
    ensures qs == QueryMap(origin, params)
  {
    qs := DropUndefined(Defaults() + params);
    if Truthy(origin) {
      qs := qs["origin" := origin];
    }
  }

  /** `Object.keys(qs).forEach(key => { if (qs[key] === undefined) delete qs[key]; })`. */
  method DropUndefined(m: map<string, Json>) returns (qs: map<string, Json>)
    ensures qs == Defined(m)
  {
    qs := m;
    var keys := m.Keys;
    while keys != {}
      invariant keys <= m.Keys
      invariant forall k :: k in qs <==> k in m && (k in keys || m[k] != Undef)
      invariant forall k :: k in qs ==> qs[k] == m[k]
      decreases |keys|
    {
      var k :| k in keys;
      if qs[k] == Undef {
        qs := qs - {k};
      }
      keys := keys - {k};
    }
    assert qs == Defined(m);
  }

  /** What ends up in the query, key by key: `origin` when the option is truthy; otherwise a
      caller's key unless its value is undefined; otherwise one of the three defaults. */
  lemma QueryMapKeys(origin: Json, params: map<string, Json>, k: string)
    ensures var qs := QueryMap(origin, params);
      if k == "origin" && Truthy(origin) then k in qs && qs[k] == origin
      else if k in params then (k in qs <==> params[k] != Undef) && (k in qs ==> qs[k] == params[k])
      else (k in qs <==> k in Defaults()) && (k in qs ==> qs[k] == Defaults()[k])
  {
  }

  /** No value in the query is undefined. */
  lemma QueryMapDefined(origin: Json, params: map<string, Json>)
    ensures forall k :: k in QueryMap(origin, params) ==> QueryMap(origin, params)[k] != Undef
  {
  }

  /** The error check after `res.json()`: a response carrying a truthy `error` throws
      `Error(res.error.info)`; undefined and null responses throw a TypeError on the read;
      any other response is passed on unchanged. */
  function CheckResponse(res: Json): Result<Json>
  {
    var e := Prop(res, "error");
    if e.Thrown? then Thrown(e.error)
    else if Truthy(e.value) then
      Thrown(ApiError(Prop(e.value, "info").value))
    else Ok(res)
  }

  /** A response passes the check exactly when it is an object-like value without a truthy
      `error`, and then unchanged; a truthy `error` throws its `info`. */
  lemma CheckResponseMeaning(res: Json)
    ensures var r := CheckResponse(res);
      && (r.Ok? <==> !res.Undef? && !res.Nil? && !Truthy(Property(res, "error")))
      && (r.Ok? ==> r.value == res)
      && (Truthy(Property(res, "error")) ==> r == Thrown(ApiError(Property(Property(res, "error"), "info"))))
  {
  }

  // ------------------------------------------------------------------ pagination

  /** What a `pagination` promise resolves to: the parsed results, the search query and
      whether a `next` function is present. */
  datatype Resolution = Resolution(results: seq<Json>, query: Json, next: bool)

  /** `Object.keys(res.continue).filter(key => key !== 'continue')[0]`, with the lookup of
      an empty filter result (undefined) written as the property name it becomes, "undefined". */
  function ContinueType(cont: Json): string
  {
    FirstOther(if cont.Object? then Keys(cont.fields) else [])
  }

  function FirstOther(keys: seq<string>): (k: string)
    ensures k == "undefined" || (k != "continue" && k in keys)
    ensures (forall i :: 0 <= i < |keys| ==> keys[i] == "continue") ==> k == "undefined"
  {
    if keys == [] then "undefined"
    else if keys[0] != "continue" then keys[0]
    else FirstOther(keys[1..])
  }

  /** The key chosen is the first one other than `continue`. */
  lemma {:induction false} FirstOtherIsFirst(keys: seq<string>, i: nat)
    requires i < |keys| && keys[i] != "continue"
    requires forall j :: 0 <= j < i ==> keys[j] == "continue"
    ensures FirstOther(keys) == keys[i]
  {
    if i > 0 {
      FirstOtherIsFirst(keys[1..], i - 1);
    }
  }

  /** One `pagination` call on the params it finds and the response it receives: the
      resolution (or what it throws) and the params it leaves behind. */
  function Step(entries: map<string, Json>, res: Json, parse: Json -> Result<seq<Json>>)
    : (Result<Resolution>, map<string, Json>)
  {
    var checked := CheckResponse(res);
    if checked.Thrown? then (Thrown(checked.error), entries)
    else
      var results := parse(res);
      if results.Thrown? then (Thrown(results.error), entries)
      else
        var query := Get(entries, "srsearch");
        var cont := Property(res, "continue");
        if Truthy(cont) then
          var t := ContinueType(cont);
          (Ok(Resolution(results.value, query, true)), entries[t := Property(cont, t)])
        else
          (Ok(Resolution(results.value, query, false)), entries)
  }

  /** `pagination(apiOptions, params, parseResults)` receiving `res`: the query it sends,
      and the step it takes on the shared params. */
  method Pagination(p: Params, origin: Json, res: Json, parse: Json -> Result<seq<Json>>)
    returns (sent: map<string, Json>, r: Result<Resolution>)
    modifies p
    ensures sent == QueryMap(origin, old(p.entries))
    ensures (r, p.entries) == Step(old(p.entries), res, parse)
  {
    sent := BuildQuery(origin, p.entries);
    var checked := CheckResponse(res);
    if checked.Thrown? {
      return sent, Thrown(checked.error);
    }
    var results := parse(res);
    if results.Thrown? {
      return sent, Thrown(results.error);
    }
    var resolution := Resolution(results.value, Get(p.entries, "srsearch"), false);
    var cont := Property(res, "continue");
    if Truthy(cont) {
      var t := ContinueType(cont);
      p.entries := p.entries[t := Property(cont, t)];
      resolution := resolution.(next := true);
    }
    r := Ok(resolution);
  }

  /** A call resolves to the parsed results and the search query it found; `next` is
      offered exactly when the response carries a truthy `continue`, and then, and only
      then, the continuation token is written under the first key other than `continue`. */
  lemma StepResolves(entries: map<string, Json>, res: Json, parse: Json -> Result<seq<Json>>)
    requires CheckResponse(res).Ok? && parse(res).Ok?
    ensures var (r, after) := Step(entries, res, parse);
      var cont := Property(res, "continue");
      && r.Ok?
      && r.value.results == parse(res).value
      && r.value.query == Get(entries, "srsearch")
      && (r.value.next <==> Truthy(cont))
      && (r.value.next ==> after == entries[ContinueType(cont) := Property(cont, ContinueType(cont))])
      && (!r.value.next ==> after == entries)
  {
  }

  /** A call that throws leaves the params as they were. */
  lemma StepThrows(entries: map<string, Json>, res: Json, parse: Json -> Result<seq<Json>>)
    requires CheckResponse(res).Thrown? || parse(res).Thrown?
    ensures Step(entries, res, parse).0.Thrown? && Step(entries, res, parse).1 == entries
    ensures CheckResponse(res).Thrown? ==> Step(entries, res, parse).0.error == CheckResponse(res).error
  {
  }

  /** One call of a pagination function: from the params it finds and the response it
      receives to its resolution (or what it throws) and the params it leaves behind. */
  type Stepper = (map<string, Json>, Json) -> (Result<Resolution>, map<string, Json>)

  /** The calls of this file's `pagination` with `parseResults`. */
  function StepWith(parse: Json -> Result<seq<Json>>): Stepper
  {
    (entries, res) => Step(entries, res, parse)
  }

  /** `steps` are the calls of a chain a consumer drives by calling `next` as long as it
      is offered, over `responses`, starting on the params `start`: the k-th call finds the
      params the call before it left (`states[k]`) and receives the k-th response; every call
      but the last offered `next`; the chain stops at a call that throws or offers no `next`,
      or when the responses run out. */
  ghost predicate IsRun(start: map<string, Json>, responses: seq<Json>, step: Stepper,
                        steps: seq<Result<Resolution>>, states: seq<map<string, Json>>)
  {
    && states != [] && states[0] == start
    && Linked(states, steps, responses, step)
    && (forall k :: 0 <= k < |steps| - 1 ==> steps[k].Ok? && steps[k].value.next)
    && (|steps| < |responses| ==> steps != [] && (steps[|steps| - 1].Thrown? || !steps[|steps| - 1].value.next))
  }

  /** Each call of `steps` found the params in `states` the call before it left and
      received the response at its own position. */
  ghost predicate Linked(states: seq<map<string, Json>>, steps: seq<Result<Resolution>>, responses: seq<Json>,
                         step: Stepper)
  {
    && |states| == |steps| + 1
    && |steps| <= |responses|
    && (forall k :: 0 <= k < |steps| ==> (steps[k], states[k + 1]) == step(states[k], responses[k]))
  }

  /** Every call so far offered `next`. */
  predicate Open(steps: seq<Result<Resolution>>)
  {
    forall k :: 0 <= k < |steps| ==> steps[k].Ok? && steps[k].value.next
  }

  lemma LinkedSnoc(states: seq<map<string, Json>>, steps: seq<Result<Resolution>>, responses: seq<Json>,
                   step: Stepper, r: Result<Resolution>, after: map<string, Json>)
    requires Linked(states, steps, responses, step) && |steps| < |responses|
    requires (r, after) == step(states[|steps|], responses[|steps|])
    ensures Linked(states + [after], steps + [r], responses, step)
  {
    var states', steps' := states + [after], steps + [r];
    forall k | 0 <= k < |steps'|
      ensures (steps'[k], states'[k + 1]) == step(states'[k], responses[k])
    {
      if k < |steps| {
        assert steps'[k] == steps[k] && states'[k + 1] == states[k + 1] && states'[k] == states[k];
      }
    }
  }

  lemma OpenSnoc(steps: seq<Result<Resolution>>, r: Result<Resolution>)
    requires Open(steps) && r.Ok? && r.value.next
    ensures Open(steps + [r])
  {
    assert forall k :: 0 <= k < |steps| ==> (steps + [r])[k] == steps[k];
  }

  /** A run that stops at a call throwing or offering no `next`. */
  lemma RunStops(start: map<string, Json>, responses: seq<Json>, step: Stepper,
                 steps: seq<Result<Resolution>>, states: seq<map<string, Json>>)
    requires states != [] && states[0] == start && Linked(states, steps, responses, step)
    requires steps != [] && Open(steps[..|steps| - 1])
    requires steps[|steps| - 1].Thrown? || !steps[|steps| - 1].value.next
    ensures IsRun(start, responses, step, steps, states)
  {
    assert forall k :: 0 <= k < |steps| - 1 ==> steps[..|steps| - 1][k] == steps[k];
  }

  /** A run that used up the responses while `next` was still offered. */
  lemma RunOut(start: map<string, Json>, responses: seq<Json>, step: Stepper,
               steps: seq<Result<Resolution>>, states: seq<map<string, Json>>)
    requires states != [] && states[0] == start && Linked(states, steps, responses, step)
    requires |steps| == |responses| && Open(steps)
    ensures IsRun(start, responses, step, steps, states)
  {
  }

  // ------------------------------------------------------------------ aggregatePagination

  /** Where following a chain ends: all results, the error that rejected the chain, or the
      results gathered when the responses given ran out while `next` was still offered. */
  datatype Aggregated = Done(results: seq<Json>) | Failed(error: Error) | Unfinished(results: seq<Json>)

  /** `aggregatePagination(pagination, previousResults)` over the resolutions the chain's
      promises settle to, in fetch order. */
  function AggregatePagination(steps: seq<Result<Resolution>>, previous: seq<Json>): Aggregated
    decreases |steps|
  {
    if steps == [] then Unfinished(previous)
    else if steps[0].Thrown? then Failed(steps[0].error)
    else
      var results := previous + steps[0].value.results;
      if steps[0].value.next then AggregatePagination(steps[1..], results)
      else Done(results)
  }

  /** A chain in which every resolution but the last offers `next` and the last does not. */
  predicate Complete(steps: seq<Result<Resolution>>)
  {
    && steps != []
    && (forall k :: 0 <= k < |steps| ==> steps[k].Ok?)
    && (forall k :: 0 <= k < |steps| - 1 ==> steps[k].value.next)
    && !steps[|steps| - 1].value.next
  }

  /** The results of all resolutions, in order (a call that threw contributes none). */
  function Concat(steps: seq<Result<Resolution>>): seq<Json>
  {
    if steps == [] then [] else ResultsOf(steps[0]) + Concat(steps[1..])
  }

  function ResultsOf(step: Result<Resolution>): seq<Json>
  {
    if step.Ok? then step.value.results else []
  }

  /** A complete chain aggregates to the previous results followed by every batch's
      results, in fetch order. */
  lemma {:induction false} AggregateConcat(steps: seq<Result<Resolution>>, previous: seq<Json>)
    requires Complete(steps)
    ensures AggregatePagination(steps, previous) == Done(previous + Concat(steps))
    decreases |steps|
  {
    if |steps| == 1 {
      AggregateSingle(steps, previous);
    } else {
      CompleteTail(steps);
      AggregateConcat(steps[1..], previous + steps[0].value.results);
      AggregateCons(steps, previous);
      ConcatCons(steps, previous);
    }
  }

  lemma AggregateSingle(steps: seq<Result<Resolution>>, previous: seq<Json>)
    requires |steps| == 1 && Complete(steps)
    ensures AggregatePagination(steps, previous) == Done(previous + Concat(steps))
  {
    assert steps[1..] == [];
  }

  lemma CompleteTail(steps: seq<Result<Resolution>>)
    requires |steps| > 1 && Complete(steps)
    ensures Complete(steps[1..])
  {
  }

  /** One call that offers `next`: aggregation goes on with its results appended. */
  lemma AggregateCons(steps: seq<Result<Resolution>>, previous: seq<Json>)
    requires steps != [] && steps[0].Ok? && steps[0].value.next
    ensures AggregatePagination(steps, previous) == AggregatePagination(steps[1..], previous + steps[0].value.results)
  {
  }

  lemma ConcatCons(steps: seq<Result<Resolution>>, previous: seq<Json>)
    requires steps != [] && steps[0].Ok?
    ensures previous + steps[0].value.results + Concat(steps[1..]) == previous + Concat(steps)
  {
  }

  /** Aggregation stops at the first batch without `next`: what follows it is never read. */
  lemma {:induction false} AggregateStops(steps: seq<Result<Resolution>>, rest: seq<Result<Resolution>>, previous: seq<Json>)
    requires Complete(steps)
    ensures AggregatePagination(steps + rest, previous) == AggregatePagination(steps, previous)
    decreases |steps|
  {
    assert (steps + rest)[0] == steps[0];
    if |steps| > 1 {
      assert Complete(steps[1..]);
      assert (steps + rest)[1..] == steps[1..] + rest;
      AggregateStops(steps[1..], rest, previous + steps[0].value.results);
    }
  }

  /** A chain whose first `k` resolutions offer `next` aggregates as the rest does after
      their results. */
  lemma {:induction false} AggregatePrefix(steps: seq<Result<Resolution>>, k: nat, previous: seq<Json>)
    requires k <= |steps|
    requires forall j :: 0 <= j < k ==> steps[j].Ok? && steps[j].value.next
    ensures AggregatePagination(steps, previous) == AggregatePagination(steps[k..], previous + Concat(steps[..k]))
    decreases k
  {
    if k == 0 {
      assert steps[..0] == [] && steps[0..] == steps;
      assert previous + Concat(steps[..0]) == previous;
    } else {
      assert steps[1..][k - 1..] == steps[k..];
      assert steps[..k][1..] == steps[1..][..k - 1];
      assert steps[..k][0] == steps[0];
      assert Concat(steps[..k]) == steps[0].value.results + Concat(steps[1..][..k - 1]);
      assert AggregatePagination(steps, previous) == AggregatePagination(steps[1..], previous + steps[0].value.results);
      AggregatePrefix(steps[1..], k - 1, previous + steps[0].value.results);
      assert previous + steps[0].value.results + Concat(steps[1..][..k - 1]) == previous + Concat(steps[..k]);
    }
  }

  /** A chain rejected by its first failing call reports that call's error. */
  lemma AggregateFails(steps: seq<Result<Resolution>>, k: nat, previous: seq<Json>)
    requires k < |steps| && steps[k].Thrown?
    requires forall j :: 0 <= j < k ==> steps[j].Ok? && steps[j].value.next
    ensures AggregatePagination(steps, previous) == Failed(steps[k].error)
  {
    AggregatePrefix(steps, k, previous);
  }

  /** Following a chain to its end: `aggregatePagination(pagination(apiOptions, params,
      parseResults))`, one response per call. */
  method Paginate(p: Params, origin: Json, responses: seq<Json>, parse: Json -> Result<seq<Json>>)
    returns (out: Aggregated, ghost steps: seq<Result<Resolution>>, ghost states: seq<map<string, Json>>)
    modifies p
    ensures IsRun(old(p.entries), responses, StepWith(parse), steps, states)
    ensures p.entries == states[|steps|]
    ensures out == AggregatePagination(steps, [])
  {
    var results: seq<Json> := [];
    steps, states := [], [p.entries];
    var i := 0;
    while true
      invariant i == |steps| <= |responses|
      invariant states != [] && states[0] == old(p.entries) && Linked(states, steps, responses, StepWith(parse))
      invariant states[i] == p.entries
      invariant Open(steps)
      invariant results == Concat(steps)
      decreases |responses| - i
    {
      if i == |responses| {
        RunOut(old(p.entries), responses, StepWith(parse), steps, states);
        AggregateOpen(steps, []);
        out := Unfinished(results);
        return;
      }
      var sent, r := Pagination(p, origin, responses[i], parse);
      if r.Thrown? || !r.value.next {
        CloseRun(old(p.entries), responses, StepWith(parse), steps, states, r, p.entries);
        steps, states := steps + [r], states + [p.entries];
        out := if r.Thrown? then Failed(r.error) else Done(results + r.value.results);
        return;
      }
      ExtendRun(old(p.entries), responses, StepWith(parse), steps, states, r, p.entries);
      results := results + r.value.results;
      steps, states := steps + [r], states + [p.entries];
      i := i + 1;
    }
  }

  /** A call that throws or offers no `next` closes the run, and aggregation ends there. */
  lemma CloseRun(start: map<string, Json>, responses: seq<Json>, step: Stepper,
                 steps: seq<Result<Resolution>>, states: seq<map<string, Json>>,
                 r: Result<Resolution>, after: map<string, Json>)
    requires states != [] && states[0] == start && Linked(states, steps, responses, step)
    requires |steps| < |responses| && (r, after) == step(states[|steps|], responses[|steps|])
    requires Open(steps) && (r.Thrown? || !r.value.next)
    ensures IsRun(start, responses, step, steps + [r], states + [after])
    ensures AggregatePagination(steps + [r], []) ==
            if r.Thrown? then Failed(r.error) else Done(Concat(steps) + r.value.results)
  {
    LinkedSnoc(states, steps, responses, step, r, after);
    AggregateLast(steps, r, []);
    assert [] + Concat(steps) == Concat(steps);
    assert (steps + [r])[..|steps|] == steps;
    RunStops(start, responses, step, steps + [r], states + [after]);
  }

  /** A call that offers `next` extends the run, which stays open. */
  lemma ExtendRun(start: map<string, Json>, responses: seq<Json>, step: Stepper,
                  steps: seq<Result<Resolution>>, states: seq<map<string, Json>>,
                  r: Result<Resolution>, after: map<string, Json>)
    requires states != [] && states[0] == start && Linked(states, steps, responses, step)
    requires |steps| < |responses| && (r, after) == step(states[|steps|], responses[|steps|])
    requires Open(steps) && r.Ok? && r.value.next
    ensures Linked(states + [after], steps + [r], responses, step)
    ensures Open(steps + [r])
    ensures Concat(steps + [r]) == Concat(steps) + r.value.results
  {
    LinkedSnoc(states, steps, responses, step, r, after);
    OpenSnoc(steps, r);
    ConcatSnoc(steps, r);
  }

  /** A chain whose every resolution so far offers `next` has not finished. */
  lemma {:induction false} AggregateOpen(steps: seq<Result<Resolution>>, previous: seq<Json>)
    requires Open(steps)
    ensures AggregatePagination(steps, previous) == Unfinished(previous + Concat(steps))
    decreases |steps|
  {
    if steps != [] {
      AggregateOpen(steps[1..], previous + steps[0].value.results);
      assert previous + steps[0].value.results + Concat(steps[1..]) == previous + Concat(steps);
    }
  }

  /** A chain ends at its first resolution that throws or offers no `next`. */
  lemma {:induction false} AggregateLast(steps: seq<Result<Resolution>>, r: Result<Resolution>, previous: seq<Json>)
    requires Open(steps)
    requires r.Thrown? || !r.value.next
    ensures AggregatePagination(steps + [r], previous) ==
            if r.Thrown? then Failed(r.error) else Done(previous + Concat(steps) + r.value.results)
    decreases |steps|
  {
    var all := steps + [r];
    if steps == [] {
      assert all == [r];
    } else {
      assert all[0] == steps[0];
      assert all[1..] == steps[1..] + [r];
      AggregateLast(steps[1..], r, previous + steps[0].value.results);
      assert previous + steps[0].value.results + Concat(steps[1..]) == previous + Concat(steps);
    }
  }

  lemma ConcatSnoc(steps: seq<Result<Resolution>>, r: Result<Resolution>)
    ensures Concat(steps + [r]) == Concat(steps) + ResultsOf(r)
  {
    ConcatAppend(steps, [r]);
    assert Concat([r]) == ResultsOf(r) + Concat([r][1..]);
  }

  lemma {:induction false} ConcatAppend(xs: seq<Result<Resolution>>, ys: seq<Result<Resolution>>)
    ensures Concat(xs + ys) == Concat(xs) + Concat(ys)
    decreases |xs|
  {
    if xs == [] {
      assert xs + ys == ys;
    } else {
      assert (xs + ys)[1..] == xs[1..] + ys;
      ConcatAppend(xs[1..], ys);
    }
  }

  // ------------------------------------------------------------------ aggregate

  /** The largest page size `aggregate` asks for. */
  const PageLimit: real := 500.0

  /** The params of an `aggregate` round before its request: the list and its limit set. */
  function RoundParams(entries: map<string, Json>, list: string, prefix: string): map<string, Json>
  {
    entries["list" := Text(list)][prefix + "limit" := Number(PageLimit)]
  }

  /** `res.query[list].map(e => e[key])` for a response that passed the error check. */
  function Batch(res: Json, list: string, key: string): Result<seq<Json>>
  {
    var found := Prop(Property(res, "query"), list);
    if found.Thrown? then Thrown(found.error) else MapProp(found.value, key)
  }

  /** `res['query-continue'] || res.continue`. */
  function ContinueWith(res: Json): Json
  {
    var legacy := Property(res, "query-continue");
    if Truthy(legacy) then legacy else Property(res, "continue")
  }

  /** `(continueWith[list] && continueWith[list][prefix + 'from']) || continueWith[prefix + 'continue']`. */
  function NextFrom(cw: Json, list: string, prefix: string): (token: Json)
    ensures Truthy(Property(cw, list)) && Truthy(Property(Property(cw, list), prefix + "from")) ==>
              token == Property(Property(cw, list), prefix + "from")
    ensures !Truthy(Property(cw, list)) || !Truthy(Property(Property(cw, list), prefix + "from")) ==>
              token == Property(cw, prefix + "continue")
  {
    var forList := Property(cw, list);
    if Truthy(forList) && Truthy(Property(forList, prefix + "from")) then Property(forList, prefix + "from")
    else Property(cw, prefix + "continue")
  }

  /** A response `aggregate` reads: it passes the error check and its batch is read. */
  predicate Readable(res: Json, list: string, key: string)
  {
    CheckResponse(res).Ok? && Batch(res, list, key).Ok?
  }

  /** What an unreadable response throws: the API error first, else the batch's TypeError. */
  function ReadError(res: Json, list: string, key: string): Error
  {
    var checked := CheckResponse(res);
    if checked.Thrown? then checked.error
    else
      var batch := Batch(res, list, key);
      if batch.Thrown? then batch.error else TypeError
  }

  /** The batch of keys a response contributes (none when it is unreadable). */
  function BatchOf(res: Json, list: string, key: string): seq<Json>
  {
    var b := Batch(res, list, key);
    if b.Ok? then b.value else []
  }

  /** The params after a continued round: the same token under both names. */
  function Continued(round: map<string, Json>, res: Json, list: string, prefix: string): map<string, Json>
  {
    var token := NextFrom(ContinueWith(res), list, prefix);
    round[prefix + "continue" := token][prefix + "from" := token]
  }

  /** The rounds of `aggregate(apiOptions, params, list, key, prefix, results)` over the
      responses given: how the chain ends and the params it leaves behind. The k-th round
      sends `QueryMap(origin, RoundParams(params, list, prefix))` for the params it finds. */
  function AggregateRun(entries: map<string, Json>, list: string, key: string, prefix: string,
                        responses: seq<Json>, results: seq<Json>): (Aggregated, map<string, Json>)
    decreases |responses|
  {
    if responses == [] then (Unfinished(results), entries)
    else
      var res := responses[0];
      var round := RoundParams(entries, list, prefix);
      if !Readable(res, list, key) then (Failed(ReadError(res, list, key)), round)
      else if Truthy(ContinueWith(res)) then
        AggregateRun(Continued(round, res, list, prefix), list, key, prefix, responses[1..],
                     results + BatchOf(res, list, key))
      else (Done(results + BatchOf(res, list, key)), round)
  }

  /** The query maps `aggregate` sends, one per round it takes: the k-th is
      `QueryMap(origin, RoundParams(params, list, prefix))` for the params that round finds. */
  function AggregateSent(entries: map<string, Json>, list: string, key: string, prefix: string,
                         origin: Json, responses: seq<Json>): seq<map<string, Json>>
    decreases |responses|
  {
    if responses == [] then []
    else
      var res := responses[0];
      var round := RoundParams(entries, list, prefix);
      [QueryMap(origin, round)] +
        if Readable(res, list, key) && Truthy(ContinueWith(res)) then
          AggregateSent(Continued(round, res, list, prefix), list, key, prefix, origin, responses[1..])
        else []
  }

  /** One round of the sent queries: this round's query, then the rest when it continues. */
  lemma SentStep(entries: map<string, Json>, list: string, key: string, prefix: string,
                 origin: Json, responses: seq<Json>)
    requires responses != []
    ensures var round := RoundParams(entries, list, prefix);
      AggregateSent(entries, list, key, prefix, origin, responses) ==
        if Readable(responses[0], list, key) && Truthy(ContinueWith(responses[0])) then
          [QueryMap(origin, round)] +
            AggregateSent(Continued(round, responses[0], list, prefix), list, key, prefix, origin, responses[1..])
        else [QueryMap(origin, round)]
  {
  }

  /** `aggregate`: sets the list and its limit, then follows `query-continue` or `continue`
      tokens, one response per request, accumulating the `key` of every listed entry. */
  method Aggregate(p: Params, origin: Json, list: string, key: string, prefix: string, responses: seq<Json>)
    returns (sent: seq<map<string, Json>>, out: Aggregated)
    modifies p
    ensures (out, p.entries) == AggregateRun(old(p.entries), list, key, prefix, responses, [])
    ensures sent == AggregateSent(old(p.entries), list, key, prefix, origin, responses)
  {
    ghost var run := AggregateRun(p.entries, list, key, prefix, responses, []);
    ghost var all := SentRun(p.entries, list, key, prefix, origin, responses, []);
    SentRunIs(p.entries, list, key, prefix, origin, responses, []);
    assert [] + AggregateSent(p.entries, list, key, prefix, origin, responses) ==
           AggregateSent(p.entries, list, key, prefix, origin, responses);
    var results: seq<Json> := [];
    sent := [];
    var i := 0;
    while true
      invariant i <= |responses|
      invariant run == AggregateRun(p.entries, list, key, prefix, responses[i..], results)
      invariant all == SentRun(p.entries, list, key, prefix, origin, responses[i..], sent)
      decreases |responses| - i
    {
      if i == |responses| {
        out := Unfinished(results);
        return;
      }
      ghost var before := p.entries;
      ghost var rs := responses[i..];
      assert rs[0] == responses[i] && rs[1..] == responses[i + 1..];
      var qs, failed, batch, more := Round(p, origin, list, key, prefix, responses[i]);
      ghost var earlier := sent;
      sent := sent + [qs];
      if failed.Some? {
        StepFails(before, list, key, prefix, origin, rs, results, earlier);
        out := Failed(failed.value);
        return;
      }
      ghost var previous := results;
      results := results + batch;
      if !more {
        StepDone(before, list, key, prefix, origin, rs, previous, earlier);
        out := Done(results);
        return;
      }
      StepContinues(before, list, key, prefix, origin, rs, previous, earlier);
      i := i + 1;
    }
  }

  /** The body of one `aggregate` call: set the list and its limit, send the query, read the
      batch, and write the continuation token when there is one. */
  method Round(p: Params, origin: Json, list: string, key: string, prefix: string, res: Json)
    returns (qs: map<string, Json>, failed: Option<Error>, batch: seq<Json>, more: bool)
    modifies p
    ensures qs == QueryMap(origin, RoundParams(old(p.entries), list, prefix))
    ensures failed.Some? <==> !Readable(res, list, key)
    ensures failed.Some? ==> failed.value == ReadError(res, list, key)
    ensures failed.Some? || !more ==> p.entries == RoundParams(old(p.entries), list, prefix)
    ensures failed.None? ==> batch == BatchOf(res, list, key) && more == Truthy(ContinueWith(res))
    ensures failed.None? && more ==>
              p.entries == Continued(RoundParams(old(p.entries), list, prefix), res, list, prefix)
  {
    p.entries := p.entries["list" := Text(list)];
    p.entries := p.entries[prefix + "limit" := Number(PageLimit)];
    qs := BuildQuery(origin, p.entries);
    batch, more := [], false;
    var checked := CheckResponse(res);
    if checked.Thrown? {
      return qs, Some(checked.error), batch, more;
    }
    var b := Batch(res, list, key);
    if b.Thrown? {
      return qs, Some(b.error), batch, more;
    }
    batch := b.value;
    var cw := ContinueWith(res);
    more := Truthy(cw);
    failed := None;
    if more {
      var token := NextFrom(cw, list, prefix);
      p.entries := p.entries[prefix + "continue" := token];
      p.entries := p.entries[prefix + "from" := token];
    }
  }

  /** The queries sent, with those of earlier rounds in front: what `Aggregate` accumulates. */
  function SentRun(entries: map<string, Json>, list: string, key: string, prefix: string,
                   origin: Json, responses: seq<Json>, sent: seq<map<string, Json>>): seq<map<string, Json>>
    decreases |responses|
  {
    if responses == [] then sent
    else
      var res := responses[0];
      var round := RoundParams(entries, list, prefix);
      var queries := sent + [QueryMap(origin, round)];
      if Readable(res, list, key) && Truthy(ContinueWith(res)) then
        SentRun(Continued(round, res, list, prefix), list, key, prefix, origin, responses[1..], queries)
      else queries
  }

  lemma {:induction false} SentRunIs(entries: map<string, Json>, list: string, key: string, prefix: string,
                                     origin: Json, responses: seq<Json>, sent: seq<map<string, Json>>)
    ensures SentRun(entries, list, key, prefix, origin, responses, sent) ==
            sent + AggregateSent(entries, list, key, prefix, origin, responses)
    decreases |responses|
  {
    if responses == [] {
      assert sent + [] == sent;
    } else {
      var res := responses[0];
      var round := RoundParams(entries, list, prefix);
      var q := QueryMap(origin, round);
      SentStep(entries, list, key, prefix, origin, responses);
      if Readable(res, list, key) && Truthy(ContinueWith(res)) {
        var next := Continued(round, res, list, prefix);
        SentRunIs(next, list, key, prefix, origin, responses[1..], sent + [q]);
        AppendAssoc(sent, [q], AggregateSent(next, list, key, prefix, origin, responses[1..]));
      }
    }
  }

  /** A round whose response is unreadable ends the run with its error, after one query. */
  lemma StepFails(entries: map<string, Json>, list: string, key: string, prefix: string,
                  origin: Json, responses: seq<Json>, results: seq<Json>, sent: seq<map<string, Json>>)
    requires responses != [] && !Readable(responses[0], list, key)
    ensures var round := RoundParams(entries, list, prefix);
      && AggregateRun(entries, list, key, prefix, responses, results) ==
           (Failed(ReadError(responses[0], list, key)), round)
      && SentRun(entries, list, key, prefix, origin, responses, sent) == sent + [QueryMap(origin, round)]
  {
  }

  /** A readable round without a continuation ends the run with the batch, after one query. */
  lemma StepDone(entries: map<string, Json>, list: string, key: string, prefix: string,
                 origin: Json, responses: seq<Json>, results: seq<Json>, sent: seq<map<string, Json>>)
    requires responses != [] && Readable(responses[0], list, key) && !Truthy(ContinueWith(responses[0]))
    ensures var round := RoundParams(entries, list, prefix);
      && AggregateRun(entries, list, key, prefix, responses, results) ==
           (Done(results + BatchOf(responses[0], list, key)), round)
      && SentRun(entries, list, key, prefix, origin, responses, sent) == sent + [QueryMap(origin, round)]
  {
  }

  /** A readable round with a continuation sends its query and goes on from the continued
      params with the batch added. */
  lemma StepContinues(entries: map<string, Json>, list: string, key: string, prefix: string,
                      origin: Json, responses: seq<Json>, results: seq<Json>, sent: seq<map<string, Json>>)
    requires responses != [] && Readable(responses[0], list, key) && Truthy(ContinueWith(responses[0]))
    ensures var round := RoundParams(entries, list, prefix);
      var next := Continued(round, responses[0], list, prefix);
      && AggregateRun(entries, list, key, prefix, responses, results) ==
           AggregateRun(next, list, key, prefix, responses[1..], results + BatchOf(responses[0], list, key))
      && SentRun(entries, list, key, prefix, origin, responses, sent) ==
           SentRun(next, list, key, prefix, origin, responses[1..], sent + [QueryMap(origin, round)])
  {
  }

  /** The batches of the given responses, in order. */
  function Batches(responses: seq<Json>, list: string, key: string): seq<Json>
  {
    if responses == [] then [] else BatchOf(responses[0], list, key) + Batches(responses[1..], list, key)
  }

  /** Responses that `aggregate` reads one after the other to the end: every one readable,
      every one but the last carrying a continuation, the last none. */
  predicate Chain(responses: seq<Json>, list: string, key: string)
  {
    && responses != []
    && (forall k :: 0 <= k < |responses| ==> Readable(responses[k], list, key))
    && (forall k :: 0 <= k < |responses| - 1 ==> Truthy(ContinueWith(responses[k])))
    && !Truthy(ContinueWith(responses[|responses| - 1]))
  }

  /** Over such responses `aggregate` returns the previous results followed by every
      batch's keys, in order. */
  lemma {:induction false} AggregateCollects(entries: map<string, Json>, list: string, key: string, prefix: string,
                                             responses: seq<Json>, results: seq<Json>)
    requires Chain(responses, list, key)
    ensures AggregateRun(entries, list, key, prefix, responses, results).0 ==
            Done(results + Batches(responses, list, key))
    decreases |responses|
  {
    if |responses| == 1 {
      CollectsLast(entries, list, key, prefix, responses, results);
    } else {
      ChainTail(responses, list, key);
      var next := Continued(RoundParams(entries, list, prefix), responses[0], list, prefix);
      AggregateCollects(next, list, key, prefix, responses[1..], results + BatchOf(responses[0], list, key));
      RunCons(entries, list, key, prefix, responses, results);
      BatchesCons(responses, list, key, results);
    }
  }

  lemma CollectsLast(entries: map<string, Json>, list: string, key: string, prefix: string,
                     responses: seq<Json>, results: seq<Json>)
    requires |responses| == 1 && Chain(responses, list, key)
    ensures AggregateRun(entries, list, key, prefix, responses, results).0 ==
            Done(results + Batches(responses, list, key))
  {
    assert responses[1..] == [];
  }

  lemma ChainTail(responses: seq<Json>, list: string, key: string)
    requires |responses| > 1 && Chain(responses, list, key)
    ensures Chain(responses[1..], list, key)
  {
    var rest := responses[1..];
    assert forall k :: 0 <= k < |rest| ==> rest[k] == responses[k + 1];
  }

  /** A readable round with a continuation: the run goes on from the continued params. */
  lemma RunCons(entries: map<string, Json>, list: string, key: string, prefix: string,
                responses: seq<Json>, results: seq<Json>)
    requires responses != [] && Readable(responses[0], list, key) && Truthy(ContinueWith(responses[0]))
    ensures AggregateRun(entries, list, key, prefix, responses, results) ==
            AggregateRun(Continued(RoundParams(entries, list, prefix), responses[0], list, prefix),
                         list, key, prefix, responses[1..], results + BatchOf(responses[0], list, key))
  {
  }

  lemma BatchesCons(responses: seq<Json>, list: string, key: string, results: seq<Json>)
    requires responses != []
    ensures results + BatchOf(responses[0], list, key) + Batches(responses[1..], list, key) ==
            results + Batches(responses, list, key)
  {
    AppendAssoc(results, BatchOf(responses[0], list, key), Batches(responses[1..], list, key));
  }

  lemma AppendAssoc<T>(a: seq<T>, b: seq<T>, c: seq<T>)
    ensures a + b + c == a + (b + c)
  {
  }

  /** Every round, continued or not, leaves the list and the page limit in the params. */
  lemma {:induction false} AggregateSetsList(entries: map<string, Json>, list: string, key: string, prefix: string,
                                             responses: seq<Json>, results: seq<Json>)
    requires responses != []
    ensures var after := AggregateRun(entries, list, key, prefix, responses, results).1;
      Get(after, "list") == Text(list) && Get(after, prefix + "limit") == Number(PageLimit)
    decreases |responses|
  {
    var res := responses[0];
    var round := RoundParams(entries, list, prefix);
    assert prefix + "limit" != "list" by {
      assert |prefix + "limit"| > |"list"| || |prefix| == 0;
    }
    if Readable(res, list, key) && Truthy(ContinueWith(res)) && |responses| > 1 {
      var next := Continued(round, res, list, prefix);
      AggregateSetsList(next, list, key, prefix, responses[1..], results + BatchOf(res, list, key));
    } else if Readable(res, list, key) && Truthy(ContinueWith(res)) {
      assert responses[1..] == [];
      NamesApart(prefix, list);
    }
  }

  /** The four names a round writes are distinct. */
  lemma NamesApart(prefix: string, list: string)
    ensures prefix + "continue" != "list" && prefix + "from" != "list"
    ensures prefix + "continue" != prefix + "limit" && prefix + "from" != prefix + "limit"
  {
    assert |prefix + "continue"| != |prefix + "limit"|;
    assert |prefix + "from"| != |prefix + "limit"|;
    assert prefix + "from" != "list" by {
      if |prefix| == 0 { assert prefix + "from" == "from"; }
    }
  }

  /** A name the caller's params decide alone: neither `origin` nor one of the defaults. */
  predicate Plain(name: string)
  {
    name != "origin" && name !in Defaults()
  }

  /** Reading a plain name from the query is reading it from the params: an undefined
      value is dropped, and a missing key reads as undefined. */
  lemma QueryGet(origin: Json, params: map<string, Json>, name: string)
    requires Plain(name)
    ensures Get(QueryMap(origin, params), name) == Get(params, name)
  {
    QueryMapKeys(origin, params, name);
  }

  /** The four names an `aggregate` round writes are plain. */
  lemma RoundNamesPlain(prefix: string)
    ensures Plain("list") && Plain(prefix + "limit")
    ensures Plain(prefix + "continue") && Plain(prefix + "from")
  {
    var limit, cont, from := prefix + "limit", prefix + "continue", prefix + "from";
    assert limit[|prefix|..] == "limit" && cont[|prefix|..] == "continue" && from[|prefix|..] == "from";
    assert "origin"[1..] != "limit" && "format"[1..] != "limit" && "action"[1..] != "limit";
    assert "redirects"[4..] != "limit";
    assert "redirects"[1..] != "continue";
    assert "origin"[2..] != "from" && "format"[2..] != "from" && "action"[2..] != "from";
    assert "redirects"[5..] != "from";
  }

  /** The query of the round after a continued one carries the token under both names. */
  lemma ContinuedQuery(round: map<string, Json>, res: Json, list: string, prefix: string, origin: Json)
    ensures var q := QueryMap(origin, RoundParams(Continued(round, res, list, prefix), list, prefix));
      var token := NextFrom(ContinueWith(res), list, prefix);
      Get(q, prefix + "continue") == token && Get(q, prefix + "from") == token
  {
    RoundNamesPlain(prefix);
    NamesApart(prefix, list);
    assert prefix + "continue" != prefix + "from" by {
      assert |prefix + "continue"| != |prefix + "from"|;
    }
    var next := RoundParams(Continued(round, res, list, prefix), list, prefix);
    QueryGet(origin, next, prefix + "continue");
    QueryGet(origin, next, prefix + "from");
  }

  /** `aggregate` sends one query per response it reads: at most one per response, at least
      one, and exactly one per response over a chain read to its end. */
  lemma {:induction false} AggregateSentRounds(entries: map<string, Json>, list: string, key: string,
                                               prefix: string, origin: Json, responses: seq<Json>)
    ensures |AggregateSent(entries, list, key, prefix, origin, responses)| <= |responses|
    ensures responses != [] ==> |AggregateSent(entries, list, key, prefix, origin, responses)| >= 1
    ensures Chain(responses, list, key) ==>
              |AggregateSent(entries, list, key, prefix, origin, responses)| == |responses|
    decreases |responses|
  {
    if responses != [] {
      var round := RoundParams(entries, list, prefix);
      var next := Continued(round, responses[0], list, prefix);
      SentStep(entries, list, key, prefix, origin, responses);
      AggregateSentRounds(next, list, key, prefix, origin, responses[1..]);
      if Chain(responses, list, key) && |responses| > 1 {
        ChainTail(responses, list, key);
      }
    }
  }

  /** Every query `aggregate` sends names the list and asks for 500 entries. */
  lemma {:induction false} AggregateSentList(entries: map<string, Json>, list: string, key: string,
                                             prefix: string, origin: Json, responses: seq<Json>)
    ensures forall q :: q in AggregateSent(entries, list, key, prefix, origin, responses) ==>
              Get(q, "list") == Text(list) && Get(q, prefix + "limit") == Number(PageLimit)
    decreases |responses|
  {
    if responses != [] {
      var round := RoundParams(entries, list, prefix);
      var next := Continued(round, responses[0], list, prefix);
      SentStep(entries, list, key, prefix, origin, responses);
      AggregateSentList(next, list, key, prefix, origin, responses[1..]);
      RoundNamesPlain(prefix);
      assert prefix + "limit" != "list" by {
        assert |prefix + "limit"| > |"list"|;
      }
      QueryGet(origin, round, "list");
      QueryGet(origin, round, prefix + "limit");
    }
  }

  /** Each query after the first carries the continuation token of the response before it,
      under both `<prefix>continue` and `<prefix>from`. */
  lemma {:induction false} AggregateSentTokens(entries: map<string, Json>, list: string, key: string,
                                               prefix: string, origin: Json, responses: seq<Json>)
    ensures |AggregateSent(entries, list, key, prefix, origin, responses)| <= |responses|
    ensures var sent := AggregateSent(entries, list, key, prefix, origin, responses);
      forall k :: 0 <= k < |sent| - 1 ==>
        && Get(sent[k + 1], prefix + "continue") == NextFrom(ContinueWith(responses[k]), list, prefix)
        && Get(sent[k + 1], prefix + "from") == NextFrom(ContinueWith(responses[k]), list, prefix)
    decreases |responses|
  {
    AggregateSentRounds(entries, list, key, prefix, origin, responses);
    if responses != [] && Readable(responses[0], list, key) && Truthy(ContinueWith(responses[0])) {
      var next := Continued(RoundParams(entries, list, prefix), responses[0], list, prefix);
      var sent := AggregateSent(entries, list, key, prefix, origin, responses);
      var rest := AggregateSent(next, list, key, prefix, origin, responses[1..]);
      SentStep(entries, list, key, prefix, origin, responses);
      assert sent[1..] == rest;
      AggregateSentTokens(next, list, key, prefix, origin, responses[1..]);
      if |sent| > 1 {
        SecondQuery(entries, list, key, prefix, origin, responses);
      }
      forall k | 1 <= k < |sent| - 1
        ensures Get(sent[k + 1], prefix + "continue") == NextFrom(ContinueWith(responses[k]), list, prefix)
        ensures Get(sent[k + 1], prefix + "from") == NextFrom(ContinueWith(responses[k]), list, prefix)
      {
        assert sent[k + 1] == rest[k];
        assert responses[1..][k - 1] == responses[k];
      }
    } else if responses != [] {
      SentStep(entries, list, key, prefix, origin, responses);
    }
  }

  /** The second query carries the first response's token. */
  lemma SecondQuery(entries: map<string, Json>, list: string, key: string, prefix: string,
                    origin: Json, responses: seq<Json>)
    requires |AggregateSent(entries, list, key, prefix, origin, responses)| > 1
    ensures |responses| > 1
    ensures var q := AggregateSent(entries, list, key, prefix, origin, responses)[1];
      var token := NextFrom(ContinueWith(responses[0]), list, prefix);
      Get(q, prefix + "continue") == token && Get(q, prefix + "from") == token
  {
    var round := RoundParams(entries, list, prefix);
    var next := Continued(round, responses[0], list, prefix);
    SentStep(entries, list, key, prefix, origin, responses);
    assert Readable(responses[0], list, key) && Truthy(ContinueWith(responses[0]));
    SentStep(next, list, key, prefix, origin, responses[1..]);
    ContinuedQuery(round, responses[0], list, prefix, origin);
  }

  /** After a continued round the same token stands under `<prefix>continue` and
      `<prefix>from`: the list's own `<prefix>from` when that is truthy, else the
      continuation's `<prefix>continue`. */
  lemma ContinuedRound(entries: map<string, Json>, list: string, key: string, prefix: string, res: Json)
    requires Readable(res, list, key) && Truthy(ContinueWith(res))
    ensures var after := AggregateRun(entries, list, key, prefix, [res], []);
      var token := NextFrom(ContinueWith(res), list, prefix);
      && after.0 == Unfinished(BatchOf(res, list, key))
      && Get(after.1, prefix + "continue") == token && Get(after.1, prefix + "from") == token
      && Get(after.1, "list") == Text(list)
  {
    RunOne(entries, list, key, prefix, res);
    ContinuedKeys(RoundParams(entries, list, prefix), res, list, prefix);
  }

  lemma RunOne(entries: map<string, Json>, list: string, key: string, prefix: string, res: Json)
    requires Readable(res, list, key) && Truthy(ContinueWith(res))
    ensures AggregateRun(entries, list, key, prefix, [res], []) ==
            (Unfinished(BatchOf(res, list, key)), Continued(RoundParams(entries, list, prefix), res, list, prefix))
  {
    assert [res][1..] == [];
    assert [] + BatchOf(res, list, key) == BatchOf(res, list, key);
  }

  lemma ContinuedKeys(round: map<string, Json>, res: Json, list: string, prefix: string)
    requires Get(round, "list") == Text(list)
    ensures var token := NextFrom(ContinueWith(res), list, prefix);
      var after := Continued(round, res, list, prefix);
      Get(after, prefix + "continue") == token && Get(after, prefix + "from") == token &&
      Get(after, "list") == Text(list)
  {
    NamesApart(prefix, list);
  }

}
