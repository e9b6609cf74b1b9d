/** Parsed API responses and request parameters, read the way src/util.js, src/wiki.js,
    src/page.js and src/chain.js read them: property access (which throws on undefined and
    null), truthiness, `Object.keys`, `Array.prototype.map` and underscore's `pluck` and
    `flatten`. An object's fields are listed in JavaScript's enumeration order, with no key
    twice (as `JSON.parse` produces them). */
module Json {
  import opened JsString

  datatype Json =
    | Undef
    | Nil
    | Boolean(b: bool)
    | Number(n: real)
    | Text(s: string)
    | List(items: seq<Json>)
    | Object(fields: seq<(string, Json)>)

  /** What a step can throw: a TypeError (a property read on undefined or null, a call of
      something that is no function), the `Error(res.error.info)` of an API error, or an
      `Error` with a fixed message. */
  datatype Error = TypeError | ApiError(info: Json) | Failure(message: string)

  datatype Result<+T> = Ok(value: T) | Thrown(error: Error)

  /** JavaScript truthiness: false for undefined, null, false, 0 and "". */
  predicate Truthy(v: Json)
  {
    match v
    case Undef => false
    case Nil => false
    case Boolean(b) => b
    case Number(n) => n != 0.0
    case Text(s) => s != ""
    case List(_) => true
    case Object(_) => true
  }

  /** The value a parameter with a default takes: an argument that is `undefined` is
      replaced by the default. */
  function Defaulted(arg: Json, fallback: Json): Json
  {
    if arg == Undef then fallback else arg
  }

  /** The value of the first field named `key`; undefined when there is none. */
  function Lookup(fields: seq<(string, Json)>, key: string): Json
  {
    if fields == [] then Undef
    else if fields[0].0 == key then fields[0].1
    else Lookup(fields[1..], key)
  }

  /** The value found is that of the first field with the key; without one it is undefined. */
  lemma {:induction false} LookupFirst(fields: seq<(string, Json)>, key: string)
    ensures forall i :: (0 <= i < |fields| && fields[i].0 == key &&
                         (forall j :: 0 <= j < i ==> fields[j].0 != key)) ==> Lookup(fields, key) == fields[i].1
    ensures (forall i :: 0 <= i < |fields| ==> fields[i].0 != key) ==> Lookup(fields, key) == Undef
  {
    if fields != [] {
      LookupFirst(fields[1..], key);
      forall i | 0 < i < |fields| && fields[i].0 == key && (forall j :: 0 <= j < i ==> fields[j].0 != key)
        ensures Lookup(fields, key) == fields[i].1
      {
        assert fields[1..][i - 1] == fields[i];
        assert fields[0].0 != key;
      }
    }
  }

  /** `v[key]` for a key that is neither `length` nor an array index: a TypeError on
      undefined and null, the field's value on an object, undefined on anything else. */
  function Prop(v: Json, key: string): (r: Result<Json>)
    ensures r.Thrown? <==> v.Undef? || v.Nil?
    ensures r.Thrown? ==> r.error == TypeError
    ensures v.Object? ==> r == Ok(Lookup(v.fields, key))
  {
    match v
    case Undef => Thrown(TypeError)
    case Nil => Thrown(TypeError)
    case Object(fields) => Ok(Lookup(fields, key))
    case _ => Ok(Undef)
  }

  /** `v[0]`. */
  function First(v: Json): (r: Result<Json>)
    ensures r.Thrown? <==> v.Undef? || v.Nil?
    ensures v.List? && v.items != [] ==> r == Ok(v.items[0])
    ensures v.List? && v.items == [] ==> r == Ok(Undef)
  {
    match v
    case Undef => Thrown(TypeError)
    case Nil => Thrown(TypeError)
    case List(items) => Ok(if items == [] then Undef else items[0])
    case Text(s) => Ok(if s == "" then Undef else Text([s[0]]))
    case Object(fields) => Ok(Lookup(fields, "0"))
    case _ => Ok(Undef)
  }

  /** `Object.keys(v)` for an object. */
  function Keys(fields: seq<(string, Json)>): (keys: seq<string>)
    ensures |keys| == |fields|
    ensures forall i :: 0 <= i < |fields| ==> keys[i] == fields[i].0
  {
    if fields == [] then [] else [fields[0].0] + Keys(fields[1..])
  }

  /** `Object.values(v)`: a TypeError on undefined and null, the values of an object, the
      elements of an array, the characters of a string, nothing for a boolean or number. */
  function Values(v: Json): (r: Result<seq<Json>>)
    ensures r.Thrown? <==> v.Undef? || v.Nil?
    ensures v.Object? ==> r.Ok? && |r.value| == |v.fields| &&
                          forall i :: 0 <= i < |v.fields| ==> r.value[i] == v.fields[i].1
  {
    match v
    case Undef => Thrown(TypeError)
    case Nil => Thrown(TypeError)
    case Object(fields) => Ok(seq(|fields|, i requires 0 <= i < |fields| => fields[i].1))
    case List(items) => Ok(items)
    case Text(s) => Ok(seq(|s|, i requires 0 <= i < |s| => Text([s[i]])))
    case _ => Ok([])
  }

  /** underscore's `_.property(key)`: undefined for undefined and null instead of a TypeError. */
  function Property(v: Json, key: string): (r: Json)
    ensures !v.Object? ==> r == Undef
  {
    if v.Object? then Lookup(v.fields, key) else Undef
  }

  /** The elements underscore's collection functions visit: an array's elements, an
      object's values, a string's characters; nothing for anything else. */
  function Elements(v: Json): (r: seq<Json>)
    ensures v.List? ==> r == v.items
    ensures v.Object? ==> |r| == |v.fields| && forall i :: 0 <= i < |r| ==> r[i] == v.fields[i].1
    ensures v.Undef? || v.Nil? ==> r == []
  {
    match v
    case List(items) => items
    case Object(fields) => seq(|fields|, i requires 0 <= i < |fields| => fields[i].1)
    case Text(s) => seq(|s|, i requires 0 <= i < |s| => Text([s[i]]))
    case _ => []
  }

  /** `_.pluck(v, key)`: the `key` property of every element, in order. */
  function Pluck(v: Json, key: string): (r: seq<Json>)
    ensures |r| == |Elements(v)|
    ensures forall i :: 0 <= i < |r| ==> r[i] == Property(Elements(v)[i], key)
  {
    PluckAll(Elements(v), key)
  }

  function PluckAll(xs: seq<Json>, key: string): (r: seq<Json>)
    ensures |r| == |xs|
    ensures forall i :: 0 <= i < |r| ==> r[i] == Property(xs[i], key)
  {
    seq(|xs|, i requires 0 <= i < |xs| => Property(xs[i], key))
  }

  /** `_.flatten(xs)`: arrays nested at any depth are spliced in; other values are kept. */
  function Flatten(xs: seq<Json>): (r: seq<Json>)
    ensures forall k :: 0 <= k < |r| ==> !r[k].List?
    decreases xs
  {
    if xs == [] then []
    else if xs[0].List? then Flatten(xs[0].items) + Flatten(xs[1..])
    else [xs[0]] + Flatten(xs[1..])
  }

  /** `arr.map(e => e[key])`: a TypeError unless `arr` is an array whose elements all
      allow the property read. */
  function MapProp(arr: Json, key: string): Result<seq<Json>>
  {
    if arr.List? then MapItems(arr.items, key) else Thrown(TypeError)
  }

  function MapItems(xs: seq<Json>, key: string): Result<seq<Json>>
  {
    if xs == [] then Ok([])
    else
      var head := Prop(xs[0], key);
      if head.Thrown? then Thrown(head.error)
      else
        var tail := MapItems(xs[1..], key);
        if tail.Thrown? then tail else Ok([head.value] + tail.value)
  }

  /** `map` reads the property of every element, in order, and throws exactly when the
      receiver is no array or one of its elements is undefined or null. */
  lemma MapPropMeaning(arr: Json, key: string)
    ensures var r := MapProp(arr, key);
      && (r.Ok? ==> arr.List? && |r.value| == |arr.items| &&
                    forall i :: 0 <= i < |arr.items| ==> Prop(arr.items[i], key) == Ok(r.value[i]))
      && (r.Thrown? <==> !arr.List? || exists i :: 0 <= i < |arr.items| && Prop(arr.items[i], key).Thrown?)
  {
    if arr.List? {
      MapItemsMeaning(arr.items, key);
    }
  }

  lemma {:induction false} MapItemsMeaning(xs: seq<Json>, key: string)
    ensures var r := MapItems(xs, key);
      && (r.Ok? ==> |r.value| == |xs| && forall i :: 0 <= i < |xs| ==> Prop(xs[i], key) == Ok(r.value[i]))
      && (r.Thrown? <==> exists i :: 0 <= i < |xs| && Prop(xs[i], key).Thrown?)
  {
    if xs != [] {
      MapItemsMeaning(xs[1..], key);
      var r := MapItems(xs, key);
      var tail := MapItems(xs[1..], key);
      if Prop(xs[0], key).Ok? && tail.Thrown? {
        var i :| 0 <= i < |xs[1..]| && Prop(xs[1..][i], key).Thrown?;
        assert xs[i + 1] == xs[1..][i];
      }
      if r.Ok? {
        forall i | 0 <= i < |xs|
          ensures Prop(xs[i], key) == Ok(r.value[i])
        {
          if i > 0 { assert xs[i] == xs[1..][i - 1]; }
        }
      }
      if r.Thrown? && Prop(xs[0], key).Ok? {
        var i :| 0 <= i < |xs[1..]| && Prop(xs[1..][i], key).Thrown?;
        assert xs[i + 1] == xs[1..][i];
      }
      if !r.Thrown? {
        forall i | 0 <= i < |xs|
          ensures Prop(xs[i], key).Ok?
        {
          if i > 0 { assert xs[i] == xs[1..][i - 1]; }
        }
      }
    }
  }

  /** `params[key]` on a parameter object. */
  function Get(m: map<string, Json>, key: string): (v: Json)
    ensures key !in m ==> v == Undef
  {
    if key in m then m[key] else Undef
  }

  /** Flattening distributes over concatenation. */
  lemma {:induction false} FlattenAppend(xs: seq<Json>, ys: seq<Json>)
    ensures Flatten(xs + ys) == Flatten(xs) + Flatten(ys)
    decreases xs
  {
    if xs == [] {
      assert xs + ys == ys;
    } else {
      assert (xs + ys)[0] == xs[0];
      assert (xs + ys)[1..] == xs[1..] + ys;
      FlattenAppend(xs[1..], ys);
    }
  }

  /** A sequence with no array in it is its own flattening. */
  lemma {:induction false} FlattenFlat(xs: seq<Json>)
    requires forall k :: 0 <= k < |xs| ==> !xs[k].List?
    ensures Flatten(xs) == xs
    decreases xs
  {
    if xs != [] {
      FlattenFlat(xs[1..]);
    }
  }

  /** Flattening twice is flattening once. */
  lemma FlattenIdempotent(xs: seq<Json>)
    ensures Flatten(Flatten(xs)) == Flatten(xs)
  {
    FlattenFlat(Flatten(xs));
  }

  /** Undefined or null: the values whose property reads throw. */
  predicate Stuck(v: Json)
  {
    v.Undef? || v.Nil?
  }

  /** `v.k1.k2…kn` read property by property; the first read on undefined or null throws
      a TypeError. */
  function Path(v: Json, keys: seq<string>): (r: Result<Json>)
    ensures r.Thrown? ==> r.error == TypeError
    decreases |keys|
  {
    if keys == [] then Ok(v)
    else
      var h := Prop(v, keys[0]);
      if h.Thrown? then Thrown(h.error) else Path(h.value, keys[1..])
  }

  /** The same walk, undefined-safe: where `v.k1…kn` leads when no read throws. */
  function Reached(v: Json, keys: seq<string>): Json
    decreases |keys|
  {
    if keys == [] then v else Reached(Property(v, keys[0]), keys[1..])
  }

  /** Once a walk reaches undefined it stays there. */
  lemma {:induction false} ReachedUndef(keys: seq<string>)
    ensures Reached(Undef, keys) == Undef
    decreases |keys|
  {
    if keys != [] {
      ReachedUndef(keys[1..]);
    }
  }

  /** A walk that ends on something other than undefined or null never threw on the way,
      and the read gives where it ends. */
  lemma {:induction false} PathReaches(v: Json, keys: seq<string>)
    requires !Stuck(Reached(v, keys))
    ensures Path(v, keys) == Ok(Reached(v, keys))
    decreases |keys|
  {
    if keys != [] {
      if Stuck(v) {
        ReachedUndef(keys[1..]);
        assert false;
      }
      PathReaches(Property(v, keys[0]), keys[1..]);
    }
  }

  /** A read that succeeds gives where the undefined-safe walk ends. */
  lemma {:induction false} PathValue(v: Json, keys: seq<string>)
    requires Path(v, keys).Ok?
    ensures Path(v, keys).value == Reached(v, keys)
    decreases |keys|
  {
    if keys != [] {
      PathValue(Property(v, keys[0]), keys[1..]);
    }
  }

  /** A walk that passes through undefined or null before its last key throws a TypeError. */
  lemma {:induction false} PathStuckThrows(v: Json, keys: seq<string>, k: nat)
    requires k < |keys| && Stuck(Reached(v, keys[..k]))
    ensures Path(v, keys) == Thrown(TypeError)
    decreases k
  {
    if k > 0 {
      assert keys[..k][0] == keys[0] && keys[..k][1..] == keys[1..][..k - 1];
      PathStuckThrows(Property(v, keys[0]), keys[1..], k - 1);
    } else {
      assert keys[..0] == [];
    }
  }
}
