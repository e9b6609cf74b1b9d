/** src/coordinates.js: the latitude and longitude of a page, taken from its infobox's
    `{{coord|...}}` string or from the deprecated `latd`/`longd` fields, converted from
    degrees, minutes and seconds to signed decimal degrees rounded to four places. */
module Coordinates {
  import opened JsString
  import opened Metadata
  import opened CoordinatePattern

  /** What `parseCoordinates` gives: `{lat, lon}`, the object with `error`, or (`Thrown`) a
      TypeError. */
  datatype CoordResult = Located(lat: real, lon: real) | Unlocated(error: string) | Thrown

  const NoCoordinatesError := "No coordinates on page."

  // ------------------------------------------------------------ arithmetic

  /** `directions[direction] || 1`: -1 for S and W, 1 for N, E and any other value that
      does not name an `Object.prototype` property (those are not modelled). */
  function Sign(direction: JsValue): real
  {
    if direction == Str("S") || direction == Str("W") then -1.0 else 1.0
  }

  /** `dmsToDecimal`: degrees, minutes and seconds summed, times the direction's sign (written
      as a choice between the sum and its negation; `DmsProduct` states the product). */
  function DmsToDecimal(degrees: real, minutes: real, seconds: real, direction: JsValue): real
  {
    var magnitude := degrees + minutes / 60.0 + seconds / 3600.0;
    if Sign(direction) < 0.0 then -magnitude else magnitude
  }

  /** `floatOrDefault`: the number, or 0 where `Number` gives NaN. */
  function FloatOrDefault(v: JsValue): real
  {
    match ToNumber(v)
    case None => 0.0
    case Some(n) => n
  }

  /** `Number(x.toFixed(4))` on exact reals: the magnitude is rounded half up to four places
      and the sign is kept. */
  function Round4(x: real): real
  {
    if x < 0.0 then -RoundUp4(-x) else RoundUp4(x)
  }

  function RoundUp4(x: real): real
  {
    ((x * 10000.0 + 0.5).Floor as real) / 10000.0
  }

  /** `wikiCoordinates`. */
  function WikiCoordinates(latitude: real, longitude: real): CoordResult
  {
    Located(Round4(latitude), Round4(longitude))
  }

  // ------------------------------------------------------------ the parsers

  /** `arr[k]`, undefined past the end. */
  function Element(arr: seq<JsValue>, k: nat): JsValue
  {
    if k < |arr| then arr[k] else Undefined
  }

  /** `convertCoordinatesFromStrings`: elements 1 to 4 are degrees, minutes, seconds and
      direction. */
  function ConvertFromStrings(arr: seq<JsValue>): real
  {
    DmsToDecimal(FloatOrDefault(Element(arr, 1)), FloatOrDefault(Element(arr, 2)),
                 FloatOrDefault(Element(arr, 3)), Element(arr, 4))
  }

  /** `parseInfoboxCoords` as written: latitude from `matches.slice(0,4)`, which stops before
      the latitude's direction. A value that is no string, or a string the pattern does not
      match, throws. */
  function InfoboxCoordsAsWritten(coord: JsValue): CoordResult
  {
    if !coord.Str? then Thrown
    else
      match CoordinateMatch(coord.s)
      case None => Thrown
      case Some(m) => WikiCoordinates(ConvertFromStrings(m[..4]), ConvertFromStrings(m[4..]))
  }

  /** `parseInfoboxCoords` with the latitude read from `matches.slice(0,5)`, so that it keeps
      its direction. */
  function InfoboxCoords(coord: JsValue): CoordResult
  {
    if !coord.Str? then Thrown
    else
      match CoordinateMatch(coord.s)
      case None => Thrown
      case Some(m) => WikiCoordinates(ConvertFromStrings(m[..5]), ConvertFromStrings(m[4..]))
  }

  /** `parseDeprecatedCoords` with the directions read from the keys `latDir` and `lonDir`:
      the parts from `latd`, `latm`, `lats`, `longd`, `longm`, `longs`. */
  function DeprecatedFrom(data: Record, latDir: string, lonDir: string): CoordResult
  {
    WikiCoordinates(
      DmsToDecimal(FloatOrDefault(Get(data, "latd")), FloatOrDefault(Get(data, "latm")),
                   FloatOrDefault(Get(data, "lats")), Get(data, latDir)),
      DmsToDecimal(FloatOrDefault(Get(data, "longd")), FloatOrDefault(Get(data, "longm")),
                   FloatOrDefault(Get(data, "longs")), Get(data, lonDir)))
  }

  /** `parseDeprecatedCoords` as written: the directions from `latNs` and `longEw`, keys the
      deprecated format does not have (it writes `latNS` and `longEW`). */
  function DeprecatedCoordsAsWritten(data: Record): CoordResult
  {
    DeprecatedFrom(data, "latNs", "longEw")
  }

  /** `parseDeprecatedCoords` reading the format's own `latNS` and `longEW`. */
  function DeprecatedCoords(data: Record): CoordResult
  {
    DeprecatedFrom(data, "latNS", "longEW")
  }

  /** `parseCoordinates` as written: the infobox string when `coordinates` is truthy, else
      the deprecated fields when `latd` and `longd` are both truthy, else the error object;
      the two parsers are the as-written ones. */
  function ParseCoordinatesAsWritten(data: Record): (r: CoordResult)
    ensures r.Unlocated? <==> !Truthy(Get(data, "coordinates")) && !(Truthy(Get(data, "latd")) && Truthy(Get(data, "longd")))
    ensures r.Unlocated? ==> r.error == NoCoordinatesError
    ensures r.Thrown? ==> Truthy(Get(data, "coordinates"))
  {
    if Truthy(Get(data, "coordinates")) then InfoboxCoordsAsWritten(Get(data, "coordinates"))
    else if Truthy(Get(data, "latd")) && Truthy(Get(data, "longd")) then DeprecatedCoordsAsWritten(data)
    else Unlocated(NoCoordinatesError)
  }

  /** `parseCoordinates` over the corrected parsers: the same dispatch, with the latitude's
      letter kept and the deprecated letters read from `latNS` and `longEW`. */
  function ParseCoordinatesCorrected(data: Record): (r: CoordResult)
    ensures r.Unlocated? <==> !Truthy(Get(data, "coordinates")) && !(Truthy(Get(data, "latd")) && Truthy(Get(data, "longd")))
    ensures r.Unlocated? ==> r.error == NoCoordinatesError
    ensures r.Thrown? ==> Truthy(Get(data, "coordinates"))
  {
    if Truthy(Get(data, "coordinates")) then InfoboxCoords(Get(data, "coordinates"))
    else if Truthy(Get(data, "latd")) && Truthy(Get(data, "longd")) then DeprecatedCoords(data)
    else Unlocated(NoCoordinatesError)
  }

  // ------------------------------------------------------------ properties

  /** Rounding moves a value by at most half a unit in the fourth decimal place. */
  lemma Round4Close(x: real)
    ensures -0.00005 <= Round4(x) - x <= 0.00005
  {
    if x < 0.0 {
      RoundUp4Close(-x);
    } else {
      RoundUp4Close(x);
    }
  }

  lemma RoundUp4Close(x: real)
    ensures -0.00005 < RoundUp4(x) - x <= 0.00005
  {
    var n := (x * 10000.0 + 0.5).Floor;
    assert n as real <= x * 10000.0 + 0.5 < n as real + 1.0;
  }

  /** Rounding keeps the sign and is symmetric about zero. */
  lemma Round4Sign(x: real)
    ensures Round4(-x) == -Round4(x)
    ensures x >= 0.0 ==> Round4(x) >= 0.0
    ensures x <= 0.0 ==> Round4(x) <= 0.0
  {
    assert RoundUp4(0.0) == 0.0;
    if x >= 0.0 {
      assert (x * 10000.0 + 0.5).Floor >= 0;
    } else {
      assert (-x * 10000.0 + 0.5).Floor >= 0;
    }
  }

  /** The examples in the documentation of `floatOrDefault`. */
  lemma FloatOrDefaultExamples()
    ensures FloatOrDefault(Str("5")) == 5.0
    ensures FloatOrDefault(Undefined) == 0.0
  {
    DigitsNumber("5");
  }

  /** A group of digits reads as a non-negative number; an unmatched group as 0. */
  lemma OptionalNumeralValue(v: JsValue)
    requires OptionalNumeral(v)
    ensures FloatOrDefault(v) >= 0.0
    ensures v == Undefined ==> FloatOrDefault(v) == 0.0
  {
    if v.Str? {
      DigitsNumber(v.s);
    }
  }

  /** The example in the documentation of `dmsToDecimal`. */
  lemma DmsExample()
    ensures DmsToDecimal(100.0, 39.0, 58.0, Str("W")) == -181199.0 / 1800.0
    ensures Round4(DmsToDecimal(100.0, 39.0, 58.0, Str("W"))) == -100.6661
  {
    var x := 181199.0 / 1800.0;
    assert (x * 10000.0 + 0.5).Floor == 1006661;
  }

  /** A matched half converts to a number whose sign is its direction's. */
  lemma HalfSign(m: seq<JsValue>)
    requires |m| == 5 && HalfShape(m[1..])
    ensures Sign(m[4]) < 0.0 ==> ConvertFromStrings(m) <= 0.0
    ensures Sign(m[4]) > 0.0 ==> ConvertFromStrings(m) >= 0.0
  {
    assert m[1..][0] == m[1] && m[1..][1] == m[2] && m[1..][2] == m[3];
    OptionalNumeralValue(m[1]);
    OptionalNumeralValue(m[2]);
    OptionalNumeralValue(m[3]);
    var x := FloatOrDefault(m[1]) + FloatOrDefault(m[2]) / 60.0 + FloatOrDefault(m[3]) / 3600.0;
    assert x >= 0.0;
    assert Element(m, 1) == m[1] && Element(m, 2) == m[2] && Element(m, 3) == m[3] && Element(m, 4) == m[4];
  }

  /** `dmsToDecimal` is the sum of the parts times the direction's sign. */
  lemma DmsProduct(degrees: real, minutes: real, seconds: real, direction: JsValue)
    ensures DmsToDecimal(degrees, minutes, seconds, direction) ==
      (degrees + minutes / 60.0 + seconds / 3600.0) * Sign(direction)
  {
  }

  /** `matches.slice(0,4)` ends before the latitude's direction: it gives the latitude's
      magnitude, which the direction would have negated for S and W. */
  lemma SliceDropsDirection(m: seq<JsValue>)
    requires |m| == 9
    ensures ConvertFromStrings(m[..5]) ==
      if Sign(m[4]) < 0.0 then -ConvertFromStrings(m[..4]) else ConvertFromStrings(m[..4])
  {
    var x := FloatOrDefault(m[1]) + FloatOrDefault(m[2]) / 60.0 + FloatOrDefault(m[3]) / 3600.0;
    assert Element(m[..4], 4) == Undefined;
    assert Element(m[..4], 1) == m[1] && Element(m[..4], 2) == m[2] && Element(m[..4], 3) == m[3];
    assert Element(m[..5], 1) == m[1] && Element(m[..5], 2) == m[2] && Element(m[..5], 3) == m[3];
    assert Element(m[..5], 4) == m[4];
    assert ConvertFromStrings(m[..4]) == x;
    if Sign(m[4]) < 0.0 {
      assert Sign(m[4]) == -1.0;
    }
  }

  /** The first four elements of a match array give a number that is never negative. */
  lemma UnsignedSlice(m: seq<JsValue>)
    requires |m| == 9 && HalfShape(m[1..5])
    ensures ConvertFromStrings(m[..4]) >= 0.0
  {
    assert m[1..5][0] == m[1] && m[1..5][1] == m[2] && m[1..5][2] == m[3];
    OptionalNumeralValue(m[1]);
    OptionalNumeralValue(m[2]);
    OptionalNumeralValue(m[3]);
    assert Element(m[..4], 4) == Undefined;
    assert Element(m[..4], 1) == m[1] && Element(m[..4], 2) == m[2] && Element(m[..4], 3) == m[3];
  }

  /** As written, a latitude is never negative: southern coordinates come out northern. */
  lemma AsWrittenLatitudeUnsigned(s: string)
    requires InfoboxCoordsAsWritten(Str(s)).Located?
    ensures InfoboxCoordsAsWritten(Str(s)).lat >= 0.0
  {
    var m := CoordinateMatch(s).value;
    UnsignedSlice(m);
    Round4Sign(ConvertFromStrings(m[..4]));
  }

  /** With the direction kept, a latitude is south of the equator exactly as its letter says. */
  lemma LatitudeFollowsDirection(s: string)
    requires InfoboxCoords(Str(s)).Located?
    ensures CoordinateMatch(s).value[4] == Str("S") ==> InfoboxCoords(Str(s)).lat <= 0.0
    ensures CoordinateMatch(s).value[4] == Str("N") ==> InfoboxCoords(Str(s)).lat >= 0.0
  {
    var m := CoordinateMatch(s).value;
    assert m[..5][1..] == m[1..5];
    HalfSign(m[..5]);
    Round4Sign(ConvertFromStrings(m[..5]));
  }

  /** A longitude is west of Greenwich exactly as its letter says. */
  lemma LongitudeFollowsDirection(s: string)
    requires InfoboxCoords(Str(s)).Located?
    ensures CoordinateMatch(s).value[8] == Str("W") ==> InfoboxCoords(Str(s)).lon <= 0.0
    ensures CoordinateMatch(s).value[8] == Str("E") ==> InfoboxCoords(Str(s)).lon >= 0.0
  {
    var m := CoordinateMatch(s).value;
    HalfSign(m[4..]);
    Round4Sign(ConvertFromStrings(m[4..]));
  }

  /** As written, the deprecated fields' own direction letters are never read: whatever
      `latNS` and `longEW` hold, the result is the same. */
  lemma DeprecatedLettersIgnored(data: Record, lat: JsValue, lon: JsValue)
    ensures DeprecatedCoordsAsWritten(data["latNS" := lat]["longEW" := lon]) == DeprecatedCoordsAsWritten(data)
  {
    var d := data["latNS" := lat]["longEW" := lon];
    forall k | k != "latNS" && k != "longEW" ensures Get(d, k) == Get(data, k) {}
  }

  /** Reading `latNS`, a latitude with non-negative parts is south of the equator exactly as
      its letter says. */
  lemma DeprecatedLatitudeFollowsDirection(data: Record)
    requires FloatOrDefault(Get(data, "latd")) >= 0.0 && FloatOrDefault(Get(data, "latm")) >= 0.0
    requires FloatOrDefault(Get(data, "lats")) >= 0.0
    ensures Get(data, "latNS") == Str("S") ==> DeprecatedCoords(data).lat <= 0.0
    ensures Get(data, "latNS") != Str("S") && Get(data, "latNS") != Str("W") ==> DeprecatedCoords(data).lat >= 0.0
  {
    var x := DmsToDecimal(FloatOrDefault(Get(data, "latd")), FloatOrDefault(Get(data, "latm")),
                          FloatOrDefault(Get(data, "lats")), Get(data, "latNS"));
    Round4Sign(x);
  }

  /** A `coordinates` string the pattern does not match throws. */
  lemma UnmatchedCoordinatesThrow(data: Record)
    requires Truthy(Get(data, "coordinates")) && Get(data, "coordinates").Str?
    requires CoordinateMatch(Get(data, "coordinates").s).None?
    ensures ParseCoordinatesAsWritten(data) == Thrown
    ensures ParseCoordinatesCorrected(data) == Thrown
  {
  }

  /** The correction changes only the numbers: as written and corrected, `parseCoordinates`
      locates, reports the error object or throws on the same records, and on the
      `coordinates` path it gives the same longitude. */
  lemma CorrectionKeepsOutcome(data: Record)
    ensures ParseCoordinatesAsWritten(data).Located? <==> ParseCoordinatesCorrected(data).Located?
    ensures ParseCoordinatesAsWritten(data).Thrown? <==> ParseCoordinatesCorrected(data).Thrown?
    ensures ParseCoordinatesAsWritten(data) == ParseCoordinatesCorrected(data) || ParseCoordinatesAsWritten(data).Located?
    ensures Truthy(Get(data, "coordinates")) && ParseCoordinatesAsWritten(data).Located? ==>
              ParseCoordinatesAsWritten(data).lon == ParseCoordinatesCorrected(data).lon
  {
  }

  /** While `coordinates` is truthy, the deprecated fields are never read. */
  lemma CoordinatesShadowDeprecated(data: Record, key: string, v: JsValue)
    requires Truthy(Get(data, "coordinates")) && key != "coordinates"
    ensures ParseCoordinatesAsWritten(data[key := v]) == ParseCoordinatesAsWritten(data)
    ensures ParseCoordinatesCorrected(data[key := v]) == ParseCoordinatesCorrected(data)
  {
    assert Get(data[key := v], "coordinates") == Get(data, "coordinates");
  }

  // ------------------------------------------------------------ examples

  /** `{{coord|`, the opening of the infobox's coordinate template. */
  const CoordOpen := "{{coord|"

  lemma OpenNoDigit(s: string)
    requires Holds(s, 0, CoordOpen)
    ensures forall k :: 0 <= k < 8 ==> !IsDigit(s[k])
  {
    forall k | 0 <= k < 8
      ensures !IsDigit(s[k])
    {
      assert s[0 + k] == CoordOpen[k];
    }
  }

  /** A pattern spelled right after `{{coord|` is the match: the opening holds no digit, so
      no match starts inside it. */
  lemma MatchAfterOpen(s: string, body: string, lat: Half, lon: Half)
    requires Holds(s, 0, CoordOpen) && Holds(s, 8, body)
    requires PatternSpelled(s, 8, lat, false, lon, false)
    requires MatchEnd(CapturesOf(8, lat, false, lon, false)) == 8 + |body|
    ensures CoordinateMatch(s) == Some(MatchOf(body, lat, lon))
  {
    OpenNoDigit(s);
    MatchSpelled(s, 8, lat, false, lon, false);
    HoldsAt(s, 8, body);
    var e := MatchEnd(CapturesOf(8, lat, false, lon, false));
    assert s[8..e] == body;
  }

  /** A group of digits reads as its decimal value. */
  lemma GroupValue(ds: string)
    requires Numeral(ds)
    ensures FloatOrDefault(Str(ds)) == DigitsValue(ds) as real
  {
    DigitsNumber(ds);
  }

  lemma TwoDigits(ds: string)
    requires |ds| == 2 && AllDigits(ds)
    ensures DigitsValue(ds) == (ds[0] as int - '0' as int) * 10 + (ds[1] as int - '0' as int)
  {
    var front := ds[..1];
    assert ds[..|ds| - 1] == front && front[..|front| - 1] == [];
    assert DigitsValue(front) == front[0] as int - '0' as int;
    assert DigitsValue(ds) == DigitsValue(front) * 10 + (ds[1] as int - '0' as int);
  }

  lemma ThreeDigits(ds: string)
    requires |ds| == 3 && AllDigits(ds)
    ensures DigitsValue(ds) == (ds[0] as int - '0' as int) * 100 + (ds[1] as int - '0' as int) * 10 + (ds[2] as int - '0' as int)
  {
    var front := ds[..2];
    assert ds[..|ds| - 1] == front;
    assert front[0] == ds[0] && front[1] == ds[1];
    assert DigitsValue(ds) == DigitsValue(front) * 10 + (ds[2] as int - '0' as int);
    TwoDigits(front);
  }

  const CatanzaroCoord := "38|54|N|16|36|E"

  /** The match array of the Catanzaro page's `{{coord|38|54|N|16|36|E|...}}`. */
  const CatanzaroArray := [Str(CatanzaroCoord), Str("38"), Str("54"), Undefined, Str("N"), Str("16"), Str("36"), Undefined, Str("E")]

  /** The latitude half `38|54|N`, without the optional `|` before its letter. */
  /** The groups of the Catanzaro template body: each half's degrees, minutes and letter, with
      the `|` separators between them. */
  lemma CatanzaroGroups()
    ensures At(CatanzaroCoord, 0, "38") && PipeAt(CatanzaroCoord, 2) && At(CatanzaroCoord, 3, "54") && PipeAt(CatanzaroCoord, 5) && At(CatanzaroCoord, 6, "N")
    ensures PipeAt(CatanzaroCoord, 7)
    ensures At(CatanzaroCoord, 8, "16") && PipeAt(CatanzaroCoord, 10) && At(CatanzaroCoord, 11, "36") && PipeAt(CatanzaroCoord, 13) && At(CatanzaroCoord, 14, "E")
  {
  }

  lemma CatanzaroLatitudeText(s: string)
    requires Holds(s, 8, CatanzaroCoord)
    ensures Spelled(s, 8, Half("38", "54", Undefined, "N"), false)
  {
    CatanzaroGroups();
    AtWithin(s, 8, CatanzaroCoord, 0, "38", 8);
    PipeWithin(s, 8, CatanzaroCoord, 2, 10);
    AtWithin(s, 8, CatanzaroCoord, 3, "54", 11);
    PipeWithin(s, 8, CatanzaroCoord, 5, 13);
    AtWithin(s, 8, CatanzaroCoord, 6, "N", 14);
  }

  /** The longitude half `16|36|E`. */
  lemma CatanzaroLongitudeText(s: string)
    requires Holds(s, 8, CatanzaroCoord)
    ensures Spelled(s, 16, Half("16", "36", Undefined, "E"), false)
  {
    CatanzaroGroups();
    AtWithin(s, 8, CatanzaroCoord, 8, "16", 16);
    PipeWithin(s, 8, CatanzaroCoord, 10, 18);
    AtWithin(s, 8, CatanzaroCoord, 11, "36", 19);
    PipeWithin(s, 8, CatanzaroCoord, 13, 21);
    AtWithin(s, 8, CatanzaroCoord, 14, "E", 22);
  }

  /** The whole template body is the pattern, spelled from index 8. */
  lemma CatanzaroPattern(s: string)
    requires Holds(s, 8, CatanzaroCoord)
    ensures PatternSpelled(s, 8, Half("38", "54", Undefined, "N"), false, Half("16", "36", Undefined, "E"), false)
  {
    CatanzaroLatitudeText(s);
    CatanzaroLongitudeText(s);
    CatanzaroGroups();
    PipeWithin(s, 8, CatanzaroCoord, 7, 15);
  }

  lemma CatanzaroMatch(rest: string)
    ensures CoordinateMatch(CoordOpen + CatanzaroCoord + rest) == Some(CatanzaroArray)
  {
    var s := CoordOpen + CatanzaroCoord + rest;
    HoldsParts(CoordOpen, CatanzaroCoord, rest);
    CatanzaroPattern(s);
    MatchAfterOpen(s, CatanzaroCoord, Half("38", "54", Undefined, "N"), Half("16", "36", Undefined, "E"));
    assert MatchOf(CatanzaroCoord, Half("38", "54", Undefined, "N"), Half("16", "36", Undefined, "E")) == CatanzaroArray;
  }

  /** The Catanzaro page's coordinates: 38.9 north, 16.6 east, both as written and corrected,
      since both its letters are positive. */
  lemma CatanzaroCoordinates(rest: string)
    ensures InfoboxCoords(Str(CoordOpen + CatanzaroCoord + rest)) == Located(38.9, 16.6)
    ensures InfoboxCoordsAsWritten(Str(CoordOpen + CatanzaroCoord + rest)) == Located(38.9, 16.6)
  {
    CatanzaroMatch(rest);
    CatanzaroLatitude();
    CatanzaroLongitude();
    CatanzaroRounding(ConvertFromStrings(CatanzaroArray[..4]), ConvertFromStrings(CatanzaroArray[..5]), ConvertFromStrings(CatanzaroArray[4..]));
  }

  lemma CatanzaroRounding(unsigned: real, north: real, east: real)
    requires unsigned == 38.9 && north == 38.9 && east == 16.6
    ensures WikiCoordinates(unsigned, east) == Located(38.9, 16.6)
    ensures WikiCoordinates(north, east) == Located(38.9, 16.6)
  {
    assert (38.9 * 10000.0 + 0.5).Floor == 389000;
    assert (16.6 * 10000.0 + 0.5).Floor == 166000;
  }

  lemma CatanzaroLatitude()
    ensures ConvertFromStrings(CatanzaroArray[..4]) == 38.9
    ensures ConvertFromStrings(CatanzaroArray[..5]) == 38.9
  {
    var h, n := CatanzaroArray[..4], CatanzaroArray[..5];
    assert h[1] == Str("38") && h[2] == Str("54") && h[3] == Undefined && Element(h, 4) == Undefined;
    assert n[1] == Str("38") && n[2] == Str("54") && n[3] == Undefined && Element(n, 4) == Str("N");
    TwoDigits("38");
    TwoDigits("54");
    HalfDegrees(h, "38", "54", 38.9);
    HalfDegrees(n, "38", "54", 38.9);
  }

  lemma CatanzaroLongitude()
    ensures ConvertFromStrings(CatanzaroArray[4..]) == 16.6
  {
    var h := CatanzaroArray[4..];
    assert h[1] == Str("16") && h[2] == Str("36") && h[3] == Undefined && Element(h, 4) == Str("E");
    TwoDigits("16");
    TwoDigits("36");
    HalfDegrees(h, "16", "36", 16.6);
  }

  /** Degrees and minutes without seconds: the degrees plus the minutes over 60, signed by the
      letter. */
  lemma HalfDegrees(h: seq<JsValue>, deg: string, min: string, x: real)
    requires Numeral(deg) && Numeral(min)
    requires 4 <= |h| && h[1] == Str(deg) && h[2] == Str(min) && h[3] == Undefined
    requires x == DigitsValue(deg) as real + DigitsValue(min) as real / 60.0
    ensures ConvertFromStrings(h) == if Sign(Element(h, 4)) < 0.0 then -x else x
  {
    GroupValue(deg);
    GroupValue(min);
    assert Element(h, 1) == Str(deg) && Element(h, 2) == Str(min) && Element(h, 3) == Undefined;
    assert FloatOrDefault(Undefined) == 0.0;
    var magnitude := FloatOrDefault(Str(deg)) + FloatOrDefault(Str(min)) / 60.0 + 0.0 / 3600.0;
    assert magnitude == x;
  }

  const SydneyCoord := "33|52|S|151|12|E"

  /** The match array of `{{coord|33|52|S|151|12|E|...}}`, a point south of the equator. */
  const SydneyArray := [Str(SydneyCoord), Str("33"), Str("52"), Undefined, Str("S"), Str("151"), Str("12"), Undefined, Str("E")]

  /** The groups of the Sydney template body: each half's degrees, minutes and letter, with
      the `|` separators between them. */
  lemma SydneyGroups()
    ensures At(SydneyCoord, 0, "33") && PipeAt(SydneyCoord, 2) && At(SydneyCoord, 3, "52") && PipeAt(SydneyCoord, 5) && At(SydneyCoord, 6, "S")
    ensures PipeAt(SydneyCoord, 7)
    ensures At(SydneyCoord, 8, "151") && PipeAt(SydneyCoord, 11) && At(SydneyCoord, 12, "12") && PipeAt(SydneyCoord, 14) && At(SydneyCoord, 15, "E")
  {
  }

  lemma SydneyLatitudeText(s: string)
    requires Holds(s, 8, SydneyCoord)
    ensures Spelled(s, 8, Half("33", "52", Undefined, "S"), false)
  {
    SydneyGroups();
    AtWithin(s, 8, SydneyCoord, 0, "33", 8);
    PipeWithin(s, 8, SydneyCoord, 2, 10);
    AtWithin(s, 8, SydneyCoord, 3, "52", 11);
    PipeWithin(s, 8, SydneyCoord, 5, 13);
    AtWithin(s, 8, SydneyCoord, 6, "S", 14);
  }

  /** The longitude half `151|12|E`, with three degree digits. */
  lemma SydneyLongitudeText(s: string)
    requires Holds(s, 8, SydneyCoord)
    ensures Spelled(s, 16, Half("151", "12", Undefined, "E"), false)
  {
    SydneyGroups();
    AtWithin(s, 8, SydneyCoord, 8, "151", 16);
    PipeWithin(s, 8, SydneyCoord, 11, 19);
    AtWithin(s, 8, SydneyCoord, 12, "12", 20);
    PipeWithin(s, 8, SydneyCoord, 14, 22);
    AtWithin(s, 8, SydneyCoord, 15, "E", 23);
  }

  /** The whole template body is the pattern, spelled from index 8. */
  lemma SydneyPattern(s: string)
    requires Holds(s, 8, SydneyCoord)
    ensures PatternSpelled(s, 8, Half("33", "52", Undefined, "S"), false, Half("151", "12", Undefined, "E"), false)
  {
    SydneyLatitudeText(s);
    SydneyLongitudeText(s);
    SydneyGroups();
    PipeWithin(s, 8, SydneyCoord, 7, 15);
  }

  lemma SydneyMatch(rest: string)
    ensures CoordinateMatch(CoordOpen + SydneyCoord + rest) == Some(SydneyArray)
  {
    var s := CoordOpen + SydneyCoord + rest;
    HoldsParts(CoordOpen, SydneyCoord, rest);
    SydneyPattern(s);
    MatchAfterOpen(s, SydneyCoord, Half("33", "52", Undefined, "S"), Half("151", "12", Undefined, "E"));
    assert MatchOf(SydneyCoord, Half("33", "52", Undefined, "S"), Half("151", "12", Undefined, "E")) == SydneyArray;
  }

  /** `{{coord|33|52|S|151|12|E|...}}`: as written the latitude loses its `S` and comes out
      33.8667 north; with the letter kept it is 33.8667 south. */
  lemma SydneyCoordinates(rest: string)
    ensures InfoboxCoordsAsWritten(Str(CoordOpen + SydneyCoord + rest)) == Located(33.8667, 151.2)
    ensures InfoboxCoords(Str(CoordOpen + SydneyCoord + rest)) == Located(-33.8667, 151.2)
  {
    SydneyMatch(rest);
    SydneyLongitude();
    SydneyUnsigned();
    SydneySouth();
    SydneyRounding(ConvertFromStrings(SydneyArray[..4]), ConvertFromStrings(SydneyArray[..5]), ConvertFromStrings(SydneyArray[4..]));
  }

  lemma SydneyRounding(north: real, south: real, east: real)
    requires north == 508.0 / 15.0 && south == -508.0 / 15.0 && east == 151.2
    ensures WikiCoordinates(north, east) == Located(33.8667, 151.2)
    ensures WikiCoordinates(south, east) == Located(-33.8667, 151.2)
  {
    assert (508.0 / 15.0 * 10000.0 + 0.5).Floor == 338667;
    assert (151.2 * 10000.0 + 0.5).Floor == 1512000;
  }

  lemma SydneyUnsigned()
    ensures ConvertFromStrings(SydneyArray[..4]) == 508.0 / 15.0
  {
    var h := SydneyArray[..4];
    assert h[1] == Str("33") && h[2] == Str("52") && h[3] == Undefined;
    assert Element(h, 4) == Undefined;
    SydneyLatitude(h, 1.0);
  }

  lemma SydneySouth()
    ensures ConvertFromStrings(SydneyArray[..5]) == -508.0 / 15.0
  {
    var h := SydneyArray[..5];
    assert h[1] == Str("33") && h[2] == Str("52") && h[3] == Undefined && h[4] == Str("S");
    SouthSign(h);
    SydneyLatitude(h, -1.0);
  }

  lemma SouthSign(h: seq<JsValue>)
    requires |h| == 5 && h[4] == Str("S")
    ensures Sign(Element(h, 4)) == -1.0
  {
  }

  lemma SydneyLatitude(h: seq<JsValue>, sign: real)
    requires 4 <= |h| && h[1] == Str("33") && h[2] == Str("52") && h[3] == Undefined
    requires Sign(Element(h, 4)) == sign
    ensures sign == 1.0 ==> ConvertFromStrings(h) == 508.0 / 15.0
    ensures sign == -1.0 ==> ConvertFromStrings(h) == -508.0 / 15.0
  {
    TwoDigits("33");
    TwoDigits("52");
    HalfDegrees(h, "33", "52", 508.0 / 15.0);
  }

  lemma SydneyLongitude()
    ensures ConvertFromStrings(SydneyArray[4..]) == 151.2
  {
    var h := SydneyArray[4..];
    assert h[1] == Str("151") && h[2] == Str("12") && h[3] == Undefined && Element(h, 4) == Str("E");
    ThreeDigits("151");
    TwoDigits("12");
    HalfDegrees(h, "151", "12", 151.2);
  }

  /** `data[key]` is a string of digits worth `n`. */
  predicate DigitsWorth(data: Record, key: string, n: nat)
  {
    Get(data, key).Str? && Numeral(Get(data, key).s) && DigitsValue(Get(data, key).s) == n
  }

  /** A record holding Solok's deprecated-format fields, 0° 47' 59" S, 100° 39' 58" E (the
      digits as the infobox writes them, `latd = 00` and so on), and no `coordinates`. */
  predicate SolokFields(data: Record)
  {
    DigitsWorth(data, "latd", 0) && DigitsWorth(data, "latm", 47) && DigitsWorth(data, "lats", 59) &&
    DigitsWorth(data, "longd", 100) && DigitsWorth(data, "longm", 39) && DigitsWorth(data, "longs", 58) &&
    Get(data, "latNS") == Str("S") && Get(data, "longEW") == Str("E") &&
    Get(data, "coordinates") == Undefined && Get(data, "latNs") == Undefined && Get(data, "longEw") == Undefined
  }

  /** As written, Solok comes out north of the equator; reading `latNS` puts it south. */
  lemma SolokCoordinates(data: Record)
    requires SolokFields(data)
    ensures DeprecatedCoordsAsWritten(data) == Located(0.7997, 100.6661)
    ensures DeprecatedCoords(data) == Located(-0.7997, 100.6661)
    ensures ParseCoordinatesAsWritten(data) == Located(0.7997, 100.6661)
    ensures ParseCoordinatesCorrected(data) == Located(-0.7997, 100.6661)
  {
    var lat := 2879.0 / 3600.0;
    var lon := 181199.0 / 1800.0;
    SolokParts(data);
    SolokDegrees(data, lat, lon);
    SolokRounding(lat, lon);
    DeprecatedWhenNoCoordinates(data);
  }

  /** Without `coordinates`, truthy `latd` and `longd` select the deprecated fields. */
  lemma DeprecatedWhenNoCoordinates(data: Record)
    requires Get(data, "coordinates") == Undefined
    requires Get(data, "latd").Str? && Get(data, "latd").s != ""
    requires Get(data, "longd").Str? && Get(data, "longd").s != ""
    ensures ParseCoordinatesAsWritten(data) == DeprecatedCoordsAsWritten(data)
    ensures ParseCoordinatesCorrected(data) == DeprecatedCoords(data)
  {
  }

  /** Solok's latitude and longitude before rounding, with either key for the letters. */
  lemma SolokDegrees(data: Record, lat: real, lon: real)
    requires FloatOrDefault(Get(data, "latd")) == 0.0 && FloatOrDefault(Get(data, "latm")) == 47.0
    requires FloatOrDefault(Get(data, "lats")) == 59.0 && FloatOrDefault(Get(data, "longd")) == 100.0
    requires FloatOrDefault(Get(data, "longm")) == 39.0 && FloatOrDefault(Get(data, "longs")) == 58.0
    requires Get(data, "latNS") == Str("S") && Get(data, "longEW") == Str("E")
    requires Get(data, "latNs") == Undefined && Get(data, "longEw") == Undefined
    requires lat == 2879.0 / 3600.0 && lon == 181199.0 / 1800.0
    ensures DeprecatedCoordsAsWritten(data) == WikiCoordinates(lat, lon)
    ensures DeprecatedCoords(data) == WikiCoordinates(-lat, lon)
  {
    assert DmsToDecimal(0.0, 47.0, 59.0, Undefined) == lat;
    assert DmsToDecimal(0.0, 47.0, 59.0, Str("S")) == -lat;
    assert DmsToDecimal(100.0, 39.0, 58.0, Undefined) == lon;
    assert DmsToDecimal(100.0, 39.0, 58.0, Str("E")) == lon;
  }

  /** The numbers Solok's fields read as. */
  lemma SolokParts(data: Record)
    requires SolokFields(data)
    ensures FloatOrDefault(Get(data, "latd")) == 0.0 && FloatOrDefault(Get(data, "latm")) == 47.0
    ensures FloatOrDefault(Get(data, "lats")) == 59.0 && FloatOrDefault(Get(data, "longd")) == 100.0
    ensures FloatOrDefault(Get(data, "longm")) == 39.0 && FloatOrDefault(Get(data, "longs")) == 58.0
  {
    FieldValue(data, "latd", 0);
    FieldValue(data, "latm", 47);
    FieldValue(data, "lats", 59);
    FieldValue(data, "longd", 100);
    FieldValue(data, "longm", 39);
    FieldValue(data, "longs", 58);
  }

  lemma FieldValue(data: Record, key: string, n: nat)
    requires DigitsWorth(data, key, n)
    ensures FloatOrDefault(Get(data, key)) == n as real
  {
    GroupValue(Get(data, key).s);
  }

  lemma SolokRounding(lat: real, lon: real)
    requires lat == 2879.0 / 3600.0 && lon == 181199.0 / 1800.0
    ensures Round4(lat) == 0.7997 && Round4(-lat) == -0.7997 && Round4(lon) == 100.6661
  {
    assert (lat * 10000.0 + 0.5).Floor == 7997;
    assert (lon * 10000.0 + 0.5).Floor == 1006661;
  }
}
