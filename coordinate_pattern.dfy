/** `infoboxCoordinatePattern` of src/coordinates.js,
    `/(\d{1,2})\|(\d{1,2})\|(\d{1,2})?\|?([NSEW])\|(\d{1,3})\|(\d{1,2})\|(\d{1,2})?\|?([NSEW])/`,
    and `String.prototype.match` with it: the backtracking engine that tries the pattern at one
    index, the leftmost search, and the text the pattern accepts. */
module CoordinatePattern {
  import opened JsString
  import opened Metadata

  /** The four groups of one half of the pattern: degrees, minutes, seconds (undefined when
      the optional group takes no part) and the compass letter. */
  datatype Half = Half(degrees: string, minutes: string, seconds: JsValue, direction: string)

  /** Where the groups of a matched half lie, as an engine records its captures: the lengths
      of the degree, minute and second runs (no seconds: 0) and whether the optional `|`
      before the letter was taken. */
  datatype Shape = Shape(deg: nat, min: nat, sec: nat, bar: bool)

  /** The outcome of trying a half at one index. */
  datatype HalfMatch = NoHalf | Found(shape: Shape)

  /** A non-empty run of digits. */
  predicate Numeral(s: string)
  {
    s != "" && AllDigits(s)
  }

  predicate OptionalNumeral(v: JsValue)
  {
    v == Undefined || (v.Str? && Numeral(v.s))
  }

  predicate Compass(c: char)
  {
    c == 'N' || c == 'S' || c == 'E' || c == 'W'
  }

  /** The groups a half can have: digits, digits, digits or undefined, one compass letter. */
  predicate WellFormed(h: Half)
  {
    Numeral(h.degrees) && Numeral(h.minutes) && OptionalNumeral(h.seconds) &&
    |h.direction| == 1 && Compass(h.direction[0])
  }

  /** `s[i]` is the `|` separator. */
  predicate PipeAt(s: string, i: nat)
  {
    i < |s| && s[i] == '|'
  }

  predicate LetterAt(s: string, i: nat)
  {
    i < |s| && Compass(s[i])
  }

  predicate DigitsAt(s: string, i: nat, len: nat)
  {
    i + len <= |s| && forall k :: i <= k < i + len ==> IsDigit(s[k])
  }

  // ------------------------------------------------------------ the engine

  /** A half tried at `i` with at most `n` degree digits, in the engine's backtracking order:
      a greedy quantifier tries its longest run first, an optional group is taken before it
      is left out, and a failure falls back to the next choice. */
  function HalfAt(s: string, i: nat, n: nat): HalfMatch
  {
    DegreesTry(s, i, n)
  }

  /** Degrees of `len` digits and a `|`, then fewer digits. */
  function DegreesTry(s: string, i: nat, len: nat): HalfMatch
    decreases len
  {
    if len == 0 then NoHalf
    else
      var r := if DigitsAt(s, i, len) && PipeAt(s, i + len) then MinutesTry(s, i + len + 1, len, 2) else NoHalf;
      if r.Found? then r else DegreesTry(s, i, len - 1)
  }

  /** Minutes from `j`, after `deg` degree digits. */
  function MinutesTry(s: string, j: nat, deg: nat, len: nat): HalfMatch
    decreases len
  {
    if len == 0 then NoHalf
    else
      var r := if DigitsAt(s, j, len) && PipeAt(s, j + len) then SecondsTry(s, j + len + 1, deg, len, 3) else NoHalf;
      if r.Found? then r else MinutesTry(s, j, deg, len - 1)
  }

  /** The optional seconds group from `j`: `k` is 3 for two digits, 2 for one, 1 for the
      group left out. */
  function SecondsTry(s: string, j: nat, deg: nat, min: nat, k: nat): HalfMatch
    decreases k
  {
    if k == 0 then NoHalf
    else
      var r :=
        if k == 1 then PipeTry(s, j, deg, min, 0)
        else if DigitsAt(s, j, k - 1) then PipeTry(s, j + k - 1, deg, min, k - 1)
        else NoHalf;
      if r.Found? then r else SecondsTry(s, j, deg, min, k - 1)
  }

  /** The optional `|` before the letter: taken when present, then left out. */
  function PipeTry(s: string, j: nat, deg: nat, min: nat, sec: nat): HalfMatch
  {
    var r := if PipeAt(s, j) then LetterTry(s, j + 1, Shape(deg, min, sec, true)) else NoHalf;
    if r.Found? then r else LetterTry(s, j, Shape(deg, min, sec, false))
  }

  function LetterTry(s: string, j: nat, sh: Shape): HalfMatch
  {
    if LetterAt(s, j) then Found(sh) else NoHalf
  }

  // ------------------------------------------------------------ where a half lies

  /** The text from `j` holds the optional `|` and the letter of `sh`. */
  predicate PipeShape(s: string, j: nat, sh: Shape)
  {
    if sh.bar then PipeAt(s, j) && LetterAt(s, j + 1) else LetterAt(s, j)
  }

  predicate SecondsShape(s: string, j: nat, sh: Shape)
  {
    sh.sec <= 2 && DigitsAt(s, j, sh.sec) && PipeShape(s, j + sh.sec, sh)
  }

  predicate MinutesShape(s: string, j: nat, sh: Shape)
  {
    1 <= sh.min <= 2 && DigitsAt(s, j, sh.min) && PipeAt(s, j + sh.min) && SecondsShape(s, j + sh.min + 1, sh)
  }

  /** A half of the pattern with at most `n` degree digits lies at `i` with the captures `sh`. */
  predicate ShapeAt(s: string, i: nat, n: nat, sh: Shape)
  {
    1 <= sh.deg <= n && DigitsAt(s, i, sh.deg) && PipeAt(s, i + sh.deg) && MinutesShape(s, i + sh.deg + 1, sh)
  }

  /** The length of the seconds, the optional `|` and the letter. */
  function TailLength(sh: Shape): nat
  {
    sh.sec + (if sh.bar then 2 else 1)
  }

  function HalfLength(sh: Shape): nat
  {
    sh.deg + 1 + sh.min + 1 + TailLength(sh)
  }

  /** The groups a half captures. */
  function HalfOf(s: string, i: nat, sh: Shape): (h: Half)
    requires i + HalfLength(sh) <= |s|
    ensures |h.degrees| == sh.deg && |h.minutes| == sh.min && |h.direction| == 1
  {
    var m := i + sh.deg + 1;
    var c := m + sh.min + 1;
    var l := i + HalfLength(sh) - 1;
    Half(s[i..i + sh.deg], s[m..m + sh.min], if sh.sec == 0 then Undefined else Str(s[c..c + sh.sec]), s[l..l + 1])
  }

  // ------------------------------------------------------------ the engine finds a half that lies there

  /** Neither `|` nor a compass letter is a digit. */
  lemma PipeShapeStart(s: string, j: nat, sh: Shape)
    requires PipeShape(s, j, sh)
    ensures j < |s| && !IsDigit(s[j]) && (!sh.bar ==> !PipeAt(s, j))
  {
  }

  lemma PipeFound(s: string, j: nat, sh: Shape)
    requires PipeShape(s, j, sh)
    ensures PipeTry(s, j, sh.deg, sh.min, sh.sec) == Found(sh)
  {
    PipeShapeStart(s, j, sh);
  }

  lemma {:induction false} SecondsFound(s: string, j: nat, sh: Shape, k: nat)
    requires SecondsShape(s, j, sh) && sh.sec < k <= 3
    ensures SecondsTry(s, j, sh.deg, sh.min, k) == Found(sh)
    decreases k
  {
    PipeShapeStart(s, j + sh.sec, sh);
    if k - 1 > sh.sec {
      assert !DigitsAt(s, j, k - 1);
      SecondsFound(s, j, sh, k - 1);
    } else {
      PipeFound(s, j + sh.sec, sh);
    }
  }

  lemma {:induction false} MinutesFound(s: string, j: nat, sh: Shape, len: nat)
    requires MinutesShape(s, j, sh) && sh.min <= len
    ensures MinutesTry(s, j, sh.deg, len) == Found(sh)
    decreases len
  {
    if len > sh.min {
      assert !DigitsAt(s, j, len) by {
        assert !IsDigit(s[j + sh.min]);
      }
      MinutesFound(s, j, sh, len - 1);
    } else {
      SecondsFound(s, j + sh.min + 1, sh, 3);
    }
  }

  lemma {:induction false} DegreesFound(s: string, i: nat, sh: Shape, len: nat)
    requires ShapeAt(s, i, len, sh)
    ensures DegreesTry(s, i, len) == Found(sh)
    decreases len
  {
    if len > sh.deg {
      assert !DigitsAt(s, i, len) by {
        assert !IsDigit(s[i + sh.deg]);
      }
      DegreesFound(s, i, sh, len - 1);
    } else {
      MinutesFound(s, i + sh.deg + 1, sh, 2);
    }
  }

  /** Completeness: a half that lies at `i` is the half the engine finds there. */
  lemma HalfAtComplete(s: string, i: nat, n: nat, sh: Shape)
    requires ShapeAt(s, i, n, sh)
    ensures HalfAt(s, i, n) == Found(sh)
  {
    DegreesFound(s, i, sh, n);
  }

  // ------------------------------------------------------------ what the engine finds lies there

  lemma PipeSound(s: string, j: nat, deg: nat, min: nat, sec: nat)
    requires PipeTry(s, j, deg, min, sec).Found?
    ensures var sh := PipeTry(s, j, deg, min, sec).shape;
      sh.deg == deg && sh.min == min && sh.sec == sec && PipeShape(s, j, sh)
  {
  }

  lemma {:induction false} SecondsSound(s: string, j: nat, deg: nat, min: nat, k: nat)
    requires k <= 3 && SecondsTry(s, j, deg, min, k).Found?
    ensures var sh := SecondsTry(s, j, deg, min, k).shape;
      sh.deg == deg && sh.min == min && sh.sec < k && SecondsShape(s, j, sh)
    decreases k
  {
    if k == 1 {
      PipeSound(s, j, deg, min, 0);
    } else if DigitsAt(s, j, k - 1) && PipeTry(s, j + k - 1, deg, min, k - 1).Found? {
      PipeSound(s, j + k - 1, deg, min, k - 1);
    } else {
      SecondsSound(s, j, deg, min, k - 1);
    }
  }

  lemma {:induction false} MinutesSound(s: string, j: nat, deg: nat, len: nat)
    requires len <= 2 && MinutesTry(s, j, deg, len).Found?
    ensures var sh := MinutesTry(s, j, deg, len).shape;
      sh.deg == deg && sh.min <= len && MinutesShape(s, j, sh)
    decreases len
  {
    if DigitsAt(s, j, len) && PipeAt(s, j + len) && SecondsTry(s, j + len + 1, deg, len, 3).Found? {
      SecondsSound(s, j + len + 1, deg, len, 3);
    } else {
      MinutesSound(s, j, deg, len - 1);
    }
  }

  lemma {:induction false} DegreesSound(s: string, i: nat, len: nat)
    requires DegreesTry(s, i, len).Found?
    ensures ShapeAt(s, i, len, DegreesTry(s, i, len).shape)
    decreases len
  {
    if DigitsAt(s, i, len) && PipeAt(s, i + len) && MinutesTry(s, i + len + 1, len, 2).Found? {
      MinutesSound(s, i + len + 1, len, 2);
    } else {
      DegreesSound(s, i, len - 1);
    }
  }

  /** Soundness: the half the engine finds lies at `i`. */
  lemma HalfAtSound(s: string, i: nat, n: nat)
    requires HalfAt(s, i, n).Found?
    ensures ShapeAt(s, i, n, HalfAt(s, i, n).shape)
  {
    DegreesSound(s, i, n);
  }

  /** The engine finds `sh` exactly when a half lies at `i` with the captures `sh`; so a half
      lies at an index in one way at most, and backtracking into it never finds another. */
  lemma HalfMatchesShape(s: string, i: nat, n: nat, sh: Shape)
    ensures HalfAt(s, i, n) == Found(sh) <==> ShapeAt(s, i, n, sh)
  {
    if HalfAt(s, i, n) == Found(sh) {
      HalfAtSound(s, i, n);
    }
    if ShapeAt(s, i, n, sh) {
      HalfAtComplete(s, i, n, sh);
    }
  }

  lemma ShapeUnique(s: string, i: nat, n: nat, sh1: Shape, sh2: Shape)
    requires ShapeAt(s, i, n, sh1) && ShapeAt(s, i, n, sh2)
    ensures sh1 == sh2
  {
    HalfAtComplete(s, i, n, sh1);
    HalfAtComplete(s, i, n, sh2);
  }

  /** A half that lies at `i` fits in the text and captures well-formed groups. */
  lemma ShapeGroups(s: string, i: nat, n: nat, sh: Shape)
    requires ShapeAt(s, i, n, sh)
    ensures i + HalfLength(sh) <= |s|
    ensures var h := HalfOf(s, i, sh);
      WellFormed(h) && |h.degrees| <= n && |h.minutes| <= 2 && |SecondsText(h.seconds)| == sh.sec <= 2
  {
    var h := HalfOf(s, i, sh);
    var m := i + sh.deg + 1;
    var c := m + sh.min + 1;
    assert AllDigits(h.degrees) by {
      forall k | 0 <= k < |h.degrees| ensures IsDigit(h.degrees[k]) {
        assert h.degrees[k] == s[i + k];
      }
    }
    assert AllDigits(h.minutes) by {
      forall k | 0 <= k < |h.minutes| ensures IsDigit(h.minutes[k]) {
        assert h.minutes[k] == s[m + k];
      }
    }
    if sh.sec > 0 {
      assert AllDigits(h.seconds.s) by {
        forall k | 0 <= k < |h.seconds.s| ensures IsDigit(h.seconds.s[k]) {
          assert h.seconds.s[k] == s[c + k];
        }
      }
    }
    assert h.direction[0] == s[i + HalfLength(sh) - 1];
  }

  // ------------------------------------------------------------ the whole pattern

  /** Where the whole pattern lies: its start and the captures of its two halves. */
  datatype Captures = Captures(start: nat, lat: Shape, lon: Shape)

  /** Where the second half begins, after the first half and the `|` between them. */
  function LonStart(c: Captures): nat
  {
    c.start + HalfLength(c.lat) + 1
  }

  function MatchEnd(c: Captures): nat
  {
    LonStart(c) + HalfLength(c.lon)
  }

  /** The pattern lies in `s` with the captures `c`. */
  predicate PatternAt(s: string, c: Captures, latMax: nat, lonMax: nat)
  {
    ShapeAt(s, c.start, latMax, c.lat) && PipeAt(s, LonStart(c) - 1) && ShapeAt(s, LonStart(c), lonMax, c.lon)
  }

  /** The pattern tried at `i`: a half with at most two degree digits, `|`, a half with at
      most three. When the second half fails the engine would backtrack into the first, but a
      half lies at an index in one way at most (`HalfMatchesShape`), so there is nothing else
      to try. */
  function PatternTry(s: string, i: nat, latMax: nat, lonMax: nat): Option<Captures>
  {
    match HalfAt(s, i, latMax)
    case NoHalf => None
    case Found(lat) =>
      var j := i + HalfLength(lat) + 1;
      if !PipeAt(s, j - 1) then None
      else
        match HalfAt(s, j, lonMax)
        case NoHalf => None
        case Found(lon) => Some(Captures(i, lat, lon))
  }

  lemma PatternTryComplete(s: string, latMax: nat, lonMax: nat, c: Captures)
    requires PatternAt(s, c, latMax, lonMax)
    ensures PatternTry(s, c.start, latMax, lonMax) == Some(c)
  {
    HalfAtComplete(s, c.start, latMax, c.lat);
    HalfAtComplete(s, LonStart(c), lonMax, c.lon);
  }

  lemma PatternTrySound(s: string, i: nat, latMax: nat, lonMax: nat, c: Captures)
    requires PatternTry(s, i, latMax, lonMax) == Some(c)
    ensures c.start == i && PatternAt(s, c, latMax, lonMax)
  {
    if HalfAt(s, i, latMax).Found? {
      HalfAtSound(s, i, latMax);
      var j := i + HalfLength(HalfAt(s, i, latMax).shape) + 1;
      if HalfAt(s, j, lonMax).Found? {
        HalfAtSound(s, j, lonMax);
      }
    }
  }

  /** The pattern tried at an index finds exactly the captures with which it lies there. */
  lemma PatternTryMatches(s: string, latMax: nat, lonMax: nat, c: Captures)
    ensures PatternTry(s, c.start, latMax, lonMax) == Some(c) <==> PatternAt(s, c, latMax, lonMax)
  {
    if PatternTry(s, c.start, latMax, lonMax) == Some(c) {
      PatternTrySound(s, c.start, latMax, lonMax, c);
    }
    if PatternAt(s, c, latMax, lonMax) {
      PatternTryComplete(s, latMax, lonMax, c);
    }
  }

  // ------------------------------------------------------------ the search

  /** A regular expression without the `g` flag is tried at each index in turn, from `from`
      up to `last`, and the first match is the result. */
  function FirstMatch<T>(tryAt: nat -> Option<T>, from: nat, last: nat): Option<T>
    decreases last + 1 - from
  {
    if from > last then None
    else if tryAt(from).Some? then tryAt(from)
    else FirstMatch(tryAt, from + 1, last)
  }

  /** The search finds the match at the leftmost index where there is one, and finds
      nothing when there is none. */
  lemma {:induction false} FirstMatchLeftmost<T>(tryAt: nat -> Option<T>, from: nat, last: nat)
    ensures FirstMatch(tryAt, from, last).Some? ==>
      exists i :: from <= i <= last && tryAt(i) == FirstMatch(tryAt, from, last) &&
        forall k :: from <= k < i ==> tryAt(k).None?
    ensures FirstMatch(tryAt, from, last).None? ==> forall k :: from <= k <= last ==> tryAt(k).None?
    decreases last + 1 - from
  {
    if from <= last && tryAt(from).None? {
      FirstMatchLeftmost(tryAt, from + 1, last);
      if FirstMatch(tryAt, from, last).Some? {
        var i :| from + 1 <= i <= last && tryAt(i) == FirstMatch(tryAt, from + 1, last) &&
          forall k :: from + 1 <= k < i ==> tryAt(k).None?;
        assert from <= i <= last && tryAt(i) == FirstMatch(tryAt, from, last);
      }
    }
  }

  /** The search passes over indices where nothing matches. */
  lemma {:induction false} FirstMatchSkips<T>(tryAt: nat -> Option<T>, from: nat, to: nat, last: nat)
    requires from <= to <= last + 1
    requires forall k :: from <= k < to ==> tryAt(k).None?
    ensures FirstMatch(tryAt, from, last) == FirstMatch(tryAt, to, last)
    decreases (to as int) - (from as int)
  {
    if from < to {
      FirstMatchSkips(tryAt, from + 1, to, last);
    }
  }

  /** The search stops at the first index where the pattern is tried with success. */
  lemma FirstMatchAt<T>(tryAt: nat -> Option<T>, from: nat, last: nat, i: nat)
    requires from <= i <= last && tryAt(i).Some? && forall k :: from <= k < i ==> tryAt(k).None?
    ensures FirstMatch(tryAt, from, last) == tryAt(i)
  {
    FirstMatchSkips(tryAt, from, i, last);
  }

  /** Where a search that finds something found it. */
  lemma {:induction false} FirstMatchIndex<T>(tryAt: nat -> Option<T>, from: nat, last: nat) returns (i: nat)
    requires FirstMatch(tryAt, from, last).Some?
    ensures from <= i <= last && tryAt(i) == FirstMatch(tryAt, from, last)
    ensures forall k :: from <= k < i ==> tryAt(k).None?
    decreases last + 1 - from
  {
    if tryAt(from).Some? {
      i := from;
    } else {
      i := FirstMatchIndex(tryAt, from + 1, last);
    }
  }

  /** The leftmost place at or after `from` where the pattern lies. */
  function Search(s: string, from: nat, latMax: nat, lonMax: nat): Option<Captures>
  {
    FirstMatch(i => PatternTry(s, i, latMax, lonMax), from, |s|)
  }

  /** What the search finds lies there, and the pattern is tried in vain before it. */
  lemma SearchSound(s: string, from: nat, latMax: nat, lonMax: nat)
    requires Search(s, from, latMax, lonMax).Some?
    ensures var c := Search(s, from, latMax, lonMax).value;
      from <= c.start && PatternAt(s, c, latMax, lonMax) && forall k :: from <= k < c.start ==> PatternTry(s, k, latMax, lonMax).None?
  {
    var f := (i: nat) => PatternTry(s, i, latMax, lonMax);
    var i := FirstMatchIndex(f, from, |s|);
    PatternTrySound(s, i, latMax, lonMax, Search(s, from, latMax, lonMax).value);
    forall k | from <= k < i
      ensures PatternTry(s, k, latMax, lonMax).None?
    {
      assert f(k).None?;
    }
  }

  /** The search finds the pattern where it lies when it is tried in vain before. */
  lemma SearchFinds(s: string, from: nat, latMax: nat, lonMax: nat, c: Captures)
    requires from <= c.start && PatternAt(s, c, latMax, lonMax) && forall k :: from <= k < c.start ==> PatternTry(s, k, latMax, lonMax).None?
    ensures Search(s, from, latMax, lonMax) == Some(c)
  {
    ShapeGroups(s, c.start, latMax, c.lat);
    PatternTryComplete(s, latMax, lonMax, c);
    FirstMatchAt(i => PatternTry(s, i, latMax, lonMax), from, |s|, c.start);
  }

  /** The search finds `c` exactly when the pattern lies at `c` and is tried in vain at every
      index between `from` and `c.start`. */
  lemma SearchLeftmost(s: string, from: nat, latMax: nat, lonMax: nat, c: Captures)
    ensures Search(s, from, latMax, lonMax) == Some(c) <==>
      from <= c.start && PatternAt(s, c, latMax, lonMax) && forall k :: from <= k < c.start ==> PatternTry(s, k, latMax, lonMax).None?
  {
    if Search(s, from, latMax, lonMax) == Some(c) {
      SearchSound(s, from, latMax, lonMax);
    }
    if from <= c.start && PatternAt(s, c, latMax, lonMax) && forall k :: from <= k < c.start ==> PatternTry(s, k, latMax, lonMax).None? {
      SearchFinds(s, from, latMax, lonMax, c);
    }
  }

  /** The search finds nothing exactly when the pattern is tried in vain at every index. */
  lemma SearchNone(s: string, from: nat, latMax: nat, lonMax: nat)
    ensures Search(s, from, latMax, lonMax).None? <==> forall k :: from <= k <= |s| ==> PatternTry(s, k, latMax, lonMax).None?
  {
    if Search(s, from, latMax, lonMax).Some? {
      var c := Search(s, from, latMax, lonMax).value;
      SearchSound(s, from, latMax, lonMax);
      ShapeGroups(s, c.start, latMax, c.lat);
      PatternTryComplete(s, latMax, lonMax, c);
    } else {
      var f := (i: nat) => PatternTry(s, i, latMax, lonMax);
      FirstMatchLeftmost(f, from, |s|);
      forall k: nat | from <= k <= |s|
        ensures PatternTry(s, k, latMax, lonMax).None?
      {
        assert f(k).None?;
      }
    }
  }

  /** No match starts at a character that is not a digit. */
  lemma MatchStartsWithDigit(s: string, i: nat, latMax: nat, lonMax: nat)
    ensures PatternTry(s, i, latMax, lonMax).Some? ==> i < |s| && IsDigit(s[i])
  {
    if HalfAt(s, i, latMax).Found? {
      HalfAtSound(s, i, latMax);
    }
  }

  /** The search passes over characters that are not digits. */
  lemma SearchSkips(s: string, from: nat, to: nat, latMax: nat, lonMax: nat)
    requires from <= to <= |s|
    requires forall k :: from <= k < to ==> !IsDigit(s[k])
    ensures Search(s, from, latMax, lonMax) == Search(s, to, latMax, lonMax)
  {
    forall k | from <= k < to
      ensures PatternTry(s, k, latMax, lonMax).None?
    {
      MatchStartsWithDigit(s, k, latMax, lonMax);
    }
    FirstMatchSkips(i => PatternTry(s, i, latMax, lonMax), from, to, |s|);
  }

  // ------------------------------------------------------------ the match array

  /** The match array of a match: the text and the groups of two well-formed halves. */
  predicate MatchShape(m: seq<JsValue>)
  {
    |m| == 9 && HalfShape(m[1..5]) && HalfShape(m[5..])
  }

  predicate HalfShape(g: seq<JsValue>)
  {
    |g| == 4 && g[0].Str? && Numeral(g[0].s) && g[1].Str? && Numeral(g[1].s) && OptionalNumeral(g[2]) &&
    g[3].Str? && |g[3].s| == 1 && Compass(g[3].s[0])
  }

  function Groups(h: Half): seq<JsValue>
  {
    [Str(h.degrees), Str(h.minutes), h.seconds, Str(h.direction)]
  }

  /** `[whole, g1, ..., g8]`: the matched text and the groups of the two halves. */
  function MatchOf(text: string, lat: Half, lon: Half): seq<JsValue>
  {
    [Str(text)] + Groups(lat) + Groups(lon)
  }

  lemma MatchOfShape(text: string, lat: Half, lon: Half)
    requires WellFormed(lat) && WellFormed(lon)
    ensures MatchShape(MatchOf(text, lat, lon))
  {
    var m := MatchOf(text, lat, lon);
    assert m[1..5] == Groups(lat) && m[5..] == Groups(lon);
  }

  /** The match array of the captures `c`. */
  function MatchArray(s: string, c: Captures): seq<JsValue>
    requires MatchEnd(c) <= |s|
  {
    MatchOf(s[c.start..MatchEnd(c)], HalfOf(s, c.start, c.lat), HalfOf(s, LonStart(c), c.lon))
  }

  /** The pattern that lies at `c` fits in the text and its match array has the shape of one. */
  lemma PatternGroups(s: string, latMax: nat, lonMax: nat, c: Captures)
    requires PatternAt(s, c, latMax, lonMax)
    ensures MatchEnd(c) <= |s| && MatchShape(MatchArray(s, c))
  {
    ShapeGroups(s, c.start, latMax, c.lat);
    ShapeGroups(s, LonStart(c), lonMax, c.lon);
    MatchOfShape(s[c.start..MatchEnd(c)], HalfOf(s, c.start, c.lat), HalfOf(s, LonStart(c), c.lon));
  }

  /** `s.match(infoboxCoordinatePattern)`: the match array of the leftmost match, or null. */
  function CoordinateMatch(s: string): (r: Option<seq<JsValue>>)
    ensures r.Some? ==> MatchShape(r.value)
  {
    match Search(s, 0, 2, 3)
    case None => None
    case Some(c) =>
      SearchLeftmost(s, 0, 2, 3, c);
      PatternGroups(s, 2, 3, c);
      Some(MatchArray(s, c))
  }

  // ------------------------------------------------------------ the text the pattern accepts

  function SecondsText(v: JsValue): string
  {
    if v.Str? then v.s else ""
  }

  /** The captures of half `h` written with or without the optional `|`. */
  function ShapeOf(h: Half, bar: bool): Shape
  {
    Shape(|h.degrees|, |h.minutes|, |SecondsText(h.seconds)|, bar)
  }

  /** Half `h` fits a half of the pattern with at most `n` degree digits. */
  predicate Fits(h: Half, n: nat)
  {
    TailFits(h) && |h.degrees| <= n
  }

  /** The groups after the degrees fit: at most two digits of minutes and of seconds. */
  predicate TailFits(h: Half)
  {
    WellFormed(h) && |h.minutes| <= 2 && |SecondsText(h.seconds)| <= 2
  }

  /** The text of half `h` read group by group from `i`: the degrees, `|`, the minutes, `|`,
      the seconds (nothing when there are none), `|` when `bar`, and the letter. */
  predicate Spelled(s: string, i: nat, h: Half, bar: bool)
  {
    At(s, i, h.degrees) && PipeAt(s, i + |h.degrees|) && MinutesSpelled(s, i + |h.degrees| + 1, h, bar)
  }

  predicate MinutesSpelled(s: string, m: nat, h: Half, bar: bool)
  {
    At(s, m, h.minutes) && PipeAt(s, m + |h.minutes|) && SecondsSpelled(s, m + |h.minutes| + 1, h, bar)
  }

  predicate SecondsSpelled(s: string, c: nat, h: Half, bar: bool)
  {
    At(s, c, SecondsText(h.seconds)) && PipeSpelled(s, c + |SecondsText(h.seconds)|, h, bar)
  }

  predicate PipeSpelled(s: string, p: nat, h: Half, bar: bool)
  {
    if bar then PipeAt(s, p) && At(s, p + 1, h.direction) else At(s, p, h.direction)
  }

  lemma WordDigits(s: string, j: nat, w: string)
    requires At(s, j, w) && AllDigits(w)
    ensures DigitsAt(s, j, |w|)
  {
    forall q | j <= q < j + |w| ensures IsDigit(s[q]) {
      assert s[q] == w[q - j];
    }
  }

  lemma PipeSpelledShape(s: string, p: nat, h: Half, bar: bool)
    requires |h.direction| == 1 && Compass(h.direction[0]) && PipeSpelled(s, p, h, bar)
    ensures PipeShape(s, p, ShapeOf(h, bar))
  {
    var l := if bar then p + 1 else p;
    assert s[l] == h.direction[0];
  }

  lemma SecondsSpelledShape(s: string, c: nat, h: Half, bar: bool)
    requires TailFits(h) && SecondsSpelled(s, c, h, bar)
    ensures SecondsShape(s, c, ShapeOf(h, bar))
  {
    WordDigits(s, c, SecondsText(h.seconds));
    PipeSpelledShape(s, c + |SecondsText(h.seconds)|, h, bar);
  }

  lemma MinutesSpelledShape(s: string, m: nat, h: Half, bar: bool)
    requires TailFits(h) && MinutesSpelled(s, m, h, bar)
    ensures MinutesShape(s, m, ShapeOf(h, bar))
  {
    WordDigits(s, m, h.minutes);
    SecondsSpelledShape(s, m + |h.minutes| + 1, h, bar);
  }

  /** A well-formed half spelled at `i` lies there. */
  lemma SpelledShape(s: string, i: nat, n: nat, h: Half, bar: bool)
    requires Fits(h, n) && Spelled(s, i, h, bar)
    ensures ShapeAt(s, i, n, ShapeOf(h, bar))
  {
    WordDigits(s, i, h.degrees);
    MinutesSpelledShape(s, i + |h.degrees| + 1, h, bar);
  }

  /** The captures of a half spelled at `i` are its groups. */
  lemma SpelledGroups(s: string, i: nat, h: Half, bar: bool)
    requires WellFormed(h) && Spelled(s, i, h, bar)
    ensures i + HalfLength(ShapeOf(h, bar)) <= |s| && HalfOf(s, i, ShapeOf(h, bar)) == h
  {
    var sh := ShapeOf(h, bar);
    var c := i + sh.deg + 1 + sh.min + 1;
    var l := i + HalfLength(sh) - 1;
    assert l == (if bar then c + sh.sec + 1 else c + sh.sec);
    var g := HalfOf(s, i, sh);
    assert g.degrees == h.degrees && g.minutes == h.minutes && g.direction == h.direction;
    if sh.sec == 0 {
      assert SecondsText(h.seconds) == [];
    }
  }

  /** A half that lies at `i` is spelled there by its captured groups. */
  lemma ShapeSpelled(s: string, i: nat, n: nat, sh: Shape)
    requires ShapeAt(s, i, n, sh)
    ensures i + HalfLength(sh) <= |s|
    ensures Fits(HalfOf(s, i, sh), n) && ShapeOf(HalfOf(s, i, sh), sh.bar) == sh && Spelled(s, i, HalfOf(s, i, sh), sh.bar)
  {
    ShapeGroups(s, i, n, sh);
    CapturesSpelled(s, i, n, sh);
  }

  lemma CapturesSpelled(s: string, i: nat, n: nat, sh: Shape)
    requires ShapeAt(s, i, n, sh) && i + HalfLength(sh) <= |s|
    ensures Spelled(s, i, HalfOf(s, i, sh), sh.bar)
  {
    var h := HalfOf(s, i, sh);
    var c := i + sh.deg + 1 + sh.min + 1;
    assert SecondsText(h.seconds) == s[c..c + sh.sec];
  }

  /** A half lies at `i` with the captures of `h` exactly when the text there spells `h`,
      with or without the optional `|`; with `HalfMatchesShape`, that is when the engine
      finds it. */
  lemma HalfSpelled(s: string, i: nat, n: nat, h: Half, bar: bool)
    ensures Fits(h, n) && Spelled(s, i, h, bar) <==>
      ShapeAt(s, i, n, ShapeOf(h, bar)) && i + HalfLength(ShapeOf(h, bar)) <= |s| && HalfOf(s, i, ShapeOf(h, bar)) == h
  {
    if Fits(h, n) && Spelled(s, i, h, bar) {
      SpelledShape(s, i, n, h, bar);
      SpelledGroups(s, i, h, bar);
    }
    if ShapeAt(s, i, n, ShapeOf(h, bar)) && i + HalfLength(ShapeOf(h, bar)) <= |s| && HalfOf(s, i, ShapeOf(h, bar)) == h {
      ShapeSpelled(s, i, n, ShapeOf(h, bar));
    }
  }

  /** `s` spells the whole pattern at `i`: a half of at most two degree digits, `|`, a half
      of at most three. */
  predicate PatternSpelled(s: string, i: nat, lat: Half, latBar: bool, lon: Half, lonBar: bool)
  {
    var j := i + HalfLength(ShapeOf(lat, latBar)) + 1;
    Fits(lat, 2) && Fits(lon, 3) && Spelled(s, i, lat, latBar) && PipeAt(s, j - 1) && Spelled(s, j, lon, lonBar)
  }

  function CapturesOf(i: nat, lat: Half, latBar: bool, lon: Half, lonBar: bool): Captures
  {
    Captures(i, ShapeOf(lat, latBar), ShapeOf(lon, lonBar))
  }

  /** Where the pattern is spelled it lies, with the two halves as its groups. */
  lemma SpelledPattern(s: string, i: nat, lat: Half, latBar: bool, lon: Half, lonBar: bool)
    requires PatternSpelled(s, i, lat, latBar, lon, lonBar)
    ensures var c := CapturesOf(i, lat, latBar, lon, lonBar);
      PatternAt(s, c, 2, 3) && MatchEnd(c) <= |s| && MatchArray(s, c) == MatchOf(s[i..MatchEnd(c)], lat, lon)
  {
    var c := CapturesOf(i, lat, latBar, lon, lonBar);
    HalfSpelled(s, i, 2, lat, latBar);
    HalfSpelled(s, LonStart(c), 3, lon, lonBar);
  }

  /** A string whose first digit begins the pattern's text: its match array holds that text
      and the two halves' groups. */
  lemma MatchSpelled(s: string, i: nat, lat: Half, latBar: bool, lon: Half, lonBar: bool)
    requires PatternSpelled(s, i, lat, latBar, lon, lonBar)
    requires forall k :: 0 <= k < i ==> !IsDigit(s[k])
    ensures var e := MatchEnd(CapturesOf(i, lat, latBar, lon, lonBar));
      e <= |s| && CoordinateMatch(s) == Some(MatchOf(s[i..e], lat, lon))
  {
    var c := CapturesOf(i, lat, latBar, lon, lonBar);
    SpelledPattern(s, i, lat, latBar, lon, lonBar);
    forall k | 0 <= k < i
      ensures PatternTry(s, k, 2, 3).None?
    {
      MatchStartsWithDigit(s, k, 2, 3);
    }
    SearchLeftmost(s, 0, 2, 3, c);
  }

  /** `body` lies at `d` in `s`, character by character. */
  predicate Holds(s: string, d: nat, body: string)
  {
    d + |body| <= |s| && forall k :: 0 <= k < |body| ==> s[d + k] == body[k]
  }

  lemma HoldsAt(s: string, d: nat, body: string)
    requires Holds(s, d, body)
    ensures At(s, d, body)
  {
    assert s[d..d + |body|] == body;
  }

  /** Text inside `body` keeps its place when `body` lies at `d` in a longer text. */
  lemma AtWithin(s: string, d: nat, body: string, i: nat, t: string, e: nat)
    requires Holds(s, d, body) && At(body, i, t) && e == d + i
    ensures At(s, e, t)
  {
    forall k | 0 <= k < |t| ensures s[e + k] == t[k] {
      assert body[i..i + |t|][k] == body[i + k];
    }
    assert s[e..e + |t|] == t;
  }

  lemma PipeWithin(s: string, d: nat, body: string, i: nat, e: nat)
    requires Holds(s, d, body) && PipeAt(body, i) && e == d + i
    ensures PipeAt(s, e)
  {
  }

  /** A text holds its parts where they were joined. */
  lemma HoldsParts(p: string, body: string, rest: string)
    ensures Holds(p + body + rest, 0, p) && Holds(p + body + rest, |p|, body)
  {
    var s := p + body + rest;
    forall k | 0 <= k < |body|
      ensures s[|p| + k] == body[k]
    {
    }
  }
}
