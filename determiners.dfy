/** src/determiners.js: values derived from an infobox record rather than read from it. The one
    determiner, `age`, reads the first `year|month|day` run of digits in `birth_date` and counts
    the whole 365-day years between that date and now. The clock and the calendar (JavaScript's
    `Date`) are parameters: `now` is the current instant in milliseconds and `birthMillis` turns
    the three numbers into an instant. */
module Determiners {
  import opened JsString
  import opened Metadata

  /** `millisInYear`: a fixed year of 365 days, with no leap day. */
  const MillisInYear: int := 1000 * 60 * 60 * 24 * 365

  /** The three groups of `datePattern` = `(\d+)\|(\d+)\|(\d+)`. */
  datatype DateGroups = DateGroups(year: string, month: string, day: string)

  /** What `age` gives: undefined, a number of years, or (for a truthy `birth_date` that is
      no string, whose `match` is no function) a TypeError. */
  datatype AgeResult = NoAge | Years(years: int) | AgeThrown

  // ------------------------------------------------------------ the date pattern

  predicate DigitsBetween(s: string, i: nat, e: nat)
    requires i <= e <= |s|
  {
    forall k :: i <= k < e ==> IsDigit(s[k])
  }

  /** The end of the run of digits that starts at `i`. */
  function RunEnd(s: string, i: nat): (e: nat)
    requires i <= |s|
    ensures i <= e <= |s| && DigitsBetween(s, i, e)
    ensures e == |s| || !IsDigit(s[e])
    decreases |s| - i
  {
    if i < |s| && IsDigit(s[i]) then RunEnd(s, i + 1) else i
  }

  predicate BarAt(s: string, i: nat)
  {
    i < |s| && s[i] == '|'
  }

  /** The pattern tried at `i`. The first two `\d+` must be followed by `|`, which is no digit,
      so backtracking can only end them where their runs end; the third is greedy and takes
      its whole run. */
  function DateAt(s: string, i: nat): (r: Option<DateGroups>)
    requires i <= |s|
    ensures r.Some? ==> Digits(r.value)
  {
    var a := RunEnd(s, i);
    if a == i || !BarAt(s, a) then None
    else
      var b := RunEnd(s, a + 1);
      if b == a + 1 || !BarAt(s, b) then None
      else
        var c := RunEnd(s, b + 1);
        if c == b + 1 then None
        else
          SliceDigits(s, i, a);
          SliceDigits(s, a + 1, b);
          SliceDigits(s, b + 1, c);
          Some(DateGroups(s[i..a], s[a + 1..b], s[b + 1..c]))
  }

  /** `s.match(datePattern)`: the match at the leftmost start at or after `from`. */
  function DateSearch(s: string, from: nat): (r: Option<DateGroups>)
    requires from <= |s|
    ensures r.Some? ==> Digits(r.value)
    decreases |s| - from
  {
    match DateAt(s, from)
    case Some(g) => Some(g)
    case None => if from == |s| then None else DateSearch(s, from + 1)
  }

  /** The text of a match, group by group: `year`, `|`, `month`, `|`, `day`, with no digit
      right after `day` (the last group is greedy). */
  predicate DateSpelled(s: string, i: nat, g: DateGroups)
  {
    var a := i + |g.year|;
    var b := a + 1 + |g.month|;
    var c := b + 1 + |g.day|;
    Numeral(g.year) && Numeral(g.month) && Numeral(g.day) &&
    At(s, i, g.year) && BarAt(s, a) && At(s, a + 1, g.month) && BarAt(s, b) && At(s, b + 1, g.day) &&
    (c == |s| || !IsDigit(s[c]))
  }

  /** Each group is a non-empty run of digits. */
  predicate Digits(g: DateGroups)
  {
    Numeral(g.year) && Numeral(g.month) && Numeral(g.day)
  }

  predicate Numeral(t: string)
  {
    t != "" && AllDigits(t)
  }

  /** Digits `s[i..e]`, one more than an earlier run end: the run from `i` ends at `e`. */
  lemma RunEndAt(s: string, i: nat, e: nat)
    requires i <= e <= |s| && DigitsBetween(s, i, e) && (e == |s| || !IsDigit(s[e]))
    ensures RunEnd(s, i) == e
    decreases e - i
  {
    if i < e {
      RunEndAt(s, i + 1, e);
    }
  }

  lemma SliceDigits(s: string, i: nat, e: nat)
    requires i <= e <= |s| && DigitsBetween(s, i, e)
    ensures AllDigits(s[i..e])
  {
    forall k | 0 <= k < e - i ensures IsDigit(s[i..e][k]) {
      assert s[i..e][k] == s[i + k];
    }
  }

  lemma AtDigits(s: string, i: nat, t: string)
    requires At(s, i, t) && AllDigits(t)
    ensures DigitsBetween(s, i, i + |t|)
  {
    forall k | i <= k < i + |t| ensures IsDigit(s[k]) {
      assert s[k] == s[i..i + |t|][k - i];
    }
  }

  /** A match found at `i` is spelled there. */
  lemma DateAtSound(s: string, i: nat)
    requires i <= |s| && DateAt(s, i).Some?
    ensures DateSpelled(s, i, DateAt(s, i).value)
  {
    var a := RunEnd(s, i);
    var b := RunEnd(s, a + 1);
    var c := RunEnd(s, b + 1);
    SliceDigits(s, i, a);
    SliceDigits(s, a + 1, b);
    SliceDigits(s, b + 1, c);
  }

  /** Wherever a match is spelled, the pattern finds exactly it. */
  lemma DateAtComplete(s: string, i: nat, g: DateGroups)
    requires i <= |s| && DateSpelled(s, i, g)
    ensures DateAt(s, i) == Some(g)
  {
    var a := i + |g.year|;
    var b := a + 1 + |g.month|;
    var c := b + 1 + |g.day|;
    AtDigits(s, i, g.year);
    AtDigits(s, a + 1, g.month);
    AtDigits(s, b + 1, g.day);
    RunEndAt(s, i, a);
    RunEndAt(s, a + 1, b);
    RunEndAt(s, b + 1, c);
    assert s[i..a] == g.year && s[a + 1..b] == g.month && s[b + 1..c] == g.day;
    DateAtFrom(s, i, a, b, c);
  }

  /** The pattern at `i` when the three runs end at `a`, `b` and `c`. */
  lemma DateAtFrom(s: string, i: nat, a: nat, b: nat, c: nat)
    requires i < a < b < c <= |s|
    requires RunEnd(s, i) == a && BarAt(s, a) && RunEnd(s, a + 1) == b && BarAt(s, b) && RunEnd(s, b + 1) == c
    requires a + 1 < b && b + 1 < c
    ensures DateAt(s, i) == Some(DateGroups(s[i..a], s[a + 1..b], s[b + 1..c]))
  {
  }

  /** The pattern matches at `i` exactly when a match is spelled there. */
  lemma DateAtIff(s: string, i: nat)
    requires i <= |s|
    ensures DateAt(s, i).Some? <==> exists g :: DateSpelled(s, i, g)
  {
    if DateAt(s, i).Some? {
      DateAtSound(s, i);
    }
    if g :| DateSpelled(s, i, g) {
      DateAtComplete(s, i, g);
    }
  }

  /** Where the search finds a match: the leftmost start at or after `from` where the pattern
      matches. */
  lemma {:induction false} DateSearchIndex(s: string, from: nat) returns (i: nat)
    requires from <= |s| && DateSearch(s, from).Some?
    ensures from <= i <= |s| && DateAt(s, i) == DateSearch(s, from)
    ensures forall k :: from <= k < i ==> DateAt(s, k).None?
    decreases |s| - from
  {
    if DateAt(s, from).Some? {
      i := from;
    } else {
      i := DateSearchIndex(s, from + 1);
    }
  }

  /** The search finds nothing exactly when the pattern matches at no start. */
  lemma {:induction false} DateSearchNone(s: string, from: nat)
    requires from <= |s|
    ensures DateSearch(s, from).None? <==> forall k :: from <= k <= |s| ==> DateAt(s, k).None?
    decreases |s| - from
  {
    if from < |s| {
      DateSearchNone(s, from + 1);
    }
  }

  /** No match starts before the first digit. */
  lemma NoDateBeforeDigits(s: string, i: nat)
    requires i <= |s| && forall k :: 0 <= k < i ==> !IsDigit(s[k])
    ensures forall k :: 0 <= k < i ==> DateAt(s, k).None?
  {
  }

  /** A search from `from` that meets a spelled match at `i`, with none spelled before it,
      returns that match. */
  lemma {:induction false} DateSearchFinds(s: string, from: nat, i: nat, g: DateGroups)
    requires from <= i <= |s| && DateSpelled(s, i, g)
    requires forall k :: from <= k < i ==> DateAt(s, k).None?
    ensures DateSearch(s, from) == Some(g)
    decreases i - from
  {
    if from == i {
      DateAtComplete(s, i, g);
    } else {
      DateSearchFinds(s, from + 1, i, g);
    }
  }

  // ------------------------------------------------------------ age

  /** `new Date(year, month, date)` read through the parameter: the groups as numbers. */
  function BirthInstant(g: DateGroups, birthMillis: (nat, nat, nat) -> int): int
    requires Digits(g)
  {
    birthMillis(DigitsValue(g.year), DigitsValue(g.month), DigitsValue(g.day))
  }

  /** `Math.floor((now - birth) / millisInYear)`: Dafny's `/` on `int` with a positive divisor
      rounds down, as `Math.floor` does. */
  function YearsBetween(birth: int, now: int): int
  {
    (now - birth) / MillisInYear
  }

  /** The whole 365-day years from `birth` to `now`: the largest `n` such that `n` years after
      `birth` is no later than `now`. */
  lemma YearsBetweenFloor(birth: int, now: int)
    ensures var n := YearsBetween(birth, now);
      n * MillisInYear <= now - birth < (n + 1) * MillisInYear
  {
    var d := now - birth;
    assert d == (d / MillisInYear) * MillisInYear + d % MillisInYear;
  }

  /** `determiners.age`: undefined without a truthy `birth_date` or without a date in it;
      otherwise the whole years from the date to now. */
  function Age(metadata: Record, now: int, birthMillis: (nat, nat, nat) -> int): (r: AgeResult)
    ensures r.AgeThrown? <==> Truthy(Get(metadata, "birth_date")) && !Get(metadata, "birth_date").Str?
  {
    var b := Get(metadata, "birth_date");
    if !Truthy(b) then NoAge
    else if !b.Str? then AgeThrown
    else
      match DateSearch(b.s, 0)
      case None => NoAge
      case Some(g) => Years(YearsBetween(BirthInstant(g, birthMillis), now))
  }

  /** `age` is undefined exactly when `birth_date` is falsy or holds no `d|d|d` date. */
  lemma AgeUndefinedIff(metadata: Record, now: int, birthMillis: (nat, nat, nat) -> int)
    ensures Age(metadata, now, birthMillis).NoAge? <==>
      !Truthy(Get(metadata, "birth_date")) ||
      (Get(metadata, "birth_date").Str? && forall k :: 0 <= k <= |Get(metadata, "birth_date").s| ==> DateAt(Get(metadata, "birth_date").s, k).None?)
  {
    var b := Get(metadata, "birth_date");
    if b.Str? {
      DateSearchNone(b.s, 0);
    }
  }

  /** With the leftmost date of `birth_date` spelled as `g`, `age` is the number of whole
      365-day years from that date to now: the largest `n` with `n` years no later than now. */
  lemma AgeWholeYears(metadata: Record, now: int, birthMillis: (nat, nat, nat) -> int, i: nat, g: DateGroups)
    requires Get(metadata, "birth_date").Str?
    requires i <= |Get(metadata, "birth_date").s| && DateSpelled(Get(metadata, "birth_date").s, i, g)
    requires forall k :: 0 <= k < i ==> DateAt(Get(metadata, "birth_date").s, k).None?
    ensures var n := Age(metadata, now, birthMillis);
      n.Years? &&
      n.years * MillisInYear <= now - BirthInstant(g, birthMillis) < (n.years + 1) * MillisInYear
  {
    DateSearchFinds(Get(metadata, "birth_date").s, 0, i, g);
    YearsBetweenFloor(BirthInstant(g, birthMillis), now);
  }

  /** The groups are read in order as year, month and day. */
  lemma DateGroupsInOrder()
    ensures DateSearch("1990|5|17", 0) == Some(DateGroups("1990", "5", "17"))
  {
    var s := "1990|5|17";
    assert At(s, 0, "1990") && At(s, 5, "5") && At(s, 7, "17");
    DateSearchFinds(s, 0, 0, DateGroups("1990", "5", "17"));
  }

  const BirthTemplate := "{{birth date|1990|5|17}}"

  /** A birth date inside a template is found after the template's name. */
  lemma TemplateBirthDate(metadata: Record, now: int, birthMillis: (nat, nat, nat) -> int)
    requires Get(metadata, "birth_date") == Str(BirthTemplate)
    ensures Age(metadata, now, birthMillis) == Years(YearsBetween(birthMillis(1990, 5, 17), now))
  {
    var s := Get(metadata, "birth_date").s;
    var g := DateGroups("1990", "5", "17");
    TemplateDate(s);
    DigitsNumberValues();
    assert BirthInstant(g, birthMillis) == birthMillis(1990, 5, 17);
    AgeOfDate(metadata, s, g, now, birthMillis);
  }

  /** With a string `birth_date` whose first date is `g`, `age` counts the years from `g`. */
  lemma AgeOfDate(metadata: Record, s: string, g: DateGroups, now: int, birthMillis: (nat, nat, nat) -> int)
    requires Get(metadata, "birth_date") == Str(s) && DateSearch(s, 0) == Some(g)
    ensures Age(metadata, now, birthMillis) == Years(YearsBetween(BirthInstant(g, birthMillis), now))
  {
  }

  lemma TemplateDate(s: string)
    requires s == BirthTemplate
    ensures DateSearch(s, 0) == Some(DateGroups("1990", "5", "17"))
  {
    TemplateDateSpelled(s);
    assert forall k :: 0 <= k < 13 ==> !IsDigit(s[k]);
    NoDateBeforeDigits(s, 13);
    DateSearchFinds(s, 0, 13, DateGroups("1990", "5", "17"));
  }

  lemma TemplateDateSpelled(s: string)
    requires s == BirthTemplate
    ensures DateSpelled(s, 13, DateGroups("1990", "5", "17"))
  {
    assert s[13..17] == "1990" && s[18..19] == "5" && s[20..22] == "17";
  }

  lemma DigitsNumberValues()
    ensures DigitsValue("1990") == 1990 && DigitsValue("5") == 5 && DigitsValue("17") == 17
  {
    assert "1990"[..3] == "199" && "199"[..2] == "19" && "19"[..1] == "1" && "1"[..0] == "";
    assert "17"[..1] == "1" && "5"[..0] == "";
  }
}
