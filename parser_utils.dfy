/** src/parser/utils.js: `replaceAll` (global regex replace, then trim; null for a
    missing or empty string) and the guard of `checkJson`. */
module ParserUtils {
  import opened JsString
  import opened Patterns

  /** `utils.replaceAll(find, replace, str)`. JavaScript's null/undefined is None. */
  function ReplaceAll(p: Pattern, rep: string, str: Option<string>): (r: Option<string>)
    ensures r.None? <==> str.None? || str.value == ""
    ensures r.Some? ==> r.value == [] || (!IsSpace(r.value[0]) && !IsSpace(r.value[|r.value| - 1]))
    ensures r.Some? ==> |r.value| <= |ReplaceGlobal(p, str.value, rep)|
  {
    if str.None? || str.value == "" then None else Some(Trim(ReplaceGlobal(p, str.value, rep)))
  }

  /** A non-empty input that the replacement reduces to white space gives "", not null. */
  lemma ReplaceAllBlank(p: Pattern, rep: string, s: string)
    requires s != "" && AllSpace(ReplaceGlobal(p, s, rep))
    ensures ReplaceAll(p, rep, Some(s)) == Some("")
  {
    TrimAllSpace(ReplaceGlobal(p, s, rep));
  }

  /** Where the pattern never matches, only the trimming is left. */
  lemma ReplaceAllWithoutMatch(p: Pattern, rep: string, s: string)
    requires s != ""
    requires forall j :: MatchAt(p, s, j).None?
    ensures ReplaceAll(p, rep, Some(s)) == Some(Trim(s))
  {
    ReplaceWithoutMatch(p, s, rep, 0);
  }

  // ------------------------------------------------ every `&nbsp` becomes a space

  ghost predicate Free(s: string, t: string)
  {
    forall q :: !At(s, q, t)
  }

  lemma FreeSlice(s: string, t: string, a: nat, b: nat)
    requires a <= b <= |s| && Free(s, t)
    ensures Free(s[a..b], t)
  {
    forall q ensures !At(s[a..b], q, t) {
      assert !At(s, a + q, t);
      if 0 <= q && q + |t| <= b - a {
        assert s[a + q..a + q + |t|] == s[a..b][q..q + |t|];
      }
    }
  }

  lemma FreeTrim(s: string, t: string)
    requires Free(s, t)
    ensures Free(Trim(s), t)
  {
    var t1 := TrimStart(s);
    TrimStartSuffix(s);
    TrimEndPrefix(t1);
    FreeSlice(s, t, |s| - |t1|, |s|);
    assert s[|s| - |t1|..|s|] == t1;
    FreeSlice(t1, t, 0, |TrimEnd(t1)|);
  }

  lemma FreeAroundSpace(x: string, y: string, t: string)
    requires Free(x, t) && Free(y, t) && ' ' !in t
    ensures Free(x + " " + y, t)
  {
    var s := x + " " + y;
    forall q ensures !At(s, q, t) {
      if 0 <= q && q + |t| <= |s| {
        if q + |t| <= |x| {
          assert s[q..q + |t|] == x[q..q + |t|];
          assert !At(x, q, t);
        } else if q > |x| {
          assert s[q..q + |t|] == y[q - |x| - 1..q - |x| - 1 + |t|];
          assert !At(y, q - |x| - 1, t);
        } else {
          assert s[q..q + |t|][|x| - q] == ' ';
        }
      }
    }
  }

  lemma FreeOfNoMatch(s: string, from: nat, to: nat)
    requires from <= to <= |s|
    requires forall j :: from <= j < to ==> MatchAt(Literal("&nbsp"), s, j).None?
    ensures Free(s[from..to], "&nbsp")
  {
    forall q ensures !At(s[from..to], q, "&nbsp") {
      if 0 <= q && q + 5 <= to - from {
        assert MatchAt(Literal("&nbsp"), s, from + q).None?;
        SliceOfSlice(s, from, to, q, q + 5);
      }
    }
  }

  lemma {:induction false} NbspReplacedFrom(s: string, from: nat)
    requires from <= |s|
    ensures Free(ReplaceFrom(Literal("&nbsp"), s, " ", from), "&nbsp")
    decreases |s| - from
  {
    var p := Literal("&nbsp");
    match FindFrom(p, s, from)
    case None =>
      FreeOfNoMatch(s, from, |s|);
      assert s[from..|s|] == s[from..];
    case Some((i, e)) =>
      NbspReplacedFrom(s, e);
      FreeOfNoMatch(s, from, i);
      FreeAroundSpace(s[from..i], ReplaceFrom(p, s, " ", e), "&nbsp");
  }

  /** `replaceAll('&nbsp', ' ', v)` leaves no `&nbsp` behind. */
  lemma NbspReplaced(s: string)
    requires s != ""
    ensures ReplaceAll(Literal("&nbsp"), " ", Some(s)).Some?
    ensures !Contains(ReplaceAll(Literal("&nbsp"), " ", Some(s)).value, "&nbsp")
  {
    var g := ReplaceGlobal(Literal("&nbsp"), s, " ");
    NbspReplacedFrom(s, 0);
    FreeTrim(g, "&nbsp");
    var r := Trim(g);
    assert IndexOf(r, "&nbsp") == -1 by {
      var k := IndexOf(r, "&nbsp");
      assert k == -1 || At(r, k, "&nbsp");
    }
  }

  /** The guard of `utils.checkJson`: a missing or empty text is never valid JSON; otherwise
      the verdict is that of the json2-style regex chain, passed in as `shapeTest`. */
  function CheckJson(text: Option<string>, shapeTest: string -> bool): (r: bool)
    ensures text.None? || text.value == "" ==> !r
    ensures r ==> shapeTest(text.value)
  {
    text.Some? && text.value != "" && shapeTest(text.value)
  }
}
