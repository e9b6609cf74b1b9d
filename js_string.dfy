/** The JavaScript String built-ins the client relies on: trim, indexOf,
    replace (first occurrence of a plain string), split and join. */
module JsString {

  datatype Option<+T> = None | Some(value: T)

  /** The characters JavaScript's `trim` removes and the regex class `\s` matches
      (WhiteSpace and LineTerminator of ECMA-262). */
  predicate IsSpace(c: char)
  {
    c == ' ' || c == '\t' || c == '\n' || c == '\r' || c == '\U{B}' || c == '\U{C}' ||
    c == '\U{A0}' || c == '\U{1680}' || ('\U{2000}' <= c <= '\U{200A}') ||
    c == '\U{2028}' || c == '\U{2029}' || c == '\U{202F}' || c == '\U{205F}' ||
    c == '\U{3000}' || c == '\U{FEFF}'
  }

  predicate AllSpace(s: string)
  {
    forall i :: 0 <= i < |s| ==> IsSpace(s[i])
  }

  function TrimStart(s: string): (r: string)
    ensures |r| <= |s|
    ensures r == [] || !IsSpace(r[0])
  {
    if s != [] && IsSpace(s[0]) then TrimStart(s[1..]) else s
  }

  /** `TrimStart` keeps a suffix. */
  lemma {:induction false} TrimStartSuffix(s: string)
    ensures TrimStart(s) == s[|s| - |TrimStart(s)|..]
  {
    if s != [] && IsSpace(s[0]) {
      TrimStartSuffix(s[1..]);
    }
  }

  /** What `TrimStart` removes is white space. */
  lemma {:induction false} TrimStartSpace(s: string)
    ensures AllSpace(s[..|s| - |TrimStart(s)|])
  {
    if s != [] && IsSpace(s[0]) {
      TrimStartSpace(s[1..]);
      assert s[..|s| - |TrimStart(s)|] == [s[0]] + s[1..][..|s| - 1 - |TrimStart(s[1..])|];
    }
  }

  function TrimEnd(s: string): (r: string)
    ensures |r| <= |s|
    ensures r == [] || !IsSpace(r[|r| - 1])
  {
    if s != [] && IsSpace(s[|s| - 1]) then TrimEnd(s[..|s| - 1]) else s
  }

  /** `TrimEnd` keeps a prefix. */
  lemma {:induction false} TrimEndPrefix(s: string)
    ensures TrimEnd(s) == s[..|TrimEnd(s)|]
  {
    if s != [] && IsSpace(s[|s| - 1]) {
      TrimEndPrefix(s[..|s| - 1]);
    }
  }

  /** What `TrimEnd` removes is white space. */
  lemma {:induction false} TrimEndSpace(s: string)
    ensures AllSpace(s[|TrimEnd(s)|..])
  {
    if s != [] && IsSpace(s[|s| - 1]) {
      var t := s[..|s| - 1];
      TrimEndSpace(t);
      assert s[|TrimEnd(s)|..] == t[|TrimEnd(t)|..] + [s[|s| - 1]];
    }
  }

  /** `String.prototype.trim`. */
  function Trim(s: string): (r: string)
    ensures r == [] || (!IsSpace(r[0]) && !IsSpace(r[|r| - 1]))
    ensures |r| <= |s|
  {
    TrimEndPrefix(TrimStart(s));
    TrimEnd(TrimStart(s))
  }

  lemma TrimAllSpace(s: string)
    requires AllSpace(s)
    ensures Trim(s) == ""
  {
    TrimStartSuffix(s);
  }

  lemma TrimNoSpace(s: string)
    requires s == [] || (!IsSpace(s[0]) && !IsSpace(s[|s| - 1]))
    ensures Trim(s) == s
  {
  }

  lemma TrimStartKeeps(s: string)
    requires s != [] && !IsSpace(s[0])
    ensures TrimStart(s) == s
  {
  }

  /** Trimming keeps exactly the text from the first to the last non-space character. */
  lemma TrimIs(s: string, a: nat, b: nat)
    requires a < b <= |s| && !IsSpace(s[a]) && !IsSpace(s[b - 1])
    requires AllSpace(s[..a]) && AllSpace(s[b..])
    ensures Trim(s) == s[a..b]
  {
    TrimStartIs(s, a);
    assert s[a..][b - a..] == s[b..];
    TrimEndIs(s[a..], b - a);
    assert s[a..][..b - a] == s[a..b];
  }

  lemma {:induction false} TrimStartIs(s: string, a: nat)
    requires a < |s| && !IsSpace(s[a]) && AllSpace(s[..a])
    ensures TrimStart(s) == s[a..]
    decreases a
  {
    if a > 0 {
      assert s[1..][..a - 1] == s[1..a];
      assert s[1..][a - 1..] == s[a..];
      TrimStartIs(s[1..], a - 1);
    }
  }

  lemma {:induction false} TrimEndIs(s: string, b: nat)
    requires 0 < b <= |s| && !IsSpace(s[b - 1]) && AllSpace(s[b..])
    ensures TrimEnd(s) == s[..b]
    decreases |s| - b
  {
    if b < |s| {
      var t := s[..|s| - 1];
      assert t[b..] == s[b..|s| - 1];
      assert t[..b] == s[..b];
      TrimEndIs(t, b);
    }
  }

  /** Trailing white space is removed only after the last non-space character. */
  lemma TrimEndKeeps(s: string, n: nat)
    requires 0 < n <= |s| && !IsSpace(s[n - 1])
    ensures n <= |TrimEnd(s)| && TrimEnd(s)[..n] == s[..n]
  {
    TrimEndSpace(s);
  }

  /** `t` occurs in `s` at index `i`. */
  predicate At(s: string, i: int, t: string)
  {
    0 <= i && i + |t| <= |s| && s[i..i + |t|] == t
  }

  /** `s.indexOf(t, from)`: the leftmost occurrence at or after `from`, or -1. The empty
      string occurs everywhere, and past the end `indexOf` clamps `from` to the length. */
  function IndexFrom(s: string, t: string, from: nat): (r: int)
    ensures r == -1 || (from <= r && At(s, r, t)) || (t == "" && r == |s| < from)
    ensures r == -1 ==> forall j :: from <= j ==> !At(s, j, t)
    ensures r != -1 ==> forall j :: from <= j < r ==> !At(s, j, t)
    decreases |s| - from
  {
    if t == "" && from > |s| then |s|
    else if from + |t| > |s| then -1
    else if At(s, from, t) then from
    else IndexFrom(s, t, from + 1)
  }

  function IndexOf(s: string, t: string): int
  {
    IndexFrom(s, t, 0)
  }

  predicate Contains(s: string, t: string)
  {
    IndexOf(s, t) != -1
  }

  lemma ContainsAt(s: string, t: string, j: int)
    requires At(s, j, t)
    ensures Contains(s, t)
  {
  }

  /** `s.replace(t, rep)` with a plain-string pattern: only the first occurrence is replaced. */
  function ReplaceFirst(s: string, t: string, rep: string): string
  {
    var i := IndexOf(s, t);
    if i == -1 then s else s[..i] + rep + s[i + |t|..]
  }

  /** `s.split(sep)` for a non-empty separator. */
  function Split(s: string, sep: string): (parts: seq<string>)
    requires sep != []
    ensures |parts| >= 1
    decreases |s|
  {
    var i := IndexOf(s, sep);
    if i == -1 then [s] else [s[..i]] + Split(s[i + |sep|..], sep)
  }

  /** `xs.join(sep)`. */
  function Join(xs: seq<string>, sep: string): string
  {
    if xs == [] then "" else if |xs| == 1 then xs[0] else xs[0] + sep + Join(xs[1..], sep)
  }

  /** `s.split('\n')[0]`: the text before the first line break. */
  function FirstLine(s: string): string
  {
    Split(s, "\n")[0]
  }

  lemma FirstLineEmpty()
    ensures FirstLine("") == ""
  {
    SplitNoSep("", "\n");
  }

  /** `xs.slice(1)` / `shift()`: all but the first element. */
  function Tail<T>(xs: seq<T>): seq<T>
  {
    if xs == [] then [] else xs[1..]
  }

  /** `xs[xs.length - 1]`. */
  function Last<T>(xs: seq<T>): T
    requires xs != []
  {
    xs[|xs| - 1]
  }

  lemma JoinCons(x: string, xs: seq<string>, sep: string)
    requires xs != []
    ensures Join([x] + xs, sep) == x + sep + Join(xs, sep)
  {
    assert ([x] + xs)[1..] == xs;
  }

  /** `t` is first found at `i` when it occurs there and nowhere before. */
  lemma FirstAt(s: string, t: string, i: int)
    requires At(s, i, t) && forall j :: 0 <= j < i ==> !At(s, j, t)
    ensures IndexOf(s, t) == i
  {
  }

  lemma SplitAtFirst(s: string, sep: string, i: int)
    requires sep != [] && i == IndexOf(s, sep) && i != -1
    ensures Split(s, sep) == [s[..i]] + Split(s[i + |sep|..], sep)
  {
  }

  /** An occurrence of `t` cuts `s` into the text before, `t` and the text after. */
  lemma Around(s: string, i: int, t: string)
    requires At(s, i, t)
    ensures s == s[..i] + t + s[i + |t|..]
  {
    assert s == s[..i] + s[i..i + |t|] + s[i + |t|..];
  }

  lemma {:induction false} JoinSplit(s: string, sep: string)
    requires sep != []
    ensures Join(Split(s, sep), sep) == s
    decreases |s|
  {
    var i := IndexOf(s, sep);
    if i != -1 {
      var rest := s[i + |sep|..];
      JoinSplit(rest, sep);
      SplitAtFirst(s, sep, i);
      Around(s, i, sep);
      JoinCons(s[..i], Split(rest, sep), sep);
    }
  }

  lemma SplitNoSep(s: string, sep: string)
    requires sep != [] && !Contains(s, sep)
    ensures Split(s, sep) == [s]
  {
  }

  /** Splitting on one character distributes over a concatenation around that character. */
  lemma {:induction false} SplitCharConcat(a: string, c: char, b: string)
    ensures Split(a + [c] + b, [c]) == Split(a, [c]) + Split(b, [c])
    decreases |a|, 1
  {
    var i := IndexOf(a, [c]);
    if i == -1 {
      SplitAtJoint(a, c, b);
    } else {
      SplitInLeft(a, c, b, i);
    }
  }

  lemma SplitAtJoint(a: string, c: char, b: string)
    requires IndexOf(a, [c]) == -1
    ensures Split(a + [c] + b, [c]) == Split(a, [c]) + Split(b, [c])
  {
    var s := a + [c] + b;
    FirstAtJoint(a, c, b);
    SplitAtFirst(s, [c], |a|);
    assert s[..|a|] == a;
    assert s[|a| + 1..] == b;
    SplitNoSep(a, [c]);
  }

  lemma {:induction false} SplitInLeft(a: string, c: char, b: string, i: int)
    requires i == IndexOf(a, [c]) && i != -1
    ensures Split(a + [c] + b, [c]) == Split(a, [c]) + Split(b, [c])
    decreases |a|, 0
  {
    SplitFirstInLeft(a, c, b, i);
    SplitAtFirst(a, [c], i);
    SplitCharConcat(a[i + 1..], c, b);
  }

  lemma SplitFirstInLeft(a: string, c: char, b: string, i: int)
    requires i == IndexOf(a, [c]) && i != -1
    ensures Split(a + [c] + b, [c]) == [a[..i]] + Split(a[i + 1..] + [c] + b, [c])
  {
    var s := a + [c] + b;
    FirstInLeft(a, c, b, i);
    SplitAtFirst(s, [c], i);
    assert s[..i] == a[..i];
    assert s[i + 1..] == a[i + 1..] + [c] + b;
  }

  /** A head free of the separator character is the first part. */
  lemma SplitAfterHead(head: string, c: char, rest: string)
    requires c !in head
    ensures Split(head + [c] + rest, [c]) == [head] + Split(rest, [c])
  {
    ContainsChar(head, c);
    SplitAtJoint(head, c, rest);
    SplitNoSep(head, [c]);
  }

  lemma FirstAtJoint(a: string, c: char, b: string)
    requires IndexOf(a, [c]) == -1
    ensures IndexOf(a + [c] + b, [c]) == |a|
  {
    var s := a + [c] + b;
    forall j | 0 <= j < |a| ensures !At(s, j, [c]) {
      assert !At(a, j, [c]);
      assert s[j..j + 1] == a[j..j + 1];
    }
    assert s[|a|..|a| + 1] == [c];
    FirstAt(s, [c], |a|);
  }

  lemma FirstInLeft(a: string, c: char, b: string, i: int)
    requires i == IndexOf(a, [c]) && i != -1
    ensures IndexOf(a + [c] + b, [c]) == i
  {
    var s := a + [c] + b;
    forall j | 0 <= j < i ensures !At(s, j, [c]) {
      assert !At(a, j, [c]);
      assert s[j..j + 1] == a[j..j + 1];
    }
    assert s[i..i + 1] == a[i..i + 1];
    FirstAt(s, [c], i);
  }

  /** Splitting a single-character-joined list gives the list back when no element holds that character. */
  lemma {:induction false} SplitJoinChar(xs: seq<string>, c: char)
    requires xs != []
    requires forall k :: 0 <= k < |xs| ==> !Contains(xs[k], [c])
    ensures Split(Join(xs, [c]), [c]) == xs
    decreases |xs|
  {
    SplitNoSep(xs[0], [c]);
    if |xs| > 1 {
      var rest := Join(xs[1..], [c]);
      assert Split(rest, [c]) == xs[1..] by {
        SplitJoinChar(xs[1..], c);
      }
      assert Join(xs, [c]) == xs[0] + [c] + rest;
      SplitCharConcat(xs[0], c, rest);
      assert xs == [xs[0]] + xs[1..];
    }
  }

  /** `s.substr(start, len)`: at most `len` characters from `start`; "" for a length <= 0. */
  function Substr(s: string, start: nat, len: int): (r: string)
    ensures |r| <= |s|
    ensures start + len <= |s| && len >= 0 ==> r == s[start..start + len]
  {
    if start >= |s| || len <= 0 then ""
    else if start + len <= |s| then s[start..start + len]
    else s[start..]
  }

  /** `s.substring(a, b)`: both ends clamped to the string, taken in either order. */
  function Substring(s: string, a: nat, b: nat): (r: string)
    ensures a <= b <= |s| ==> r == s[a..b]
    ensures |r| <= |s|
  {
    var x := if a <= |s| then a else |s|;
    var y := if b <= |s| then b else |s|;
    if x <= y then s[x..y] else s[y..x]
  }

  lemma SliceOfSlice(s: string, a: nat, b: nat, i: nat, j: nat)
    requires a <= b <= |s| && i <= j <= b - a
    ensures s[a..b][i..j] == s[a + i..a + j]
  {
    var u, v := s[a..b][i..j], s[a + i..a + j];
    assert |u| == |v|;
    forall k | 0 <= k < |u| ensures u[k] == v[k] {
      assert u[k] == s[a..b][i + k] == s[a + i + k];
    }
  }

  /** A one-character string occurs exactly where the character does. */
  lemma ContainsChar(s: string, c: char)
    ensures Contains(s, [c]) <==> c in s
  {
    if c in s {
      var j :| 0 <= j < |s| && s[j] == c;
      assert At(s, j, [c]);
    }
    if Contains(s, [c]) {
      var j := IndexOf(s, [c]);
      assert s[j..j + 1] == [c];
      assert s[j] == c;
    }
  }

  /** Replacing an occurrence by "" removes exactly that many characters. */
  lemma ReplaceFirstShrinks(s: string, t: string)
    ensures |ReplaceFirst(s, t, "")| == if Contains(s, t) then |s| - |t| else |s|
  {
  }

  /** Appending to the last element appends to the join. */
  lemma {:induction false} JoinSnoc(xs: seq<string>, y: string, sep: string)
    requires xs != []
    ensures Join(xs[..|xs| - 1] + [xs[|xs| - 1] + y], sep) == Join(xs, sep) + y
    decreases |xs|
  {
    var n := |xs|;
    var ys := xs[..n - 1] + [xs[n - 1] + y];
    if n > 1 {
      JoinSnoc(xs[1..], y, sep);
      assert ys[1..] == xs[1..][..n - 2] + [xs[1..][n - 2] + y];
      assert ys[0] == xs[0];
    }
  }

  /** A character that is in no element and not in the separator is not in the join. */
  lemma {:induction false} CharNotInJoin(xs: seq<string>, sep: string, c: char)
    requires c !in sep && forall k :: 0 <= k < |xs| ==> c !in xs[k]
    ensures c !in Join(xs, sep)
    decreases |xs|
  {
    if |xs| > 1 {
      CharNotInJoin(xs[1..], sep, c);
    }
  }

  lemma SplitAtLeastTwo(s: string, sep: string, j: int)
    requires sep != [] && At(s, j, sep)
    ensures |Split(s, sep)| >= 2
  {
    var i := IndexOf(s, sep);
    SplitAtFirst(s, sep, i);
  }

  /** Two separate occurrences of the separator give at least three parts. */
  lemma SplitAtLeastThree(s: string, sep: string, i: int, j: int)
    requires sep != [] && At(s, i, sep) && At(s, j, sep) && i + |sep| <= j
    ensures |Split(s, sep)| >= 3
  {
    var f := IndexOf(s, sep);
    assert f != -1 && f <= i;
    SplitAtFirst(s, sep, f);
    var rest := s[f + |sep|..];
    var q := j - f - |sep|;
    assert rest[q..q + |sep|] == s[j..j + |sep|];
    SplitAtLeastTwo(rest, sep, q);
  }

  /** `replace(t, '')` removes a leading `t`. */
  lemma ReplaceLeading(u: string, t: string)
    requires t != "" && At(u, 0, t)
    ensures ReplaceFirst(u, t, "") == u[|t|..]
  {
  }

  /** `replace(close, '')` on a text followed by `close` removes that `close` when the text
      holds no first character of `close`. */
  lemma ReplaceTrailing(s: string, close: string)
    requires close != "" && close[0] !in s
    ensures ReplaceFirst(s + close, close, "") == s
  {
    var t := s + close;
    assert At(t, |s|, close);
    forall j | 0 <= j < |s| ensures !At(t, j, close) {
      assert t[j] == s[j];
    }
    assert IndexOf(t, close) == |s|;
  }

  /** Removing a leading `open` and then the first `close` unwraps `open + x + close`. */
  lemma ReplaceAround(open: string, x: string, close: string)
    requires open != "" && close != "" && close[0] !in x
    ensures ReplaceFirst(ReplaceFirst(open + x + close, open, ""), close, "") == x
  {
    var u := open + x + close;
    assert u[..|open|] == open;
    ReplaceLeading(u, open);
    assert u[|open|..] == x + close;
    ReplaceTrailing(x, close);
  }
}
