/** The JavaScript values an infobox record (`metadata`, `infoboxData`) holds, read the way
    src/coordinates.js, src/determiners.js and the `info` methods read them: property access,
    truthiness and `Number(...)`. */
module Metadata {
  import opened JsString

  /** A property value. `Undefined` is what a missing property reads as. */
  datatype JsValue = Undefined | Null | Bool(b: bool) | Num(n: real) | Str(s: string)

  /** An infobox record: its own properties. */
  type Record = map<string, JsValue>

  /** `record[key]`. */
  function Get(record: Record, key: string): (v: JsValue)
    ensures key !in record ==> v == Undefined
  {
    if key in record then record[key] else Undefined
  }

  /** JavaScript truthiness: false for undefined, null, false, 0 and "". */
  predicate Truthy(v: JsValue)
  {
    match v
    case Undefined => false
    case Null => false
    case Bool(b) => b
    case Num(n) => n != 0.0
    case Str(s) => s != ""
  }

  predicate IsDigit(c: char)
  {
    '0' <= c <= '9'
  }

  predicate AllDigits(s: string)
  {
    forall k :: 0 <= k < |s| ==> IsDigit(s[k])
  }

  /** The value of a string of decimal digits, most significant first. */
  function DigitsValue(ds: string): (v: nat)
    requires AllDigits(ds)
    decreases |ds|
  {
    if ds == [] then 0 else DigitsValue(ds[..|ds| - 1]) * 10 + (ds[|ds| - 1] as int - '0' as int)
  }

  function Pow10(n: nat): (p: nat)
    ensures p >= 1
  {
    if n == 0 then 1 else 10 * Pow10(n - 1)
  }

  /** An unsigned decimal literal `digits`, `digits.digits`, `digits.` or `.digits`. */
  function Decimal(body: string): Option<real>
  {
    var i := IndexOf(body, ".");
    if i == -1 then
      if body != "" && AllDigits(body) then Some(DigitsValue(body) as real) else None
    else
      Fraction(body[..i], body[i + 1..])
  }

  function Fraction(whole: string, frac: string): Option<real>
  {
    if AllDigits(whole) && AllDigits(frac) && |whole| + |frac| > 0 then
      Some(DigitsValue(whole) as real + (DigitsValue(frac) as real) / (Pow10(|frac|) as real))
    else None
  }

  /** `Number(s)` for a string: white space around it is ignored, the empty string is 0, an
      optional sign precedes a decimal literal; anything else is NaN (None). */
  function NumberOf(s: string): Option<real>
  {
    var t := Trim(s);
    if t == "" then Some(0.0)
    else if t[0] == '-' then Negated(Decimal(t[1..]))
    else if t[0] == '+' then Decimal(t[1..])
    else Decimal(t)
  }

  function Negated(v: Option<real>): Option<real>
  {
    if v.None? then None else Some(-v.value)
  }

  /** `Number(v)`, None standing for NaN. */
  function ToNumber(v: JsValue): Option<real>
  {
    match v
    case Undefined => None
    case Null => Some(0.0)
    case Bool(b) => Some(if b then 1.0 else 0.0)
    case Num(n) => Some(n)
    case Str(s) => NumberOf(s)
  }

  /** A run of digits reads as its decimal value. */
  lemma DigitsNumber(ds: string)
    requires ds != "" && AllDigits(ds)
    ensures NumberOf(ds) == Some(DigitsValue(ds) as real)
  {
    TrimNoSpace(ds);
    DigitsNoDot(ds);
    assert IsDigit(ds[0]);
  }

  lemma DigitsNoDot(ds: string)
    requires AllDigits(ds)
    ensures IndexOf(ds, ".") == -1
  {
    ContainsChar(ds, '.');
  }
}
