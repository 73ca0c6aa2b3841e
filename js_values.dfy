/** The loosely typed values the modelled code reads from JSON payloads,
    database rows and spreadsheet cells, and the conversions it applies to them
    (`Number(x)`, `parseFloat`, truthiness, `Number.isFinite`). */
module JsValues {
  import opened Wrappers
  import opened Strings

  datatype JsValue =
    | JsNumber(n: real)
    | JsNaN
    | JsInfinity(negative: bool)
    | JsString(s: string)
    | JsBool(b: bool)
    | JsNull
    | JsUndefined
    | JsObject               // an object `Number` reads as NaN: a plain object, an array of two or more
                             // elements; a `Date`, a decimal column or a one-element array arrives as
                             // the `JsNumber` that `Number` gives it

  /** JavaScript truthiness. */
  predicate Truthy(v: JsValue) {
    match v
    case JsNumber(n) => n != 0.0
    case JsNaN => false
    case JsInfinity(_) => true
    case JsString(s) => s != ""
    case JsBool(b) => b
    case JsNull => false
    case JsUndefined => false
    case JsObject => true
  }

  /** The length of the run of decimal digits that `s` starts with. */
  function DigitRun(s: string): (k: nat)
    ensures k <= |s| && AllDigits(s[..k])
    ensures k < |s| ==> !IsDigit(s[k])
  {
    if |s| > 0 && IsDigit(s[0]) then
      var k := 1 + DigitRun(s[1..]);
      assert forall i :: 1 <= i < k ==> s[..k][i] == s[1..][..k - 1][i - 1];
      k
    else 0
  }

  /** The value of `digits "." fraction`. */
  function DecimalValue(digits: string, fraction: string): real
    requires AllDigits(digits) && AllDigits(fraction)
  {
    DigitsValue(digits) as real + DigitsValue(fraction) as real / Pow10(|fraction|) as real
  }

  /** An unsigned decimal literal `ddd`, `ddd.ddd`, `ddd.` or `.ddd`: its value and its length. */
  function ScanUnsignedDecimal(s: string): (r: Option<(real, nat)>)
    ensures r.Some? ==> r.value.0 >= 0.0 && 0 < r.value.1 <= |s|
  {
    var k := DigitRun(s);
    if k < |s| && s[k] == '.' then
      var f := DigitRun(s[k + 1..]);
      if k + f == 0 then None
      else
        assert AllDigits(s[k + 1..][..f]);
        Some((DecimalValue(s[..k], s[k + 1..][..f]), k + 1 + f))
    else if k == 0 then None
    else Some((DigitsValue(s[..k]) as real, k))
  }

  /** An optionally signed decimal literal at the start of `s`: its value and its length. */
  function ScanDecimal(s: string): (r: Option<(real, nat)>)
    ensures r.Some? ==> 0 < r.value.1 <= |s|
  {
    if |s| > 0 && (s[0] == '-' || s[0] == '+') then
      match ScanUnsignedDecimal(s[1..])
      case None => None
      case Some((v, n)) => Some((if s[0] == '-' then -v else v, n + 1))
    else ScanUnsignedDecimal(s)
  }

  /** `Number(s)` on a string, for decimal literals: blank gives 0, anything that is not one
      whole decimal literal between white space gives `None` (NaN). */
  function StringToNumber(s: string): (r: Option<real>)
    ensures IsBlank(s) ==> r == Some(0.0)
  {
    var t := Trim(s);
    TrimEmptyIffBlank(s);
    if t == "" then Some(0.0)
    else
      match ScanDecimal(t)
      case Some((v, n)) => if n == |t| then Some(v) else None
      case None => None
  }

  /** `parseFloat(s)`: the longest decimal literal after leading white space; `None` is NaN. */
  function ParseFloat(s: string): (r: Option<real>)
    ensures (|s| == 0 || !(IsDigit(s[0]) || IsWhitespace(s[0]) || s[0] in "+-.")) ==> r == None
  {
    match ScanDecimal(TrimStart(s))
    case Some((v, _)) => Some(v)
    case None => None
  }

  /** `Number(v)` on any value; `None` is NaN or an infinity. */
  function ToNumber(v: JsValue): (r: Option<real>)
    ensures v.JsNumber? ==> r == Some(v.n)
    ensures v.JsNull? ==> r == Some(0.0)
    ensures v.JsUndefined? || v.JsNaN? || v.JsInfinity? || v.JsObject? ==> r == None
  {
    match v
    case JsNumber(n) => Some(n)
    case JsNaN => None
    case JsInfinity(_) => None
    case JsString(s) => StringToNumber(s)
    case JsBool(b) => Some(if b then 1.0 else 0.0)
    case JsNull => Some(0.0)
    case JsUndefined => None
    case JsObject => None
  }

  /** `Number(v || 0)`: a falsy value counts as 0. */
  function NumberOrZero(v: JsValue): (r: Option<real>)
    ensures !Truthy(v) ==> r == Some(0.0)
    ensures v.JsNumber? ==> r == Some(v.n)
  {
    if Truthy(v) then ToNumber(v) else Some(0.0)
  }

  /** `toFiniteNumber`: a finite number, or a non-blank string that `Number` reads as one;
      anything else (NaN, infinities, blank strings, booleans, null, any object) is `None`. */
  function ToFiniteNumber(v: JsValue): (r: Option<real>)
    ensures v.JsNumber? ==> r == Some(v.n)
    ensures v.JsString? && !IsBlank(v.s) ==> r == ToNumber(v)
    ensures r.Some? ==> v.JsNumber? || (v.JsString? && !IsBlank(v.s))
  {
    match v
    case JsNumber(n) => Some(n)
    case JsString(s) =>
      TrimEmptyIffBlank(s);
      if Trim(s) == "" then None else StringToNumber(s)
    case _ => None
  }

  /** `x || fallback` on a nullable text: the text unless it is null or empty. */
  function StringOr(x: Option<string>, fallback: string): (r: string)
    ensures x.Some? && x.value != "" ==> r == x.value
    ensures x.None? || x.value == "" ==> r == fallback
  {
    if x.Some? && x.value != "" then x.value else fallback
  }

  /** `parseInt(s)` in base 10: the integer written by the digits after leading white space and an
      optional sign; `None` (NaN) when no digit follows. */
  function ParseInt(s: string): (r: Option<int>)
    ensures AllDigits(s) && |s| > 0 ==> r == Some(DigitsValue(s))
    ensures IsBlank(s) ==> r.None?
  {
    var t := TrimStart(s);
    if AllDigits(s) && |s| > 0 then DigitosSemEspaco(s); ParseIntResto(s, t)
    else ParseIntResto(s, t)
  }

  /** A non-empty digit string has no leading white space and is one run of digits. */
  lemma DigitosSemEspaco(s: string)
    requires AllDigits(s) && |s| > 0
    ensures TrimStart(s) == s && DigitRun(s) == |s| && s[..|s|] == s
  {
    assert !IsWhitespace(s[0]);
    DigitRunAll(s);
  }

  /** `parseInt` after the leading white space `t` of `s` is dropped: the sign, then the digits. */
  function ParseIntResto(s: string, t: string): (r: Option<int>)
    requires t == TrimStart(s)
    ensures AllDigits(t) && |t| > 0 && DigitRun(t) == |t| ==> r == Some(DigitsValue(t))
    ensures IsBlank(s) ==> r.None?
  {
    var negativo := |t| > 0 && t[0] == '-';
    var resto := if |t| > 0 && (t[0] == '-' || t[0] == '+') then t[1..] else t;
    var k := DigitRun(resto);
    assert AllDigits(t) && |t| > 0 && DigitRun(t) == |t| ==> !negativo && resto == t && resto[..k] == t;
    if k == 0 then None
    else
      var v: int := DigitsValue(resto[..k]);
      Some(if negativo then -v else v)
  }

  /** What `String` writes for an index, `parseInt` reads back. */
  lemma ParseIntOfNatToString(n: nat)
    ensures ParseInt(NatToString(n)) == Some(n)
  {
    DigitsValueOfNatToString(n);
  }

  /** `truncateString`: the first `maxLength` characters at most; a missing or empty string gives
      "". A negative length keeps nothing, as `substring` clamps it to 0. */
  function TruncateString(str: Option<string>, maxLength: int): (r: string)
    ensures str.None? ==> r == ""
    ensures str.Some? ==> |r| == if |str.value| <= maxLength then |str.value| else if maxLength < 0 then 0 else maxLength
    ensures str.Some? ==> r == str.value[..|r|]
  {
    if str.None? || str.value == "" then ""
    else if |str.value| > maxLength then (if maxLength < 0 then "" else str.value[..maxLength])
    else str.value
  }

  /** The value of a decimal literal written out by `NatToString`. */
  lemma NatLiteral(n: nat)
    ensures StringToNumber(NatToString(n)) == Some(n as real)
  {
    var s := NatToString(n);
    assert DigitRun(s) == |s| by { DigitRunAll(s); }
    assert s[..|s|] == s;
    DigitsValueOfNatToString(n);
    TrimOfDigits(s);
  }

  lemma {:induction false} DigitRunAll(s: string)
    requires AllDigits(s)
    ensures DigitRun(s) == |s|
    decreases |s|
  {
    if |s| > 0 { DigitRunAll(s[1..]); }
  }

  lemma TrimOfDigits(s: string)
    requires AllDigits(s) && |s| > 0
    ensures Trim(s) == s
  {
  }
}
