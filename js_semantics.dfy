/**
  The pieces of JavaScript semantics the handlers rely on: truthiness and the `||` fallback,
  what a template literal makes of a value, `String.prototype.trim`, the `TypeError` raised by
  reading a property of `undefined`, and `Array.prototype.map` with a callback that may throw.
 */
module JsSemantics {
  import opened Wrappers

  /** A Notion select or status option: `{id, name, color}`. */
  datatype SelectOption = SelectOption(id: string, name: string, color: string)

  /**
    The JavaScript values a property read can produce. Numbers are the integers Notion uses for
    unique identifiers; the only object read out whole is a select option.
   */
  datatype JsValue = Undefined | Null | Str(s: string) | Num(n: int) | Obj(option: SelectOption)

  /** `undefined`, `null`, `""` and `0` are falsy; every other value here (objects included) is truthy. */
  predicate IsTruthy(v: JsValue) {
    match v
    case Undefined => false
    case Null => false
    case Str(s) => s != ""
    case Num(n) => n != 0
    case Obj(_) => true
  }

  /** `v || fallback`: the value itself when truthy, else the fallback. */
  function Or(v: JsValue, fallback: JsValue): (r: JsValue)
    ensures IsTruthy(v) ==> r == v
    ensures !IsTruthy(v) ==> r == fallback
  {
    if IsTruthy(v) then v else fallback
  }

  /** A thrown JavaScript error, reduced to its `message`. */
  datatype JsError = JsError(message: string)

  /** The `TypeError` the engine throws for `undefined[key]` (V8's wording). */
  function ReadOfUndefined(key: string): JsError {
    JsError("Cannot read properties of undefined (reading '" + key + "')")
  }

  function DigitChar(d: nat): char
    requires d < 10
  {
    "0123456789"[d]
  }

  function Digits(n: nat): (r: string)
    decreases n
  {
    if n < 10 then [DigitChar(n)] else Digits(n / 10) + [DigitChar(n % 10)]
  }

  /** What `${v}` in a template literal inserts for the value `v`. */
  function TemplateText(v: JsValue): string {
    match v
    case Undefined => "undefined"
    case Null => "null"
    case Str(s) => s
    case Num(n) => if n < 0 then "-" + Digits(-n) else Digits(n)
    case Obj(_) => "[object Object]"
  }

  /** The LineTerminator characters of ECMAScript: LF, CR, LINE SEPARATOR, PARAGRAPH SEPARATOR. */
  predicate IsLineTerminator(c: char) {
    c == '\n' || c == '\r' || c == '\U{2028}' || c == '\U{2029}'
  }

  /** The WhiteSpace characters of ECMAScript: TAB, VT, FF, SP, NBSP, ZWNBSP and the Zs category. */
  predicate IsWhiteSpace(c: char) {
    c == '\t' || c == '\U{000B}' || c == '\U{000C}' || c == ' ' || c == '\U{00A0}' || c == '\U{FEFF}'
    || c == '\U{1680}' || ('\U{2000}' <= c <= '\U{200A}') || c == '\U{202F}' || c == '\U{205F}'
    || c == '\U{3000}'
  }

  /** The characters `String.prototype.trim` removes. */
  predicate IsStrippable(c: char) {
    IsWhiteSpace(c) || IsLineTerminator(c)
  }

  /** A string that `trim` leaves as it is. */
  predicate IsTrimmed(s: string) {
    s == [] || (!IsStrippable(s[0]) && !IsStrippable(s[|s| - 1]))
  }

  function TrimStart(s: string): (r: string)
    ensures |r| <= |s| && r == s[|s| - |r|..]
    ensures forall i :: 0 <= i < |s| - |r| ==> IsStrippable(s[i])
    ensures r == [] || !IsStrippable(r[0])
    decreases |s|
  {
    if s != [] && IsStrippable(s[0]) then TrimStart(s[1..]) else s
  }

  function TrimEnd(s: string): (r: string)
    ensures |r| <= |s| && r == s[..|r|]
    ensures forall i :: |r| <= i < |s| ==> IsStrippable(s[i])
    ensures r == [] || !IsStrippable(r[|r| - 1])
    decreases |s|
  {
    if s != [] && IsStrippable(s[|s| - 1]) then TrimEnd(s[..|s| - 1]) else s
  }

  /**
    `s.trim()`: what is left of `s` once its longest strippable prefix (removed by `TrimStart`) and
    then its longest strippable suffix are removed. The result begins and ends with a kept
    character, and a string already trimmed is returned unchanged.
   */
  function Trim(s: string): (r: string)
    ensures |r| <= |TrimStart(s)| && r == TrimStart(s)[..|r|]
    ensures forall i :: |r| <= i < |TrimStart(s)| ==> IsStrippable(TrimStart(s)[i])
    ensures IsTrimmed(r)
    ensures IsTrimmed(s) ==> r == s
  {
    TrimEnd(TrimStart(s))
  }

  /**
    `xs.map(f)` where `f` may throw: the callback runs on each element from left to right,
    and the first error it throws escapes the whole `map`.
   */
  function ArrayMap<T, U>(xs: seq<T>, f: T -> Result<U, JsError>): (r: Result<seq<U>, JsError>)
    ensures r.Success? <==> forall i :: 0 <= i < |xs| ==> f(xs[i]).Success?
    ensures r.Success? ==> |r.value| == |xs| && forall i :: 0 <= i < |xs| ==> r.value[i] == f(xs[i]).value
    ensures r.Failure? ==>
      exists k :: 0 <= k < |xs| && f(xs[k]) == Failure(r.error) && forall i :: 0 <= i < k ==> f(xs[i]).Success?
  {
    if xs == [] then Success([])
    else
      match f(xs[0])
      case Failure(e) => Failure(e)
      case Success(y) =>
        match ArrayMap(xs[1..], f)
        case Failure(e) =>
          ghost var k :| 0 <= k < |xs[1..]| && f(xs[1..][k]) == Failure(e) && forall i :: 0 <= i < k ==> f(xs[1..][i]).Success?;
          assert f(xs[k + 1]) == Failure(e);
          Failure(e)
        case Success(ys) => Success([y] + ys)
  }
}
