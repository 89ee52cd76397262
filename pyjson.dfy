/**
 JSON values as the request handler sees them once Flask has decoded a body:
 Python's truthiness, `dict.get` with and without a default, `str()` of a
 value as an f-string formats it, ASCII `str.lower`, and the runtime errors
 that Python raises when a value has the wrong type.
 */
module PyJson {

  datatype Option<+T> = None | Some(value: T)

  /** A decoded JSON value. Numbers are integers; objects are maps from key to value. */
  datatype Json =
    | JNull
    | JBool(b: bool)
    | JNum(n: int)
    | JStr(s: string)
    | JArr(items: seq<Json>)
    | JObj(fields: map<string, Json>)

  /** A Python runtime error raised by an operation applied to a value of the wrong type. */
  datatype Fault =
    | NoAttribute(typeName: string, attribute: string)  // AttributeError
    | NotIterable(typeName: string)                     // TypeError from `x in v`
    | ListIndexedByStr                                  // TypeError from `list["k"]`
    | StrIndexedByStr                                   // TypeError from `str["k"]`
  {
    /** `str(e)` of the exception, in the wording of CPython 3.11 to 3.13. */
    function Text(): string {
      match this
      case NoAttribute(t, a) => "'" + t + "' object has no attribute '" + a + "'"
      case NotIterable(t) => "argument of type '" + t + "' is not iterable"
      case ListIndexedByStr => "list indices must be integers or slices, not str"
      case StrIndexedByStr => "string indices must be integers, not 'str'"
    }
  }

  /** Either a value or the runtime error raised while computing it. */
  datatype Result<+T> = Ok(value: T) | Err(fault: Fault)

  /** Python's `bool(v)`: None, False, 0 and empty strings, lists and dicts are false. */
  predicate Truthy(v: Json) {
    match v
    case JNull => false
    case JBool(b) => b
    case JNum(n) => n != 0
    case JStr(s) => s != ""
    case JArr(items) => items != []
    case JObj(fields) => fields != map[]
  }

  /** `m.get(k, default)`: the default is used only when the key is absent. */
  function GetOr(m: map<string, Json>, k: string, default: Json): (v: Json)
    ensures k in m ==> v == m[k]
    ensures k !in m ==> v == default
  {
    if k in m then m[k] else default
  }

  /** `m.get(k)`: None when the key is absent. */
  function Get(m: map<string, Json>, k: string): (v: Json)
    ensures k in m ==> v == m[k]
    ensures k !in m ==> v == JNull
  {
    GetOr(m, k, JNull)
  }

  /** `type(v).__name__` for a decoded JSON value. */
  function TypeName(v: Json): string {
    match v
    case JNull => "NoneType"
    case JBool(_) => "bool"
    case JNum(_) => "int"
    case JStr(_) => "str"
    case JArr(_) => "list"
    case JObj(_) => "dict"
  }

  function DigitChar(d: nat): char
    requires d < 10
  {
    (48 + d) as char
  }

  predicate IsDigit(c: char) {
    '0' <= c <= '9'
  }

  function DigitValue(c: char): nat
    requires IsDigit(c)
  {
    c as int - '0' as int
  }

  /** The number a string of decimal digits spells, most significant digit first. */
  function DecValue(s: string): nat
    requires forall i :: 0 <= i < |s| ==> IsDigit(s[i])
  {
    if s == [] then 0 else 10 * DecValue(s[..|s| - 1]) + DigitValue(s[|s| - 1])
  }

  /** `str(n)` for a natural number: its decimal digits, with no leading zero. */
  function NatText(n: nat): (r: string)
    ensures |r| > 0 && (forall i :: 0 <= i < |r| ==> IsDigit(r[i]))
    ensures r[0] == '0' ==> r == "0"
    ensures DecValue(r) == n
    decreases n
  {
    if n < 10 then [DigitChar(n)]
    else
      var prefix := NatText(n / 10);
      var r := prefix + [DigitChar(n % 10)];
      assert r[..|r| - 1] == prefix;
      r
  }

  /**
   `str(v)`, which is what an f-string writes for `{v}`. The text of a list or a
   dict (Python's repr, in key insertion order) is supplied by `containerText`.
   */
  function Format(v: Json, containerText: Json -> string): string {
    match v
    case JNull => "None"
    case JBool(b) => if b then "True" else "False"
    case JNum(n) => if n < 0 then "-" + NatText(-n) else NatText(n)
    case JStr(s) => s
    case JArr(_) => containerText(v)
    case JObj(_) => containerText(v)
  }

  /** Python's `s in t` for two strings: `s` occurs in `t` as a contiguous substring. */
  predicate ContainsText(t: string, s: string) {
    exists i | 0 <= i <= |t| - |s| :: OccursAt(t, s, i)
  }

  predicate OccursAt(t: string, s: string, i: int)
    requires 0 <= i <= |t| - |s|
  {
    t[i..i + |s|] == s
  }

  function LowerChar(c: char): char {
    if 'A' <= c <= 'Z' then (c as int + 32) as char else c
  }

  function UpperChar(c: char): char {
    if 'a' <= c <= 'z' then (c as int - 32) as char else c
  }

  /** `s.lower()`, restricted to the ASCII letters. */
  function Lower(s: string): (r: string)
    ensures |r| == |s|
    ensures forall i :: 0 <= i < |s| ==> r[i] == LowerChar(s[i])
  {
    if s == [] then [] else [LowerChar(s[0])] + Lower(s[1..])
  }

  /** `s` spells the lower-case word `w` with each letter in either case. */
  predicate IsCasingOf(s: string, w: string) {
    |s| == |w| && forall i :: 0 <= i < |s| ==> s[i] == w[i] || s[i] == UpperChar(w[i])
  }

  predicate IsLowerWord(w: string) {
    forall i :: 0 <= i < |w| ==> 'a' <= w[i] <= 'z'
  }

  /** Lower-casing then comparing with a lower-case word is comparing without regard to case. */
  lemma LowerMatchesIffCasing(s: string, w: string)
    requires IsLowerWord(w)
    ensures Lower(s) == w <==> IsCasingOf(s, w)
  {
    if Lower(s) == w {
      forall i | 0 <= i < |s|
        ensures s[i] == w[i] || s[i] == UpperChar(w[i])
      {
        assert LowerChar(s[i]) == w[i];
      }
    }
    if IsCasingOf(s, w) {
      forall i | 0 <= i < |s|
        ensures Lower(s)[i] == w[i]
      {
        assert LowerChar(s[i]) == w[i];
      }
    }
  }
}
