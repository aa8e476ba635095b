/**
 * The JavaScript values and built-in string and object operations that the
 * mock-synthesis engine relies on: JSON-shaped values, `String.prototype.split`
 * and `Array.prototype.join` on one separator character, `trim`, ASCII
 * upper-casing, `includes`/`replace` with a string pattern, `parseInt(_, 10)`
 * and the order in which `Object.keys` enumerates an object's own keys.
 */
module Js {

  datatype Option<+T> = None | Some(value: T) {
    function GetOr(default: T): T {
      match this
      case Some(v) => v
      case None => default
    }
  }

  /** Why a computation threw instead of returning. */
  datatype Failure =
    | TypeError                     // a member of `undefined` was read, or `in` was applied to `undefined`
    | InvalidStatusCode(code: string)
    | NoResponseContent

  /** The outcome of JavaScript code that may throw. */
  datatype Result<+T> = Ok(value: T) | Thrown(failure: Failure)

  /** A returned value passed on through `f`; what was thrown propagates. */
  function MapOk<T, U>(r: Result<T>, f: T -> U): (m: Result<U>)
    ensures m.Ok? <==> r.Ok?
    ensures r.Thrown? ==> m.failure == r.failure
  {
    match r
    case Ok(v) => Ok(f(v))
    case Thrown(e) => Thrown(e)
  }

  /** A JSON-shaped JavaScript value; objects keep their keys in enumeration order. */
  datatype Json =
    | JNull
    | JBool(b: bool)
    | JNum(n: int)
    | JStr(s: string)
    | JArr(elems: seq<Json>)
    | JObj(fields: seq<(string, Json)>)

  const EmptyObject: Json := JObj([])

  // ---------------------------------------------------------------------------
  // split / join on one separator character

  /** `parts.join(sep)` */
  function Join(parts: seq<string>, sep: char): string
  {
    if |parts| == 0 then ""
    else if |parts| == 1 then parts[0]
    else parts[0] + [sep] + Join(parts[1..], sep)
  }

  /** First position of `c` in `s`. */
  function IndexOfChar(s: string, c: char): (i: nat)
    requires c in s
    ensures i < |s| && s[i] == c && c !in s[..i]
  {
    if s[0] == c then 0 else 1 + IndexOfChar(s[1..], c)
  }

  /**
   * `s.split(sep)`: never empty, no piece holds the separator, and joining the
   * pieces gives `s` back.
   */
  function Split(s: string, sep: char): (parts: seq<string>)
    ensures |parts| >= 1
    ensures forall i :: 0 <= i < |parts| ==> sep !in parts[i]
    ensures Join(parts, sep) == s
    decreases |s|
  {
    if sep !in s then [s]
    else
      var i := IndexOfChar(s, sep);
      var rest := Split(s[i + 1..], sep);
      assert s == s[..i] + [sep] + s[i + 1..];
      [s[..i]] + rest
  }

  /** The other round trip: splitting a join of separator-free pieces gives the pieces back. */
  lemma {:induction false} SplitJoin(parts: seq<string>, sep: char)
    requires |parts| >= 1
    requires forall i :: 0 <= i < |parts| ==> sep !in parts[i]
    ensures Split(Join(parts, sep), sep) == parts
    decreases |parts|
  {
    if |parts| == 1 {
    } else {
      var s := Join(parts, sep);
      assert s == parts[0] + [sep] + Join(parts[1..], sep);
      assert sep in s by { assert s[|parts[0]|] == sep; }
      var i := IndexOfChar(s, sep);
      assert s[..|parts[0]|] == parts[0];
      assert i == |parts[0]|;
      assert s[..i] == parts[0];
      assert s[i + 1..] == Join(parts[1..], sep);
      SplitJoin(parts[1..], sep);
    }
  }

  // ---------------------------------------------------------------------------
  // trim, upper case

  /** The characters `String.prototype.trim` removes: white space and line terminators. */
  predicate IsJsWhiteSpace(c: char)
  {
    c in {'\t', '\n', '\U{000B}', '\U{000C}', '\r', ' ', '\U{00A0}', '\U{1680}',
          '\U{2000}', '\U{2001}', '\U{2002}', '\U{2003}', '\U{2004}', '\U{2005}',
          '\U{2006}', '\U{2007}', '\U{2008}', '\U{2009}', '\U{200A}', '\U{2028}',
          '\U{2029}', '\U{202F}', '\U{205F}', '\U{3000}', '\U{FEFF}'}
  }

  function TrimStart(s: string): (r: string)
    ensures |r| <= |s| && r == s[|s| - |r|..]
    ensures r == [] || !IsJsWhiteSpace(r[0])
    ensures forall i :: 0 <= i < |s| - |r| ==> IsJsWhiteSpace(s[i])
  {
    if |s| > 0 && IsJsWhiteSpace(s[0]) then TrimStart(s[1..]) else s
  }

  function TrimEnd(s: string): (r: string)
    ensures |r| <= |s| && r == s[..|r|]
    ensures r == [] || !IsJsWhiteSpace(r[|r| - 1])
    ensures forall i :: |r| <= i < |s| ==> IsJsWhiteSpace(s[i])
  {
    if |s| > 0 && IsJsWhiteSpace(s[|s| - 1]) then TrimEnd(s[..|s| - 1]) else s
  }

  /** `s.trim()` */
  function Trim(s: string): string
  {
    TrimEnd(TrimStart(s))
  }

  function UpperChar(c: char): char
  {
    if 'a' <= c <= 'z' then (c as int - 'a' as int + 'A' as int) as char else c
  }

  /** `s.toUpperCase()` on ASCII letters; every other character is kept. */
  function ToUpper(s: string): (r: string)
    ensures |r| == |s|
    ensures forall i :: 0 <= i < |s| ==> r[i] == UpperChar(s[i])
  {
    seq(|s|, i requires 0 <= i < |s| => UpperChar(s[i]))
  }

  // ---------------------------------------------------------------------------
  // includes / replace with a string pattern

  predicate OccursAt(s: string, sub: string, i: nat)
  {
    i + |sub| <= |s| && s[i..i + |sub|] == sub
  }

  /** `s.indexOf(sub)`, searching from position `from`. */
  function IndexOf(s: string, sub: string, from: nat := 0): (r: Option<nat>)
    ensures r.Some? ==> from <= r.value && OccursAt(s, sub, r.value)
    ensures r.Some? ==> forall j :: from <= j < r.value ==> !OccursAt(s, sub, j)
    ensures r.None? ==> forall j :: from <= j ==> !OccursAt(s, sub, j)
    decreases |s| - from
  {
    if from + |sub| > |s| then None
    else if s[from..from + |sub|] == sub then Some(from)
    else IndexOf(s, sub, from + 1)
  }

  /** `s.includes(sub)` */
  predicate Includes(s: string, sub: string)
  {
    IndexOf(s, sub).Some?
  }

  /** `s.replace(sub, '')`: the first occurrence of `sub` is removed, if there is one. */
  function RemoveFirst(s: string, sub: string): string
  {
    match IndexOf(s, sub)
    case None => s
    case Some(i) => s[..i] + s[i + |sub|..]
  }

  // ---------------------------------------------------------------------------
  // parseInt(s, 10)

  predicate IsDigit(c: char)
  {
    '0' <= c <= '9'
  }

  function DigitsValue(ds: string): nat
    requires forall i :: 0 <= i < |ds| ==> IsDigit(ds[i])
  {
    if |ds| == 0 then 0
    else
      var last := ds[|ds| - 1];
      assert IsDigit(last);
      10 * DigitsValue(ds[..|ds| - 1]) + (last as int - '0' as int)
  }

  /** The longest prefix of `s` made of decimal digits. */
  function DigitPrefix(s: string): (ds: string)
    ensures |ds| <= |s| && ds == s[..|ds|]
    ensures forall i :: 0 <= i < |ds| ==> IsDigit(ds[i])
    ensures |ds| == |s| || !IsDigit(s[|ds|])
  {
    if |s| > 0 && IsDigit(s[0]) then [s[0]] + DigitPrefix(s[1..]) else ""
  }

  /**
   * `parseInt(s, 10)`: leading white space is skipped, one sign is read, then
   * the longest run of digits; `None` stands for `NaN` (no digit at all).
   */
  function ParseInt(s: string): (r: Option<int>)
    ensures |s| > 0 && (forall i :: 0 <= i < |s| ==> IsDigit(s[i])) ==> r == Some(DigitsValue(s))
    ensures |s| > 1 && s[0] == '-' && (forall i :: 1 <= i < |s| ==> IsDigit(s[i])) ==> r == Some(-(DigitsValue(s[1..]) as int))
    ensures |s| == 0 || !(IsDigit(s[0]) || s[0] == '-' || s[0] == '+' || IsJsWhiteSpace(s[0])) ==> r.None?
    ensures r.Some? ==> exists i :: 0 <= i < |s| && IsDigit(s[i])
  {
    SkipsWhiteSpace(s);
    DigitsSurviveSkip(s);
    if |s| > 0 && (IsDigit(s[0]) || s[0] == '-' || s[0] == '+') then SignedDigits(s)
    else SignedDigits(TrimStart(s))
  }

  /** Skipping white space keeps a string that starts with a digit or a sign. */
  lemma SkipsWhiteSpace(s: string)
    ensures |s| == 0 || !IsJsWhiteSpace(s[0]) ==> TrimStart(s) == s
    ensures |s| > 0 && (IsDigit(s[0]) || s[0] == '-' || s[0] == '+') ==> TrimStart(s) == s
  {
    if |s| > 0 && (IsDigit(s[0]) || s[0] == '-' || s[0] == '+') {
      SignOrDigitIsNotWhiteSpace(s[0]);
    }
  }

  /** Every digit left after skipping white space is a digit of the string. */
  lemma DigitsSurviveSkip(s: string)
    ensures forall i :: 0 <= i < |TrimStart(s)| && IsDigit(TrimStart(s)[i]) ==>
      exists j :: 0 <= j < |s| && IsDigit(s[j])
  {
    var t := TrimStart(s);
    forall i | 0 <= i < |t| && IsDigit(t[i])
      ensures exists j :: 0 <= j < |s| && IsDigit(s[j])
    {
      assert s[|s| - |t| + i] == t[i];
    }
  }

  /** `parseInt` once the white space is skipped: an optional sign, then the longest run of digits. */
  function SignedDigits(t: string): (r: Option<int>)
    ensures |t| > 0 && (forall i :: 0 <= i < |t| ==> IsDigit(t[i])) ==> r == Some(DigitsValue(t))
    ensures |t| > 1 && t[0] == '-' && (forall i :: 1 <= i < |t| ==> IsDigit(t[i])) ==> r == Some(-(DigitsValue(t[1..]) as int))
    ensures |t| == 0 || !(IsDigit(t[0]) || t[0] == '-' || t[0] == '+') ==> r.None?
    ensures r.Some? ==> exists i :: 0 <= i < |t| && IsDigit(t[i])
  {
    var negative := |t| > 0 && t[0] == '-';
    var signed := |t| > 0 && (t[0] == '-' || t[0] == '+');
    var body := if signed then t[1..] else t;
    var ds := DigitPrefix(body);
    assert |ds| > 0 ==> IsDigit(t[if signed then 1 else 0]);
    ParseIntInputs(t);
    var v: int := if |ds| == 0 then 0 else DigitsValue(ds);
    if |ds| == 0 then None
    else if negative then Some(-v)
    else Some(v)
  }

  /** Digits and signs are not white space. */
  lemma SignOrDigitIsNotWhiteSpace(c: char)
    requires IsDigit(c) || c == '-' || c == '+'
    ensures !IsJsWhiteSpace(c)
  {
  }

  /** What `ParseInt` reads of a string that starts with a digit, a sign or neither. */
  lemma ParseIntInputs(s: string)
    ensures (forall i :: 0 <= i < |s| ==> IsDigit(s[i])) ==> DigitPrefix(s) == s
    ensures |s| > 1 && (forall i :: 1 <= i < |s| ==> IsDigit(s[i])) ==> DigitPrefix(s[1..]) == s[1..]
    ensures |s| > 0 && !IsDigit(s[0]) ==> DigitPrefix(s) == ""
  {
    var ds := DigitPrefix(s);
    if forall i :: 0 <= i < |s| ==> IsDigit(s[i]) {
      assert |ds| == |s|;
    }
    if |s| > 1 && (forall i :: 1 <= i < |s| ==> IsDigit(s[i])) {
      var rest := s[1..];
      assert forall i :: 0 <= i < |rest| ==> IsDigit(rest[i]);
      assert |DigitPrefix(rest)| == |rest|;
    }
  }

  // ---------------------------------------------------------------------------
  // string[] updated in place

  /** A JavaScript `string[]` that callers share and update in place. */
  class StringArray {
    var elems: seq<string>

    /** `[...other]` or a literal list. */
    constructor (elems: seq<string>)
      ensures this.elems == elems
    {
      this.elems := elems;
    }

    /** `a.push(x)` */
    method Push(x: string)
      modifies this
      ensures elems == old(elems) + [x]
    {
      elems := elems + [x];
    }

    /** `a.shift()`: removes and returns the first element; `None` (`undefined`) when empty. */
    method Shift() returns (first: Option<string>)
      modifies this
      ensures old(elems) == [] ==> first == None && elems == []
      ensures old(elems) != [] ==> first == Some(old(elems)[0]) && elems == old(elems)[1..]
    {
      if elems == [] {
        first := None;
      } else {
        first := Some(elems[0]);
        elems := elems[1..];
      }
    }
  }
}
