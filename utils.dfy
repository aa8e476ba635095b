/**
 * The helpers of the `Utils` class: the fallback value of a primitive schema,
 * the key-path walk into a document, the reference-loop guard and the
 * status-code pattern helpers.
 */
module Utils {
  import opened Js
  import opened JsObjects
  import opened Schemas

  // ---------------------------------------------------------------------------
  // getPropertyValue

  /** The value a primitive type falls back to when no default or example is given. */
  function TypeFallback(typ: Option<string>): (r: Json)
    ensures r == JBool(false) <==> typ == Some("boolean")
    ensures r == JNum(0) <==> typ == Some("number") || typ == Some("integer")
    ensures r == JStr("") <==> typ == Some("string")
    ensures r == JNull <==> typ !in {Some("boolean"), Some("number"), Some("integer"), Some("string")}
  {
    match typ
    case Some("boolean") => JBool(false)
    case Some("number") => JNum(0)
    case Some("string") => JStr("")
    case Some("integer") => JNum(0)
    case _ => JNull
  }

  /** `null` and `undefined`, the values `??` skips. */
  predicate Nullish(v: Option<Json>)
  {
    v.None? || v == Some(JNull)
  }

  /** `v ?? fallback` */
  function Coalesce(v: Option<Json>, fallback: Json): Json
  {
    if Nullish(v) then fallback else v.value
  }

  /** `property.default ?? property.example ?? <type fallback>` */
  function PropertyValue(s: Schema): (r: Json)
    ensures !Nullish(s.default) ==> r == s.default.value
    ensures Nullish(s.default) && !Nullish(s.example) ==> r == s.example.value
    ensures r == JNull <==>
      Nullish(s.default) && Nullish(s.example) && TypeFallback(s.typ) == JNull
  {
    Coalesce(s.default, Coalesce(s.example, TypeFallback(s.typ)))
  }

  /** `getPropertyValue`, written as the source assigns its local through an if-chain. */
  method GetPropertyValue(property: Schema) returns (r: Json)
    ensures r == PropertyValue(property)
  {
    var defaultValue := JNull;
    if property.typ == Some("boolean") {
      defaultValue := JBool(false);
    } else if property.typ == Some("number") {
      defaultValue := JNum(0);
    } else if property.typ == Some("string") {
      defaultValue := JStr("");
    } else if property.typ == Some("integer") {
      defaultValue := JNum(0);
    }
    if !Nullish(property.default) {
      r := property.default.value;
    } else if !Nullish(property.example) {
      r := property.example.value;
    } else {
      r := defaultValue;
    }
  }

  // ---------------------------------------------------------------------------
  // getObjectFromRef

  /** `v[key]` for a non-nullish JSON value; `None` is `undefined`. Inherited members are not modelled. */
  function Member(v: Json, key: string): Option<Json>
  {
    match v
    case JObj(fields) => Get(fields, key)
    case JArr(xs) =>
      if IsArrayIndex(key) && IndexValue(key) < |xs| then Some(xs[IndexValue(key)])
      else if key == "length" then Some(JNum(|xs|))
      else None
    case JStr(s) =>
      if IsArrayIndex(key) && IndexValue(key) < |s| then Some(JStr([s[IndexValue(key)]]))
      else if key == "length" then Some(JNum(|s|))
      else None
    case _ => None
  }

  /**
   * `getObjectFromRef(object, ref)`: follows the keys in order and stops at the
   * first empty key (`!key`) or at the end of the path; reading a key of
   * `undefined` or `null` throws a TypeError.
   */
  function Walk(v: Option<Json>, ref: seq<string>): (r: Result<Option<Json>>)
    ensures |ref| == 0 || ref[0] == "" ==> r == Ok(v)
    ensures |ref| > 0 && ref[0] != "" && Nullish(v) ==> r == Thrown(TypeError)
    ensures r.Thrown? ==> r.failure == TypeError
    decreases |ref|
  {
    if |ref| == 0 || ref[0] == "" then Ok(v)
    else if Nullish(v) then Thrown(TypeError)
    else Walk(Member(v.value, ref[0]), ref[1..])
  }

  /** Everything after the first empty key is ignored. */
  lemma {:induction false} WalkStopsAtEmptyKey(v: Option<Json>, ref: seq<string>)
    ensures Walk(v, ref) == Walk(v, TakeUntilEmpty(ref))
    decreases |ref|
  {
    if |ref| > 0 && ref[0] != "" && !Nullish(v) {
      WalkStopsAtEmptyKey(Member(v.value, ref[0]), ref[1..]);
      assert TakeUntilEmpty(ref)[1..] == TakeUntilEmpty(ref[1..]);
    }
  }

  /** Walking a path of non-empty keys and then another path is walking their concatenation. */
  lemma {:induction false} WalkConcat(v: Option<Json>, p: seq<string>, q: seq<string>)
    requires forall i :: 0 <= i < |p| ==> p[i] != ""
    ensures Walk(v, p + q) == match Walk(v, p) case Ok(w) => Walk(w, q) case Thrown(f) => Thrown(f)
    decreases |p|
  {
    if |p| == 0 {
      assert p + q == q;
    } else {
      assert (p + q)[0] == p[0] && (p + q)[1..] == p[1..] + q;
      if !Nullish(v) {
        WalkConcat(Member(v.value, p[0]), p[1..], q);
      }
    }
  }

  /** The example of the source's documentation: `{a: {b: {c: 1}}}`, `['a', 'b', 'c']` gives 1. */
  lemma WalkExample()
    ensures Walk(Some(JObj([("a", JObj([("b", JObj([("c", JNum(1))]))]))])), ["a", "b", "c"])
            == Ok(Some(JNum(1)))
  {
    var c := JObj([("c", JNum(1))]);
    var b := JObj([("b", c)]);
    var a := JObj([("a", b)]);
    assert Member(a, "a") == Some(b);
    assert Member(b, "b") == Some(c);
    assert Member(c, "c") == Some(JNum(1));
  }

  /** How many keys the walk shifts off the caller's array before it returns or throws. */
  function Consumed(v: Option<Json>, ref: seq<string>): (n: nat)
    ensures n <= |ref|
    decreases |ref|
  {
    if |ref| == 0 then 0
    else if ref[0] == "" || Nullish(v) then 1
    else 1 + Consumed(Member(v.value, ref[0]), ref[1..])
  }

  /**
   * `getObjectFromRef`, consuming the caller's key array with `shift()` as the
   * source does: the keys it read are gone from `ref` afterwards.
   */
  method GetObjectFromRef(obj: Option<Json>, ref: StringArray) returns (r: Result<Option<Json>>)
    modifies ref
    ensures r == Walk(obj, old(ref.elems))
    ensures ref.elems == old(ref.elems)[Consumed(obj, old(ref.elems))..]
    decreases |ref.elems|
  {
    var key := ref.Shift();
    if key.None? || key.value == "" {
      return Ok(obj);
    }
    if Nullish(obj) {
      return Thrown(TypeError);
    }
    r := GetObjectFromRef(Member(obj.value, key.value), ref);
  }

  // ---------------------------------------------------------------------------
  // canLoopRef

  /** `mockRefs.filter(r => r === p).length` */
  function Count(p: string, trail: seq<string>): nat
  {
    if |trail| == 0 then 0
    else Count(p, trail[..|trail| - 1]) + (if trail[|trail| - 1] == p then 1 else 0)
  }

  /** The count is the multiplicity of `p` in the trail. */
  lemma {:induction false} CountIsMultiplicity(p: string, trail: seq<string>)
    ensures Count(p, trail) == multiset(trail)[p]
  {
    if |trail| > 0 {
      CountIsMultiplicity(p, trail[..|trail| - 1]);
      assert trail == trail[..|trail| - 1] + [trail[|trail| - 1]];
    }
  }

  /** The count never falls as the trail grows. */
  lemma {:induction false} CountGrows(p: string, trail: seq<string>, more: seq<string>)
    ensures Count(p, trail) <= Count(p, trail + more)
    decreases |more|
  {
    if |more| > 0 {
      var longer := trail + more[..|more| - 1];
      CountGrows(p, trail, more[..|more| - 1]);
      assert (trail + more)[..|trail + more| - 1] == longer;
      assert Count(p, trail + more) >= Count(p, longer);
    } else {
      assert trail + more == trail;
    }
  }

  /**
   * `canLoopRef(ref, mockRefs)`: false exactly when the joined path already
   * occurs in the trail more than `maxLoops` times. The trail is only read.
   */
  predicate CanLoopRef(ref: seq<string>, trail: seq<string>, maxLoops: int)
    ensures CanLoopRef(ref, trail, maxLoops) <==> multiset(trail)[Join(ref, '/')] <= maxLoops
  {
    CountIsMultiplicity(Join(ref, '/'), trail);
    !(Count(Join(ref, '/'), trail) > maxLoops)
  }

  /** `p` pushed `k` times. */
  function Repeat(p: string, k: nat): (r: seq<string>)
    ensures |r| == k
  {
    if k == 0 then [] else Repeat(p, k - 1) + [p]
  }

  /**
   * The per-path budget: after `k` more pushes of a path, the guard still lets
   * it through exactly when its count so far plus `k` is at most `maxLoops`.
   */
  lemma {:induction false} CanLoopAfterPushes(ref: seq<string>, trail: seq<string>, k: nat, maxLoops: int)
    ensures CanLoopRef(ref, trail + Repeat(Join(ref, '/'), k), maxLoops)
            <==> Count(Join(ref, '/'), trail) + k <= maxLoops
  {
    CountAfterPushes(Join(ref, '/'), trail, k);
  }

  lemma CountAfterPushes(p: string, trail: seq<string>, k: nat)
    ensures Count(p, trail + Repeat(p, k)) == Count(p, trail) + k
  {
    CountIsMultiplicity(p, trail + Repeat(p, k));
    CountIsMultiplicity(p, trail);
    RepeatMultiplicity(p, k);
    assert multiset(trail + Repeat(p, k)) == multiset(trail) + multiset(Repeat(p, k));
  }

  /** `k` pushes of `p` hold `p` exactly `k` times. */
  lemma {:induction false} RepeatMultiplicity(p: string, k: nat)
    ensures multiset(Repeat(p, k))[p] == k
  {
    if k > 0 {
      RepeatMultiplicity(p, k - 1);
      assert multiset(Repeat(p, k)) == multiset(Repeat(p, k - 1)) + multiset{p};
    }
  }

  /** One push adds one to the count of the pushed path and leaves every other count alone. */
  lemma CountPush(p: string, trail: seq<string>, q: string)
    ensures Count(p, trail + [q]) == Count(p, trail) + if q == p then 1 else 0
  {
    assert (trail + [q])[..|trail|] == trail;
  }

  // ---------------------------------------------------------------------------
  // isValidStatusCode, getFirstMatchingStatusCode

  /** One character of `([1-5]|X)`. */
  predicate IsClassDigitOrWild(c: char)
  {
    ('1' <= c <= '5') || c == 'X'
  }

  /** One character of `(\d|X)`. */
  predicate IsDigitOrWild(c: char)
  {
    IsDigit(c) || c == 'X'
  }

  /** `/^([1-5]|X)(\d|X){2}?$/.test(t)`, matched group by group. */
  predicate MatchesStatusRegex(t: string)
  {
    && |t| > 0 && IsClassDigitOrWild(t[0])
    && RepeatDigitOrWild(t[1..], 2)
  }

  /** `(\d|X){n}` followed by the end of input. */
  predicate RepeatDigitOrWild(t: string, n: nat)
  {
    if n == 0 then |t| == 0
    else |t| > 0 && IsDigitOrWild(t[0]) && RepeatDigitOrWild(t[1..], n - 1)
  }

  /** A status-code pattern: exactly three characters, a class digit or `X`, then two digits or `X`. */
  predicate IsStatusPattern(t: string)
  {
    |t| == 3 && IsClassDigitOrWild(t[0]) && IsDigitOrWild(t[1]) && IsDigitOrWild(t[2])
  }

  /** `(\d|X){n}$` accepts exactly the strings of `n` digits or `X`. */
  lemma {:induction false} RepeatIsExact(t: string, n: nat)
    ensures RepeatDigitOrWild(t, n) <==> |t| == n && forall i :: 0 <= i < n ==> IsDigitOrWild(t[i])
  {
    if n > 0 && |t| > 0 {
      RepeatIsExact(t[1..], n - 1);
      assert forall i :: 1 <= i < |t| ==> t[i] == t[1..][i - 1];
    }
  }

  /** The lazy `{2}?` still takes exactly two: the regular expression accepts exactly the status patterns. */
  lemma RegexIsStatusPattern(t: string)
    ensures MatchesStatusRegex(t) <==> IsStatusPattern(t)
  {
    if |t| > 0 {
      RepeatIsExact(t[1..], 2);
    }
  }

  /** `statusCode.trim().toUpperCase()` */
  function Normalize(code: string): string
  {
    ToUpper(Trim(code))
  }

  /**
   * `isValidStatusCode`: after trimming and upper-casing, the code must be a
   * status pattern; anything else throws. It never returns false.
   */
  function IsValidStatusCode(code: string): (r: Result<bool>)
    ensures r.Ok? <==> IsStatusPattern(Normalize(code))
    ensures r.Ok? ==> r.value
    ensures r.Thrown? ==> r.failure == InvalidStatusCode(Normalize(code))
  {
    var t := Normalize(code);
    RegexIsStatusPattern(t);
    if t == "" || !MatchesStatusRegex(t) then Thrown(InvalidStatusCode(t)) else Ok(true)
  }

  /** The positions of `t` that are not the wildcard `X`, in ascending order. */
  function IndicesToMatch(t: string, from: nat := 0): (r: seq<nat>)
    requires from <= |t|
    ensures forall i :: 0 <= i < |r| ==> from <= r[i] < |t| && t[r[i]] != 'X'
    ensures forall j :: from <= j < |t| && t[j] != 'X' ==> j in r
    ensures forall i, k :: 0 <= i < k < |r| ==> r[i] < r[k]
    decreases |t| - from
  {
    if from == |t| then []
    else if t[from] != 'X' then [from] + IndicesToMatch(t, from + 1)
    else IndicesToMatch(t, from + 1)
  }

  /**
   * The callback given to `find`. The `return false` inside the `forEach`
   * only leaves the `forEach` callback, so the comparisons are evaluated and
   * discarded and the `find` callback always answers `true`.
   */
  predicate FindCallback(code: string, target: string, indexToMatch: seq<nat>)
  {
    var trimmed := Normalize(code);
    var discarded := seq(|indexToMatch|, i requires 0 <= i < |indexToMatch| =>
      !(indexToMatch[i] < |trimmed| && indexToMatch[i] < |target| &&
        trimmed[indexToMatch[i]] == target[indexToMatch[i]]));
    true
  }

  /** `codes.find(callback)`: the first element the callback accepts. */
  function Find(codes: seq<string>, callback: string -> bool): (r: Option<string>)
    ensures r.Some? ==> r.value in codes && callback(r.value)
    ensures r.Some? ==>
      exists k :: 0 <= k < |codes| && codes[k] == r.value && (forall i :: 0 <= i < k ==> !callback(codes[i]))
    ensures r.None? ==> forall i :: 0 <= i < |codes| ==> !callback(codes[i])
  {
    if |codes| == 0 then None
    else if callback(codes[0]) then Some(codes[0])
    else Find(codes[1..], callback)
  }

  /**
   * `getFirstMatchingStatusCode(statusCodes, statusToMatch)` as written: it
   * throws on an invalid target and otherwise answers the first candidate,
   * untrimmed, or `None` (`undefined`) for an empty list.
   */
  function FirstMatchingStatusCode(codes: seq<string>, target: string): (r: Result<Option<string>>)
    ensures r.Ok? <==> IsStatusPattern(Normalize(target))
    ensures r.Ok? ==> r.value == if |codes| == 0 then None else Some(codes[0])
    ensures r.Ok? && r.value.Some? ==> r.value.value in codes
    ensures r.Thrown? ==> r.failure == InvalidStatusCode(Normalize(target))
  {
    var t := Normalize(target);
    assert Normalize(t) == t by { NormalizeIdempotent(target); }
    match IsValidStatusCode(t)
    case Thrown(f) => Thrown(f)
    case Ok(_) => Ok(Find(codes, c => FindCallback(c, t, IndicesToMatch(t))))
  }

  /** Upper-casing neither creates nor removes white space. */
  lemma UpperKeepsWhiteSpace(c: char)
    ensures IsJsWhiteSpace(UpperChar(c)) == IsJsWhiteSpace(c)
  {
  }

  /** A string without white space at either end is its own trim. */
  lemma TrimUntouched(s: string)
    requires s == [] || (!IsJsWhiteSpace(s[0]) && !IsJsWhiteSpace(s[|s| - 1]))
    ensures Trim(s) == s
  {
    assert TrimStart(s) == s;
  }

  /** A trimmed, upper-cased string is left as it is by trimming and upper-casing again. */
  lemma NormalizeFixed(s: string)
    requires s == [] || (!IsJsWhiteSpace(s[0]) && !IsJsWhiteSpace(s[|s| - 1]))
    requires forall i :: 0 <= i < |s| ==> UpperChar(s[i]) == s[i]
    ensures Normalize(s) == s
  {
    TrimUntouched(s);
  }

  lemma NormalizeIdempotent(code: string)
    ensures Normalize(Normalize(code)) == Normalize(code)
  {
    var t := Trim(code);
    var u := ToUpper(t);
    if |t| > 0 {
      assert t[0] == TrimStart(code)[0];
      UpperKeepsWhiteSpace(t[0]);
      UpperKeepsWhiteSpace(t[|t| - 1]);
    }
    NormalizeFixed(u);
  }

  /** What the source evidently meant a candidate to satisfy: every non-wildcard position agrees. */
  predicate StatusMatches(code: string, target: string)
  {
    var c := Normalize(code);
    var t := Normalize(target);
    |c| == |t| && forall i :: 0 <= i < |t| && t[i] != 'X' ==> c[i] == t[i]
  }

  /** Strings of digits and `X` are already trimmed and upper case. */
  lemma NormalizeCodeChars(s: string)
    requires forall i :: 0 <= i < |s| ==> IsDigitOrWild(s[i])
    ensures Normalize(s) == s
  {
    NormalizeFixed(s);
  }

  /**
   * The answer need not match the pattern: target `4XX` over `200, 404, 4XX`
   * answers `200`, which does not match, though `404` does.
   */
  lemma FirstMatchIgnoresPattern(codes: seq<string>, target: string)
    requires codes == ["200", "404", "4XX"] && target == "4XX"
    ensures FirstMatchingStatusCode(codes, target) == Ok(Some(codes[0]))
    ensures !StatusMatches(codes[0], target) && StatusMatches(codes[1], target)
  {
    ExamplePattern(target);
    ExampleMismatch(codes[0], target);
    ExampleMatch(codes[1], target);
  }

  lemma ExamplePattern(target: string)
    requires target == "4XX"
    ensures IsStatusPattern(Normalize(target))
  {
    NormalizeCodeChars(target);
    assert IsStatusPattern(target);
  }

  lemma ExampleMismatch(code: string, target: string)
    requires code == "200" && target == "4XX"
    ensures !StatusMatches(code, target)
  {
    NormalizeCodeChars(target);
    NormalizeCodeChars(code);
    assert code[0] != target[0];
  }

  lemma ExampleMatch(code: string, target: string)
    requires code == "404" && target == "4XX"
    ensures StatusMatches(code, target)
  {
    NormalizeCodeChars(target);
    NormalizeCodeChars(code);
    assert code[0] == target[0] && target[1] == 'X' && target[2] == 'X';
  }



}
