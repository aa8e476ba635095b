/**
 * What the synthesisers have in common: the loaded document and the
 * `maxLoops` setting they read, the outcome of one call together with the
 * reference trail it leaves behind, and the per-path budget that the
 * `canLoopRef` guard enforces on that trail. The budget is what makes the
 * mutual recursion of `getOutputSchema` and `resolveRef` terminate.
 */
module Budget {
  import opened Js
  import opened JsObjects
  import opened Schemas
  import opened Utils

  /** The document a synthesiser was built with and the configured `maxLoops`. */
  datatype Ctx = Ctx(doc: Document, maxLoops: int)

  /** The outcome of a call (a value, or what it threw) and the caller's trail afterwards. */
  datatype Out<+T> = Out(result: Result<T>, trail: seq<string>)

  /** A record under construction: its entries in insertion order. */
  type Fields = seq<(string, Json)>

  /** The field `record[key] = v` adds when `v !== undefined`. */
  function Assignment(key: string, v: Option<Json>): Fields
  {
    if v.Some? then [(key, v.value)] else []
  }

  /** An array property whose items are neither a reference, nor an object, nor untyped: its key is left out. */
  predicate DropsKey(prop: Schema)
  {
    && prop.ref.None?
    && HasType(prop, "array")
    && prop.items.Some? && prop.items.value.Single?
    && var it := prop.items.value.schema;
       it.ref.None? && !HasType(it, "object") && !Untyped(it)
  }

  /** A property that takes the primitive branch: no reference, not an object, not an array. */
  predicate Primitive(prop: Schema)
  {
    prop.ref.None? && !HasType(prop, "object") && !HasType(prop, "array")
  }

  /** Which record loop of `getOutputSchema` runs: over `schema.properties`, or over `schema.items.properties`. */
  datatype Loop = OverProperties | OverItemProperties

  /** `resolveRef(...) ?? {}` */
  function OrEmptyObject(r: Result<Option<Json>>): (d: Result<Json>)
    ensures d.Ok? <==> r.Ok?
    ensures d.Ok? ==> d.value != JNull
    ensures r.Ok? && !Nullish(r.value) ==> d.value == r.value.value
  {
    match r
    case Ok(v) => Ok(Coalesce(v, EmptyObject))
    case Thrown(f) => Thrown(f)
  }

  /** `if (result !== undefined) return result; return {};` */
  function ValueOrEmptyObject(r: Result<Option<Json>>): Result<Json>
  {
    match r
    case Ok(Some(v)) => Ok(v)
    case Ok(None) => Ok(EmptyObject)
    case Thrown(f) => Thrown(f)
  }

  /** `[result]` when the result is defined; the key is left out otherwise. */
  function Wrapped(r: Result<Option<Json>>): Result<Option<Json>>
  {
    match r
    case Ok(Some(v)) => Ok(Some(JArr([v])))
    case Ok(None) => Ok(None)
    case Thrown(f) => Thrown(f)
  }

  /** Past its head, a cons lists its tail. */
  lemma ConsTail(v: Json, vs: seq<Json>)
    ensures forall k :: 1 <= k < |[v] + vs| ==> ([v] + vs)[k] == vs[k - 1]
  {
  }

  /** The values mapped so far, in front of those of the later items. */
  function Prepended(values: seq<Json>, rest: Result<seq<Json>>): Result<seq<Json>>
  {
    match rest
    case Ok(vs) => Ok(values + vs)
    case Thrown(_) => rest
  }

  /** The keys of a record, in order. */
  function KeysOf<V>(fields: seq<(string, V)>): (ks: seq<string>)
    ensures |ks| == |fields|
    ensures forall i :: 0 <= i < |fields| ==> ks[i] == fields[i].0
  {
    if |fields| == 0 then [] else [fields[0].0] + KeysOf(fields[1..])
  }

  /** `Object.keys(o)` lists the keys of `Object.entries(o)`. */
  lemma KeysOfEntries<V(!new)>(o: seq<(string, V)>)
    ensures KeysOf(Entries(o)) == Keys(o)
  {
    calc {
      KeysOf(Entries(o));
      { KeysOfKeyEntries(Entries(o)); }
      KeysOf(KeyEntries(Entries(o)));
      { EntriesOfKeys(o); }
      KeysOf(Entries(KeyEntries(o)));
      { KeysAreKeysOf(o); }
      Keys(o);
    }
  }

  lemma KeysOfKeyEntries<V>(s: seq<(string, V)>)
    ensures KeysOf(KeyEntries(s)) == KeysOf(s)
  {
    assert |KeysOf(KeyEntries(s))| == |KeysOf(s)|;
  }

  lemma KeysAreKeysOf<V>(o: seq<(string, V)>)
    ensures Keys(o) == KeysOf(Entries(KeyEntries(o)))
  {
    var es := Entries(KeyEntries(o));
    assert |es| == |multiset(es)|;
  }

  /** `a` is `b` with some elements left out, the rest kept in order. */
  predicate IsSubsequence(a: seq<string>, b: seq<string>)
  {
    if |a| == 0 then true
    else if |b| == 0 then false
    else if a[0] == b[0] then IsSubsequence(a[1..], b[1..])
    else IsSubsequence(a, b[1..])
  }

  /** A subsequence stays one when the whole gains an element in front. */
  lemma {:induction false} SubsequenceOfTail(a: seq<string>, x: string, b: seq<string>)
    requires IsSubsequence(a, b)
    ensures IsSubsequence(a, [x] + b)
    decreases |b|, 1
  {
    if |a| > 0 {
      assert ([x] + b)[1..] == b;
      if a[0] == x {
        SubsequenceDropHead(a, b);
      }
    }
  }

  lemma {:induction false} SubsequenceDropHead(a: seq<string>, b: seq<string>)
    requires |a| > 0 && IsSubsequence(a, b)
    ensures IsSubsequence(a[1..], b)
    decreases |b|, 0
  {
    if |b| > 0 && a[0] != b[0] {
      SubsequenceDropHead(a, b[1..]);
      SubsequenceOfTail(a[1..], b[0], b[1..]);
      assert [b[0]] + b[1..] == b;
    } else if |b| > 0 {
      SubsequenceOfTail(a[1..], b[0], b[1..]);
      assert [b[0]] + b[1..] == b;
    }
  }

  /** Every element of a subsequence is an element of the whole. */
  lemma {:induction false} SubsequenceMembers(a: seq<string>, b: seq<string>)
    requires IsSubsequence(a, b)
    ensures forall x :: x in a ==> x in b
    decreases |b|
  {
    if |a| > 0 && |b| > 0 {
      if a[0] == b[0] {
        SubsequenceMembers(a[1..], b[1..]);
        assert forall x :: x in a ==> x == a[0] || x in a[1..];
      } else {
        SubsequenceMembers(a, b[1..]);
      }
    }
  }

  // ---------------------------------------------------------------------------
  // The per-path budget

  /**
   * `u` extends the trail `t`, and every path `u` records more often than `t`
   * is recorded at most `maxLoops + 1` times: the guard admits a push only
   * while the count is at most `maxLoops`.
   */
  ghost predicate SpendsWithin(t: seq<string>, u: seq<string>, maxLoops: int)
  {
    && t <= u
    && forall p :: Count(p, t) < Count(p, u) ==> Count(p, u) <= maxLoops + 1
  }

  lemma SpendsNothing(t: seq<string>, maxLoops: int)
    ensures SpendsWithin(t, t, maxLoops)
  {
  }

  /** A push the guard admitted stays within the budget. */
  lemma SpendsOnePush(t: seq<string>, p: string, maxLoops: int)
    requires Count(p, t) <= maxLoops
    ensures SpendsWithin(t, t + [p], maxLoops)
  {
    forall q ensures Count(q, t + [p]) == Count(q, t) + if q == p then 1 else 0 {
      CountPush(q, t, p);
    }
  }

  /** Counts only grow along a trail's extensions. */
  lemma CountsGrow(t: seq<string>, u: seq<string>)
    requires t <= u
    ensures forall p :: Count(p, t) <= Count(p, u)
  {
    assert u == t + u[|t|..];
    forall p ensures Count(p, t) <= Count(p, u) {
      CountGrows(p, t, u[|t|..]);
    }
  }

  lemma SpendsTransitive(t: seq<string>, u: seq<string>, w: seq<string>, maxLoops: int)
    requires SpendsWithin(t, u, maxLoops) && SpendsWithin(u, w, maxLoops)
    ensures SpendsWithin(t, w, maxLoops)
  {
    CountsGrow(t, u);
    CountsGrow(u, w);
  }

  // ---------------------------------------------------------------------------
  // The termination measure

  /** The references a synthesiser can meet below `s`: those in `s` and those anywhere in the document. */
  ghost function Scope(c: Ctx, s: Schema): set<string>
  {
    DocRefs(c.doc) + RefsIn(s)
  }

  /**
   * The unspent budget: one token `(p, i)` for each path `p` in scope and each
   * count `i` from the current one up to `maxLoops`. An admitted push of `p`
   * spends the token `(p, Count(p, t))`.
   */
  ghost function Avail(c: Ctx, s: Schema, t: seq<string>): set<(string, int)>
  {
    set p, i | p in Scope(c, s) && Count(p, t) <= i <= c.maxLoops :: (p, i)
  }

  /** A sub-schema and a longer trail never have more budget. */
  lemma AvailShrinks(c: Ctx, parent: Schema, child: Schema, t: seq<string>, u: seq<string>)
    requires Scope(c, child) <= Scope(c, parent)
    requires t <= u
    ensures Avail(c, child, u) <= Avail(c, parent, t)
  {
    CountsGrow(t, u);
  }

  /** A sub-schema has no more budget than the schema around it. */
  lemma AvailBelow(c: Ctx, parent: Schema, child: Schema, t: seq<string>)
    requires RefsIn(child) <= RefsIn(parent)
    ensures Avail(c, child, t) <= Avail(c, parent, t)
  {
    AvailShrinks(c, parent, child, t, t);
  }

  /** An admitted push of a path in scope spends a token. */
  lemma AvailPush(c: Ctx, s: Schema, t: seq<string>, p: string)
    requires p in Scope(c, s) && Count(p, t) <= c.maxLoops
    ensures Avail(c, s, t + [p]) < Avail(c, s, t)
  {
    CountsGrow(t, t + [p]);
    CountPush(p, t, p);
    assert (p, Count(p, t)) in Avail(c, s, t);
    assert (p, Count(p, t)) !in Avail(c, s, t + [p]);
  }

  /**
   * Resolving a reference held by `holder` and synthesising what the path
   * names (`undefined` when it names nothing) spends a token of the holder's
   * budget.
   */
  lemma AvailResolve(c: Ctx, holder: Schema, ref: string, t: seq<string>, target: Option<Schema>, u: seq<string>)
    requires RefKey(ref) in RefsIn(holder) && Count(RefKey(ref), t) <= c.maxLoops
    requires target == Lookup(c.doc, RefSegments(ref))
    requires t + [RefKey(ref)] <= u
    ensures Avail(c, OrBare(target), u) < Avail(c, holder, t)
  {
    if target.Some? {
      LookupRefs(c.doc, RefSegments(ref));
    } else {
      assert RefsIn(Bare) == {};
    }
    AvailShrinks(c, holder, OrBare(target), t + [RefKey(ref)], u);
    AvailPush(c, holder, t, RefKey(ref));
  }

  /** What `schema` reads as for the measure when it is `undefined`: a schema holding no reference. */
  function OrBare(s: Option<Schema>): Schema
  {
    s.GetOr(Bare)
  }

  /** `Ok(v)` as `Ok(Some(v))`: a value where a value or `undefined` is expected. */
  function Defined<T>(r: Result<T>): (d: Result<Option<T>>)
    ensures d.Ok? <==> r.Ok?
    ensures r.Ok? ==> d.value == Some(r.value)
  {
    match r
    case Ok(v) => Ok(Some(v))
    case Thrown(f) => Thrown(f)
  }

  /** The references under a declared property are references under its parent. */
  lemma RefsInProperty(parent: Schema, e: (string, Schema))
    requires parent.properties.Declared? && e in parent.properties.entries
    ensures RefsIn(e.1) <= RefsIn(parent)
  {
  }

  /** The references under `items` are references under the array schema. */
  lemma RefsInItems(parent: Schema, x: Schema)
    requires parent.items.Some?
    requires parent.items.value == Single(x) || (parent.items.value.Tuple? && x in parent.items.value.schemas)
    ensures RefsIn(x) <= RefsIn(parent)
  {
  }
}
