/**
 * `Mock` (src/mock.ts), the synthesiser the server uses: it turns a schema of
 * the loaded document into a JSON value, following `$ref` links through
 * `resolveRef` under the `canLoopRef` guard.
 *
 * The functions below are the specification: each takes the trail the caller
 * hands over and answers the value (or what was thrown) together with the
 * caller's trail afterwards. A `$ref` child works on the caller's own trail;
 * every other child works on a copy, so what it pushes is lost. The class
 * `Mock` at the end is the implementation the source writes, with its loops
 * and in-place pushes, proved equal to these functions.
 */
module Mock {
  import opened Js
  import opened JsObjects
  import opened Schemas
  import opened Utils
  import opened Budget

  /**
   * `getOutputSchema(schema, mockRefs)`. Only an explicit `type: object`
   * takes the object branch; an untyped schema, a bare `$ref` included, is a
   * primitive. Whatever it answers, the trail only grows, and only by pushes
   * the guard admitted.
   */
  function OutputOf(c: Ctx, schema: Option<Schema>, t: seq<string>): (r: Out<Json>)
    ensures SpendsWithin(t, r.trail, c.maxLoops)
    ensures schema.None? ==> r == Out(Ok(EmptyObject), t)
    ensures schema.Some? && HasType(schema.value, "object") && r.result.Ok? ==>
      r.result.value.JObj? && IsSubsequence(KeysOf(r.result.value.fields), KeysOf(Entries(schema.value.properties.EntriesOr())))
    ensures schema.Some? && !HasType(schema.value, "object") && !HasType(schema.value, "array") ==>
      r == Out(Ok(PropertyValue(schema.value)), t)
    decreases Avail(c, OrBare(schema), t), OrBare(schema), 2, 0
  {
    match schema
    case None => SpendsNothing(t, c.maxLoops); Out(Ok(EmptyObject), t)
    case Some(s) =>
      if HasType(s, "object") then
        match s.properties
        case NoProperties =>
          SpendsNothing(t, c.maxLoops);
          Out(Ok(EmptyObject), t)
        case Declared(ps) =>
          var o := RecordOf(c, s, 0, t);
          assert Entries(ps)[0..] == Entries(ps);
          Out(MapOk(o.result, fs => JObj(fs)), o.trail)
      else if HasType(s, "array") then
        match s.items
        case None => SpendsNothing(t, c.maxLoops); Out(Thrown(TypeError), t)
        case Some(Tuple(_)) => SpendsNothing(t, c.maxLoops); Out(Ok(EmptyObject), t)
        case Some(Single(it)) =>
          RefsInItems(s, it);
          AvailBelow(c, s, it, t);
          if it.ref.Some? then
            // the resolved value comes back unwrapped
            var o := ResolutionOf(c, it.ref.value, it, t);
            Out(ValueOrEmptyObject(o.result), o.trail)
          else
            match it.properties
            case NoProperties => SpendsNothing(t, c.maxLoops); Out(Ok(EmptyObject), t)
            case Declared(_) =>
              var o := RecordOf(c, it, 0, t);
              Out(MapOk(o.result, fs => JArr([JObj(fs)])), o.trail)
      else
        SpendsNothing(t, c.maxLoops);
        Out(Ok(PropertyValue(s)), t)
  }

  /**
   * `resolveRef(ref, refList)`: when the joined path already occurs more than
   * `maxLoops` times it answers `undefined` and leaves the trail alone;
   * otherwise it pushes the path onto the caller's trail and synthesises the
   * schema the path names (`{}` when there is none).
   */
  function ResolutionOf(c: Ctx, ref: string, ghost holder: Schema, t: seq<string>): (r: Out<Option<Json>>)
    requires RefKey(ref) in RefsIn(holder)
    ensures SpendsWithin(t, r.trail, c.maxLoops)
    ensures Count(RefKey(ref), t) > c.maxLoops <==> r == Out(Ok(None), t)
    ensures Count(RefKey(ref), t) <= c.maxLoops ==>
      t + [RefKey(ref)] <= r.trail && (r.result.Ok? ==> r.result.value.Some?)
    decreases Avail(c, holder, t), holder, 0, 0
  {
    var p := RefKey(ref);
    if Count(p, t) > c.maxLoops then
      SpendsNothing(t, c.maxLoops);
      Out(Ok(None), t)
    else
      var pushed := t + [p];
      SpendsOnePush(t, p, c.maxLoops);
      var target := Lookup(c.doc, RefSegments(ref));
      AvailResolve(c, holder, ref, t, target, pushed);
      var o := OutputOf(c, target, pushed);
      SpendsTransitive(t, pushed, o.trail, c.maxLoops);
      Out(Defined(o.result), o.trail)
  }

  /**
   * The `for (const key of Object.keys(...))` loop from the `i`-th key on:
   * the fields it assigns, in order. The keys assigned are some of the
   * declared keys, in enumeration order.
   */
  function RecordOf(c: Ctx, parent: Schema, i: nat, t: seq<string>): (r: Out<Fields>)
    requires parent.properties.Declared?
    requires i <= |Entries(parent.properties.entries)|
    ensures SpendsWithin(t, r.trail, c.maxLoops)
    ensures r.result.Ok? ==>
      IsSubsequence(KeysOf(r.result.value), KeysOf(Entries(parent.properties.entries)[i..]))
    decreases Avail(c, parent, t), parent, 1, |Entries(parent.properties.entries)| - i
  {
    var es := Entries(parent.properties.entries);
    if i == |es| then
      SpendsNothing(t, c.maxLoops);
      Out(Ok([]), t)
    else
      var o := EntryOf(c, parent, es[i], t);
      match o.result
      case Thrown(f) => Out(Thrown(f), o.trail)
      case Ok(v) =>
        AvailShrinks(c, parent, parent, t, o.trail);
        var rest := RecordOf(c, parent, i + 1, o.trail);
        SpendsTransitive(t, o.trail, rest.trail, c.maxLoops);
        AssignedKeys(es, i, v, rest.result);
        Out(Assigned(es[i].0, v, rest.result), rest.trail)
  }

  /** `if (v !== undefined) record[key] = v`, ahead of the fields assigned after it. */
  function Assigned(key: string, v: Option<Json>, rest: Result<Fields>): Result<Fields>
  {
    match rest
    case Thrown(f) => Thrown(f)
    case Ok(fs) => if v.Some? then Ok([(key, v.value)] + fs) else Ok(fs)
  }

  lemma AssignedKeys<V>(es: seq<(string, V)>, i: nat, v: Option<Json>, rest: Result<Fields>)
    requires i < |es|
    requires rest.Ok? ==> IsSubsequence(KeysOf(rest.value), KeysOf(es[i + 1..]))
    ensures var r := Assigned(es[i].0, v, rest);
      r.Ok? ==> IsSubsequence(KeysOf(r.value), KeysOf(es[i..]))
  {
    if rest.Ok? {
      var fs := rest.value;
      assert KeysOf(es[i..]) == [es[i].0] + KeysOf(es[i + 1..]) by {
        assert es[i..] == [es[i]] + es[i + 1..];
      }
      if v.Some? {
        assert KeysOf([(es[i].0, v.value)] + fs) == [es[i].0] + KeysOf(fs);
      } else {
        SubsequenceOfTail(KeysOf(fs), es[i].0, KeysOf(es[i + 1..]));
      }
    }
  }

  /**
   * The body of that loop for one declared property: the value assigned to
   * its key, or `None` when the key is left out. Only a `$ref` (of the
   * property or of its items) works on the caller's trail; an exhausted
   * reference leaves the key out and the trail alone.
   */
  function EntryOf(c: Ctx, parent: Schema, e: (string, Schema), t: seq<string>): (r: Out<Option<Json>>)
    requires parent.properties.Declared? && e in parent.properties.entries
    ensures SpendsWithin(t, r.trail, c.maxLoops)
    ensures r.trail != t ==> e.1.ref.Some? || ItemsHaveRef(e.1.items)
    ensures e.1.ref.Some? && Count(RefKey(e.1.ref.value), t) > c.maxLoops ==> r == Out(Ok(None), t)
    ensures DropsKey(e.1) ==> r == Out(Ok(None), t)
    ensures Primitive(e.1) ==> r == Out(Ok(Some(PropertyValue(e.1))), t)
    ensures r.result == Ok(None) ==> e.1.ref.Some? || ItemsHaveRef(e.1.items) || DropsKey(e.1)
    decreases Avail(c, parent, t), parent, 0, 0
  {
    var prop := e.1;
    RefsInProperty(parent, e);
    AvailBelow(c, parent, prop, t);
    if prop.ref.Some? then
      ResolutionOf(c, prop.ref.value, prop, t)
    else if HasType(prop, "object") then
      var o := OutputOf(c, Some(prop), t);
      SpendsNothing(t, c.maxLoops);
      Out(Defined(o.result), t)
    else if HasType(prop, "array") then
      SpendsNothing(t, c.maxLoops);
      match prop.items
      case None => Out(Thrown(TypeError), t)
      case Some(Tuple(_)) =>
        // a JavaScript array has no `type`, so it is synthesised as a primitive
        Out(Ok(Some(JArr([PropertyValue(ItemsAsSchema(prop.items.value))]))), t)
      case Some(Single(it)) =>
        RefsInItems(prop, it);
        AvailBelow(c, parent, it, t);
        if it.ref.Some? then
          var o := ResolutionOf(c, it.ref.value, it, t);
          Out(Wrapped(o.result), o.trail)
        else if HasType(it, "object") || Untyped(it) then
          var o := OutputOf(c, Some(it), t);
          Out(Defined(MapOk(o.result, v => JArr([v]))), t)
        else
          Out(Ok(None), t)
    else
      SpendsNothing(t, c.maxLoops);
      Out(Ok(Some(PropertyValue(prop))), t)
  }

  // ---------------------------------------------------------------------------
  // Properties of the synthesised record

  /** Every field comes from a declared property from the `i`-th on that is not an array of primitive items. */
  predicate FromKeptEntries(fields: Fields, es: seq<(string, Schema)>, i: nat)
  {
    forall f :: f in fields ==> exists j :: i <= j < |es| && es[j].0 == f.0 && !DropsKey(es[j].1)
  }

  /** Every primitive property from the `i`-th on has its `getPropertyValue` in the record. */
  predicate PrimitivesPresent(fields: Fields, es: seq<(string, Schema)>, i: nat)
  {
    forall j :: i <= j < |es| && Primitive(es[j].1) ==> (es[j].0, PropertyValue(es[j].1)) in fields
  }

  /**
   * Every field of a record comes from a declared property that is not an
   * array of primitive items, and every primitive property gets its
   * `getPropertyValue`, whatever the trail.
   */
  lemma {:induction false} RecordFields(c: Ctx, parent: Schema, i: nat, t: seq<string>)
    requires parent.properties.Declared?
    requires i <= |Entries(parent.properties.entries)|
    ensures var r := RecordOf(c, parent, i, t);
      r.result.Ok? ==>
        && FromKeptEntries(r.result.value, Entries(parent.properties.entries), i)
        && PrimitivesPresent(r.result.value, Entries(parent.properties.entries), i)
    decreases |Entries(parent.properties.entries)| - i
  {
    var es := Entries(parent.properties.entries);
    if i < |es| {
      var o := EntryOf(c, parent, es[i], t);
      if o.result.Ok? {
        var v := o.result.value;
        var rest := RecordOf(c, parent, i + 1, o.trail);
        RecordFields(c, parent, i + 1, o.trail);
        RecordUnfold(c, parent, i, t);
        if rest.result.Ok? {
          AssignedFields(es, i, v, rest.result.value);
        }
      }
    }
  }

  /** One assignment keeps both properties of the record. */
  lemma AssignedFields(es: seq<(string, Schema)>, i: nat, v: Option<Json>, fs: Fields)
    requires i < |es|
    requires DropsKey(es[i].1) ==> v.None?
    requires Primitive(es[i].1) ==> v == Some(PropertyValue(es[i].1))
    requires FromKeptEntries(fs, es, i + 1) && PrimitivesPresent(fs, es, i + 1)
    ensures var out := Assigned(es[i].0, v, Ok(fs)).value;
      FromKeptEntries(out, es, i) && PrimitivesPresent(out, es, i)
  {
    var out := Assigned(es[i].0, v, Ok(fs)).value;
    forall f | f in out
      ensures exists j :: i <= j < |es| && es[j].0 == f.0 && !DropsKey(es[j].1)
    {
      if f !in fs {
        assert es[i].0 == f.0 && !DropsKey(es[i].1);
      }
    }
    forall j | i <= j < |es| && Primitive(es[j].1)
      ensures (es[j].0, PropertyValue(es[j].1)) in out
    {
      if j == i {
        assert v == Some(PropertyValue(es[i].1));
      } else {
        assert (es[j].0, PropertyValue(es[j].1)) in fs;
      }
    }
  }

  /** An object schema with properties answers the record its loop builds. */
  lemma ObjectOutput(c: Ctx, s: Schema, t: seq<string>)
    requires HasType(s, "object") && s.properties.Declared?
    ensures var o := RecordOf(c, s, 0, t);
      var r := OutputOf(c, Some(s), t);
      && r.trail == o.trail
      && (r.result.Ok? <==> o.result.Ok?)
      && (o.result.Ok? ==> r.result.value == JObj(o.result.value))
  {
  }

  /** An object schema without `properties` runs its loop over `{}` and answers an empty record. */
  lemma NoPropertiesOutput(c: Ctx, s: Schema, t: seq<string>)
    requires HasType(s, "object") && s.properties.NoProperties?
    ensures var r := OutputOf(c, Some(s), t); r.result == Ok(EmptyObject) && r.trail == t
  {
  }

  /** An array schema without `items` throws at `schema.items.properties`. */
  lemma ItemlessArrayOutput(c: Ctx, s: Schema, t: seq<string>)
    requires HasType(s, "array") && s.items.None?
    ensures OutputOf(c, Some(s), t) == Out(Thrown(TypeError), t)
  {
  }

  /**
   * An array schema with `$ref` items that the guard admits answers the
   * synthesis of what the path names, unwrapped, on the trail with the path
   * pushed.
   */
  lemma RefItemsOutput(c: Ctx, s: Schema, t: seq<string>)
    requires HasType(s, "array") && s.items.Some? && s.items.value.Single? && s.items.value.schema.ref.Some?
    requires Count(RefKey(s.items.value.schema.ref.value), t) <= c.maxLoops
    ensures var ref := s.items.value.schema.ref.value;
      OutputOf(c, Some(s), t) == OutputOf(c, Lookup(c.doc, RefSegments(ref)), t + [RefKey(ref)])
  {
  }

  /** Once the guard refuses the path of `$ref` items, the array schema answers `{}` and the trail is left alone. */
  lemma RefItemsSpent(c: Ctx, s: Schema, t: seq<string>)
    requires HasType(s, "array") && s.items.Some? && s.items.value.Single? && s.items.value.schema.ref.Some?
    requires Count(RefKey(s.items.value.schema.ref.value), t) > c.maxLoops
    ensures var r := OutputOf(c, Some(s), t); r.result == Ok(EmptyObject) && r.trail == t
  {
  }

  /**
   * An array schema with tuple `items`, or with one item that has neither a
   * `$ref` nor `properties`, takes no branch and answers the final `{}`.
   */
  lemma OtherItemsOutput(c: Ctx, s: Schema, t: seq<string>)
    requires HasType(s, "array") && s.items.Some?
    requires s.items.value.Tuple? || (s.items.value.schema.ref.None? && s.items.value.schema.properties.NoProperties?)
    ensures var r := OutputOf(c, Some(s), t); r.result == Ok(EmptyObject) && r.trail == t
  {
  }

  /** An array schema whose items declare properties answers `[record]`, the record its loop builds. */
  lemma ItemsOutput(c: Ctx, s: Schema, t: seq<string>)
    requires HasType(s, "array") && s.items.Some? && s.items.value.Single?
    requires s.items.value.schema.ref.None? && s.items.value.schema.properties.Declared?
    ensures var o := RecordOf(c, s.items.value.schema, 0, t);
      var r := OutputOf(c, Some(s), t);
      && r.trail == o.trail
      && (r.result.Ok? <==> o.result.Ok?)
      && (o.result.Ok? ==> r.result.value == JArr([JObj(o.result.value)]))
  {
  }

  /**
   * A `$ref` property that the guard admits is set to the synthesis of what
   * its path names, on the caller's trail with the path pushed; once the
   * guard refuses the path, the key is left out and the trail alone.
   */
  lemma RefEntry(c: Ctx, parent: Schema, e: (string, Schema), t: seq<string>)
    requires parent.properties.Declared? && e in parent.properties.entries
    requires e.1.ref.Some?
    ensures var ref := e.1.ref.value;
      var p := RefKey(ref);
      var r := EntryOf(c, parent, e, t);
      var o := OutputOf(c, Lookup(c.doc, RefSegments(ref)), t + [p]);
      r == if Count(p, t) > c.maxLoops then Out(Ok(None), t) else Out(Defined(o.result), o.trail)
  {
  }

  /**
   * An object property is set to the synthesis of its own schema, on a copy
   * of the trail, which the caller's trail does not see.
   */
  lemma ObjectEntry(c: Ctx, parent: Schema, e: (string, Schema), t: seq<string>)
    requires parent.properties.Declared? && e in parent.properties.entries
    requires e.1.ref.None? && HasType(e.1, "object")
    ensures var r := EntryOf(c, parent, e, t);
      r.result == Defined(OutputOf(c, Some(e.1), t).result) && r.trail == t
  {
  }

  /**
   * An array property with `$ref` items is set to `[resolved]`, on the trail
   * the resolution leaves; its key is left out once the guard refuses the path.
   */
  lemma RefItemsEntry(c: Ctx, parent: Schema, e: (string, Schema), t: seq<string>)
    requires parent.properties.Declared? && e in parent.properties.entries
    requires e.1.ref.None? && HasType(e.1, "array")
    requires e.1.items.Some? && e.1.items.value.Single? && e.1.items.value.schema.ref.Some?
    ensures var ref := e.1.items.value.schema.ref.value;
      var p := RefKey(ref);
      var r := EntryOf(c, parent, e, t);
      var o := OutputOf(c, Lookup(c.doc, RefSegments(ref)), t + [p]);
      r == if Count(p, t) > c.maxLoops then Out(Ok(None), t)
        else Out(MapOk(o.result, v => Some(JArr([v]))), o.trail)
  {
  }

  /**
   * An array property with object or untyped items is set to `[value]`, the
   * items synthesised on a copy of the trail, which the caller's trail does
   * not see.
   */
  lemma ObjectItemsEntry(c: Ctx, parent: Schema, e: (string, Schema), t: seq<string>)
    requires parent.properties.Declared? && e in parent.properties.entries
    requires e.1.ref.None? && HasType(e.1, "array")
    requires e.1.items.Some? && e.1.items.value.Single?
    requires var it := e.1.items.value.schema; it.ref.None? && (HasType(it, "object") || Untyped(it))
    ensures var o := OutputOf(c, Some(e.1.items.value.schema), t);
      var r := EntryOf(c, parent, e, t);
      && r.trail == t
      && (r.result.Ok? <==> o.result.Ok?)
      && (o.result.Ok? ==> r.result.value == Some(JArr([o.result.value])))
  {
  }

  /**
   * An array property with tuple `items` is set to `[null]`: a JavaScript
   * array has no `type`, so it is synthesised as a primitive without a
   * default, an example or a type.
   */
  lemma TupleItemsEntry(c: Ctx, parent: Schema, e: (string, Schema), t: seq<string>)
    requires parent.properties.Declared? && e in parent.properties.entries
    requires e.1.ref.None? && HasType(e.1, "array") && e.1.items.Some? && e.1.items.value.Tuple?
    ensures var r := EntryOf(c, parent, e, t); r.result == Ok(Some(JArr([JNull]))) && r.trail == t
  {
  }

  /** An array property without `items` throws at `property.items.type`. */
  lemma ItemlessArrayEntry(c: Ctx, parent: Schema, e: (string, Schema), t: seq<string>)
    requires parent.properties.Declared? && e in parent.properties.entries
    requires e.1.ref.None? && HasType(e.1, "array") && e.1.items.None?
    ensures EntryOf(c, parent, e, t) == Out(Thrown(TypeError), t)
  {
  }

  /** An object schema's record holds no array property with primitive items. */
  lemma PrimitiveArraysLeftOut(c: Ctx, s: Schema, t: seq<string>, key: string)
    requires HasType(s, "object") && s.properties.Declared?
    requires forall e :: e in s.properties.entries && e.0 == key ==> DropsKey(e.1)
    ensures var r := OutputOf(c, Some(s), t);
      r.result.Ok? ==> key !in KeysOf(r.result.value.fields)
  {
    var es := Entries(s.properties.entries);
    RecordFields(c, s, 0, t);
    ObjectOutput(c, s, t);
    var o := RecordOf(c, s, 0, t);
    if o.result.Ok? {
      var fs := o.result.value;
      forall k | 0 <= k < |fs| ensures KeysOf(fs)[k] != key {
        assert fs[k] in fs;
        var j :| 0 <= j < |es| && es[j].0 == fs[k].0 && !DropsKey(es[j].1);
        var e := es[j];
        assert e in es;
        assert e in s.properties.entries;
      }
    }
  }

  /**
   * Sibling `$ref` properties share one trail: when the path has one hop of
   * budget left, the first property spends it and the second, referring to
   * the same path, finds it spent and its key is left out.
   */
  lemma SiblingRefsShareTrail(c: Ctx, s: Schema, ref: string, t: seq<string>)
    requires HasType(s, "object") && s.properties == Declared([("a", RefTo(ref)), ("b", RefTo(ref))])
    requires Count(RefKey(ref), t) == c.maxLoops
    ensures var r := OutputOf(c, Some(s), t);
      r.result.Ok? ==> r.result.value.JObj? && KeysOf(r.result.value.fields) == ["a"]
  {
    var ps := s.properties.entries;
    var p := RefKey(ref);
    EntriesWithoutIndexKeys(ps);
    var o := EntryOf(c, s, ps[0], t);
    assert Count(p, o.trail) > c.maxLoops by {
      CountPush(p, t, p);
      CountsGrow(t + [p], o.trail);
    }
    assert EntryOf(c, s, ps[1], o.trail) == Out(Ok(None), o.trail);
    RecordUnfold(c, s, 1, o.trail);
    RecordUnfold(c, s, 0, t);
    ObjectOutput(c, s, t);
    var rest := RecordOf(c, s, 1, o.trail);
    if o.result.Ok? {
      assert rest.result == Ok([]);
      AssignedFront("a", o.result.value.value);
    }
  }

  lemma AssignedFront(k: string, v: Json)
    ensures Assigned(k, Some(v), Ok([])) == Ok([(k, v)])
  {
    assert [(k, v)] + [] == [(k, v)];
  }

  // ---------------------------------------------------------------------------
  // The implementation

  /** `class Mock`: a synthesiser over one loaded document. */
  class Mock {
    const mock: Document
    const maxLoops: int

    constructor (mock: Document, maxLoops: int)
      ensures this.mock == mock && this.maxLoops == maxLoops
    {
      this.mock := mock;
      this.maxLoops := maxLoops;
    }

    function Setting(): Ctx
    {
      Ctx(mock, maxLoops)
    }

    /** `getOutputSchema(schema, mockRefs)` */
    method GetOutputSchema(schema: Option<Schema>, mockRefs: StringArray) returns (r: Result<Json>)
      modifies mockRefs
      ensures Out(r, mockRefs.elems) == OutputOf(Setting(), schema, old(mockRefs.elems))
      decreases Avail(Setting(), OrBare(schema), mockRefs.elems), OrBare(schema), 2, 0
    {
      if schema.None? {
        return Ok(EmptyObject);
      }
      var s := schema.value;
      if HasType(s, "object") {
        if s.properties.NoProperties? {
          return Ok(EmptyObject);
        }
        var fields := FillRecord(s, mockRefs);
        r := MapOk(fields, fs => JObj(fs));
      } else if HasType(s, "array") {
        if s.items.None? {
          return Thrown(TypeError);
        }
        if s.items.value.Tuple? {
          return Ok(EmptyObject);
        }
        var it := s.items.value.schema;
        RefsInItems(s, it);
        AvailBelow(Setting(), s, it, mockRefs.elems);
        if it.ref.Some? {
          var result := ResolveRef(it.ref.value, it, mockRefs);
          if result.Ok? && result.value.Some? {
            return Ok(result.value.value);
          } else if result.Ok? {
            return Ok(EmptyObject);
          }
          return Thrown(result.failure);
        } else if it.properties.Declared? {
          var value := FillRecord(it, mockRefs);
          r := MapOk(value, fs => JArr([JObj(fs)]));
        } else {
          r := Ok(EmptyObject);
        }
      } else {
        var v := GetPropertyValue(s);
        r := Ok(v);
      }
    }

    /**
     * The `for (const key of Object.keys(...))` loop of `getOutputSchema`,
     * which the source writes out twice (for `properties` and for
     * `items.properties`) with the same body.
     */
    method FillRecord(parent: Schema, mockRefs: StringArray) returns (r: Result<Fields>)
      requires parent.properties.Declared?
      modifies mockRefs
      ensures Out(r, mockRefs.elems) == RecordOf(Setting(), parent, 0, old(mockRefs.elems))
      decreases Avail(Setting(), parent, mockRefs.elems), parent, 1, 0
    {
      ghost var c, t0 := Setting(), mockRefs.elems;
      var es := Entries(parent.properties.entries);
      var record: Fields := [];
      var i := 0;
      RecordEnds(c, parent, t0, record, RecordOf(c, parent, 0, t0));
      while i < |es|
        invariant i <= |es|
        invariant t0 <= mockRefs.elems
        invariant Prefixed(record, RecordOf(c, parent, i, mockRefs.elems)) == RecordOf(c, parent, 0, t0)
        decreases |es| - i
      {
        AvailShrinks(c, parent, parent, t0, mockRefs.elems);
        var v, next := AssignEntry(parent, es, i, record, mockRefs);
        if v.Thrown? {
          return Thrown(v.failure);
        }
        record := next;
        i := i + 1;
      }
      RecordEnds(c, parent, mockRefs.elems, record, Out(Ok([]), []));
      r := Ok(record);
    }

    /** One pass of the record loop: the property's value, and the record with it assigned. */
    method AssignEntry(parent: Schema, es: seq<(string, Schema)>, i: nat, record: Fields, mockRefs: StringArray)
      returns (v: Result<Option<Json>>, next: Fields)
      requires parent.properties.Declared? && es == Entries(parent.properties.entries) && i < |es|
      modifies mockRefs
      ensures v.Thrown? ==>
        Prefixed(record, RecordOf(Setting(), parent, i, old(mockRefs.elems))) == Out(Thrown(v.failure), mockRefs.elems)
      ensures v.Ok? ==> old(mockRefs.elems) <= mockRefs.elems
      ensures v.Ok? ==>
        Prefixed(record, RecordOf(Setting(), parent, i, old(mockRefs.elems)))
        == Prefixed(next, RecordOf(Setting(), parent, i + 1, mockRefs.elems))
      decreases Avail(Setting(), parent, mockRefs.elems), parent, 0, 2
    {
      ghost var before := mockRefs.elems;
      v := SetEntry(parent, es[i], mockRefs);
      next := record;
      if v.Ok? && v.value.Some? {
        next := record + [(es[i].0, v.value.value)];
      }
      RecordStep(Setting(), parent, i, before, record, v, mockRefs.elems, next);
    }

    /** One pass of that loop: the value assigned to the property's key, `None` when it is left out. */
    method SetEntry(parent: Schema, e: (string, Schema), mockRefs: StringArray) returns (v: Result<Option<Json>>)
      requires parent.properties.Declared? && e in parent.properties.entries
      modifies mockRefs
      ensures Out(v, mockRefs.elems) == EntryOf(Setting(), parent, e, old(mockRefs.elems))
      decreases Avail(Setting(), parent, mockRefs.elems), parent, 0, 1
    {
      var property := e.1;
      RefsInProperty(parent, e);
      AvailBelow(Setting(), parent, property, mockRefs.elems);
      if property.ref.Some? {
        v := ResolveRef(property.ref.value, property, mockRefs);
      } else if HasType(property, "object") {
        var copy := new StringArray(mockRefs.elems);
        var o := GetOutputSchema(Some(property), copy);
        v := Defined(o);
      } else if HasType(property, "array") {
        v := SetArrayEntry(parent, e, mockRefs);
      } else {
        var pv := GetPropertyValue(property);
        v := Ok(Some(pv));
      }
    }

    /** The `type === 'array'` branch of a record loop. */
    method SetArrayEntry(parent: Schema, e: (string, Schema), mockRefs: StringArray) returns (v: Result<Option<Json>>)
      requires parent.properties.Declared? && e in parent.properties.entries
      requires e.1.ref.None? && !(HasType(e.1, "object")) && HasType(e.1, "array")
      modifies mockRefs
      ensures Out(v, mockRefs.elems) == EntryOf(Setting(), parent, e, old(mockRefs.elems))
      decreases Avail(Setting(), parent, mockRefs.elems), parent, 0, 0
    {
      var property := e.1;
      RefsInProperty(parent, e);
      AvailBelow(Setting(), parent, property, mockRefs.elems);
      match property.items
      case None =>
        v := Thrown(TypeError);
      case Some(Tuple(_)) =>
        var pv := GetPropertyValue(ItemsAsSchema(property.items.value));
        v := Ok(Some(JArr([pv])));
      case Some(Single(it)) =>
        RefsInItems(property, it);
        AvailBelow(Setting(), parent, it, mockRefs.elems);
        if it.ref.Some? {
          var result := ResolveRef(it.ref.value, it, mockRefs);
          if result.Ok? && result.value.Some? {
            v := Ok(Some(JArr([result.value.value])));
          } else {
            v := result;
          }
        } else if HasType(it, "object") || Untyped(it) {
          var copy := new StringArray(mockRefs.elems);
          var o := GetOutputSchema(Some(it), copy);
          v := Defined(MapOk(o, x => JArr([x])));
        } else {
          v := Ok(None);
        }
    }

    /** `resolveRef(ref, refList)` */
    method ResolveRef(ref: string, ghost holder: Schema, refList: StringArray) returns (r: Result<Option<Json>>)
      requires RefKey(ref) in RefsIn(holder)
      modifies refList
      ensures Out(r, refList.elems) == ResolutionOf(Setting(), ref, holder, old(refList.elems))
      decreases Avail(Setting(), holder, refList.elems), holder, 0, 0
    {
      var refPath := Split(ref, '/');
      refPath := refPath[1..];
      if !CanLoopRef(refPath, refList.elems, maxLoops) {
        return Ok(None);
      }
      refList.Push(Join(refPath, '/'));
      var target := Lookup(mock, refPath);
      AvailResolve(Setting(), holder, ref, old(refList.elems), target, refList.elems);
      var o := GetOutputSchema(target, refList);
      r := Defined(o);
    }
  }

  /** The fields assigned so far, in front of those a later part of the loop assigns. */
  function Prefixed(record: Fields, rest: Out<Fields>): Out<Fields>
  {
    match rest.result
    case Ok(fs) => Out(Ok(record + fs), rest.trail)
    case Thrown(f) => Out(Thrown(f), rest.trail)
  }

  /** The loop from the `i`-th key: one pass, then the loop from the next key on the trail that pass left. */
  lemma RecordUnfold(c: Ctx, parent: Schema, i: nat, t: seq<string>)
    requires parent.properties.Declared?
    requires i < |Entries(parent.properties.entries)|
    ensures var e := Entries(parent.properties.entries)[i];
      var o := EntryOf(c, parent, e, t);
      var rest := RecordOf(c, parent, i + 1, o.trail);
      && (o.result.Thrown? ==> RecordOf(c, parent, i, t) == Out(Thrown(o.result.failure), o.trail))
      && (o.result.Ok? ==> RecordOf(c, parent, i, t) == Out(Assigned(e.0, o.result.value, rest.result), rest.trail))
  {
  }

  /** One pass of the record loop, as the specification of the loop from the `i`-th key sees it. */
  lemma RecordStep(c: Ctx, parent: Schema, i: nat, t: seq<string>, record: Fields, v: Result<Option<Json>>, u: seq<string>, next: Fields)
    requires parent.properties.Declared?
    requires i < |Entries(parent.properties.entries)|
    requires Out(v, u) == EntryOf(c, parent, Entries(parent.properties.entries)[i], t)
    requires v.Ok? ==> next == if v.value.Some? then record + [(Entries(parent.properties.entries)[i].0, v.value.value)] else record
    ensures v.Thrown? ==> Prefixed(record, RecordOf(c, parent, i, t)) == Out(Thrown(v.failure), u)
    ensures v.Ok? ==> t <= u
    ensures v.Ok? ==> Prefixed(record, RecordOf(c, parent, i, t)) == Prefixed(next, RecordOf(c, parent, i + 1, u))
  {
    RecordUnfold(c, parent, i, t);
    if v.Ok? {
      var rest := RecordOf(c, parent, i + 1, u);
      var k := Entries(parent.properties.entries)[i].0;
      PrefixedAssigned(record, k, v.value, rest);
      assert next == record + Assignment(k, v.value);
    }
  }

  /** The loop starts with an empty record, and past the last key it assigns nothing. */
  lemma RecordEnds(c: Ctx, parent: Schema, t: seq<string>, record: Fields, rest: Out<Fields>)
    requires parent.properties.Declared?
    ensures Prefixed([], rest) == rest
    ensures Prefixed(record, RecordOf(c, parent, |Entries(parent.properties.entries)|, t)) == Out(Ok(record), t)
  {
    if rest.result.Ok? {
      assert [] + rest.result.value == rest.result.value;
    }
    assert record + [] == record;
  }

  lemma PrefixedAssigned(record: Fields, k: string, v: Option<Json>, rest: Out<Fields>)
    ensures Prefixed(record, Out(Assigned(k, v, rest.result), rest.trail))
         == Prefixed(record + Assignment(k, v), rest)
  {
    match rest.result
    case Thrown(f) =>
    case Ok(fs) =>
      if v.Some? {
        assert record + ([(k, v.value)] + fs) == (record + [(k, v.value)]) + fs;
      } else {
        assert record + [] == record;
      }
  }
}
