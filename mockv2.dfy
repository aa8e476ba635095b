/**
 * `MockV2` (src/mockV2.ts), the synthesiser for Swagger / OpenAPI 2.0
 * documents. It has the shape of `Mock` with three differences that show in
 * its output: a schema with a `$ref` is resolved whatever its type, an
 * untyped schema is an object, and tuple `items` are mapped element by
 * element. Its loop over `items.properties` also has an early `return []`.
 *
 * As for `Mock`, the functions are the specification, threading the caller's
 * trail, and the class `MockV2` at the end is the implementation, proved
 * equal to them.
 */
module MockV2 {
  import opened Js
  import opened JsObjects
  import opened Schemas
  import opened Utils
  import opened Budget

  /** The members of a Swagger document the adapter reads. */
  datatype Swagger = Swagger(host: Option<string>, basePath: Option<string>, schemas: Document)

  /** What a record loop comes to: the record it filled, or the `return []` of the loop over `items.properties`. */
  datatype Record = Filled(fields: Fields) | Aborted

  /** An array property without `items`: inside the loop over `items.properties` it ends the whole call. */
  predicate AbortsLoop(prop: Schema)
  {
    prop.ref.None? && HasType(prop, "array") && prop.items.None?
  }

  /** The value returned for a loop's record: the object itself, or `[value]` for the items loop; `[]` after an abort. */
  function LoopValue(loop: Loop, rec: Record): Json
  {
    match rec
    case Aborted => JArr([])
    case Filled(fs) => if loop.OverProperties? then JObj(fs) else JArr([JObj(fs)])
  }

  /**
   * `getOutputSchema(schema, mockRefs)`. `undefined` (a reference to nothing)
   * throws at `'$ref' in schema`; a `$ref` answers its resolution, never
   * `null`; an object or untyped schema answers a record over its declared
   * keys; a tuple is mapped to an array of the same length.
   */
  function OutputOf(c: Ctx, schema: Option<Schema>, t: seq<string>): (r: Out<Json>)
    ensures SpendsWithin(t, r.trail, c.maxLoops)
    ensures schema.None? ==> r == Out(Thrown(TypeError), t)
    ensures schema.Some? && schema.value.ref.Some? && r.result.Ok? ==> r.result.value != JNull
    ensures schema.Some? && schema.value.ref.Some? && Count(RefKey(schema.value.ref.value), t) > c.maxLoops ==>
      r == Out(Ok(EmptyObject), t)
    ensures schema.Some? && schema.value.ref.None? && (HasType(schema.value, "object") || Untyped(schema.value)) && r.result.Ok? ==>
      r.result.value.JObj? && IsSubsequence(KeysOf(r.result.value.fields), KeysOf(Entries(schema.value.properties.EntriesOr())))
    ensures schema.Some? && schema.value.ref.None? && HasType(schema.value, "array") && schema.value.items.Some? && schema.value.items.value.Tuple? ==>
      r.trail == t && (r.result.Ok? ==> r.result.value.JArr? && |r.result.value.elems| == |schema.value.items.value.schemas|)
    ensures schema.Some? && Primitive(schema.value) && !Untyped(schema.value) ==> r == Out(Ok(PropertyValue(schema.value)), t)
    decreases Avail(c, OrBare(schema), t), OrBare(schema), 2, 0
  {
    match schema
    case None => SpendsNothing(t, c.maxLoops); Out(Thrown(TypeError), t)
    case Some(s) =>
      if s.ref.Some? then
        var o := ResolutionOf(c, s.ref.value, s, t);
        Out(OrEmptyObject(o.result), o.trail)
      else if HasType(s, "object") || Untyped(s) then
        match s.properties
        case NoProperties =>
          SpendsNothing(t, c.maxLoops);
          Out(Ok(EmptyObject), t)
        case Declared(ps) =>
          var o := RecordOf(c, OverProperties, s, 0, t);
          assert Entries(ps)[0..] == Entries(ps);
          Out(MapOk(o.result, rec => LoopValue(OverProperties, rec)), o.trail)
      else if HasType(s, "array") then
        match s.items
        case None => SpendsNothing(t, c.maxLoops); Out(Ok(EmptyObject), t)
        case Some(Tuple(xs)) =>
          SpendsNothing(t, c.maxLoops);
          Out(MapOk(TupleOf(c, s, xs, 0, t), vs => JArr(vs)), t)
        case Some(Single(it)) =>
          RefsInItems(s, it);
          AvailBelow(c, s, it, t);
          if it.ref.Some? then
            // the resolved value comes back unwrapped
            var o := ResolutionOf(c, it.ref.value, it, t);
            Out(ValueOrEmptyObject(o.result), o.trail)
          else
            match it.properties
            case NoProperties => SpendsNothing(t, c.maxLoops); Out(Ok(EmptyObject), t)
            case Declared(_) =>
              var o := RecordOf(c, OverItemProperties, it, 0, t);
              Out(MapOk(o.result, rec => LoopValue(OverItemProperties, rec)), o.trail)
      else
        SpendsNothing(t, c.maxLoops);
        Out(Ok(PropertyValue(s)), t)
  }

  /**
   * `resolveRef(ref, refList)`: the guard, then the in-place push, then the
   * schema the path names, synthesised on the same trail. A path that names
   * nothing throws.
   */
  function ResolutionOf(c: Ctx, ref: string, ghost holder: Schema, t: seq<string>): (r: Out<Option<Json>>)
    requires RefKey(ref) in RefsIn(holder)
    ensures SpendsWithin(t, r.trail, c.maxLoops)
    ensures Count(RefKey(ref), t) > c.maxLoops <==> r == Out(Ok(None), t)
    ensures Count(RefKey(ref), t) <= c.maxLoops ==>
      t + [RefKey(ref)] <= r.trail && (r.result.Ok? ==> r.result.value.Some?)
    ensures Count(RefKey(ref), t) <= c.maxLoops && Lookup(c.doc, RefSegments(ref)).None? ==>
      r == Out(Thrown(TypeError), t + [RefKey(ref)])
    decreases Avail(c, holder, t), holder, 0, 0
  {
    var p := RefKey(ref);
    if Count(p, t) > c.maxLoops then
      SpendsNothing(t, c.maxLoops);
      Out(Ok(None), t)
    else
      var pushed := t + [p];
      SpendsOnePush(t, p, c.maxLoops);
      var target := Lookup(c.doc, RefSegments(ref));
      AvailResolve(c, holder, ref, t, target, pushed);
      var o := OutputOf(c, target, pushed);
      SpendsTransitive(t, pushed, o.trail, c.maxLoops);
      Out(Defined(o.result), o.trail)
  }

  /**
   * `items.map(item => this.getOutputSchema(item, [...mockRefs]))` from the
   * `i`-th item on: every item is synthesised on its own copy of the trail,
   * so all of them see the same one.
   */
  function TupleOf(c: Ctx, holder: Schema, xs: seq<Schema>, i: nat, t: seq<string>): (r: Result<seq<Json>>)
    requires holder.items == Some(Tuple(xs)) && i <= |xs|
    ensures r.Ok? ==> |r.value| == |xs| - i
    decreases Avail(c, holder, t), holder, 1, |xs| - i
  {
    if i == |xs| then Ok([])
    else
      RefsInItems(holder, xs[i]);
      AvailBelow(c, holder, xs[i], t);
      var first := OutputOf(c, Some(xs[i]), t).result;
      var rest := TupleOf(c, holder, xs, i + 1, t);
      if first.Thrown? then Thrown(first.failure)
      else if rest.Thrown? then Thrown(rest.failure)
      else Ok([first.value] + rest.value)
  }

  /**
   * A record loop from the `i`-th key on. The keys assigned are some of the
   * declared keys, in order, and the loop over `properties` never aborts.
   */
  function RecordOf(c: Ctx, loop: Loop, parent: Schema, i: nat, t: seq<string>): (r: Out<Record>)
    requires parent.properties.Declared?
    requires i <= |Entries(parent.properties.entries)|
    ensures SpendsWithin(t, r.trail, c.maxLoops)
    ensures r.result.Ok? && r.result.value.Filled? ==>
      IsSubsequence(KeysOf(r.result.value.fields), KeysOf(Entries(parent.properties.entries)[i..]))
    ensures loop.OverProperties? && r.result.Ok? ==> r.result.value.Filled?
    decreases Avail(c, parent, t), parent, 1, |Entries(parent.properties.entries)| - i
  {
    var es := Entries(parent.properties.entries);
    if i == |es| then
      SpendsNothing(t, c.maxLoops);
      Out(Ok(Filled([])), t)
    else if loop.OverItemProperties? && AbortsLoop(es[i].1) then
      SpendsNothing(t, c.maxLoops);
      Out(Ok(Aborted), t)
    else
      var o := EntryOf(c, loop, parent, es[i], t);
      match o.result
      case Thrown(f) => Out(Thrown(f), o.trail)
      case Ok(v) =>
        AvailShrinks(c, parent, parent, t, o.trail);
        var rest := RecordOf(c, loop, parent, i + 1, o.trail);
        SpendsTransitive(t, o.trail, rest.trail, c.maxLoops);
        AssignedKeys(es, i, v, rest.result);
        Out(Assigned(es[i].0, v, rest.result), rest.trail)
  }

  /** `if (v !== undefined) record[key] = v`, ahead of what the rest of the loop comes to. */
  function Assigned(key: string, v: Option<Json>, rest: Result<Record>): Result<Record>
  {
    match rest
    case Ok(Filled(fs)) => Ok(Filled(Assignment(key, v) + fs))
    case _ => rest
  }

  lemma AssignedKeys<V>(es: seq<(string, V)>, i: nat, v: Option<Json>, rest: Result<Record>)
    requires i < |es|
    requires rest.Ok? && rest.value.Filled? ==> IsSubsequence(KeysOf(rest.value.fields), KeysOf(es[i + 1..]))
    ensures var r := Assigned(es[i].0, v, rest);
      r.Ok? && r.value.Filled? ==> IsSubsequence(KeysOf(r.value.fields), KeysOf(es[i..]))
  {
    if rest.Ok? && rest.value.Filled? {
      var fs := rest.value.fields;
      assert KeysOf(es[i..]) == [es[i].0] + KeysOf(es[i + 1..]) by {
        assert es[i..] == [es[i]] + es[i + 1..];
      }
      if v.Some? {
        assert KeysOf([(es[i].0, v.value)] + fs) == [es[i].0] + KeysOf(fs);
      } else {
        assert Assignment(es[i].0, v) + fs == fs;
        SubsequenceOfTail(KeysOf(fs), es[i].0, KeysOf(es[i + 1..]));
      }
    }
  }

  /**
   * The body of a record loop for one declared property. Under the loop over
   * `properties` an untyped property is recursed into and an array property
   * without `items` throws; under the loop over `items.properties` an
   * untyped property takes `getPropertyValue` (the test `!schema.type` reads
   * the array schema, which is typed).
   */
  function EntryOf(c: Ctx, loop: Loop, parent: Schema, e: (string, Schema), t: seq<string>): (r: Out<Option<Json>>)
    requires parent.properties.Declared? && e in parent.properties.entries
    requires loop.OverItemProperties? ==> !AbortsLoop(e.1)
    ensures SpendsWithin(t, r.trail, c.maxLoops)
    ensures r.trail != t ==> e.1.ref.Some? || ItemsHaveRef(e.1.items)
    ensures e.1.ref.Some? && Count(RefKey(e.1.ref.value), t) > c.maxLoops ==> r == Out(Ok(None), t)
    ensures DropsKey(e.1) ==> r == Out(Ok(None), t)
    ensures Primitive(e.1) && (loop.OverItemProperties? || !Untyped(e.1)) ==> r == Out(Ok(Some(PropertyValue(e.1))), t)
    ensures e.1.ref.None? && HasType(e.1, "array") && e.1.items.Some? && e.1.items.value.Tuple? && r.result.Ok? ==>
      r.result.value.Some? && r.result.value.value.JArr? && |r.result.value.value.elems| == |e.1.items.value.schemas|
    ensures AbortsLoop(e.1) ==> r == Out(Thrown(TypeError), t)
    ensures r.result == Ok(None) ==> e.1.ref.Some? || ItemsHaveRef(e.1.items) || DropsKey(e.1)
    decreases Avail(c, parent, t), parent, 0, 1
  {
    var prop := e.1;
    RefsInProperty(parent, e);
    AvailBelow(c, parent, prop, t);
    if prop.ref.Some? then
      ResolutionOf(c, prop.ref.value, prop, t)
    else if HasType(prop, "object") || (loop.OverProperties? && Untyped(prop)) then
      var o := OutputOf(c, Some(prop), t);
      SpendsNothing(t, c.maxLoops);
      Out(Defined(o.result), t)
    else if HasType(prop, "array") then
      ArrayEntryOf(c, loop, parent, e, t)
    else
      SpendsNothing(t, c.maxLoops);
      Out(Ok(Some(PropertyValue(prop))), t)
  }

  /** The `type === 'array'` branch of `EntryOf`. */
  function ArrayEntryOf(c: Ctx, loop: Loop, parent: Schema, e: (string, Schema), t: seq<string>): (r: Out<Option<Json>>)
    requires parent.properties.Declared? && e in parent.properties.entries
    requires loop.OverItemProperties? ==> !AbortsLoop(e.1)
    requires e.1.ref.None? && !(HasType(e.1, "object") || (loop.OverProperties? && Untyped(e.1))) && HasType(e.1, "array")
    ensures SpendsWithin(t, r.trail, c.maxLoops)
    ensures r.trail != t ==> ItemsHaveRef(e.1.items)
    ensures DropsKey(e.1) ==> r == Out(Ok(None), t)
    ensures e.1.items.Some? && e.1.items.value.Tuple? && r.result.Ok? ==>
      r.result.value.Some? && r.result.value.value.JArr? && |r.result.value.value.elems| == |e.1.items.value.schemas|
    ensures AbortsLoop(e.1) ==> r == Out(Thrown(TypeError), t)
    ensures r.result == Ok(None) ==> ItemsHaveRef(e.1.items) || DropsKey(e.1)
    decreases Avail(c, parent, t), parent, 0, 0
  {
    var prop := e.1;
    RefsInProperty(parent, e);
    AvailBelow(c, parent, prop, t);
    SpendsNothing(t, c.maxLoops);
    match prop.items
    case None =>
      // `getOutputSchema(undefined, ...)` throws at `'$ref' in schema`
      Out(Thrown(TypeError), t)
    case Some(Tuple(xs)) =>
      Out(Defined(MapOk(TupleOf(c, prop, xs, 0, t), vs => JArr(vs))), t)
    case Some(Single(it)) =>
      RefsInItems(prop, it);
      AvailBelow(c, parent, it, t);
      if it.ref.Some? then
        var o := ResolutionOf(c, it.ref.value, it, t);
        Out(Wrapped(o.result), o.trail)
      else if HasType(it, "object") || Untyped(it) then
        var o := OutputOf(c, Some(it), t);
        Out(Defined(MapOk(o.result, v => JArr([v]))), t)
      else
        Out(Ok(None), t)
  }

  // ---------------------------------------------------------------------------
  // The other members of the adapter

  /** What `getObjectFromRef` accepts: a `$ref` string to split, or a key path. */
  datatype Reference = RefString(s: string) | RefPath(keys: seq<string>)

  /** A response object: a reference, or a response with an optional `schema`. */
  datatype ResponseObject = ResponseObject(ref: Option<string>, schema: Option<Schema>)

  /**
   * `getContentResponse(object)`: `undefined` exactly when the response has
   * neither a `$ref` nor a `schema`; otherwise the synthesised value, on a
   * fresh empty trail.
   */
  function ContentOf(c: Ctx, response: ResponseObject): (r: Result<Option<Json>>)
    ensures r == Ok(None) <==> response.ref.None? && response.schema.None?
    ensures response.ref.Some? && r.Ok? ==> r.value.value != JNull
    ensures response.ref.Some? ==> r == Defined(OutputOf(c, Some(RefTo(response.ref.value)), []).result)
    ensures response.ref.None? && response.schema.Some? ==> r == Defined(OutputOf(c, response.schema, []).result)
  {
    if response.ref.Some? then Defined(OutputOf(c, Some(RefTo(response.ref.value)), []).result)
    else if response.schema.Some? then Defined(OutputOf(c, response.schema, []).result)
    else Ok(None)
  }

  /** `getContentTypeResponse(operation)`: the configured content type when `produces` lists it, `undefined` otherwise. */
  function ContentTypeResponse(produces: Option<seq<string>>, contentType: string): (r: Option<string>)
    ensures r.Some? <==> produces.Some? && contentType in produces.value
    ensures r.Some? ==> r.value == contentType
  {
    if produces.Some? && contentType in produces.value then Some(contentType) else None
  }

  // ---------------------------------------------------------------------------
  // Properties

  /**
   * An array schema whose `items.properties` hold an array property without
   * `items` answers `[]`, whatever the other properties are.
   */
  lemma AbortedItems(c: Ctx, s: Schema, t: seq<string>, j: nat)
    requires s.ref.None? && HasType(s, "array")
    requires s.items.Some? && s.items.value.Single?
    requires var it := s.items.value.schema;
      it.ref.None? && it.properties.Declared? && j < |Entries(it.properties.entries)|
      && AbortsLoop(Entries(it.properties.entries)[j].1)
    ensures var r := OutputOf(c, Some(s), t);
      r.result.Ok? ==> r.result.value == JArr([])
  {
    ItemsOutput(c, s, t);
    AbortReached(c, s.items.value.schema, 0, t, j);
  }

  /**
   * The loop over `items.properties` that reaches an array property without
   * `items` comes to `Aborted`, whatever comes before or after it.
   */
  lemma {:induction false} AbortReached(c: Ctx, parent: Schema, i: nat, t: seq<string>, j: nat)
    requires parent.properties.Declared?
    requires i <= j < |Entries(parent.properties.entries)| && AbortsLoop(Entries(parent.properties.entries)[j].1)
    ensures var r := RecordOf(c, OverItemProperties, parent, i, t);
      r.result.Ok? ==> r.result.value.Aborted?
    decreases j - i
  {
    var es := Entries(parent.properties.entries);
    if i < j && !AbortsLoop(es[i].1) {
      var o := EntryOf(c, OverItemProperties, parent, es[i], t);
      if o.result.Ok? {
        var rest := RecordOf(c, OverItemProperties, parent, i + 1, o.trail);
        AbortReached(c, parent, i + 1, o.trail, j);
        assert RecordOf(c, OverItemProperties, parent, i, t) == Out(Assigned(es[i].0, o.result.value, rest.result), rest.trail);
      }
    }
  }

  /**
   * A schema with a `$ref` that the guard admits answers the synthesis of
   * what the path names, `null` read as `{}`, on the trail with the path
   * pushed.
   */
  lemma RefOutput(c: Ctx, s: Schema, t: seq<string>)
    requires s.ref.Some? && Count(RefKey(s.ref.value), t) <= c.maxLoops
    ensures var o := OutputOf(c, Lookup(c.doc, RefSegments(s.ref.value)), t + [RefKey(s.ref.value)]);
      var r := OutputOf(c, Some(s), t);
      && r.trail == o.trail
      && (r.result.Ok? <==> o.result.Ok?)
      && (o.result.Ok? ==> r.result.value == if o.result.value == JNull then EmptyObject else o.result.value)
  {
  }

  /**
   * A `$ref` response is answered with the synthesis of what its path names,
   * `null` read as `{}`, the path being the first on the trail; with a
   * negative `maxLoops` the guard refuses even that and the answer is `{}`.
   */
  lemma RefContent(c: Ctx, response: ResponseObject)
    requires response.ref.Some?
    ensures var ref := response.ref.value;
      var o := OutputOf(c, Lookup(c.doc, RefSegments(ref)), [RefKey(ref)]);
      var r := ContentOf(c, response);
      && (c.maxLoops < 0 ==> r == Ok(Some(EmptyObject)))
      && (c.maxLoops >= 0 ==> (r.Ok? <==> o.result.Ok?))
      && (c.maxLoops >= 0 && o.result.Ok? ==> r.value == Some(if o.result.value == JNull then EmptyObject else o.result.value))
  {
    var s := RefTo(response.ref.value);
    assert Count(RefKey(s.ref.value), []) == 0;
    if c.maxLoops >= 0 {
      RefOutput(c, s, []);
    }
  }

  /** An object or untyped schema without `properties` runs its loop over `{}` and answers an empty record. */
  lemma NoPropertiesOutput(c: Ctx, s: Schema, t: seq<string>)
    requires s.ref.None? && (HasType(s, "object") || Untyped(s)) && s.properties.NoProperties?
    ensures var r := OutputOf(c, Some(s), t); r.result == Ok(EmptyObject) && r.trail == t
  {
  }

  /**
   * A `$ref` property that the guard admits is set to the synthesis of what
   * its path names, on the caller's trail with the path pushed; once the
   * guard refuses the path, the key is left out and the trail alone.
   */
  lemma RefEntry(c: Ctx, loop: Loop, parent: Schema, e: (string, Schema), t: seq<string>)
    requires parent.properties.Declared? && e in parent.properties.entries
    requires loop.OverItemProperties? ==> !AbortsLoop(e.1)
    requires e.1.ref.Some?
    ensures var ref := e.1.ref.value;
      var p := RefKey(ref);
      var r := EntryOf(c, loop, parent, e, t);
      var o := OutputOf(c, Lookup(c.doc, RefSegments(ref)), t + [p]);
      r == if Count(p, t) > c.maxLoops then Out(Ok(None), t) else Out(Defined(o.result), o.trail)
  {
  }

  /**
   * An object property, and under the loop over `properties` an untyped one,
   * is set to the synthesis of its own schema, on a copy of the trail, which
   * the caller's trail does not see.
   */
  lemma ObjectEntry(c: Ctx, loop: Loop, parent: Schema, e: (string, Schema), t: seq<string>)
    requires parent.properties.Declared? && e in parent.properties.entries
    requires e.1.ref.None? && (HasType(e.1, "object") || (loop.OverProperties? && Untyped(e.1)))
    ensures var r := EntryOf(c, loop, parent, e, t);
      r.result == Defined(OutputOf(c, Some(e.1), t).result) && r.trail == t
  {
  }

  /**
   * An array schema with `$ref` items that the guard admits answers the
   * synthesis of what the path names, unwrapped, on the trail with the path
   * pushed.
   */
  lemma RefItemsOutput(c: Ctx, s: Schema, t: seq<string>)
    requires s.ref.None? && HasType(s, "array") && s.items.Some? && s.items.value.Single? && s.items.value.schema.ref.Some?
    requires Count(RefKey(s.items.value.schema.ref.value), t) <= c.maxLoops
    ensures var ref := s.items.value.schema.ref.value;
      OutputOf(c, Some(s), t) == OutputOf(c, Lookup(c.doc, RefSegments(ref)), t + [RefKey(ref)])
  {
  }

  /** Once the guard refuses the path of `$ref` items, the array schema answers `{}` and the trail is left alone. */
  lemma RefItemsSpent(c: Ctx, s: Schema, t: seq<string>)
    requires s.ref.None? && HasType(s, "array") && s.items.Some? && s.items.value.Single? && s.items.value.schema.ref.Some?
    requires Count(RefKey(s.items.value.schema.ref.value), t) > c.maxLoops
    ensures var r := OutputOf(c, Some(s), t); r.result == Ok(EmptyObject) && r.trail == t
  {
  }

  /**
   * An array property with `$ref` items is set to `[resolved]`, on the trail
   * the resolution leaves; its key is left out once the guard refuses the path.
   */
  lemma RefItemsEntry(c: Ctx, loop: Loop, parent: Schema, e: (string, Schema), t: seq<string>)
    requires parent.properties.Declared? && e in parent.properties.entries
    requires e.1.ref.None? && HasType(e.1, "array")
    requires e.1.items.Some? && e.1.items.value.Single? && e.1.items.value.schema.ref.Some?
    ensures var ref := e.1.items.value.schema.ref.value;
      var p := RefKey(ref);
      var r := EntryOf(c, loop, parent, e, t);
      var o := OutputOf(c, Lookup(c.doc, RefSegments(ref)), t + [p]);
      r == if Count(p, t) > c.maxLoops then Out(Ok(None), t)
        else Out(MapOk(o.result, v => Some(JArr([v]))), o.trail)
  {
    var it := e.1.items.value.schema;
    var ref := it.ref.value;
    assert EntryOf(c, loop, parent, e, t) == ArrayEntryOf(c, loop, parent, e, t);
    if Count(RefKey(ref), t) <= c.maxLoops {
      var o := OutputOf(c, Lookup(c.doc, RefSegments(ref)), t + [RefKey(ref)]);
      assert ResolutionOf(c, ref, it, t) == Out(Defined(o.result), o.trail);
    }
  }

  /**
   * An array property with object or untyped items is set to `[value]`, the
   * items synthesised on a copy of the trail, which the caller's trail does
   * not see.
   */
  lemma ObjectItemsEntry(c: Ctx, loop: Loop, parent: Schema, e: (string, Schema), t: seq<string>)
    requires parent.properties.Declared? && e in parent.properties.entries
    requires e.1.ref.None? && HasType(e.1, "array")
    requires e.1.items.Some? && e.1.items.value.Single?
    requires var it := e.1.items.value.schema; it.ref.None? && (HasType(it, "object") || Untyped(it))
    ensures var o := OutputOf(c, Some(e.1.items.value.schema), t);
      var r := EntryOf(c, loop, parent, e, t);
      && r.trail == t
      && (r.result.Ok? <==> o.result.Ok?)
      && (o.result.Ok? ==> r.result.value == Some(JArr([o.result.value])))
  {
  }

  /**
   * An array schema without `items`, or with one item that has neither a
   * `$ref` nor `properties`, takes no branch and answers the final `{}`.
   */
  lemma OtherItemsOutput(c: Ctx, s: Schema, t: seq<string>)
    requires s.ref.None? && HasType(s, "array")
    requires s.items.None? || (s.items.value.Single? && s.items.value.schema.ref.None? && s.items.value.schema.properties.NoProperties?)
    ensures var r := OutputOf(c, Some(s), t); r.result == Ok(EmptyObject) && r.trail == t
  {
  }

  /** An array schema with object items answers what the loop over `items.properties` comes to. */
  lemma ItemsOutput(c: Ctx, s: Schema, t: seq<string>)
    requires s.ref.None? && HasType(s, "array")
    requires s.items.Some? && s.items.value.Single?
    requires s.items.value.schema.ref.None? && s.items.value.schema.properties.Declared?
    ensures var o := RecordOf(c, OverItemProperties, s.items.value.schema, 0, t);
      var r := OutputOf(c, Some(s), t);
      && r.trail == o.trail
      && (r.result.Ok? <==> o.result.Ok?)
      && (o.result.Ok? ==> r.result.value == LoopValue(OverItemProperties, o.result.value))
  {
  }

  // ---------------------------------------------------------------------------
  // The implementation

  /** `class MockV2`: the adapter over one Swagger document. */
  class MockV2 {
    const mock: Swagger
    const maxLoops: int

    constructor (mock: Swagger, maxLoops: int)
      ensures this.mock == mock && this.maxLoops == maxLoops
    {
      this.mock := mock;
      this.maxLoops := maxLoops;
    }

    function Setting(): Ctx
    {
      Ctx(mock.schemas, maxLoops)
    }

    /** `getBaseUrl()`: the host followed by the base path, each only when present. */
    method GetBaseUrl() returns (url: string)
      ensures url == mock.host.GetOr("") + mock.basePath.GetOr("")
      ensures mock.host.None? && mock.basePath.None? ==> url == ""
    {
      url := "";
      if mock.host.Some? && mock.host.value != "" {
        url := url + mock.host.value;
      }
      if mock.basePath.Some? && mock.basePath.value != "" {
        url := url + mock.basePath.value;
      }
    }

    /** `getObjectFromRef(ref)`: a string loses its leading `#` segment; a key path is walked as given. */
    function GetObjectFromRef(ref: Reference): (r: Option<Schema>)
      ensures r.Some? ==> r.value in mock.schemas.Values
      ensures ref.RefPath? && ref.keys in mock.schemas && (forall i :: 0 <= i < |ref.keys| ==> ref.keys[i] != "") ==>
        r == Some(mock.schemas[ref.keys])
    {
      match ref
      case RefString(s) => Lookup(mock.schemas, RefSegments(s))
      case RefPath(keys) => Lookup(mock.schemas, keys)
    }

    /** The string `#/k1/k2/...` names what the key path `[k1, k2, ...]` names. */
    lemma ObjectFromRefString(keys: seq<string>)
      requires forall i :: 0 <= i < |keys| ==> '/' !in keys[i]
      ensures GetObjectFromRef(RefString(Join(["#"] + keys, '/'))) == GetObjectFromRef(RefPath(keys))
    {
      RefSegmentsOfJoin(keys);
    }

    /** `getContentResponse(object)` */
    method GetContentResponse(response: ResponseObject) returns (r: Result<Option<Json>>)
      ensures r == ContentOf(Setting(), response)
    {
      if response.ref.Some? {
        var mockRefs := new StringArray([]);
        var o := GetOutputSchema(Some(RefTo(response.ref.value)), mockRefs);
        r := Defined(o);
      } else if response.schema.Some? {
        var mockRefs := new StringArray([]);
        var o := GetOutputSchema(response.schema, mockRefs);
        r := Defined(o);
      } else {
        r := Ok(None);
      }
    }

    /** `getOutputSchema(schema, mockRefs)` */
    method GetOutputSchema(schema: Option<Schema>, mockRefs: StringArray) returns (r: Result<Json>)
      modifies mockRefs
      ensures Out(r, mockRefs.elems) == OutputOf(Setting(), schema, old(mockRefs.elems))
      decreases Avail(Setting(), OrBare(schema), mockRefs.elems), OrBare(schema), 2, 0
    {
      if schema.None? {
        // `'$ref' in undefined` throws
        return Thrown(TypeError);
      }
      var s := schema.value;
      if s.ref.Some? {
        var result := ResolveRef(s.ref.value, s, mockRefs);
        r := OrEmptyObject(result);
      } else if HasType(s, "object") || Untyped(s) {
        if s.properties.NoProperties? {
          return Ok(EmptyObject);
        }
        var record := FillRecord(OverProperties, s, mockRefs);
        r := MapOk(record, rec => LoopValue(OverProperties, rec));
      } else if HasType(s, "array") {
        if s.items.Some? && s.items.value.Single? && s.items.value.schema.ref.Some? {
          var it := s.items.value.schema;
          RefsInItems(s, it);
          AvailBelow(Setting(), s, it, mockRefs.elems);
          var result := ResolveRef(it.ref.value, it, mockRefs);
          r := ValueOrEmptyObject(result);
        } else if s.items.Some? && s.items.value.Tuple? {
          var values := MapItems(s, s.items.value.schemas, mockRefs);
          r := MapOk(values, vs => JArr(vs));
        } else if s.items.Some? && s.items.value.schema.properties.Declared? {
          var it := s.items.value.schema;
          RefsInItems(s, it);
          AvailBelow(Setting(), s, it, mockRefs.elems);
          var value := FillRecord(OverItemProperties, it, mockRefs);
          r := MapOk(value, rec => LoopValue(OverItemProperties, rec));
        } else {
          r := Ok(EmptyObject);
        }
      } else {
        var v := GetPropertyValue(s);
        r := Ok(v);
      }
    }

    /** `items.map(item => this.getOutputSchema(item, [...mockRefs]))` */
    method MapItems(holder: Schema, xs: seq<Schema>, mockRefs: StringArray) returns (r: Result<seq<Json>>)
      requires holder.items == Some(Tuple(xs))
      ensures r == TupleOf(Setting(), holder, xs, 0, mockRefs.elems)
      decreases Avail(Setting(), holder, mockRefs.elems), holder, 1, 0
    {
      ghost var c := Setting();
      var values: seq<Json> := [];
      var i := 0;
      TupleEnds(c, holder, xs, mockRefs.elems, values, TupleOf(c, holder, xs, 0, mockRefs.elems));
      while i < |xs|
        invariant i <= |xs|
        invariant Prepended(values, TupleOf(c, holder, xs, i, mockRefs.elems)) == TupleOf(c, holder, xs, 0, mockRefs.elems)
        decreases |xs| - i
      {
        RefsInItems(holder, xs[i]);
        AvailBelow(c, holder, xs[i], mockRefs.elems);
        var copy := new StringArray(mockRefs.elems);
        var v := GetOutputSchema(Some(xs[i]), copy);
        TupleStep(c, holder, xs, i, mockRefs.elems, values, v);
        if v.Thrown? {
          return Thrown(v.failure);
        }
        values := values + [v.value];
        i := i + 1;
      }
      TupleEnds(c, holder, xs, mockRefs.elems, values, Ok([]));
      r := Ok(values);
    }

    /**
     * A record loop of `getOutputSchema`; the source writes it out twice,
     * for `properties` and for `items.properties`.
     */
    method FillRecord(loop: Loop, parent: Schema, mockRefs: StringArray) returns (r: Result<Record>)
      requires parent.properties.Declared?
      modifies mockRefs
      ensures Out(r, mockRefs.elems) == RecordOf(Setting(), loop, parent, 0, old(mockRefs.elems))
      decreases Avail(Setting(), parent, mockRefs.elems), parent, 1, 0
    {
      ghost var c, t0 := Setting(), mockRefs.elems;
      var es := Entries(parent.properties.entries);
      var record: Fields := [];
      var i := 0;
      RecordEnds(c, loop, parent, t0, record, RecordOf(c, loop, parent, 0, t0));
      while i < |es|
        invariant i <= |es|
        invariant t0 <= mockRefs.elems
        invariant Prefixed(record, RecordOf(c, loop, parent, i, mockRefs.elems)) == RecordOf(c, loop, parent, 0, t0)
        decreases |es| - i
      {
        AvailShrinks(c, parent, parent, t0, mockRefs.elems);
        if loop.OverItemProperties? && AbortsLoop(es[i].1) {
          // `if (!item.items) return [];`
          RecordAborts(c, parent, i, mockRefs.elems, record);
          return Ok(Aborted);
        }
        var v, next := AssignEntry(loop, parent, es, i, record, mockRefs);
        if v.Thrown? {
          return Thrown(v.failure);
        }
        record := next;
        i := i + 1;
      }
      RecordEnds(c, loop, parent, mockRefs.elems, record, Out(Ok(Filled([])), []));
      r := Ok(Filled(record));
    }

    /** One pass of the record loop: the property's value, and the record with it assigned. */
    method AssignEntry(loop: Loop, parent: Schema, es: seq<(string, Schema)>, i: nat, record: Fields, mockRefs: StringArray)
      returns (v: Result<Option<Json>>, next: Fields)
      requires parent.properties.Declared? && es == Entries(parent.properties.entries) && i < |es|
      requires loop.OverItemProperties? ==> !AbortsLoop(es[i].1)
      modifies mockRefs
      ensures v.Thrown? ==>
        Prefixed(record, RecordOf(Setting(), loop, parent, i, old(mockRefs.elems))) == Out(Thrown(v.failure), mockRefs.elems)
      ensures v.Ok? ==> old(mockRefs.elems) <= mockRefs.elems
      ensures v.Ok? ==>
        Prefixed(record, RecordOf(Setting(), loop, parent, i, old(mockRefs.elems)))
        == Prefixed(next, RecordOf(Setting(), loop, parent, i + 1, mockRefs.elems))
      decreases Avail(Setting(), parent, mockRefs.elems), parent, 0, 2
    {
      ghost var before := mockRefs.elems;
      v := SetEntry(loop, parent, es[i], mockRefs);
      next := record;
      if v.Ok? && v.value.Some? {
        next := record + [(es[i].0, v.value.value)];
      }
      RecordStep(Setting(), loop, parent, i, before, record, v, mockRefs.elems, next);
    }

    /** One pass of a record loop: the value assigned to the property's key, `None` when it is left out. */
    method SetEntry(loop: Loop, parent: Schema, e: (string, Schema), mockRefs: StringArray) returns (v: Result<Option<Json>>)
      requires parent.properties.Declared? && e in parent.properties.entries
      requires loop.OverItemProperties? ==> !AbortsLoop(e.1)
      modifies mockRefs
      ensures Out(v, mockRefs.elems) == EntryOf(Setting(), loop, parent, e, old(mockRefs.elems))
      decreases Avail(Setting(), parent, mockRefs.elems), parent, 0, 1
    {
      var property := e.1;
      RefsInProperty(parent, e);
      AvailBelow(Setting(), parent, property, mockRefs.elems);
      if property.ref.Some? {
        v := ResolveRef(property.ref.value, property, mockRefs);
      } else if HasType(property, "object") || (loop.OverProperties? && Untyped(property)) {
        var copy := new StringArray(mockRefs.elems);
        var o := GetOutputSchema(Some(property), copy);
        v := Defined(o);
      } else if HasType(property, "array") {
        v := SetArrayEntry(loop, parent, e, mockRefs);
      } else {
        var pv := GetPropertyValue(property);
        v := Ok(Some(pv));
      }
    }

    /** The `type === 'array'` branch of a record loop. */
    method SetArrayEntry(loop: Loop, parent: Schema, e: (string, Schema), mockRefs: StringArray) returns (v: Result<Option<Json>>)
      requires parent.properties.Declared? && e in parent.properties.entries
      requires loop.OverItemProperties? ==> !AbortsLoop(e.1)
      requires e.1.ref.None? && !(HasType(e.1, "object") || (loop.OverProperties? && Untyped(e.1))) && HasType(e.1, "array")
      modifies mockRefs
      ensures Out(v, mockRefs.elems) == EntryOf(Setting(), loop, parent, e, old(mockRefs.elems))
      decreases Avail(Setting(), parent, mockRefs.elems), parent, 0, 0
    {
      var property := e.1;
      RefsInProperty(parent, e);
      AvailBelow(Setting(), parent, property, mockRefs.elems);
      match property.items
      case None =>
        // `[this.getOutputSchema(undefined, ...)]` throws at `'$ref' in schema`
        v := Thrown(TypeError);
      case Some(Tuple(xs)) =>
        var values := MapItems(property, xs, mockRefs);
        v := Defined(MapOk(values, vs => JArr(vs)));
      case Some(Single(it)) =>
        RefsInItems(property, it);
        AvailBelow(Setting(), parent, it, mockRefs.elems);
        if it.ref.Some? {
          var result := ResolveRef(it.ref.value, it, mockRefs);
          v := Wrapped(result);
        } else if HasType(it, "object") || Untyped(it) {
          var copy := new StringArray(mockRefs.elems);
          var o := GetOutputSchema(Some(it), copy);
          v := Defined(MapOk(o, x => JArr([x])));
        } else {
          v := Ok(None);
        }
    }

    /** `resolveRef(ref, refList)` */
    method ResolveRef(ref: string, ghost holder: Schema, refList: StringArray) returns (r: Result<Option<Json>>)
      requires RefKey(ref) in RefsIn(holder)
      modifies refList
      ensures Out(r, refList.elems) == ResolutionOf(Setting(), ref, holder, old(refList.elems))
      decreases Avail(Setting(), holder, refList.elems), holder, 0, 0
    {
      var refPath := Split(ref, '/');
      refPath := refPath[1..];
      if !CanLoopRef(refPath, refList.elems, maxLoops) {
        return Ok(None);
      }
      refList.Push(Join(refPath, '/'));
      var target := GetObjectFromRef(RefPath(refPath));
      AvailResolve(Setting(), holder, ref, old(refList.elems), target, refList.elems);
      var o := GetOutputSchema(target, refList);
      r := Defined(o);
    }
  }

  // ---------------------------------------------------------------------------
  // The loops against their specification

  lemma TupleStep(c: Ctx, holder: Schema, xs: seq<Schema>, i: nat, t: seq<string>, values: seq<Json>, v: Result<Json>)
    requires holder.items == Some(Tuple(xs)) && i < |xs|
    requires v == OutputOf(c, Some(xs[i]), t).result
    ensures v.Thrown? ==> Prepended(values, TupleOf(c, holder, xs, i, t)) == Thrown(v.failure)
    ensures v.Ok? ==> Prepended(values, TupleOf(c, holder, xs, i, t)) == Prepended(values + [v.value], TupleOf(c, holder, xs, i + 1, t))
  {
    var rest := TupleOf(c, holder, xs, i + 1, t);
    if v.Ok? && rest.Ok? {
      assert values + ([v.value] + rest.value) == (values + [v.value]) + rest.value;
    }
  }

  lemma TupleEnds(c: Ctx, holder: Schema, xs: seq<Schema>, t: seq<string>, values: seq<Json>, rest: Result<seq<Json>>)
    requires holder.items == Some(Tuple(xs))
    ensures Prepended([], rest) == rest
    ensures Prepended(values, TupleOf(c, holder, xs, |xs|, t)) == Ok(values)
  {
    if rest.Ok? {
      assert [] + rest.value == rest.value;
    }
    assert values + [] == values;
  }

  /** The fields assigned so far, in front of those a later part of the loop assigns. */
  function Prefixed(record: Fields, rest: Out<Record>): Out<Record>
  {
    match rest.result
    case Ok(Filled(fs)) => Out(Ok(Filled(record + fs)), rest.trail)
    case _ => rest
  }

  /** The loop from the `i`-th key: one pass, then the loop from the next key on the trail that pass left. */
  lemma RecordUnfold(c: Ctx, loop: Loop, parent: Schema, i: nat, t: seq<string>)
    requires parent.properties.Declared?
    requires i < |Entries(parent.properties.entries)|
    requires loop.OverItemProperties? ==> !AbortsLoop(Entries(parent.properties.entries)[i].1)
    ensures var e := Entries(parent.properties.entries)[i];
      var o := EntryOf(c, loop, parent, e, t);
      var rest := RecordOf(c, loop, parent, i + 1, o.trail);
      && (o.result.Thrown? ==> RecordOf(c, loop, parent, i, t) == Out(Thrown(o.result.failure), o.trail))
      && (o.result.Ok? ==> RecordOf(c, loop, parent, i, t) == Out(Assigned(e.0, o.result.value, rest.result), rest.trail))
  {
  }

  lemma RecordStep(c: Ctx, loop: Loop, parent: Schema, i: nat, t: seq<string>, record: Fields, v: Result<Option<Json>>, u: seq<string>, next: Fields)
    requires parent.properties.Declared?
    requires i < |Entries(parent.properties.entries)|
    requires loop.OverItemProperties? ==> !AbortsLoop(Entries(parent.properties.entries)[i].1)
    requires Out(v, u) == EntryOf(c, loop, parent, Entries(parent.properties.entries)[i], t)
    requires v.Ok? ==> next == record + Assignment(Entries(parent.properties.entries)[i].0, v.value)
    ensures v.Thrown? ==> Prefixed(record, RecordOf(c, loop, parent, i, t)) == Out(Thrown(v.failure), u)
    ensures v.Ok? ==> t <= u
    ensures v.Ok? ==> Prefixed(record, RecordOf(c, loop, parent, i, t)) == Prefixed(next, RecordOf(c, loop, parent, i + 1, u))
  {
    RecordUnfold(c, loop, parent, i, t);
    if v.Ok? {
      var rest := RecordOf(c, loop, parent, i + 1, u);
      var k := Entries(parent.properties.entries)[i].0;
      PrefixedAssigned(record, k, v.value, rest);
    }
  }

  lemma PrefixedAssigned(record: Fields, k: string, v: Option<Json>, rest: Out<Record>)
    ensures Prefixed(record, Out(Assigned(k, v, rest.result), rest.trail))
         == Prefixed(record + Assignment(k, v), rest)
  {
    match rest.result
    case Ok(Filled(fs)) =>
      assert record + (Assignment(k, v) + fs) == (record + Assignment(k, v)) + fs;
    case _ =>
  }

  /** An array property without `items` in the loop over `items.properties` ends it with `[]`. */
  lemma RecordAborts(c: Ctx, parent: Schema, i: nat, t: seq<string>, record: Fields)
    requires parent.properties.Declared?
    requires i < |Entries(parent.properties.entries)|
    requires AbortsLoop(Entries(parent.properties.entries)[i].1)
    ensures Prefixed(record, RecordOf(c, OverItemProperties, parent, i, t)) == Out(Ok(Aborted), t)
  {
  }

  /** The loop starts with an empty record, and past the last key it assigns nothing. */
  lemma RecordEnds(c: Ctx, loop: Loop, parent: Schema, t: seq<string>, record: Fields, rest: Out<Record>)
    requires parent.properties.Declared?
    ensures Prefixed([], rest) == rest
    ensures Prefixed(record, RecordOf(c, loop, parent, |Entries(parent.properties.entries)|, t)) == Out(Ok(Filled(record)), t)
  {
    if rest.result.Ok? && rest.result.value.Filled? {
      assert [] + rest.result.value.fields == rest.result.value.fields;
    }
    assert record + [] == record;
  }
}
