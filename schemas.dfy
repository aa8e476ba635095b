/**
 * The OpenAPI schema objects the synthesisers read, the document they resolve
 * `$ref` paths against, and the reference trail they thread through the
 * recursion.
 */
module Schemas {
  import opened Js

  /** `items` of an array schema: one schema, or a tuple of schemas (a JSON array). */
  datatype Items = Single(schema: Schema) | Tuple(schemas: seq<Schema>)

  /** `properties` of an object schema: absent, or the declared entries in document order. */
  datatype Properties = NoProperties | Declared(entries: seq<(string, Schema)>)
  {
    /** `properties || {}` */
    function EntriesOr(): seq<(string, Schema)>
    {
      match this
      case NoProperties => []
      case Declared(es) => es
    }
  }

  /** A schema object; absent members are `None` / `NoProperties`. */
  datatype Schema = Schema(
    typ: Option<string>,
    ref: Option<string>,
    properties: Properties,
    items: Option<Items>,
    default: Option<Json>,
    example: Option<Json>)

  /** A JavaScript array handed over where a schema is expected carries none of the schema keywords. */
  const Bare: Schema := Schema(None, None, NoProperties, None, None, None)

  /** What a synthesiser reads when it is handed `items` itself as a schema. */
  function ItemsAsSchema(items: Items): Schema
  {
    match items
    case Single(s) => s
    case Tuple(_) => Bare
  }

  /** `schema.type === t` */
  predicate HasType(s: Schema, t: string)
  {
    s.typ == Some(t)
  }

  /** `!schema.type`: the type is absent or the empty string. */
  predicate Untyped(s: Schema)
  {
    s.typ.None? || s.typ == Some("")
  }

  /** `'$ref' in items`, which is false for a tuple (a JavaScript array). */
  predicate ItemsHaveRef(items: Option<Items>)
  {
    items.Some? && items.value.Single? && items.value.schema.ref.Some?
  }

  /**
   * The schema objects of one loaded document, each under the key path that
   * leads to it from the document root (the root itself under `[]`).
   */
  type Document = map<seq<string>, Schema>

  /** `ref.split('/')` with the leading `#` segment shifted off. */
  function RefSegments(ref: string): seq<string>
  {
    Split(ref, '/')[1..]
  }

  /** The reference object `{$ref: ref}`. */
  function RefTo(ref: string): Schema
  {
    Schema(None, Some(ref), NoProperties, None, None, None)
  }

  /** A `$ref` written as `#/` followed by `/`-free keys splits back into those keys. */
  lemma RefSegmentsOfJoin(keys: seq<string>)
    requires forall i :: 0 <= i < |keys| ==> '/' !in keys[i]
    ensures RefSegments(Join(["#"] + keys, '/')) == keys
  {
    var parts := ["#"] + keys;
    assert forall i :: 0 <= i < |parts| ==> '/' !in parts[i] by {
      forall i | 0 <= i < |parts| ensures '/' !in parts[i] {
        if i > 0 {
          assert parts[i] == keys[i - 1];
        }
      }
    }
    SplitJoin(parts, '/');
    assert parts[1..] == keys;
  }

  /** The joined path `refPath.join('/')` that the trail records for `ref`. */
  function RefKey(ref: string): string
  {
    Join(RefSegments(ref), '/')
  }

  /** The key path up to, not including, its first empty key. */
  function TakeUntilEmpty(path: seq<string>): (r: seq<string>)
    ensures |r| <= |path| && r == path[..|r|]
    ensures forall i :: 0 <= i < |r| ==> r[i] != ""
    ensures |r| == |path| || path[|r|] == ""
  {
    if |path| == 0 || path[0] == "" then [] else [path[0]] + TakeUntilEmpty(path[1..])
  }

  /** The path kept is the whole path when no key is empty, and otherwise the keys before the first empty one. */
  lemma TakeUntilEmptyLength(path: seq<string>)
    ensures (forall i :: 0 <= i < |path| ==> path[i] != "") ==> TakeUntilEmpty(path) == path
    ensures forall k :: 0 <= k < |path| && path[k] == "" && (forall i :: 0 <= i < k ==> path[i] != "") ==>
      TakeUntilEmpty(path) == path[..k]
  {
    if forall i :: 0 <= i < |path| ==> path[i] != "" {
      TakeUntilEmptyAt(path, |path|);
    }
    forall k | 0 <= k < |path| && path[k] == "" && (forall i :: 0 <= i < k ==> path[i] != "")
      ensures TakeUntilEmpty(path) == path[..k]
    {
      TakeUntilEmptyAt(path, k);
    }
  }

  lemma {:induction false} TakeUntilEmptyAt(path: seq<string>, k: nat)
    requires k <= |path| && (k == |path| || path[k] == "")
    requires forall i :: 0 <= i < k ==> path[i] != ""
    ensures TakeUntilEmpty(path) == path[..k]
    decreases k
  {
    if k > 0 {
      TakeUntilEmptyAt(path[1..], k - 1);
      assert path[..k] == [path[0]] + path[1..][..k - 1];
    }
  }

  /**
   * The schema at `path` in `doc`, or `None` (`undefined`). Like the walk of
   * `Utils.getObjectFromRef`, the lookup stops at the first empty key.
   */
  function Lookup(doc: Document, path: seq<string>): (r: Option<Schema>)
    ensures r.Some? ==> r.value in doc.Values
    ensures (forall i :: 0 <= i < |path| ==> path[i] != "") ==> (r.Some? <==> path in doc)
    ensures (forall i :: 0 <= i < |path| ==> path[i] != "") && path in doc ==> r == Some(doc[path])
    ensures forall k :: 0 <= k < |path| && path[k] == "" && (forall i :: 0 <= i < k ==> path[i] != "") ==>
      (r.Some? <==> path[..k] in doc)
  {
    var key := TakeUntilEmpty(path);
    TakeUntilEmptyLength(path);
    if key in doc then Some(doc[key]) else None
  }

  // ---------------------------------------------------------------------------
  // The references a schema can hop through, for the termination argument

  /** The trail keys of every `$ref` anywhere inside `s`. */
  ghost function RefsIn(s: Schema): set<string>
    decreases s
  {
    (if s.ref.Some? then {RefKey(s.ref.value)} else {})
    + (match s.properties
       case NoProperties => {}
       case Declared(ps) => set e, r | e in ps && r in RefsIn(e.1) :: r)
    + (match s.items
       case None => {}
       case Some(Single(it)) => RefsIn(it)
       case Some(Tuple(xs)) => set x, r | x in xs && r in RefsIn(x) :: r)
  }

  /** The trail keys of every `$ref` in every schema of the document. */
  ghost function DocRefs(doc: Document): set<string>
  {
    set k, r | k in doc && r in RefsIn(doc[k]) :: r
  }

  lemma LookupRefs(doc: Document, path: seq<string>)
    requires Lookup(doc, path).Some?
    ensures RefsIn(Lookup(doc, path).value) <= DocRefs(doc)
  {
  }
}
