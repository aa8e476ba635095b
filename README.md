# swaggers-to-mock: the mock-synthesis core, in Dafny

This project models the part of swaggers-to-mock that makes up mock
responses. Given an OpenAPI (or Swagger 2.0) document, that part does two
things:

- it turns a schema into a JSON value (`getOutputSchema`), following `$ref`
  links through `resolveRef` under the `canLoopRef` reference-loop guard;
- it decides which routes a document registers, where its router is mounted,
  and what a request answers: status code, `Content-Type` and body.

The model covers:

- the helpers of `Utils`: the fallback value of a primitive schema, the
  key-path walk, the loop guard and the status-code pattern helpers;
- the three synthesisers:
  - `Mock`, the one the server uses;
  - `MockV2`, for Swagger 2.0;
  - `MockV3`, for OpenAPI 3.x;
- the decision logic of `Server`, without Express.

Modules, one per file:

| file | module | what it holds |
|---|---|---|
| js.dfy | `Js` | JSON values, outcomes that may throw, and the string built-ins the code calls (`split`/`join`, `trim`, `toUpperCase`, `includes`, `replace`, `parseInt`). It also holds `StringArray`, a `string[]` shared and updated in place. |
| objects.dfy | `JsObjects` | The order in which `Object.keys`/`Object.entries` list an object's own keys: array-index keys first, ascending, then the rest in insertion order. |
| schemas.dfy | `Schemas` | Schema objects, the document as a map from key path to schema, and `$ref` paths. |
| openapi.dfy | `OpenApi` | The parts of an OpenAPI 3 document the server reads. |
| budget.dfy | `Budget` | What the synthesisers share: the outcome of a call together with the caller's reference trail afterwards, and the per-path budget that the guard enforces on that trail. |
| utils.dfy | `Utils` | `getPropertyValue`, `getObjectFromRef`, `canLoopRef`, `isValidStatusCode`, `getFirstMatchingStatusCode`. |
| mock.dfy, mockv2.dfy, mockv3.dfy | `Mock`, `MockV2`, `MockV3` | The synthesisers. |
| server.dfy | `Server` | Mount paths, routes, the path rewrite, and the reply of `setRouterOperation`. |

## How each synthesiser is modelled

Each synthesiser comes in two parts.

**The specification.** This is a set of mutually recursive functions:
`OutputOf`, `ResolutionOf`, `RecordOf`, `EntryOf` and, for V2/V3, `TupleOf`.

- Each takes the trail the caller hands over.
- Each answers an `Out`: the value (or what was thrown), together with the
  caller's trail afterwards.
- A `$ref` child works on the caller's own trail, which `resolveRef` pushes
  onto in place.
- Every other child works on a copy (`[...mockRefs]`), so whatever it pushes
  is lost.

**The implementation.** This is a class (`Mock.Mock`, `MockV2.MockV2`,
`MockV3.MockV3`) that works the way the source does:

- its `for` loops fill a record key by key;
- `resolveRef` pushes onto a shared `StringArray`.

Each method is proved to answer what the specification answers and to leave
the trail as the specification says.

**Termination.** The recursion terminates because every admitted push spends
one token of a finite budget. There is one token per path in scope and per
count below `maxLoops + 1`; this is `Budget.Avail`. The measure is this
budget, ordered lexicographically with the size of the schema.

**The source's crashes.** A `TypeError` from reading a member of `undefined`
is an explicit `Thrown(TypeError)` outcome. Examples:

- `'$ref' in undefined` in `MockV2`;
- `!property.items.type` for an array property without `items` in `Mock`.

The `Error` thrown for an invalid status pattern is
`Thrown(InvalidStatusCode(...))`. The one thrown for a response without
content is `Thrown(NoResponseContent)`.

The model follows the code as written. In particular:

- the status matcher answers the first candidate, whatever the pattern;
- a top-level array of `$ref` items answers the resolved value unwrapped;
- sibling `$ref` properties share one trail;
- array properties with primitive items are left out of the record;
- `MockV3` tests the parent's type where it means the property's;
- in `MockV2`, an array property without `items` inside `items.properties`
  makes the whole call answer `[]`.

The configuration is a parameter, `Server.Config`. `Server.Defaults` holds
the defaults of src/config.ts:5-14:

- `url = ''`;
- `maxLoops = 2`;
- `contentType = '*/*'`;
- `status.default = '2XX'`.

Where the program's own description and its code differ, the model follows
the code:

- An inline media schema is not synthesised. The server answers the media
  type's `example`, or `undefined` when it has none (src/server.ts:113-114).
- A response that is itself a `$ref` is not followed. The handler reads
  `content` from the response object directly (src/server.ts:91).
- A response without content throws out of the handler. It is not turned
  into an error reply.
- The server registers no `OPTIONS` route of its own.

## Model

| member | source | states |
|---|---|---|
| Js.Split | src/mock.ts:77 | `ref.split('/')`: at least one piece, no piece holds the separator, and joining the pieces gives the string back |
| Js.SplitJoin | src/mock.ts:77-80 | splitting a join of separator-free pieces gives the pieces back, so the trail key `refPath.join('/')` determines the path |
| Js.TrimStart | src/utils/utils.ts:60 | drops exactly the leading white space: what is removed is white space and what remains starts with none |
| Js.TrimEnd | src/utils/utils.ts:60 | drops exactly the trailing white space |
| Js.ToUpper | src/utils/utils.ts:60 | same length, every character upper-cased (ASCII letters; others kept) |
| Js.IndexOf | src/server.ts:35 | the first position at or after `from` where the pattern occurs, `None` exactly when it occurs nowhere there |
| Js.DigitPrefix | src/server.ts:89 | the longest prefix of decimal digits that `parseInt(_, 10)` reads |
| Js.ParseInt | src/server.ts:89 | `parseInt(_, 10)`: an all-digit string reads as its decimal value and `-` followed by digits as its negation; a string starting with anything but white space, a sign or a digit is `NaN`; a number is read only when the string holds a digit |
| Js.SignedDigits | src/server.ts:89 | the same reading once the white space is skipped: optional sign, then the longest run of digits |
| Js.StringArray.constructor | src/mock.ts:25 | `[...mockRefs]`: a new array holding the same elements |
| Js.StringArray.Push | src/mock.ts:80 | `refList.push(p)` appends `p` in place and changes nothing else |
| Js.StringArray.Shift | src/utils/utils.ts:38 | `ref.shift()` removes and answers the first element, or answers `undefined` and leaves an empty array alone |
| JsObjects.Entries | src/server.ts:56 | `Object.entries(o)` lists exactly the entries of `o` |
| JsObjects.EntriesArePermutation | src/server.ts:56 | `Object.entries(o)` is a permutation of the entries of `o` (same multiset) |
| JsObjects.SortByIndex | src/server.ts:70 | the index-keyed entries are reordered without losing or adding any |
| JsObjects.SortIsSorted | src/server.ts:70 | the index-keyed entries are listed in ascending numeric order |
| JsObjects.InsertByIndex | src/server.ts:70 | one insertion adds exactly the inserted entry |
| JsObjects.InsertKeepsSorted | src/server.ts:70 | inserting into an ascending list keeps it ascending |
| JsObjects.FilterKeeps | src/server.ts:70 | every entry of the selected kind (index key or not) is kept |
| JsObjects.FilterSelects | src/server.ts:70 | only entries of the selected kind are kept |
| JsObjects.FilterSplitsMultiset | src/server.ts:70 | the index and non-index entries together are all the entries |
| JsObjects.Keys | src/server.ts:70 | `Object.keys(o)` has one key per entry |
| JsObjects.KeysAt | src/server.ts:70 | the `i`-th key of `Object.keys` is the key of the `i`-th entry of `Object.entries` |
| JsObjects.EntriesOfKeys | src/server.ts:70 | the enumeration order depends on the keys only, not on the values |
| JsObjects.Get | src/server.ts:91 | `o[k]` is defined exactly when `k` is an own key, and it is the value stored with it |
| JsObjects.KeysAreOwn | src/server.ts:86 | `o[Object.keys(o)[i]]` is defined for every listed position |
| JsObjects.ListedKeyIsOwn | src/server.ts:106 | every key `Object.keys` lists has a value |
| JsObjects.EntriesWithoutIndexKeys | src/mock.ts:19 | an object without array-index keys enumerates in insertion order |
| JsObjects.FirstKeyIsLeastIndex | src/server.ts:86 | when some key is an array index, the first key listed is the index key of least value |
| Schemas.RefSegmentsOfJoin | src/mockV2.ts:27-31 | a `$ref` `#/k1/k2/...` of `/`-free keys splits, past its leading `#`, into exactly those keys |
| Schemas.TakeUntilEmpty | src/utils/utils.ts:38-39 | the key path up to its first empty key: a prefix of non-empty keys followed by the end or an empty key |
| Schemas.Lookup | src/utils/utils.ts:37-41 | the walk of the document by a key path: what it finds is one of the document's schemas; a path without empty keys finds exactly what it names; with an empty key only the keys before the first one count |
| Schemas.TakeUntilEmptyLength | src/utils/utils.ts:38-39 | the keys walked are the whole path when none is empty, and otherwise those before the first empty one |
| Schemas.LookupRefs | src/mock.ts:81 | every `$ref` inside a schema the lookup finds is a reference of the document |
| OpenApi.FirstUrl | src/server.ts:32 | `servers?.[0]?.url`: defined exactly when the list is present and not empty, and then its first URL |
| Budget.OrEmptyObject | src/mockV2.ts:38 | `resolveRef(...) ?? {}` never answers `null`, and keeps any non-nullish value; a throw propagates |
| Budget.Defined | src/mock.ts:23 | a computed value is never `undefined`; a throw propagates |
| Budget.KeysOf | src/mock.ts:19 | the keys of a record, one per field, in order |
| Budget.KeysOfEntries | src/mock.ts:19 | `Object.keys(o)` lists the keys of `Object.entries(o)` |
| Budget.SubsequenceOfTail | src/mock.ts:23 | a key left out keeps the record's keys a subsequence of the declared ones |
| Budget.SubsequenceMembers | src/mock.ts:19 | every key of a subsequence is a declared key |
| Budget.SpendsOnePush | src/utils/utils.ts:52 | a push the guard admitted (count at most `maxLoops`) leaves the path counted at most `maxLoops + 1` times |
| Budget.CountsGrow | src/mock.ts:80 | counts never fall along a trail that is only pushed onto |
| Budget.SpendsTransitive | src/mock.ts:79-81 | staying within the budget composes over successive calls on one trail |
| Budget.AvailShrinks | src/mock.ts:19-36 | a sub-schema and a longer trail never have more budget |
| Budget.AvailPush | src/mock.ts:79-80 | an admitted push of a path in scope spends a token of the budget |
| Budget.AvailResolve | src/mock.ts:76-82 | resolving a reference and synthesising what it names runs on strictly less budget than the holder had |
| Budget.RefsInProperty | src/mock.ts:20 | the references under a declared property are references under its parent |
| Budget.RefsInItems | src/mock.ts:27 | the references under `items` are references under the array schema |
| Utils.TypeFallback | src/utils/utils.ts:15-24 | `false` exactly for `boolean`, `0` exactly for `number` or `integer`, `""` exactly for `string`, `null` exactly for any other or absent type |
| Utils.PropertyValue | src/utils/utils.ts:25 | `default` when not nullish, else `example` when not nullish, else the type fallback; `null` exactly when all three give `null` |
| Utils.GetPropertyValue | src/utils/utils.ts:14-26 | the if-chain and `??` answer `PropertyValue` |
| Utils.Walk | src/utils/utils.ts:37-41 | an empty path or a first empty key answers the object itself; a non-empty key read on `undefined` or `null` throws; `TypeError` is the only throw |
| Utils.WalkStopsAtEmptyKey | src/utils/utils.ts:39 | `!key` ends the walk: everything after the first empty key is ignored |
| Utils.WalkConcat | src/utils/utils.ts:37-41 | walking two paths of non-empty keys in turn is walking their concatenation; a throw ends it |
| Utils.WalkExample | src/utils/utils.ts:35 | `{a: {b: {c: 1}}}` with `['a', 'b', 'c']` gives 1 |
| Utils.Consumed | src/utils/utils.ts:38 | the walk shifts off at most the whole path |
| Utils.GetObjectFromRef | src/utils/utils.ts:37-41 | answers the walk of the key path (`TypeError` below `undefined`); the caller's array loses exactly the keys read |
| Utils.CountIsMultiplicity | src/utils/utils.ts:52 | `mockRefs.filter(r => r === p).length` is the multiplicity of `p` in the trail |
| Utils.CanLoopRef | src/utils/utils.ts:50-57 | true exactly when the joined path occurs in the trail at most `maxLoops` times |
| Utils.CountGrows | src/utils/utils.ts:52 | the count never falls as the trail grows |
| Utils.Repeat | src/utils/utils.ts:50-57 | `k` pushes of one path |
| Utils.CanLoopAfterPushes | src/utils/utils.ts:50-57 | after `k` more pushes of a path, the guard lets it through exactly when its count so far plus `k` is at most `maxLoops` |
| Utils.CountAfterPushes | src/utils/utils.ts:52 | `k` pushes of a path raise its count by exactly `k` |
| Utils.RepeatMultiplicity | src/utils/utils.ts:52 | `k` pushes of `p` hold `p` exactly `k` times |
| Utils.CountPush | src/mock.ts:80 | a push raises the count of the pushed path by one and leaves every other count alone |
| Utils.RepeatIsExact | src/utils/utils.ts:63 | `(\d\|X){n}$` accepts exactly the strings of `n` digits or `X` |
| Utils.RegexIsStatusPattern | src/utils/utils.ts:63 | the regular expression with the lazy `{2}?` accepts exactly three characters: `[1-5]` or `X`, then two digits or `X` |
| Utils.IsValidStatusCode | src/utils/utils.ts:59-67 | after trim and upper-casing: returns exactly when the code is a status pattern, and then `true`; otherwise throws, naming the normalized code; never answers `false` |
| Utils.IndicesToMatch | src/utils/utils.ts:75 | the positions of the target that are not `X`: every listed position holds no `X`, every position without `X` is listed, and the list ascends |
| Utils.Find | src/utils/utils.ts:78-87 | `find` answers the first element the callback accepts: an element of the list that it accepts, with every earlier element rejected; `undefined` exactly when it accepts none |
| Utils.FirstMatchingStatusCode | src/utils/utils.ts:69-88 | throws exactly on an invalid target; otherwise the first candidate, untrimmed and whatever the pattern, or `undefined` for an empty list |
| Utils.UpperKeepsWhiteSpace | src/utils/utils.ts:70 | upper-casing neither creates nor removes white space |
| Utils.TrimUntouched | src/utils/utils.ts:70 | a string without white space at either end is its own trim |
| Utils.NormalizeFixed | src/utils/utils.ts:70 | a trimmed, upper-case string is left as it is by `trim().toUpperCase()` |
| Utils.NormalizeIdempotent | src/utils/utils.ts:70 | normalizing twice is normalizing once, so the second normalization in `isValidStatusCode` changes nothing |
| Utils.NormalizeCodeChars | src/utils/utils.ts:79 | codes of digits and `X` are their own normalization |
| Utils.FirstMatchIgnoresPattern | src/utils/utils.ts:81-86 | the `return false` inside `forEach` is lost: target `4XX` over `200, 404, 4XX` answers `200`, which does not match the pattern, though `404` does |
| Mock.OutputOf | src/mock.ts:11-74 | stays within the budget; `undefined` gives `{}`; an object answers a record whose keys are a subsequence of the declared keys, in order; an untyped schema (a bare `$ref` too) and any primitive answer `getPropertyValue` |
| Mock.ResolutionOf | src/mock.ts:76-82 | `undefined` with the trail untouched exactly when the path was seen more than `maxLoops` times; otherwise the path is pushed onto the caller's trail and the answer is defined |
| Mock.RecordOf | src/mock.ts:19-36 | the keys assigned are a subsequence of the declared keys from the `i`-th on, in order; the trail stays within the budget |
| Mock.EntryOf | src/mock.ts:20-35 | only a `$ref` (of the property or its items) touches the caller's trail; an exhausted `$ref` and an array of primitive items leave the key out; a primitive gets `getPropertyValue`; a key is left out only for those reasons |
| Mock.RecordFields | src/mock.ts:19-36 | every field comes from a declared property that is not an array of primitive items, and every primitive property is present with its `getPropertyValue` |
| Mock.AssignedFields | src/mock.ts:23-34 | one assignment keeps both properties of the record |
| Mock.ObjectOutput | src/mock.ts:17-38 | an object schema with properties answers the record its loop builds, on the trail the loop leaves |
| Mock.NoPropertiesOutput | src/mock.ts:17-37 | an object schema without `properties` answers `{}` (it does not throw) and leaves the trail alone |
| Mock.ItemlessArrayOutput | src/mock.ts:46 | an array schema without `items` throws `TypeError` at `schema.items.properties` |
| Mock.RefItemsOutput | src/mock.ts:42-44 | an array with `$ref` items that the guard admits answers, unwrapped, what the path names synthesised on the trail with the path pushed |
| Mock.RefItemsSpent | src/mock.ts:42-45 | once the guard refuses the path of `$ref` items, the array answers `{}` and leaves the trail alone |
| Mock.OtherItemsOutput | src/mock.ts:41-73 | an array with tuple `items`, or with one item that has neither `$ref` nor `properties`, takes no branch and answers the final `{}` on the trail it was given |
| Mock.ItemsOutput | src/mock.ts:46-67 | an array whose items declare properties answers `[value]` for the record the items loop builds, on the trail that loop leaves |
| Mock.RefItemsEntry | src/mock.ts:27-29 | an array property with `$ref` items is set to `[resolved]` on the trail the resolution leaves, and its key is left out once the guard refuses the path |
| Mock.RefEntry | src/mock.ts:21-23 | a `$ref` property that the guard admits is set to the synthesis of the schema its path names, on the caller's trail with the path pushed; a refused path leaves the key out and the trail alone |
| Mock.ObjectEntry | src/mock.ts:24-25 | an object property is set to the synthesis of its own schema, on a copy of the trail that the caller's trail does not see |
| Mock.ObjectItemsEntry | src/mock.ts:30-31 | an array property with object or untyped items is set to `[value]`, synthesised on a copy of the trail that the caller does not see |
| Mock.TupleItemsEntry | src/mock.ts:30-31 | an array property with tuple `items` is set to `[null]`: the JavaScript array has no `type` and is synthesised as a primitive |
| Mock.ItemlessArrayEntry | src/mock.ts:30 | an array property without `items` throws `TypeError` at `property.items.type` |
| Mock.PrimitiveArraysLeftOut | src/mock.ts:26-32 | a key declared only as an array of primitive items is absent from the output |
| Mock.SiblingRefsShareTrail | src/mock.ts:21-23 | two sibling properties with the same `$ref` and one hop of budget left: the first spends it and the second's key is left out |
| Mock.Mock.constructor | src/mock.ts:5 | keeps the document (and the configured `maxLoops`) |
| Mock.Mock.GetOutputSchema | src/mock.ts:11-74 | answers `OutputOf` and leaves the trail `OutputOf` leaves |
| Mock.Mock.FillRecord | src/mock.ts:18-37 | the `for` loop over `Object.keys(properties \|\| {})` answers `RecordOf` from the first key, with the trail it leaves |
| Mock.Mock.AssignEntry | src/mock.ts:20-35 | one pass of the loop: the record so far plus the rest of the loop is unchanged by the pass |
| Mock.Mock.SetEntry | src/mock.ts:20-35 | the value for one property is `EntryOf`, with its trail |
| Mock.Mock.SetArrayEntry | src/mock.ts:26-32 | the `type === 'array'` branch answers `EntryOf`, with its trail |
| Mock.Mock.ResolveRef | src/mock.ts:76-82 | answers `ResolutionOf`: guard, in-place push, then the schema the path names on the same trail |
| Mock.RecordUnfold | src/mock.ts:19-36 | the loop from the `i`-th key is one pass followed by the loop from the next key on the trail that pass left |
| Mock.RecordEnds | src/mock.ts:18 | the loop starts with an empty record; past the last key it assigns nothing |
| MockV2.OutputOf | src/mockV2.ts:35-104 | stays within the budget; `undefined` throws; a `$ref` never answers `null`, and answers `{}` when the path is exhausted; an object or untyped schema answers a record over a subsequence of its declared keys; a top-level tuple answers an array of the same length on the same trail; a typed primitive answers `getPropertyValue` |
| MockV2.ResolutionOf | src/mockV2.ts:112-118 | `undefined` with the trail untouched exactly when the path is exhausted; otherwise the path is pushed and the answer is defined; a path naming nothing throws |
| MockV2.TupleOf | src/mockV2.ts:58 | `items.map(...)` answers one value per remaining item |
| MockV2.RecordOf | src/mockV2.ts:46-65 | the keys assigned are a subsequence of the declared keys, in order; the loop over `properties` never aborts |
| MockV2.EntryOf | src/mockV2.ts:47-64 | only a `$ref` touches the caller's trail; an exhausted `$ref` and an array of primitive items leave the key out; a typed primitive gets `getPropertyValue`; tuple items give an array of their length; an array without `items` throws under `properties` |
| MockV2.ArrayEntryOf | src/mockV2.ts:53-61 | the array branch: `$ref` items alone touch the trail; primitive items leave the key out; tuple items give an array of their length; absent `items` throw |
| MockV2.ContentOf | src/mockV2.ts:18-25 | `undefined` exactly when the response has neither `$ref` nor `schema`; a `$ref` answer is never `null` and is the synthesis of the reference itself; a schema is synthesised on a fresh empty trail |
| MockV2.RefContent | src/mockV2.ts:18-20 | a `$ref` response answers the synthesis of the schema its path names, with `null` read as `{}`, on a trail holding only that path; with a negative `maxLoops` it answers `{}` |
| MockV2.ContentTypeResponse | src/mockV2.ts:106-110 | the configured content type exactly when `produces` lists it |
| MockV2.AbortedItems | src/mockV2.ts:84-85 | an array whose `items.properties` hold an array property without `items` answers `[]`, whatever the other properties are |
| MockV2.AbortReached | src/mockV2.ts:77-85 | the loop over `items.properties` that reaches such a property comes to the abort, whatever precedes it |
| MockV2.ItemsOutput | src/mockV2.ts:75-98 | an array with object items answers `[value]` for the record the items loop builds, or `[]` after an abort |
| MockV2.RefItemsOutput | src/mockV2.ts:69-71 | an array with `$ref` items that the guard admits answers, unwrapped, what the path names synthesised on the trail with the path pushed |
| MockV2.RefItemsSpent | src/mockV2.ts:69-72 | once the guard refuses the path of `$ref` items, the array answers `{}` and leaves the trail alone |
| MockV2.RefOutput | src/mockV2.ts:37-38 | a top-level `$ref` that the guard admits answers the synthesis of the schema its path names, with `null` read as `{}`, on the trail with the path pushed |
| MockV2.NoPropertiesOutput | src/mockV2.ts:39-45 | an object or untyped schema without `properties` answers `{}` and leaves the trail alone |
| MockV2.OtherItemsOutput | src/mockV2.ts:68-103 | an array without `items`, or with one item that has neither `$ref` nor `properties`, takes no branch and answers the final `{}` on the trail it was given |
| MockV2.RefItemsEntry | src/mockV2.ts:54-56 | an array property with `$ref` items, in either loop, is set to `[resolved]` on the trail the resolution leaves, and its key is left out once the guard refuses the path |
| MockV2.RefEntry | src/mockV2.ts:48-50 | a `$ref` property that the guard admits is set to the synthesis of the schema its path names, on the caller's trail with the path pushed; a refused path leaves the key out and the trail alone |
| MockV2.ObjectEntry | src/mockV2.ts:51-52 | an object property, and under the loop over `properties` an untyped one, is set to the synthesis of its own schema, on a copy of the trail |
| MockV2.ObjectItemsEntry | src/mockV2.ts:59-60 | an array property with object or untyped items, in either loop, is set to `[value]`, synthesised on a copy of the trail |
| MockV2.MockV2.constructor | src/mockV2.ts:8 | keeps the document (and the configured `maxLoops`) |
| MockV2.MockV2.GetBaseUrl | src/mockV2.ts:10-16 | the host followed by the base path, each only when present; `""` when both are absent |
| MockV2.MockV2.GetObjectFromRef | src/mockV2.ts:27-33 | what it finds is one of the document's schemas; a key path without empty keys that names a schema finds exactly it |
| MockV2.MockV2.ObjectFromRefString | src/mockV2.ts:27-33 | the string `#/k1/k2/...` names what the key path `[k1, k2, ...]` names |
| MockV2.MockV2.GetContentResponse | src/mockV2.ts:18-25 | answers `ContentOf` |
| MockV2.MockV2.GetOutputSchema | src/mockV2.ts:35-104 | answers `OutputOf` and leaves the trail `OutputOf` leaves |
| MockV2.MockV2.MapItems | src/mockV2.ts:74 | the `map` over tuple items, each on its own copy of the trail, answers `TupleOf` |
| MockV2.MockV2.FillRecord | src/mockV2.ts:46-65 | either record loop answers `RecordOf`, including the `return []` abort |
| MockV2.MockV2.AssignEntry | src/mockV2.ts:47-64 | one pass of a record loop, as `RecordOf` sees it |
| MockV2.MockV2.SetEntry | src/mockV2.ts:47-64 | the value for one property is `EntryOf`, with its trail |
| MockV2.MockV2.SetArrayEntry | src/mockV2.ts:53-61 | the array branch answers `EntryOf`, with its trail |
| MockV2.MockV2.ResolveRef | src/mockV2.ts:112-118 | answers `ResolutionOf` |
| MockV2.RecordAborts | src/mockV2.ts:85 | at an array property without `items` the items loop ends with `[]` |
| MockV2.RecordUnfold | src/mockV2.ts:46-65 | the loop from the `i`-th key is one pass followed by the rest of the loop |
| MockV3.OutputOf | src/mockV3.ts:18-90 | stays within the budget; `undefined` gives `{}`; a `$ref` never answers `null`, and `{}` when exhausted; an object or untyped schema answers a record over a subsequence of its declared keys; an array without single `items` (tuple or absent) answers `{}`; a typed primitive answers `getPropertyValue` |
| MockV3.ResolutionOf | src/mockV3.ts:92-98 | `undefined` with the trail untouched exactly when the path is exhausted; otherwise the path is pushed and the answer is defined; a path naming nothing answers `{}` |
| MockV3.TupleOf | src/mockV3.ts:45 | `items.map(...)` answers one value per remaining item |
| MockV3.RecordOf | src/mockV3.ts:33-52 | the keys assigned are a subsequence of the declared keys, in order |
| MockV3.EntryOf | src/mockV3.ts:34-51 | under an untyped parent every property without `$ref` is recursed into; otherwise primitive items drop the key, primitives get `getPropertyValue`, absent `items` give `[{}]` under `properties` and throw under `items.properties`, where tuple `items` give `[{}]` |
| MockV3.ArrayEntryOf | src/mockV3.ts:40-48 | the array branch: `$ref` items alone touch the trail; primitive items drop the key; absent `items` give `[{}]` or throw; tuples give an array of their length under `properties` |
| MockV3.TupleAsSchema | src/mockV3.ts:26-32 | tuple `items` handed over as a schema synthesise to `{}` |
| MockV3.UntypedParentKeepsArrays | src/mockV3.ts:38-39 | an array of primitive items keeps its key (as `{}`) under an untyped parent and loses it under an `object` parent |
| MockV3.ObjectOutput | src/mockV3.ts:26-54 | an object or untyped schema with properties answers the record its loop builds |
| MockV3.RefItemsOutput | src/mockV3.ts:58-60 | an array with `$ref` items that the guard admits answers, unwrapped, what the path names synthesised on the trail with the path pushed |
| MockV3.RefItemsSpent | src/mockV3.ts:58-61 | once the guard refuses the path of `$ref` items, the array answers `{}` and leaves the trail alone |
| MockV3.RefOutput | src/mockV3.ts:24-25 | a top-level `$ref` that the guard admits answers the synthesis of the schema its path names, with `null` read as `{}`, on the trail with the path pushed |
| MockV3.NoPropertiesOutput | src/mockV3.ts:26-32 | an object or untyped schema without `properties` answers `{}` and leaves the trail alone |
| MockV3.OtherItemsOutput | src/mockV3.ts:57-89 | an array without `items`, with tuple `items`, or with one item that has neither `$ref` nor `properties`, answers the final `{}` on the trail it was given |
| MockV3.ItemsOutput | src/mockV3.ts:62-83 | an array whose items declare properties answers `[value]` for the record the items loop builds, on the trail that loop leaves |
| MockV3.RefItemsEntry | src/mockV3.ts:41-43 | an array property with `$ref` items, when the parent is not recursed into as a whole, is set to `[resolved]` on the trail the resolution leaves, and its key is left out once the guard refuses the path |
| MockV3.RefEntry | src/mockV3.ts:35-37 | a `$ref` property that the guard admits is set to the synthesis of the schema its path names, on the caller's trail with the path pushed; a refused path leaves the key out and the trail alone |
| MockV3.ObjectEntry | src/mockV3.ts:38-39 | an object property is set to the synthesis of its own schema, whatever the parent's type, on a copy of the trail |
| MockV3.ObjectItemsEntry | src/mockV3.ts:46-47 | an array property with object or untyped items, when the parent is not recursed into as a whole, is set to `[value]`, synthesised on a copy of the trail |
| MockV3.MockV3.constructor | src/mockV3.ts:8 | keeps the document (and the configured `maxLoops`) |
| MockV3.MockV3.GetUrl | src/mockV3.ts:10-12 | the first truthy of `servers[0].url` and the IBM configuration's `servers[0].url`, else `""`; `""` exactly when neither is truthy |
| MockV3.MockV3.GetOutputSchema | src/mockV3.ts:18-90 | answers `OutputOf` and leaves the trail `OutputOf` leaves |
| MockV3.MockV3.MapItems | src/mockV3.ts:45 | the `map` over tuple items answers `TupleOf` |
| MockV3.MockV3.FillRecord | src/mockV3.ts:33-52 | either record loop answers `RecordOf` |
| MockV3.MockV3.AssignEntry | src/mockV3.ts:34-51 | one pass of a record loop, as `RecordOf` sees it |
| MockV3.MockV3.SetEntry | src/mockV3.ts:34-51 | the value for one property is `EntryOf`, with its trail |
| MockV3.MockV3.SetArrayEntry | src/mockV3.ts:40-48 | the array branch answers `EntryOf`, with its trail |
| MockV3.MockV3.ResolveRef | src/mockV3.ts:92-98 | answers `ResolutionOf` |
| MockV3.RecordUnfold | src/mockV3.ts:33-52 | the loop from the `i`-th key is one pass followed by the rest of the loop |
| Server.MockUrlIsGetUrl | src/server.ts:32 | the URL a document is mounted under is the one `MockV3.getUrl` reports |
| Server.MockUrl | src/server.ts:32 | the first server URL when truthy, else the IBM configuration's first server URL; any URL answered is one the document lists; truthy exactly when one of the two is |
| Server.MountPath | src/server.ts:33-41 | `""` unless the document URL includes the configured `url`; otherwise the URL with the first occurrence of `url` cut out |
| Server.MountPathOfPrefix | src/server.ts:40 | a URL starting with the configured `url` is mounted on the rest of it |
| Server.MountPathDefault | src/server.ts:32-41 | with the default empty `url`, a document is mounted on its whole URL, or on `""` when it has none |
| Server.MountPathRemovesInside | src/server.ts:35-40 | the test is for a substring: `/x/api` with `url` `/api` is mounted on `/x` |
| Server.ReplaceChar | src/server.ts:59 | `replace(/{/g, ':')` replaces every occurrence and nothing else |
| Server.DeleteChar | src/server.ts:59 | `replace(/}/g, '')` deletes every occurrence and keeps every other character |
| Server.ExpressPath | src/server.ts:59 | the rewritten path has no braces; one character shorter per `}`; a path without braces is unchanged |
| Server.ExpressPathIdempotent | src/server.ts:59 | rewriting a rewritten path changes nothing |
| Server.ExpressPathConcat | src/server.ts:59 | the rewrite works character by character over a concatenation |
| Server.ExpressPathExample | src/server.ts:58 | `/users/{userId}` becomes `/users/:userId` |
| Server.MethodRouteAt | src/server.ts:61-62 | the `k`-th route of a path item is its `k`-th key with its operation |
| Server.RoutesOfMembers | src/server.ts:56-63 | a route is registered exactly when its method is a key of some path item and its path is that item's rewritten path |
| Server.RoutesOf | src/server.ts:47-67 | no routes without `paths`; every registered path is in Express form, with no braces left |
| Server.PathRoutesExpress | src/server.ts:56-64 | every path the outer `forEach` registers has its braces rewritten |
| Server.MethodRoutesMembers | src/server.ts:61-62 | the routes of one path item are its keys with their operations |
| Server.ContentTypeResponse | src/server.ts:76-80 | the configured type exactly when it is a key of `content` |
| Server.ChosenStatus | src/server.ts:69-88 | returns exactly when the configured pattern is valid, and then the first response key (`undefined` with no responses); otherwise throws |
| Server.StatusIsLeastIndexKey | src/server.ts:84-86 | with a valid pattern and some numeric status key, the chosen status is the numeric key of least value |
| Server.ChosenContentType | src/server.ts:97-101 | defined exactly when `content` has keys, and then one of them; the configured type when it is a non-empty key; the first key when the configured type is `""` (falsy even when it is a key) or not a key |
| Server.RouterOperation | src/server.ts:82-118 | an invalid pattern throws; no responses throws `TypeError`; any reply has the status `parseInt` of the first response key |
| Server.ResponseReply | src/server.ts:91-94 | a response without `content` throws; the reply keeps the status |
| Server.ContentReply | src/server.ts:97-117 | empty content throws `TypeError`; the reply's content type is the chosen one |
| Server.RouterOperationReply | src/server.ts:84-91 | with a valid pattern and some response, the handler answers for the response under the first key, with `parseInt` of that key |
| Server.ContentReplyBody | src/server.ts:97-117 | non-empty content is answered with the chosen content type and the body of the media type under it |
| Server.BodyOf | src/server.ts:104-115 | a media type without a `$ref` schema is answered with its `example`, verbatim; a `$ref` schema's answer is always defined |
| Server.RefBody | src/server.ts:107-112 | a `$ref` media schema is answered with the synthesis of what the path names on the trail `[path]`, always defined, and `{}` when the path names nothing |
| Server.PathRoutesStep | src/server.ts:56-63 | one pass of the outer `forEach` appends the item's routes ahead of those of the later items |
| Server.Server.constructor | src/server.ts:16-20 | an application with no router mounted |
| Server.Server.SetMainRoutes | src/server.ts:30-45 | mounts one router per loaded document, in order, each where `MountOf` says |
| Server.Server.MountDocument | src/server.ts:31-43 | the router of one document and its mount path |
| Server.Server.GetDocumentRoutes | src/server.ts:47-67 | no routes without `paths`; otherwise the routes of every path item, in enumeration order |
| Server.Server.RegisterPaths | src/server.ts:56-64 | the outer `forEach` registers the routes of every path item, in order |
| Server.Server.RegisterMethods | src/server.ts:61-63 | the inner `forEach` appends one route per key of the path item |
| Server.Server.SetRouterOperation | src/server.ts:82-118 | the handler sends what `RouterOperation` says, or throws what it throws |
| Server.Server.SendContent | src/server.ts:91-117 | the rest of the handler after the status answers `ResponseReply` |
| Server.Server.ResponseBody | src/server.ts:104-115 | the body sent is that of the media type's `$ref` schema, or its `example` |

## Left out

- Server.RoutesOf: registers a route for every key of a path item. In the program, a key that is not an Express verb (`parameters`, `summary`, `description`, `servers`, `$ref`) makes `router[method]` undefined, and calling it throws a `TypeError` out of `setMainRoutes` (src/server.ts:61-62). Express's router is not modelled, so the model does not capture that throw.
- Express and Node: `listen`, `app.use`, `Router`, `res.status`, `setHeader`, `send` and the body parsers. Their effects are modelled as values: a mounted router is a `Mount` and a reply is a `Reply`.
- Console warnings and colours.
- The configuration loader (`rc`), the dependency registry, the YAML reader and the command-line entry. The configuration is a parameter. `arrayItems` and `localUrl` are never read by this code.
- The `@setBaseMockStatic` decorator of `MockV3`: its module is not part of this model. `MockV2` and `MockV3` import `Utils` from a module that is also not part of this model; it is taken to be src/utils/utils.ts.
- Schemas.Lookup: a `$ref` path is looked up in a map from key paths to schemas. The model does not capture the `TypeError` that walking through a missing intermediate key throws, nor `$ref` targets that are not schema objects. The walk itself, with its throw, is modelled on JSON values by `Utils.GetObjectFromRef`.
- Duplicate keys in an object: entries are lists, and `Get` takes the first entry with a key.
- Floating-point numbers: `number` is an integer. Upper-casing covers ASCII letters only. Members inherited through prototypes are not modelled.
- MockV2.TupleOf: its contract states only the length of the mapped array. That every item is synthesised on a copy of the same trail shows in its definition and in `MockV2.MockV2.MapItems`, not in a separate lemma.
- MockV3.TupleOf: as for `MockV2.TupleOf`, only the length is stated.
- Server.Server.SetMainRoutes: route registration is modelled as building lists of `Route` values. Express's matching of a request against those routes is not modelled.
