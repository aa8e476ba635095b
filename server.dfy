/**
 * The decisions of `Server` (src/server.ts) without Express: where each
 * document's router is mounted, which routes it registers, and what a
 * request to one of them answers (status code, `Content-Type` and body).
 * The router of a document is the list of routes it registers, in order;
 * the application is the list of mounted routers.
 */
module Server {
  import opened Js
  import opened JsObjects
  import opened Schemas
  import opened Utils
  import opened Budget
  import opened OpenApi
  import Mock
  import MockV3

  /** The settings the server reads from its configuration. */
  datatype Config = Config(url: string, maxLoops: int, contentType: string, status: string)

  /** The defaults the configuration falls back to. */
  const Defaults: Config := Config("", 2, "*/*", "2XX")

  // ---------------------------------------------------------------------------
  // The mount path of a document

  /** `servers?.[0]?.url || x-ibm-configuration?.servers?.[0]?.url`, which may be `undefined`. */
  function MockUrl(doc: OpenApiDocument): (r: Option<string>)
    ensures r.Some? ==> (doc.servers.Some? && r.value in doc.servers.value) || (doc.ibmServers.Some? && r.value in doc.ibmServers.value)
    ensures Truthy(r) <==> Truthy(FirstUrl(doc.servers)) || Truthy(FirstUrl(doc.ibmServers))
    ensures Truthy(FirstUrl(doc.servers)) ==> r == Some(doc.servers.value[0])
  {
    var first := FirstUrl(doc.servers);
    if Truthy(first) then first else FirstUrl(doc.ibmServers)
  }

  /** The URL the server mounts a document on agrees with the one `MockV3.getUrl` reports. */
  lemma MockUrlIsGetUrl(doc: OpenApiDocument)
    ensures MockUrl(doc).GetOr("") == MockV3.MockV3.GetUrl(doc)
    ensures Truthy(MockUrl(doc)) <==> MockV3.MockV3.GetUrl(doc) != ""
  {
  }

  /**
   * The mount path: the document URL with the first occurrence of the
   * configured `url` removed when the URL includes it, `""` otherwise (also
   * when there is no URL). The test is for a substring, not a prefix.
   */
  function MountPath(mockUrl: Option<string>, url: string): (path: string)
    ensures !(mockUrl.Some? && Includes(mockUrl.value, url)) ==> path == ""
    ensures mockUrl.Some? && Includes(mockUrl.value, url) ==>
      var i := IndexOf(mockUrl.value, url).value;
      && i <= |path|
      && mockUrl.value == path[..i] + url + path[i..]
      && forall j :: 0 <= j < i ==> !OccursAt(mockUrl.value, url, j)
  {
    if mockUrl.Some? && Includes(mockUrl.value, url) then
      var u := mockUrl.value;
      var i := IndexOf(u, url).value;
      var path := RemoveFirst(u, url);
      assert path[..i] == u[..i] && path[i..] == u[i + |url|..];
      assert u == u[..i] + u[i..i + |url|] + u[i + |url|..];
      path
    else ""
  }

  /** A URL that starts with the configured `url` is mounted on the rest of it. */
  lemma MountPathOfPrefix(url: string, rest: string)
    ensures MountPath(Some(url + rest), url) == rest
  {
    var u := url + rest;
    assert u[0..|url|] == url;
    assert IndexOf(u, url) == Some(0);
  }

  /** With the default empty `url`, a document is mounted on its whole URL, or on `""` when it has none. */
  lemma MountPathDefault(mockUrl: Option<string>)
    ensures MountPath(mockUrl, Defaults.url) == mockUrl.GetOr("")
  {
    if mockUrl.Some? {
      MountPathOfPrefix("", mockUrl.value);
    }
  }

  /** The configured `url` is removed wherever it first occurs, not only at the front. */
  lemma MountPathRemovesInside()
    ensures MountPath(Some("/x/api"), "/api") == "/x"
  {
    var u := "/x/api";
    assert u[0..4] != "/api" by { assert u[1] != "/api"[1]; }
    assert u[1..5] != "/api" by { assert u[1] != "/api"[0]; }
    assert u[2..6] == "/api";
    assert IndexOf(u, "/api", 2) == Some(2);
    assert IndexOf(u, "/api") == Some(2);
  }

  // ---------------------------------------------------------------------------
  // The path rewrite

  /** `s.replace(/c/g, d)` for a one-character pattern. */
  function ReplaceChar(s: string, c: char, d: char): (r: string)
    ensures |r| == |s|
    ensures forall i :: 0 <= i < |s| ==> r[i] == if s[i] == c then d else s[i]
  {
    seq(|s|, i requires 0 <= i < |s| => if s[i] == c then d else s[i])
  }

  /** `s.replace(/c/g, '')`: every `c` deleted, every other character kept in order. */
  function DeleteChar(s: string, c: char): (r: string)
    ensures c !in r
    ensures |r| == |s| - multiset(s)[c]
    ensures forall x :: x in r <==> x in s && x != c
    ensures c !in s ==> r == s
  {
    if |s| == 0 then ""
    else
      assert s == [s[0]] + s[1..];
      var rest := DeleteChar(s[1..], c);
      if s[0] == c then rest else [s[0]] + rest
  }

  /** The Express form of a path: `{` becomes `:` and `}` is deleted, so `/users/{userId}` becomes `/users/:userId`. */
  function ExpressPath(path: string): (r: string)
    ensures '{' !in r && '}' !in r
    ensures |r| == |path| - multiset(path)['}']
    ensures '{' !in path && '}' !in path ==> r == path
  {
    var colons := ReplaceChar(path, '{', ':');
    assert '{' !in path ==> colons == path;
    assert multiset(colons)['}'] == multiset(path)['}'] by {
      assert forall i :: 0 <= i < |path| ==> (colons[i] == '}' <==> path[i] == '}');
      MultiplicityAgrees(path, colons, '}');
    }
    DeleteChar(colons, '}')
  }

  /** Two strings of one length with `x` at the same positions hold it equally often. */
  lemma {:induction false} MultiplicityAgrees(s: string, t: string, x: char)
    requires |s| == |t|
    requires forall i :: 0 <= i < |s| ==> (s[i] == x <==> t[i] == x)
    ensures multiset(s)[x] == multiset(t)[x]
    decreases |s|
  {
    if |s| > 0 {
      assert s == [s[0]] + s[1..] && t == [t[0]] + t[1..];
      MultiplicityAgrees(s[1..], t[1..], x);
    }
  }

  /** Rewriting an already rewritten path changes nothing. */
  lemma ExpressPathIdempotent(path: string)
    ensures ExpressPath(ExpressPath(path)) == ExpressPath(path)
  {
  }

  /** The rewrite works character by character: rewriting a concatenation rewrites each part. */
  lemma ExpressPathConcat(a: string, b: string)
    ensures ExpressPath(a + b) == ExpressPath(a) + ExpressPath(b)
  {
    var ra, rb := ReplaceChar(a, '{', ':'), ReplaceChar(b, '{', ':');
    assert ReplaceChar(a + b, '{', ':') == ra + rb;
    DeleteConcat(ra, rb, '}');
  }

  lemma {:induction false} DeleteConcat(a: string, b: string, c: char)
    ensures DeleteChar(a + b, c) == DeleteChar(a, c) + DeleteChar(b, c)
    decreases |a|
  {
    if |a| > 0 {
      assert (a + b)[0] == a[0] && (a + b)[1..] == a[1..] + b;
      DeleteConcat(a[1..], b, c);
      var x, y := DeleteChar(a[1..], c), DeleteChar(b, c);
      if a[0] == c {
        assert DeleteChar(a + b, c) == x + y;
        assert DeleteChar(a, c) == x;
      } else {
        assert DeleteChar(a + b, c) == [a[0]] + (x + y);
        assert DeleteChar(a, c) == [a[0]] + x;
        StringsAssociative([a[0]], x, y);
      }
    } else {
      assert a + b == b;
    }
  }

  lemma StringsAssociative(p: string, q: string, r: string)
    ensures p + (q + r) == (p + q) + r
  {
  }

  /** The example of the source's comment. */
  lemma ExpressPathExample()
    ensures ExpressPath("/users/{userId}") == "/users/:userId"
  {
    var prefix, name := "/users/", "userId";
    ExampleParts();
    ExpressPathConcat(prefix + "{", name + "}");
    ExpressPathConcat(prefix, "{");
    ExpressPathConcat(name, "}");
    ExpressBraces();
  }

  lemma ExpressBraces()
    ensures ExpressPath("{") == ":" && ExpressPath("}") == ""
  {
    assert ReplaceChar("{", '{', ':') == ":";
    assert ReplaceChar("}", '{', ':') == "}";
    assert DeleteChar("}", '}') == DeleteChar("", '}');
  }

  lemma ExampleParts()
    ensures "/users/{userId}" == ("/users/" + "{") + ("userId" + "}")
    ensures "/users/:userId" == ("/users/" + ":") + ("userId" + "")
    ensures '{' !in "/users/" && '}' !in "/users/" && '{' !in "userId" && '}' !in "userId"
  {
  }

  // ---------------------------------------------------------------------------
  // The routes of a document

  /** One registration `router[method](path, handler)`: the handler answers for `operation`. */
  datatype Route = Route(verb: string, path: string, operation: Operation)

  /** The routes of one path item, one per key in enumeration order. */
  function MethodRoutes(path: string, methods: seq<(string, Operation)>): seq<Route>
  {
    if |methods| == 0 then [] else [Route(methods[0].0, path, methods[0].1)] + MethodRoutes(path, methods[1..])
  }

  /** The `k`-th route of a path item is its `k`-th key with its operation. */
  lemma {:induction false} MethodRouteAt(path: string, methods: seq<(string, Operation)>, k: nat)
    requires k < |methods|
    ensures |MethodRoutes(path, methods)| == |methods|
    ensures MethodRoutes(path, methods)[k] == Route(methods[k].0, path, methods[k].1)
    decreases |methods|
  {
    if k > 0 {
      MethodRouteAt(path, methods[1..], k - 1);
    } else if |methods| > 1 {
      MethodRouteAt(path, methods[1..], 0);
    }
  }

  /** The routes of the path items listed, in order. */
  function PathRoutes(paths: seq<(string, PathItem)>): seq<Route>
  {
    if |paths| == 0 then []
    else MethodRoutes(ExpressPath(paths[0].0), Entries(paths[0].1)) + PathRoutes(paths[1..])
  }

  /** `getDocumentRoutes(mock)`: no routes without `paths`; otherwise the routes of every path item. */
  function RoutesOf(paths: Option<seq<(string, PathItem)>>): (r: seq<Route>)
    ensures paths.None? ==> r == []
    ensures forall rt :: rt in r ==> '{' !in rt.path && '}' !in rt.path
  {
    match paths
    case None => []
    case Some(ps) =>
      PathRoutesExpress(Entries(ps));
      PathRoutes(Entries(ps))
  }

  /** Every path registered is in Express form. */
  lemma PathRoutesExpress(es: seq<(string, PathItem)>)
    ensures forall rt :: rt in PathRoutes(es) ==> '{' !in rt.path && '}' !in rt.path
  {
    forall rt | rt in PathRoutes(es)
      ensures '{' !in rt.path && '}' !in rt.path
    {
      PathRoutesFrom(es, rt);
    }
  }

  /** A route is registered exactly when its method is a key of a path item and its path is that item's rewritten path. */
  lemma RoutesOfMembers(ps: seq<(string, PathItem)>, rt: Route)
    ensures rt in RoutesOf(Some(ps)) <==>
      exists e, m :: e in ps && m in e.1 && rt == Route(m.0, ExpressPath(e.0), m.1)
  {
    if rt in RoutesOf(Some(ps)) {
      PathRoutesFrom(Entries(ps), rt);
      var e, m :| e in Entries(ps) && m in e.1 && rt == Route(m.0, ExpressPath(e.0), m.1);
      assert e in ps;
    }
    if exists e, m :: e in ps && m in e.1 && rt == Route(m.0, ExpressPath(e.0), m.1) {
      var e, m :| e in ps && m in e.1 && rt == Route(m.0, ExpressPath(e.0), m.1);
      assert e in Entries(ps);
      PathRoutesHas(Entries(ps), e, m);
    }
  }

  lemma {:induction false} PathRoutesHas(es: seq<(string, PathItem)>, e: (string, PathItem), m: (string, Operation))
    requires e in es && m in e.1
    ensures Route(m.0, ExpressPath(e.0), m.1) in PathRoutes(es)
    decreases |es|
  {
    var rt := Route(m.0, ExpressPath(e.0), m.1);
    if es[0] == e {
      MethodRoutesMembers(ExpressPath(e.0), e.1, rt);
    } else {
      assert e in es[1..];
      PathRoutesHas(es[1..], e, m);
    }
  }

  lemma {:induction false} PathRoutesFrom(es: seq<(string, PathItem)>, rt: Route)
    requires rt in PathRoutes(es)
    ensures exists e, m :: e in es && m in e.1 && rt == Route(m.0, ExpressPath(e.0), m.1)
    decreases |es|
  {
    if rt in MethodRoutes(ExpressPath(es[0].0), Entries(es[0].1)) {
      MethodRoutesMembers(ExpressPath(es[0].0), es[0].1, rt);
      var m :| m in es[0].1 && rt == Route(m.0, ExpressPath(es[0].0), m.1);
      assert es[0] in es;
    } else {
      PathRoutesFrom(es[1..], rt);
      var e, m :| e in es[1..] && m in e.1 && rt == Route(m.0, ExpressPath(e.0), m.1);
      assert e in es;
    }
  }

  /** The routes of one path item are its keys with their operations. */
  lemma MethodRoutesMembers(path: string, item: PathItem, rt: Route)
    ensures rt in MethodRoutes(path, Entries(item)) <==> exists m :: m in item && rt == Route(m.0, path, m.1)
  {
    var es := Entries(item);
    var ms := MethodRoutes(path, es);
    if rt in ms {
      var k :| 0 <= k < |ms| && ms[k] == rt;
      if |es| > 0 {
        MethodRouteAt(path, es, 0);
      }
      MethodRouteAt(path, es, k);
      assert es[k] in item;
    }
    if exists m :: m in item && rt == Route(m.0, path, m.1) {
      var m :| m in item && rt == Route(m.0, path, m.1);
      assert m in es;
      var k :| 0 <= k < |es| && es[k] == m;
      MethodRouteAt(path, es, k);
      assert ms[k] == rt;
    }
  }

  // ---------------------------------------------------------------------------
  // What a request answers

  /** `getContentTypeResponse(content)`: the configured type when it is a key of `content`, `undefined` otherwise. */
  function ContentTypeResponse(contentTypes: seq<string>, configured: string): (r: Option<string>)
    ensures r.Some? <==> configured in contentTypes
    ensures r.Some? ==> r.value == configured
  {
    if configured in contentTypes then Some(configured) else None
  }

  /** The status key answered: the matcher's, and when that is falsy the first key. */
  function ChosenStatus(keys: seq<string>, pattern: string): (r: Result<Option<string>>)
    ensures r.Ok? <==> IsStatusPattern(Normalize(pattern))
    ensures r.Thrown? ==> r.failure == InvalidStatusCode(Normalize(pattern))
    ensures r.Ok? ==> r.value == if |keys| == 0 then None else Some(keys[0])
  {
    match FirstMatchingStatusCode(keys, pattern)
    case Thrown(f) => Thrown(f)
    case Ok(m) =>
      if m.Some? && m.value != "" then Ok(m)
      else if |keys| > 0 then Ok(Some(keys[0]))
      else Ok(None)
  }

  /**
   * With a valid pattern and some status key that is an array index (such as
   * `200`), the chosen status is the index key of least value, whatever the
   * pattern asks for.
   */
  lemma StatusIsLeastIndexKey(responses: seq<(string, Response)>, pattern: string, j: nat)
    requires IsStatusPattern(Normalize(pattern))
    requires j < |responses| && IsArrayIndex(responses[j].0)
    ensures var r := ChosenStatus(Keys(responses), pattern);
      && r.Ok? && r.value.Some?
      && IsArrayIndex(r.value.value)
      && IndexValue(r.value.value) <= IndexValue(responses[j].0)
  {
    FirstKeyIsLeastIndex(responses, j);
  }

  /** The content type sent: the configured one when it is a (non-empty) key, else the first key. */
  function ChosenContentType(keys: seq<string>, configured: string): (r: Option<string>)
    ensures r.Some? <==> |keys| > 0
    ensures r.Some? ==> r.value in keys
    ensures configured != "" && configured in keys ==> r == Some(configured)
    ensures (configured == "" || configured !in keys) && |keys| > 0 ==> r == Some(keys[0])
  {
    var m := ContentTypeResponse(keys, configured);
    if m.Some? && m.value != "" then m
    else if |keys| > 0 then Some(keys[0])
    else None
  }

  /** What the handler sends: the status (`None` for `NaN`), the `Content-Type` and the body (`None` for `undefined`). */
  datatype Reply = Reply(status: Option<int>, contentType: string, body: Option<Json>)

  /** The body for a media type: synthesised for a `$ref` schema, with the trail seeded with its path; the example otherwise. */
  function BodyOf(c: Ctx, media: MediaType): (r: Result<Option<Json>>)
    ensures media.schema.None? || media.schema.value.ref.None? ==> r == Ok(media.example)
    ensures media.schema.Some? && media.schema.value.ref.Some? && r.Ok? ==> r.value.Some?
  {
    if media.schema.Some? && media.schema.value.ref.Some? then
      var ref := media.schema.value.ref.value;
      Defined(Mock.OutputOf(c, Lookup(c.doc, RefSegments(ref)), [RefKey(ref)]).result)
    else Ok(media.example)
  }

  /**
   * `setRouterOperation(req, res, operation, mock)`: what a request to a
   * route answers, or what the handler throws. The status comes first; then
   * the response stored under the chosen key is answered.
   */
  function RouterOperation(cfg: Config, schemas: Document, op: Operation): (r: Result<Reply>)
    ensures !IsStatusPattern(Normalize(cfg.status)) ==> r == Thrown(InvalidStatusCode(Normalize(cfg.status)))
    ensures IsStatusPattern(Normalize(cfg.status)) && |op.responses| == 0 ==> r == Thrown(TypeError)
    ensures r.Ok? ==> |op.responses| > 0 && r.value.status == ParseInt(Keys(op.responses)[0])
  {
    match ChosenStatus(Keys(op.responses), cfg.status)
    case Thrown(f) => Thrown(f)
    case Ok(None) => Thrown(TypeError)
    case Ok(Some(statusCode)) =>
      match Get(op.responses, statusCode)
      case None => Thrown(TypeError)
      case Some(response) => ResponseReply(cfg, schemas, ParseInt(statusCode), response)
  }

  /** The rest of `setRouterOperation` once the status is set: a response without `content` throws. */
  function ResponseReply(cfg: Config, schemas: Document, status: Option<int>, response: Response): (r: Result<Reply>)
    ensures response.content.None? ==> r == Thrown(NoResponseContent)
    ensures r.Ok? ==> r.value.status == status
  {
    match response.content
    case None => Thrown(NoResponseContent)
    case Some(content) => ContentReply(Ctx(schemas, cfg.maxLoops), status, content, cfg.contentType)
  }

  /** The content type is chosen among the keys of `content`, and its media type gives the body. */
  function ContentReply(c: Ctx, status: Option<int>, content: seq<(string, MediaType)>, configured: string): (r: Result<Reply>)
    ensures |content| == 0 ==> r == Thrown(TypeError)
    ensures r.Ok? ==> r.value.status == status
    ensures r.Ok? ==> Some(r.value.contentType) == ChosenContentType(Keys(content), configured)
  {
    match ChosenContentType(Keys(content), configured)
    case None => Thrown(TypeError)
    case Some(contentType) =>
      match Get(content, contentType)
      case None => Thrown(TypeError)
      case Some(media) => Sent(status, contentType, BodyOf(c, media))
  }

  /** The reply sent once the body is known; what computing the body threw propagates. */
  function Sent(status: Option<int>, contentType: string, body: Result<Option<Json>>): Result<Reply>
  {
    match body
    case Ok(b) => Ok(Reply(status, contentType, b))
    case Thrown(f) => Thrown(f)
  }

  /**
   * With a valid status pattern and some response, the handler answers for
   * the response under the first key, and the status sent is that key read
   * as an integer.
   */
  lemma RouterOperationReply(cfg: Config, schemas: Document, op: Operation)
    requires IsStatusPattern(Normalize(cfg.status)) && |op.responses| > 0
    ensures var k := Keys(op.responses)[0];
      && Get(op.responses, k).Some?
      && RouterOperation(cfg, schemas, op) == ResponseReply(cfg, schemas, ParseInt(k), Get(op.responses, k).value)
  {
    var keys := Keys(op.responses);
    assert ChosenStatus(keys, cfg.status) == Ok(Some(keys[0]));
    KeysAreOwn(op.responses, 0);
    var response := Get(op.responses, keys[0]).value;
    assert RouterOperation(cfg, schemas, op) == ResponseReply(cfg, schemas, ParseInt(keys[0]), response);
  }

  /**
   * Non-empty content is answered with the chosen content type and the body
   * of the media type stored under it.
   */
  lemma ContentReplyBody(c: Ctx, status: Option<int>, content: seq<(string, MediaType)>, configured: string)
    requires |content| > 0
    ensures var ct := ChosenContentType(Keys(content), configured);
      && ct.Some?
      && Get(content, ct.value).Some?
      && var body := BodyOf(c, Get(content, ct.value).value);
         ContentReply(c, status, content, configured) == Sent(status, ct.value, body)
  {
    ListedKeyIsOwn(content, ChosenContentType(Keys(content), configured).value);
  }

  /**
   * A `$ref` media schema is answered with the synthesis of what the path
   * names, and the answer is always defined; a path that names nothing
   * answers `{}`.
   */
  lemma RefBody(c: Ctx, media: MediaType)
    requires media.schema.Some? && media.schema.value.ref.Some?
    ensures var ref := media.schema.value.ref.value;
      var o := Mock.OutputOf(c, Lookup(c.doc, RefSegments(ref)), [RefKey(ref)]);
      && (BodyOf(c, media).Ok? <==> o.result.Ok?)
      && (BodyOf(c, media).Ok? ==> BodyOf(c, media).value == Some(o.result.value))
      && (Lookup(c.doc, RefSegments(media.schema.value.ref.value)).None? ==> BodyOf(c, media) == Ok(Some(EmptyObject)))
  {
  }

  // ---------------------------------------------------------------------------
  // The implementation

  /** A router mounted on the application: its mount path, the document's schemas and its routes. */
  datatype Mount = Mount(path: string, schemas: Document, routes: seq<Route>)

  /** The router `setMainRoutes` mounts for one document. */
  function MountOf(cfg: Config, doc: OpenApiDocument): Mount
  {
    Mount(MountPath(MockUrl(doc), cfg.url), doc.schemas, RoutesOf(doc.paths))
  }

  /** The mounts of the first `n + 1` documents extend those of the first `n`. */
  lemma MountsStep(cfg: Config, docs: seq<OpenApiDocument>, n: nat)
    requires n < |docs|
    ensures seq(n + 1, i requires 0 <= i < n + 1 => MountOf(cfg, docs[i]))
      == seq(n, i requires 0 <= i < n => MountOf(cfg, docs[i])) + [MountOf(cfg, docs[n])]
  {
  }

  lemma Associative(a: seq<Route>, b: seq<Route>, c: seq<Route>)
    ensures a + (b + c) == (a + b) + c
  {
  }

  /** One pass of the outer loop of `getDocumentRoutes`: the routes of the `i`-th path item, then those of the later ones. */
  lemma PathRoutesStep(paths: seq<(string, PathItem)>, i: nat, router: seq<Route>)
    requires i < |paths|
    ensures router + PathRoutes(paths[i..])
            == (router + MethodRoutes(ExpressPath(paths[i].0), Entries(paths[i].1))) + PathRoutes(paths[i + 1..])
  {
    assert paths[i..][1..] == paths[i + 1..];
    Associative(router, MethodRoutes(ExpressPath(paths[i].0), Entries(paths[i].1)), PathRoutes(paths[i + 1..]));
  }

  /** `class Server`: the configuration it reads and the routers mounted on its application. */
  class Server {
    const config: Config
    var mounts: seq<Mount>

    constructor (config: Config)
      ensures this.config == config && mounts == []
    {
      this.config := config;
      mounts := [];
    }

    /** `setMainRoutes()`: mounts one router per loaded document, in order. */
    method SetMainRoutes(mocksList: seq<OpenApiDocument>)
      modifies this
      ensures mounts == old(mounts) + seq(|mocksList|, i requires 0 <= i < |mocksList| => MountOf(config, mocksList[i]))
    {
      ghost var start := mounts;
      var n := 0;
      while n < |mocksList|
        invariant n <= |mocksList|
        invariant mounts == start + seq(n, i requires 0 <= i < n => MountOf(config, mocksList[i]))
      {
        var mounted := MountDocument(mocksList[n]);
        MountsStep(config, mocksList, n);
        mounts := mounts + [mounted];
        n := n + 1;
      }
    }

    /** The callback `setMainRoutes` runs for one document: the router and where it is mounted. */
    method MountDocument(mock: OpenApiDocument) returns (mounted: Mount)
      ensures mounted == MountOf(config, mock)
    {
      var mockUrl := MockUrl(mock);
      var url := "";
      if !(mockUrl.Some? && Includes(mockUrl.value, config.url)) {
        // a warning is logged and the router is mounted on "/"
      } else {
        url := RemoveFirst(mockUrl.value, config.url);
      }
      var router := GetDocumentRoutes(mock);
      mounted := Mount(url, mock.schemas, router);
    }

    /** `getDocumentRoutes(mock)`: registers one route per key of every path item. */
    method GetDocumentRoutes(mock: OpenApiDocument) returns (router: seq<Route>)
      ensures router == RoutesOf(mock.paths)
    {
      if mock.paths.None? {
        return [];
      }
      router := RegisterPaths(Entries(mock.paths.value));
    }

    /** The outer `forEach` of `getDocumentRoutes`, over `Object.entries(paths)`. */
    method RegisterPaths(paths: seq<(string, PathItem)>) returns (router: seq<Route>)
      ensures router == PathRoutes(paths)
    {
      router := [];
      var i := 0;
      while i < |paths|
        invariant i <= |paths|
        invariant router + PathRoutes(paths[i..]) == PathRoutes(paths)
      {
        var formattedPath := ExpressPath(paths[i].0);
        var methods := Entries(paths[i].1);
        ghost var before := router;
        router := RegisterMethods(router, formattedPath, methods);
        PathRoutesStep(paths, i, before);
        i := i + 1;
      }
      assert paths[i..] == [];
    }

    /** The inner `forEach` of `getDocumentRoutes`: registers the keys of one path item on `formattedPath`. */
    method RegisterMethods(router: seq<Route>, formattedPath: string, methods: seq<(string, Operation)>) returns (routes: seq<Route>)
      ensures routes == router + MethodRoutes(formattedPath, methods)
    {
      routes := router;
      var j := 0;
      while j < |methods|
        invariant j <= |methods|
        invariant routes + MethodRoutes(formattedPath, methods[j..]) == router + MethodRoutes(formattedPath, methods)
      {
        var route := Route(methods[j].0, formattedPath, methods[j].1);
        ghost var rest := MethodRoutes(formattedPath, methods[j + 1..]);
        assert MethodRoutes(formattedPath, methods[j..]) == [route] + rest by {
          assert methods[j..][1..] == methods[j + 1..];
        }
        Associative(routes, [route], rest);
        routes := routes + [route];
        j := j + 1;
      }
      assert MethodRoutes(formattedPath, methods[j..]) == [] by {
        assert methods[j..] == [];
      }
      assert routes + [] == routes;
    }

    /** `setRouterOperation(req, res, operation, mock)`, answering with the reply it sends. */
    method SetRouterOperation(operation: Operation, mock: Mock.Mock) returns (r: Result<Reply>)
      requires mock.maxLoops == config.maxLoops
      ensures r == RouterOperation(config, mock.mock, operation)
    {
      var statusCodes := Keys(operation.responses);
      var found := FirstMatchingStatusCode(statusCodes, config.status);
      if found.Thrown? {
        return Thrown(found.failure);
      }
      var statusCode := found.value;
      if statusCode.None? || statusCode.value == "" {
        statusCode := if |statusCodes| > 0 then Some(statusCodes[0]) else None;
      }
      if statusCode.None? {
        // `responses[undefined].content`
        return Thrown(TypeError);
      }
      var status := ParseInt(statusCode.value);
      var response := Get(operation.responses, statusCode.value);
      if response.None? {
        return Thrown(TypeError);
      }
      r := SendContent(status, response.value, mock);
    }

    /** The part of `setRouterOperation` after `res.status(...)`: content type, then body. */
    method SendContent(status: Option<int>, response: Response, mock: Mock.Mock) returns (r: Result<Reply>)
      requires mock.maxLoops == config.maxLoops
      ensures r == ResponseReply(config, mock.mock, status, response)
    {
      var responseMock := response.content;
      if responseMock.None? {
        return Thrown(NoResponseContent);
      }
      var contentTypes := Keys(responseMock.value);
      var contentType := ContentTypeResponse(contentTypes, config.contentType);
      if contentType.None? || contentType.value == "" {
        contentType := if |contentTypes| > 0 then Some(contentTypes[0]) else None;
      }
      if contentType.None? {
        return Thrown(TypeError);
      }
      var media := Get(responseMock.value, contentType.value);
      if media.None? {
        return Thrown(TypeError);
      }
      var responseBody := ResponseBody(media.value, mock);
      r := Sent(status, contentType.value, responseBody);
    }

    /** The body `setRouterOperation` sends for a media type. */
    method ResponseBody(media: MediaType, mock: Mock.Mock) returns (body: Result<Option<Json>>)
      requires mock.maxLoops == config.maxLoops
      ensures body == BodyOf(Ctx(mock.mock, config.maxLoops), media)
    {
      var mockSchema := media.schema;
      if mockSchema.Some? && mockSchema.value.ref.Some? {
        var refPath := Split(mockSchema.value.ref.value, '/');
        refPath := refPath[1..];
        var refHistory := new StringArray([Join(refPath, '/')]);
        var refSchema := Lookup(mock.mock, refPath);
        var o := mock.GetOutputSchema(refSchema, refHistory);
        body := Defined(o);
      } else {
        body := Ok(media.example);
      }
    }
  }
}
