/**
 * The parts of an OpenAPI 3 document that the server and the version-3
 * adapter read: the server URLs, the paths with their operations, the
 * responses of an operation with their media types, and the schemas that
 * `$ref` paths resolve against. Objects are written as their entries in
 * insertion order.
 */
module OpenApi {
  import opened Js
  import opened Schemas

  /** A media type object: its `schema` (possibly a `{$ref}`) and its `example`. */
  datatype MediaType = MediaType(schema: Option<Schema>, example: Option<Json>)

  /** A response object; a `{$ref}` response has no `content`. */
  datatype Response = Response(content: Option<seq<(string, MediaType)>>)

  /** An operation object: its `responses`, keyed by status code. */
  datatype Operation = Operation(responses: seq<(string, Response)>)

  /** A path item: its operations, keyed by HTTP method. */
  type PathItem = seq<(string, Operation)>

  /**
   * A loaded document: the `url` of each entry of `servers` and of
   * `x-ibm-configuration.servers` (`None` when the member is absent), its
   * `paths`, and its schemas under their key paths.
   */
  datatype OpenApiDocument = OpenApiDocument(
    servers: Option<seq<string>>,
    ibmServers: Option<seq<string>>,
    paths: Option<seq<(string, PathItem)>>,
    schemas: Document)

  /** `servers?.[0]?.url` */
  function FirstUrl(servers: Option<seq<string>>): (r: Option<string>)
    ensures r.Some? <==> servers.Some? && |servers.value| > 0
    ensures r.Some? ==> r.value == servers.value[0]
  {
    if servers.Some? && |servers.value| > 0 then Some(servers.value[0]) else None
  }

  /** A string value that is truthy: defined and not empty. */
  predicate Truthy(s: Option<string>)
  {
    s.Some? && s.value != ""
  }
}
