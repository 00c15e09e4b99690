/**
 * The typed OpenAPI 3.0 document: one record per object of the format, every
 * field optional, each read from and written to the wire key serde derives
 * for it (the camelCase form of the Rust identifier, or an explicit rename).
 *
 * Record fields keep the Rust identifiers (`operation_id`, `in_`, `type_`);
 * the wire names appear only as the keys the decoders and encoders use.
 * Decoding follows serde's derived `Deserialize`: keys a record does not
 * declare are dropped, a missing key or a null is an absent field, and a
 * malformed field makes the whole record fail. serde meets the keys in
 * document order and reports the first malformed one it meets; the decoders
 * here check the fields in declaration order instead, so when several fields
 * are malformed the error they report may name a different one. Encoding
 * follows the derived `Serialize`: every declared key is written, an absent
 * field as null.
 */
module OpenApi {
  import opened Wrappers
  import opened Wire

  /** The root of a document. */
  datatype OpenApiSpec = OpenApiSpec(
    openapi: Option<string>,
    info: Option<Info>,
    paths: Option<map<string, PathItem>>,
    components: Option<Components>,
    servers: Option<seq<Server>>
  )

  /** Document metadata. */
  datatype Info = Info(
    title: Option<string>,
    description: Option<string>,
    version: Option<string>
  )

  /** A base URL the API is served from. */
  datatype Server = Server(
    url: Option<string>,
    description: Option<string>
  )

  /** The operations on one path: a fixed slot per HTTP verb, not a map. */
  datatype PathItem = PathItem(
    get: Option<Operation>,
    post: Option<Operation>,
    put: Option<Operation>,
    delete: Option<Operation>,
    patch: Option<Operation>,
    options: Option<Operation>,
    head: Option<Operation>,
    trace: Option<Operation>
  )

  /** One HTTP verb on one path. */
  datatype Operation = Operation(
    tags: Option<seq<string>>,
    summary: Option<string>,
    description: Option<string>,
    operation_id: Option<string>,
    parameters: Option<seq<Parameter>>,
    request_body: Option<RequestBody>,
    responses: Option<Responses>
  )

  /** A request input; `in_` is the wire key `in`. */
  datatype Parameter = Parameter(
    name: Option<string>,
    in_: Option<string>,
    required: Option<bool>,
    schema: Option<Schema>,
    description: Option<string>,
    example: Option<Value>,
    examples: Option<map<string, Example>>
  )

  /** A request payload, per media type. */
  datatype RequestBody = RequestBody(
    content: Option<map<string, MediaType>>,
    description: Option<string>,
    required: Option<bool>
  )

  /** The payload shape of one media type. */
  datatype MediaType = MediaType(
    schema: Option<Schema>,
    example: Option<Value>,
    examples: Option<map<string, Example>>
  )

  /** The Responses object: the dedicated `default` response and, flattened
    * beside it, one entry per other key (the status codes). */
  datatype Responses = Responses(
    responses: Option<map<string, Response>>,
    default: Option<Response>
  )

  /** One response. */
  datatype Response = Response(
    description: Option<string>,
    content: Option<map<string, MediaType>>,
    headers: Option<map<string, Header>>
  )

  /** A response header. */
  datatype Header = Header(
    description: Option<string>,
    schema: Option<Schema>,
    example: Option<Value>
  )

  /** The bucket of reusable definitions; names are not resolved. */
  datatype Components = Components(
    schemas: Option<map<string, Schema>>,
    responses: Option<map<string, Response>>,
    parameters: Option<map<string, Parameter>>,
    examples: Option<map<string, Example>>,
    request_bodies: Option<map<string, RequestBody>>,
    headers: Option<map<string, Header>>,
    security_schemes: Option<map<string, SecurityScheme>>
  )

  /** A sample value; `value` is kept untyped. */
  datatype Example = Example(
    summary: Option<string>,
    description: Option<string>,
    value: Option<Value>,
    external_value: Option<string>
  )

  /** A polymorphism hint inside a Schema. */
  datatype Discriminator = Discriminator(
    property_name: Option<string>,
    mapping: Option<map<string, string>>
  )

  /** An authentication mechanism; `type_` is the wire key `type`, and `in_` the wire key `in` by the camelCase rule alone. */
  datatype SecurityScheme = SecurityScheme(
    type_: Option<string>,
    description: Option<string>,
    name: Option<string>,
    in_: Option<string>,
    scheme: Option<string>,
    bearer_format: Option<string>,
    flows: Option<OAuthFlows>,
    open_id_connect_url: Option<string>
  )

  /** The four OAuth2 flows: fixed slots, not a map. */
  datatype OAuthFlows = OAuthFlows(
    implicit: Option<OAuthFlow>,
    password: Option<OAuthFlow>,
    client_credentials: Option<OAuthFlow>,
    authorization_code: Option<OAuthFlow>
  )

  /** One OAuth2 flow. */
  datatype OAuthFlow = OAuthFlow(
    authorization_url: Option<string>,
    token_url: Option<string>,
    refresh_url: Option<string>,
    scopes: Option<map<string, string>>
  )

  /** XML serialization hints of a Schema. */
  datatype XML = XML(
    name: Option<string>,
    namespace: Option<string>,
    prefix: Option<string>,
    attribute: Option<bool>,
    wrapped: Option<bool>
  )

  /** A JSON-Schema-style type description. It nests itself in `not`, `items`
    * and `additionalProperties` (one Schema each), `allOf`/`oneOf`/`anyOf`
    * (ordered lists) and `properties` (a name-to-Schema map). The f64 bounds
    * are kept as the number tokens of the document. */
  datatype Schema = Schema(
    title: Option<string>,
    multiple_of: Option<Number>,
    maximum: Option<Number>,
    exclusive_maximum: Option<bool>,
    minimum: Option<Number>,
    exclusive_minimum: Option<bool>,
    max_length: Option<U32>,
    min_length: Option<U32>,
    pattern: Option<string>,
    max_items: Option<U32>,
    min_items: Option<U32>,
    unique_items: Option<bool>,
    max_properties: Option<U32>,
    min_properties: Option<U32>,
    required: Option<seq<string>>,
    type_: Option<string>,
    not: Option<Schema>,
    all_of: SchemaList,
    one_of: SchemaList,
    any_of: SchemaList,
    items: Option<Schema>,
    properties: SchemaMap,
    additional_properties: Option<Schema>,
    description: Option<string>,
    format: Option<string>,
    default: Option<Value>,
    nullable: Option<bool>,
    discriminator: Option<Discriminator>,
    read_only: Option<bool>,
    write_only: Option<bool>,
    xml: Option<XML>,
    example: Option<Value>,
    deprecated: Option<bool>
  )

  /** `Option<Vec<Schema>>` of a Schema field, spelled out so that the nesting
    * is visibly well founded. */
  datatype SchemaList = NoSchemas | Schemas(list: seq<Schema>)

  /** `Option<HashMap<String, Schema>>` of `properties`, spelled out likewise. */
  datatype SchemaMap = NoProperties | Properties(entries: map<string, Schema>)

  // ---------------------------------------------------------------------
  // The wire names each record declares, in declaration order (the order
  // in which the derived Serialize writes them)
  // ---------------------------------------------------------------------

  const OpenApiSpecWireNames: seq<string> := ["openapi", "info", "paths", "components", "servers"]

  const InfoWireNames: seq<string> := ["title", "description", "version"]

  const ServerWireNames: seq<string> := ["url", "description"]

  const PathItemWireNames: seq<string> := ["get", "post", "put", "delete", "patch", "options", "head", "trace"]

  const OperationWireNames: seq<string> := ["tags", "summary", "description", "operationId", "parameters", "requestBody", "responses"]

  const ParameterWireNames: seq<string> := ["name", "in", "required", "schema", "description", "example", "examples"]

  const RequestBodyWireNames: seq<string> := ["content", "description", "required"]

  const MediaTypeWireNames: seq<string> := ["schema", "example", "examples"]

  const ResponseWireNames: seq<string> := ["description", "content", "headers"]

  const HeaderWireNames: seq<string> := ["description", "schema", "example"]

  const ComponentsWireNames: seq<string> := ["schemas", "responses", "parameters", "examples", "requestBodies", "headers", "securitySchemes"]

  const ExampleWireNames: seq<string> := ["summary", "description", "value", "externalValue"]

  const DiscriminatorWireNames: seq<string> := ["propertyName", "mapping"]

  const SecuritySchemeWireNames: seq<string> := ["type", "description", "name", "in", "scheme", "bearerFormat", "flows", "openIdConnectUrl"]

  const OAuthFlowsWireNames: seq<string> := ["implicit", "password", "clientCredentials", "authorizationCode"]

  const OAuthFlowWireNames: seq<string> := ["authorizationUrl", "tokenUrl", "refreshUrl", "scopes"]

  const XMLWireNames: seq<string> := ["name", "namespace", "prefix", "attribute", "wrapped"]

  const SchemaWireNames: seq<string> := ["title", "multipleOf", "maximum", "exclusiveMaximum", "minimum", "exclusiveMinimum", "maxLength", "minLength", "pattern", "maxItems", "minItems", "uniqueItems", "maxProperties", "minProperties", "required", "type", "not", "allOf", "oneOf", "anyOf", "items", "properties", "additionalProperties", "description", "format", "default", "nullable", "discriminator", "readOnly", "writeOnly", "xml", "example", "deprecated"]

  // ---------------------------------------------------------------------
  // Decoding (serde's derived Deserialize) and encoding (derived Serialize)
  // ---------------------------------------------------------------------

  function DecodeOpenApiSpec(v: Value): Decoded<OpenApiSpec>
  {
    if !v.Obj? then Err(InvalidType("struct OpenApiSpec")) else
    var f := v.fields;
    var openapi :- DecodeOpt(Field(f, "openapi"), DecodeString);
    var info :- DecodeOpt(Field(f, "info"), DecodeInfo);
    var paths :- DecodeOptMap(Field(f, "paths"), DecodePathItem);
    var components :- DecodeOpt(Field(f, "components"), DecodeComponents);
    var servers :- DecodeOptList(Field(f, "servers"), DecodeServer);
    Ok(OpenApiSpec(openapi, info, paths, components, servers))
  }

  function EncodeOpenApiSpec(x: OpenApiSpec): Value
  {
    Obj(ObjectOf(OpenApiSpecWireNames, [
      EncodeOpt(x.openapi, EncodeString),
      EncodeOpt(x.info, EncodeInfo),
      EncodeOptMap(x.paths, EncodePathItem),
      EncodeOpt(x.components, EncodeComponents),
      EncodeOptList(x.servers, EncodeServer)]))
  }

  function DecodeInfo(v: Value): Decoded<Info>
  {
    if !v.Obj? then Err(InvalidType("struct Info")) else
    var f := v.fields;
    var title :- DecodeOpt(Field(f, "title"), DecodeString);
    var description :- DecodeOpt(Field(f, "description"), DecodeString);
    var version :- DecodeOpt(Field(f, "version"), DecodeString);
    Ok(Info(title, description, version))
  }

  function EncodeInfo(x: Info): Value
  {
    Obj(ObjectOf(InfoWireNames, [
      EncodeOpt(x.title, EncodeString),
      EncodeOpt(x.description, EncodeString),
      EncodeOpt(x.version, EncodeString)]))
  }

  function DecodeServer(v: Value): Decoded<Server>
  {
    if !v.Obj? then Err(InvalidType("struct Server")) else
    var f := v.fields;
    var url :- DecodeOpt(Field(f, "url"), DecodeString);
    var description :- DecodeOpt(Field(f, "description"), DecodeString);
    Ok(Server(url, description))
  }

  function EncodeServer(x: Server): Value
  {
    Obj(ObjectOf(ServerWireNames, [
      EncodeOpt(x.url, EncodeString),
      EncodeOpt(x.description, EncodeString)]))
  }

  function DecodePathItem(v: Value): Decoded<PathItem>
  {
    if !v.Obj? then Err(InvalidType("struct PathItem")) else
    var f := v.fields;
    var get :- DecodeOpt(Field(f, "get"), DecodeOperation);
    var post :- DecodeOpt(Field(f, "post"), DecodeOperation);
    var put :- DecodeOpt(Field(f, "put"), DecodeOperation);
    var delete :- DecodeOpt(Field(f, "delete"), DecodeOperation);
    var patch :- DecodeOpt(Field(f, "patch"), DecodeOperation);
    var options :- DecodeOpt(Field(f, "options"), DecodeOperation);
    var head :- DecodeOpt(Field(f, "head"), DecodeOperation);
    var trace :- DecodeOpt(Field(f, "trace"), DecodeOperation);
    Ok(PathItem(get, post, put, delete, patch, options, head, trace))
  }

  function EncodePathItem(x: PathItem): Value
  {
    Obj(ObjectOf(PathItemWireNames, [
      EncodeOpt(x.get, EncodeOperation),
      EncodeOpt(x.post, EncodeOperation),
      EncodeOpt(x.put, EncodeOperation),
      EncodeOpt(x.delete, EncodeOperation),
      EncodeOpt(x.patch, EncodeOperation),
      EncodeOpt(x.options, EncodeOperation),
      EncodeOpt(x.head, EncodeOperation),
      EncodeOpt(x.trace, EncodeOperation)]))
  }

  function DecodeOperation(v: Value): Decoded<Operation>
  {
    if !v.Obj? then Err(InvalidType("struct Operation")) else
    var f := v.fields;
    var tags :- DecodeOptList(Field(f, "tags"), DecodeString);
    var summary :- DecodeOpt(Field(f, "summary"), DecodeString);
    var description :- DecodeOpt(Field(f, "description"), DecodeString);
    var operation_id :- DecodeOpt(Field(f, "operationId"), DecodeString);
    var parameters :- DecodeOptList(Field(f, "parameters"), DecodeParameter);
    var request_body :- DecodeOpt(Field(f, "requestBody"), DecodeRequestBody);
    var responses :- DecodeOpt(Field(f, "responses"), DecodeResponses);
    Ok(Operation(tags, summary, description, operation_id, parameters, request_body, responses))
  }

  function EncodeOperation(x: Operation): Value
  {
    Obj(ObjectOf(OperationWireNames, [
      EncodeOptList(x.tags, EncodeString),
      EncodeOpt(x.summary, EncodeString),
      EncodeOpt(x.description, EncodeString),
      EncodeOpt(x.operation_id, EncodeString),
      EncodeOptList(x.parameters, EncodeParameter),
      EncodeOpt(x.request_body, EncodeRequestBody),
      EncodeOpt(x.responses, EncodeResponses)]))
  }

  function DecodeParameter(v: Value): Decoded<Parameter>
  {
    if !v.Obj? then Err(InvalidType("struct Parameter")) else
    var f := v.fields;
    var name :- DecodeOpt(Field(f, "name"), DecodeString);
    var in_ :- DecodeOpt(Field(f, "in"), DecodeString);
    var required :- DecodeOpt(Field(f, "required"), DecodeBool);
    var schema :- DecodeOpt(Field(f, "schema"), DecodeSchema);
    var description :- DecodeOpt(Field(f, "description"), DecodeString);
    var example :- DecodeOpt(Field(f, "example"), DecodeAny);
    var examples :- DecodeOptMap(Field(f, "examples"), DecodeExample);
    Ok(Parameter(name, in_, required, schema, description, example, examples))
  }

  function EncodeParameter(x: Parameter): Value
  {
    Obj(ObjectOf(ParameterWireNames, [
      EncodeOpt(x.name, EncodeString),
      EncodeOpt(x.in_, EncodeString),
      EncodeOpt(x.required, EncodeBool),
      EncodeOpt(x.schema, EncodeSchema),
      EncodeOpt(x.description, EncodeString),
      EncodeOpt(x.example, EncodeAny),
      EncodeOptMap(x.examples, EncodeExample)]))
  }

  function DecodeRequestBody(v: Value): Decoded<RequestBody>
  {
    if !v.Obj? then Err(InvalidType("struct RequestBody")) else
    var f := v.fields;
    var content :- DecodeOptMap(Field(f, "content"), DecodeMediaType);
    var description :- DecodeOpt(Field(f, "description"), DecodeString);
    var required :- DecodeOpt(Field(f, "required"), DecodeBool);
    Ok(RequestBody(content, description, required))
  }

  function EncodeRequestBody(x: RequestBody): Value
  {
    Obj(ObjectOf(RequestBodyWireNames, [
      EncodeOptMap(x.content, EncodeMediaType),
      EncodeOpt(x.description, EncodeString),
      EncodeOpt(x.required, EncodeBool)]))
  }

  function DecodeMediaType(v: Value): Decoded<MediaType>
  {
    if !v.Obj? then Err(InvalidType("struct MediaType")) else
    var f := v.fields;
    var schema :- DecodeOpt(Field(f, "schema"), DecodeSchema);
    var example :- DecodeOpt(Field(f, "example"), DecodeAny);
    var examples :- DecodeOptMap(Field(f, "examples"), DecodeExample);
    Ok(MediaType(schema, example, examples))
  }

  function EncodeMediaType(x: MediaType): Value
  {
    Obj(ObjectOf(MediaTypeWireNames, [
      EncodeOpt(x.schema, EncodeSchema),
      EncodeOpt(x.example, EncodeAny),
      EncodeOptMap(x.examples, EncodeExample)]))
  }

  /** The `default` key feeds the dedicated field; every other key is
    * collected and the collection read as the status-code map. serde reads a
    * flattened `Option` "untagged": when any collected entry is not a valid
    * Response the whole map is silently None, and no collected key is ever an
    * error. Only a non-object or a malformed `default` fails. */
  function DecodeResponses(v: Value): (r: Decoded<Responses>)
    ensures r.Ok? <==> v.Obj? && DecodeOpt(Field(v.fields, "default"), DecodeResponse).Ok?
    ensures r.Ok? ==> r.value.default == DecodeOpt(Field(v.fields, "default"), DecodeResponse).value
    ensures r.Ok? ==> (r.value.responses.Some? <==>
      forall k | k in v.fields && k != "default" :: DecodeResponse(v.fields[k]).Ok?)
    ensures r.Ok? && r.value.responses.Some? ==>
      && "default" !in r.value.responses.value
      && r.value.responses.value.Keys == v.fields.Keys - {"default"}
      && forall k | k in r.value.responses.value :: DecodeResponse(v.fields[k]) == Ok(r.value.responses.value[k])
  {
    if !v.Obj? then Err(InvalidType("struct Responses")) else
    var default :- DecodeOpt(Field(v.fields, "default"), DecodeResponse);
    var statusCodes := v.fields - {"default"};
    assert forall k | k in v.fields && k != "default" :: k in statusCodes && statusCodes[k] == v.fields[k];
    Ok(Responses(DecodeEntries(statusCodes, DecodeResponse).ToOption(), default))
  }

  /** The map's entries become sibling keys of `default`, which is written
    * last (as null when absent) and so wins over a map entry of that name. */
  function EncodeResponses(x: Responses): (v: Value)
    ensures v.Obj?
    ensures v.fields.Keys == {"default"} + (if x.responses.Some? then x.responses.value.Keys else {})
  {
    var flattened := if x.responses.Some? then EncodeMap(x.responses.value, EncodeResponse).fields else map[];
    Obj(flattened["default" := EncodeOpt(x.default, EncodeResponse)])
  }

  function DecodeResponse(v: Value): Decoded<Response>
  {
    if !v.Obj? then Err(InvalidType("struct Response")) else
    var f := v.fields;
    var description :- DecodeOpt(Field(f, "description"), DecodeString);
    var content :- DecodeOptMap(Field(f, "content"), DecodeMediaType);
    var headers :- DecodeOptMap(Field(f, "headers"), DecodeHeader);
    Ok(Response(description, content, headers))
  }

  function EncodeResponse(x: Response): Value
  {
    Obj(ObjectOf(ResponseWireNames, [
      EncodeOpt(x.description, EncodeString),
      EncodeOptMap(x.content, EncodeMediaType),
      EncodeOptMap(x.headers, EncodeHeader)]))
  }

  function DecodeHeader(v: Value): Decoded<Header>
  {
    if !v.Obj? then Err(InvalidType("struct Header")) else
    var f := v.fields;
    var description :- DecodeOpt(Field(f, "description"), DecodeString);
    var schema :- DecodeOpt(Field(f, "schema"), DecodeSchema);
    var example :- DecodeOpt(Field(f, "example"), DecodeAny);
    Ok(Header(description, schema, example))
  }

  function EncodeHeader(x: Header): Value
  {
    Obj(ObjectOf(HeaderWireNames, [
      EncodeOpt(x.description, EncodeString),
      EncodeOpt(x.schema, EncodeSchema),
      EncodeOpt(x.example, EncodeAny)]))
  }

  function DecodeComponents(v: Value): Decoded<Components>
  {
    if !v.Obj? then Err(InvalidType("struct Components")) else
    var f := v.fields;
    var schemas :- DecodeOptMap(Field(f, "schemas"), DecodeSchema);
    var responses :- DecodeOptMap(Field(f, "responses"), DecodeResponse);
    var parameters :- DecodeOptMap(Field(f, "parameters"), DecodeParameter);
    var examples :- DecodeOptMap(Field(f, "examples"), DecodeExample);
    var request_bodies :- DecodeOptMap(Field(f, "requestBodies"), DecodeRequestBody);
    var headers :- DecodeOptMap(Field(f, "headers"), DecodeHeader);
    var security_schemes :- DecodeOptMap(Field(f, "securitySchemes"), DecodeSecurityScheme);
    Ok(Components(schemas, responses, parameters, examples, request_bodies, headers, security_schemes))
  }

  function EncodeComponents(x: Components): Value
  {
    Obj(ObjectOf(ComponentsWireNames, [
      EncodeOptMap(x.schemas, EncodeSchema),
      EncodeOptMap(x.responses, EncodeResponse),
      EncodeOptMap(x.parameters, EncodeParameter),
      EncodeOptMap(x.examples, EncodeExample),
      EncodeOptMap(x.request_bodies, EncodeRequestBody),
      EncodeOptMap(x.headers, EncodeHeader),
      EncodeOptMap(x.security_schemes, EncodeSecurityScheme)]))
  }

  function DecodeExample(v: Value): Decoded<Example>
  {
    if !v.Obj? then Err(InvalidType("struct Example")) else
    var f := v.fields;
    var summary :- DecodeOpt(Field(f, "summary"), DecodeString);
    var description :- DecodeOpt(Field(f, "description"), DecodeString);
    var value :- DecodeOpt(Field(f, "value"), DecodeAny);
    var external_value :- DecodeOpt(Field(f, "externalValue"), DecodeString);
    Ok(Example(summary, description, value, external_value))
  }

  function EncodeExample(x: Example): Value
  {
    Obj(ObjectOf(ExampleWireNames, [
      EncodeOpt(x.summary, EncodeString),
      EncodeOpt(x.description, EncodeString),
      EncodeOpt(x.value, EncodeAny),
      EncodeOpt(x.external_value, EncodeString)]))
  }

  function DecodeDiscriminator(v: Value): Decoded<Discriminator>
  {
    if !v.Obj? then Err(InvalidType("struct Discriminator")) else
    var f := v.fields;
    var property_name :- DecodeOpt(Field(f, "propertyName"), DecodeString);
    var mapping :- DecodeOptMap(Field(f, "mapping"), DecodeString);
    Ok(Discriminator(property_name, mapping))
  }

  function EncodeDiscriminator(x: Discriminator): Value
  {
    Obj(ObjectOf(DiscriminatorWireNames, [
      EncodeOpt(x.property_name, EncodeString),
      EncodeOptMap(x.mapping, EncodeString)]))
  }

  function DecodeSecurityScheme(v: Value): Decoded<SecurityScheme>
  {
    if !v.Obj? then Err(InvalidType("struct SecurityScheme")) else
    var f := v.fields;
    var type_ :- DecodeOpt(Field(f, "type"), DecodeString);
    var description :- DecodeOpt(Field(f, "description"), DecodeString);
    var name :- DecodeOpt(Field(f, "name"), DecodeString);
    var in_ :- DecodeOpt(Field(f, "in"), DecodeString);
    var scheme :- DecodeOpt(Field(f, "scheme"), DecodeString);
    var bearer_format :- DecodeOpt(Field(f, "bearerFormat"), DecodeString);
    var flows :- DecodeOpt(Field(f, "flows"), DecodeOAuthFlows);
    var open_id_connect_url :- DecodeOpt(Field(f, "openIdConnectUrl"), DecodeString);
    Ok(SecurityScheme(type_, description, name, in_, scheme, bearer_format, flows, open_id_connect_url))
  }

  function EncodeSecurityScheme(x: SecurityScheme): Value
  {
    Obj(ObjectOf(SecuritySchemeWireNames, [
      EncodeOpt(x.type_, EncodeString),
      EncodeOpt(x.description, EncodeString),
      EncodeOpt(x.name, EncodeString),
      EncodeOpt(x.in_, EncodeString),
      EncodeOpt(x.scheme, EncodeString),
      EncodeOpt(x.bearer_format, EncodeString),
      EncodeOpt(x.flows, EncodeOAuthFlows),
      EncodeOpt(x.open_id_connect_url, EncodeString)]))
  }

  function DecodeOAuthFlows(v: Value): Decoded<OAuthFlows>
  {
    if !v.Obj? then Err(InvalidType("struct OAuthFlows")) else
    var f := v.fields;
    var implicit :- DecodeOpt(Field(f, "implicit"), DecodeOAuthFlow);
    var password :- DecodeOpt(Field(f, "password"), DecodeOAuthFlow);
    var client_credentials :- DecodeOpt(Field(f, "clientCredentials"), DecodeOAuthFlow);
    var authorization_code :- DecodeOpt(Field(f, "authorizationCode"), DecodeOAuthFlow);
    Ok(OAuthFlows(implicit, password, client_credentials, authorization_code))
  }

  function EncodeOAuthFlows(x: OAuthFlows): Value
  {
    Obj(ObjectOf(OAuthFlowsWireNames, [
      EncodeOpt(x.implicit, EncodeOAuthFlow),
      EncodeOpt(x.password, EncodeOAuthFlow),
      EncodeOpt(x.client_credentials, EncodeOAuthFlow),
      EncodeOpt(x.authorization_code, EncodeOAuthFlow)]))
  }

  function DecodeOAuthFlow(v: Value): Decoded<OAuthFlow>
  {
    if !v.Obj? then Err(InvalidType("struct OAuthFlow")) else
    var f := v.fields;
    var authorization_url :- DecodeOpt(Field(f, "authorizationUrl"), DecodeString);
    var token_url :- DecodeOpt(Field(f, "tokenUrl"), DecodeString);
    var refresh_url :- DecodeOpt(Field(f, "refreshUrl"), DecodeString);
    var scopes :- DecodeOptMap(Field(f, "scopes"), DecodeString);
    Ok(OAuthFlow(authorization_url, token_url, refresh_url, scopes))
  }

  function EncodeOAuthFlow(x: OAuthFlow): Value
  {
    Obj(ObjectOf(OAuthFlowWireNames, [
      EncodeOpt(x.authorization_url, EncodeString),
      EncodeOpt(x.token_url, EncodeString),
      EncodeOpt(x.refresh_url, EncodeString),
      EncodeOptMap(x.scopes, EncodeString)]))
  }

  function DecodeXML(v: Value): Decoded<XML>
  {
    if !v.Obj? then Err(InvalidType("struct XML")) else
    var f := v.fields;
    var name :- DecodeOpt(Field(f, "name"), DecodeString);
    var namespace :- DecodeOpt(Field(f, "namespace"), DecodeString);
    var prefix :- DecodeOpt(Field(f, "prefix"), DecodeString);
    var attribute :- DecodeOpt(Field(f, "attribute"), DecodeBool);
    var wrapped :- DecodeOpt(Field(f, "wrapped"), DecodeBool);
    Ok(XML(name, namespace, prefix, attribute, wrapped))
  }

  function EncodeXML(x: XML): Value
  {
    Obj(ObjectOf(XMLWireNames, [
      EncodeOpt(x.name, EncodeString),
      EncodeOpt(x.namespace, EncodeString),
      EncodeOpt(x.prefix, EncodeString),
      EncodeOpt(x.attribute, EncodeBool),
      EncodeOpt(x.wrapped, EncodeBool)]))
  }

  /** Schema's fields are checked in declaration order, in groups of six,
    * and the first that does not decode is the error. */
  function DecodeSchema(v: Value): Decoded<Schema>
    decreases v, 2
  {
    if !v.Obj? then Err(InvalidType("struct Schema")) else
    var f := v.fields;
    var part1 :- DecodeSchemaPart1(f);
    var part2 :- DecodeSchemaPart2(f);
    var part3 :- DecodeSchemaPart3(f);
    var part4 :- DecodeSchemaPart4(f);
    var part5 :- DecodeSchemaPart5(f);
    var part6 :- DecodeSchemaPart6(f);
    Ok(Schema(part1.0, part1.1, part1.2, part1.3, part1.4, part1.5, part2.0, part2.1, part2.2, part2.3, part2.4, part2.5, part3.0, part3.1, part3.2, part3.3, part3.4, part3.5, part4.0, part4.1, part4.2, part4.3, part4.4, part4.5, part5.0, part5.1, part5.2, part5.3, part5.4, part5.5, part6.0, part6.1, part6.2))
  }

  /** Schema's fields `title`, `multipleOf`, `maximum`, `exclusiveMaximum`, `minimum`, `exclusiveMinimum`. */
  function DecodeSchemaPart1(f: map<string, Value>): Decoded<(Option<string>, Option<Number>, Option<Number>, Option<bool>, Option<Number>, Option<bool>)>
    decreases Obj(f), 1
  {
    var title :- DecodeOpt(Field(f, "title"), DecodeString);
    var multiple_of :- DecodeOpt(Field(f, "multipleOf"), DecodeF64);
    var maximum :- DecodeOpt(Field(f, "maximum"), DecodeF64);
    var exclusive_maximum :- DecodeOpt(Field(f, "exclusiveMaximum"), DecodeBool);
    var minimum :- DecodeOpt(Field(f, "minimum"), DecodeF64);
    var exclusive_minimum :- DecodeOpt(Field(f, "exclusiveMinimum"), DecodeBool);
    Ok((title, multiple_of, maximum, exclusive_maximum, minimum, exclusive_minimum))
  }

  /** Schema's fields `maxLength`, `minLength`, `pattern`, `maxItems`, `minItems`, `uniqueItems`. */
  function DecodeSchemaPart2(f: map<string, Value>): Decoded<(Option<U32>, Option<U32>, Option<string>, Option<U32>, Option<U32>, Option<bool>)>
    decreases Obj(f), 1
  {
    var max_length :- DecodeOpt(Field(f, "maxLength"), DecodeU32);
    var min_length :- DecodeOpt(Field(f, "minLength"), DecodeU32);
    var pattern :- DecodeOpt(Field(f, "pattern"), DecodeString);
    var max_items :- DecodeOpt(Field(f, "maxItems"), DecodeU32);
    var min_items :- DecodeOpt(Field(f, "minItems"), DecodeU32);
    var unique_items :- DecodeOpt(Field(f, "uniqueItems"), DecodeBool);
    Ok((max_length, min_length, pattern, max_items, min_items, unique_items))
  }

  /** Schema's fields `maxProperties`, `minProperties`, `required`, `type`, `not`, `allOf`. */
  function DecodeSchemaPart3(f: map<string, Value>): Decoded<(Option<U32>, Option<U32>, Option<seq<string>>, Option<string>, Option<Schema>, SchemaList)>
    decreases Obj(f), 1
  {
    var max_properties :- DecodeOpt(Field(f, "maxProperties"), DecodeU32);
    var min_properties :- DecodeOpt(Field(f, "minProperties"), DecodeU32);
    var required :- DecodeOptList(Field(f, "required"), DecodeString);
    var type_ :- DecodeOpt(Field(f, "type"), DecodeString);
    var not :- DecodeSchemaAt(f, "not");
    var all_of :- DecodeSchemasAt(f, "allOf");
    Ok((max_properties, min_properties, required, type_, not, all_of))
  }

  /** Schema's fields `oneOf`, `anyOf`, `items`, `properties`, `additionalProperties`, `description`. */
  function DecodeSchemaPart4(f: map<string, Value>): Decoded<(SchemaList, SchemaList, Option<Schema>, SchemaMap, Option<Schema>, Option<string>)>
    decreases Obj(f), 1
  {
    var one_of :- DecodeSchemasAt(f, "oneOf");
    var any_of :- DecodeSchemasAt(f, "anyOf");
    var items :- DecodeSchemaAt(f, "items");
    var properties :- DecodePropertiesAt(f, "properties");
    var additional_properties :- DecodeSchemaAt(f, "additionalProperties");
    var description :- DecodeOpt(Field(f, "description"), DecodeString);
    Ok((one_of, any_of, items, properties, additional_properties, description))
  }

  /** Schema's fields `format`, `default`, `nullable`, `discriminator`, `readOnly`, `writeOnly`. */
  function DecodeSchemaPart5(f: map<string, Value>): Decoded<(Option<string>, Option<Value>, Option<bool>, Option<Discriminator>, Option<bool>, Option<bool>)>
    decreases Obj(f), 1
  {
    var format :- DecodeOpt(Field(f, "format"), DecodeString);
    var default :- DecodeOpt(Field(f, "default"), DecodeAny);
    var nullable :- DecodeOpt(Field(f, "nullable"), DecodeBool);
    var discriminator :- DecodeOpt(Field(f, "discriminator"), DecodeDiscriminator);
    var read_only :- DecodeOpt(Field(f, "readOnly"), DecodeBool);
    var write_only :- DecodeOpt(Field(f, "writeOnly"), DecodeBool);
    Ok((format, default, nullable, discriminator, read_only, write_only))
  }

  /** Schema's fields `xml`, `example`, `deprecated`. */
  function DecodeSchemaPart6(f: map<string, Value>): Decoded<(Option<XML>, Option<Value>, Option<bool>)>
    decreases Obj(f), 1
  {
    var xml :- DecodeOpt(Field(f, "xml"), DecodeXML);
    var example :- DecodeOpt(Field(f, "example"), DecodeAny);
    var deprecated :- DecodeOpt(Field(f, "deprecated"), DecodeBool);
    Ok((xml, example, deprecated))
  }

  /** `Option<Box<Schema>>`: the one Schema nested under `key`. */
  function DecodeSchemaAt(f: map<string, Value>, key: string): Decoded<Option<Schema>>
    decreases Obj(f), 0
  {
    var w := Field(f, key);
    if w.Null? then Ok(None)
    else
      assert w in f.Values;
      var s :- DecodeSchema(w);
      Ok(Some(s))
  }

  /** `Option<Vec<Schema>>`: the ordered Schemas under `key`. */
  function DecodeSchemasAt(f: map<string, Value>, key: string): Decoded<SchemaList>
    decreases Obj(f), 0
  {
    var w := Field(f, key);
    if w.Null? then Ok(NoSchemas)
    else if w.Arr? then
      assert w in f.Values;
      var list :- DecodeSchemaElems(w.elems);
      Ok(Schemas(list))
    else
      Err(InvalidType("a sequence"))
  }

  /** The elements of a Schema list, front to back, as `Vec` reads them. */
  function DecodeSchemaElems(s: seq<Value>): (r: Decoded<seq<Schema>>)
    ensures r.Ok? <==> forall i | 0 <= i < |s| :: DecodeSchema(s[i]).Ok?
    ensures r.Ok? ==> |r.value| == |s| && forall i | 0 <= i < |s| :: DecodeSchema(s[i]) == Ok(r.value[i])
    decreases s
  {
    if s == [] then Ok([])
    else
      var x :- DecodeSchema(s[0]);
      var rest :- DecodeSchemaElems(s[1..]);
      assert forall i | 1 <= i < |s| :: s[i] == s[1..][i - 1];
      Ok([x] + rest)
  }

  /** `Option<HashMap<String, Schema>>`: the named Schemas under `key`. */
  function DecodePropertiesAt(f: map<string, Value>, key: string): Decoded<SchemaMap>
    decreases Obj(f), 0
  {
    var w := Field(f, key);
    if w.Null? then Ok(NoProperties)
    else if w.Obj? then
      assert w in f.Values;
      var m := w.fields;
      if forall k | k in m :: (assert m[k] in m.Values; DecodeSchema(m[k]).Ok?) then
        Ok(Properties(map k | k in m :: (assert m[k] in m.Values; DecodeSchema(m[k]).value)))
      else
        var bad := set k | k in m && (assert m[k] in m.Values; DecodeSchema(m[k]).Err?);
        assert bad != {} by {
          var w :| w in m && !DecodeSchema(m[w]).Ok?;
          assert w in bad;
        }
        var k := LeastKey(bad);
        assert m[k] in m.Values;
        Err(DecodeSchema(m[k]).error)
    else
      Err(InvalidType("a map"))
  }

  function EncodeSchema(x: Schema): Value
    decreases x, 1
  {
    Obj(ObjectOf(SchemaWireNames, [
      EncodeOpt(x.title, EncodeString),
      EncodeOpt(x.multiple_of, EncodeF64),
      EncodeOpt(x.maximum, EncodeF64),
      EncodeOpt(x.exclusive_maximum, EncodeBool),
      EncodeOpt(x.minimum, EncodeF64),
      EncodeOpt(x.exclusive_minimum, EncodeBool),
      EncodeOpt(x.max_length, EncodeU32),
      EncodeOpt(x.min_length, EncodeU32),
      EncodeOpt(x.pattern, EncodeString),
      EncodeOpt(x.max_items, EncodeU32),
      EncodeOpt(x.min_items, EncodeU32),
      EncodeOpt(x.unique_items, EncodeBool),
      EncodeOpt(x.max_properties, EncodeU32),
      EncodeOpt(x.min_properties, EncodeU32),
      EncodeOptList(x.required, EncodeString),
      EncodeOpt(x.type_, EncodeString),
      EncodeSchemaOpt(x.not),
      EncodeSchemaList(x.all_of),
      EncodeSchemaList(x.one_of),
      EncodeSchemaList(x.any_of),
      EncodeSchemaOpt(x.items),
      EncodeSchemaMap(x.properties),
      EncodeSchemaOpt(x.additional_properties),
      EncodeOpt(x.description, EncodeString),
      EncodeOpt(x.format, EncodeString),
      EncodeOpt(x.default, EncodeAny),
      EncodeOpt(x.nullable, EncodeBool),
      EncodeOpt(x.discriminator, EncodeDiscriminator),
      EncodeOpt(x.read_only, EncodeBool),
      EncodeOpt(x.write_only, EncodeBool),
      EncodeOpt(x.xml, EncodeXML),
      EncodeOpt(x.example, EncodeAny),
      EncodeOpt(x.deprecated, EncodeBool)]))
  }

  function EncodeSchemaOpt(o: Option<Schema>): Value
    decreases o, 0
  {
    match o
    case None => Null
    case Some(s) => EncodeSchema(s)
  }

  function EncodeSchemaList(l: SchemaList): Value
    decreases l, 0
  {
    match l
    case NoSchemas => Null
    case Schemas(list) => Arr(seq(|list|, i requires 0 <= i < |list| => EncodeSchema(list[i])))
  }

  function EncodeSchemaMap(m: SchemaMap): Value
    decreases m, 0
  {
    match m
    case NoProperties => Null
    case Properties(entries) =>
      Obj(map k | k in entries :: (assert entries[k] in entries.Values; EncodeSchema(entries[k])))
  }

}
