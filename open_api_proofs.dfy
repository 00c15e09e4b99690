/**
 * What the decode/encode contract of the OpenAPI records guarantees: decoding
 * reads back what encoding writes (for every value the wire format can carry),
 * each record writes exactly its declared wire names and reads nothing else,
 * an object without any key decodes with every field absent, the reserved
 * identifiers travel under `in` and `type`, and the Responses object splits
 * its keys between `default` and the status-code map.
 */
module OpenApiProofs {
  import opened Wrappers
  import opened Wire
  import opened OpenApi

  // ---------------------------------------------------------------------
  // Values the wire format carries faithfully: no untyped payload is an
  // explicit null (serde reads a null back as an absent field), and every
  // Responses map is present and has no entry named `default`.
  // ---------------------------------------------------------------------

  ghost predicate CanonicalOpenApiSpec(x: OpenApiSpec)
  {
    && (x.paths.Some? ==> forall k | k in x.paths.value :: CanonicalPathItem(x.paths.value[k]))
    && (x.components.Some? ==> CanonicalComponents(x.components.value))
  }

  ghost predicate CanonicalPathItem(x: PathItem)
  {
    && (x.get.Some? ==> CanonicalOperation(x.get.value))
    && (x.post.Some? ==> CanonicalOperation(x.post.value))
    && (x.put.Some? ==> CanonicalOperation(x.put.value))
    && (x.delete.Some? ==> CanonicalOperation(x.delete.value))
    && (x.patch.Some? ==> CanonicalOperation(x.patch.value))
    && (x.options.Some? ==> CanonicalOperation(x.options.value))
    && (x.head.Some? ==> CanonicalOperation(x.head.value))
    && (x.trace.Some? ==> CanonicalOperation(x.trace.value))
  }

  ghost predicate CanonicalOperation(x: Operation)
  {
    && (x.parameters.Some? ==> forall i | 0 <= i < |x.parameters.value| :: CanonicalParameter(x.parameters.value[i]))
    && (x.request_body.Some? ==> CanonicalRequestBody(x.request_body.value))
    && (x.responses.Some? ==> CanonicalResponses(x.responses.value))
  }

  ghost predicate CanonicalParameter(x: Parameter)
  {
    && (x.schema.Some? ==> CanonicalSchema(x.schema.value))
    && x.example != Some(Null)
    && (x.examples.Some? ==> forall k | k in x.examples.value :: CanonicalExample(x.examples.value[k]))
  }

  ghost predicate CanonicalRequestBody(x: RequestBody)
  {
    && (x.content.Some? ==> forall k | k in x.content.value :: CanonicalMediaType(x.content.value[k]))
  }

  ghost predicate CanonicalMediaType(x: MediaType)
  {
    && (x.schema.Some? ==> CanonicalSchema(x.schema.value))
    && x.example != Some(Null)
    && (x.examples.Some? ==> forall k | k in x.examples.value :: CanonicalExample(x.examples.value[k]))
  }

  ghost predicate CanonicalResponses(x: Responses)
  {
    && x.responses.Some?
    && "default" !in x.responses.value
    && (forall k | k in x.responses.value :: CanonicalResponse(x.responses.value[k]))
    && (x.default.Some? ==> CanonicalResponse(x.default.value))
  }

  ghost predicate CanonicalResponse(x: Response)
  {
    && (x.content.Some? ==> forall k | k in x.content.value :: CanonicalMediaType(x.content.value[k]))
    && (x.headers.Some? ==> forall k | k in x.headers.value :: CanonicalHeader(x.headers.value[k]))
  }

  ghost predicate CanonicalHeader(x: Header)
  {
    && (x.schema.Some? ==> CanonicalSchema(x.schema.value))
    && x.example != Some(Null)
  }

  ghost predicate CanonicalComponents(x: Components)
  {
    && (x.schemas.Some? ==> forall k | k in x.schemas.value :: CanonicalSchema(x.schemas.value[k]))
    && (x.responses.Some? ==> forall k | k in x.responses.value :: CanonicalResponse(x.responses.value[k]))
    && (x.parameters.Some? ==> forall k | k in x.parameters.value :: CanonicalParameter(x.parameters.value[k]))
    && (x.examples.Some? ==> forall k | k in x.examples.value :: CanonicalExample(x.examples.value[k]))
    && (x.request_bodies.Some? ==> forall k | k in x.request_bodies.value :: CanonicalRequestBody(x.request_bodies.value[k]))
    && (x.headers.Some? ==> forall k | k in x.headers.value :: CanonicalHeader(x.headers.value[k]))
  }

  ghost predicate CanonicalExample(x: Example)
  {
    && x.value != Some(Null)
  }

  ghost predicate CanonicalSchema(x: Schema)
    decreases x, 1
  {
    && x.default != Some(Null)
    && x.example != Some(Null)
    && (x.not.Some? ==> CanonicalSchema(x.not.value))
    && (x.items.Some? ==> CanonicalSchema(x.items.value))
    && (x.additional_properties.Some? ==> CanonicalSchema(x.additional_properties.value))
    && CanonicalSchemaList(x.all_of)
    && CanonicalSchemaList(x.one_of)
    && CanonicalSchemaList(x.any_of)
    && CanonicalSchemaMap(x.properties)
  }

  ghost predicate CanonicalSchemaList(l: SchemaList)
    decreases l, 0
  {
    l.Schemas? ==> forall i | 0 <= i < |l.list| :: CanonicalSchema(l.list[i])
  }

  ghost predicate CanonicalSchemaMap(m: SchemaMap)
    decreases m, 0
  {
    m.Properties? ==>
      forall k | k in m.entries :: (assert m.entries[k] in m.entries.Values; CanonicalSchema(m.entries[k]))
  }

  // ---------------------------------------------------------------------
  // Round trips: Decode(Encode(x)) == Ok(x)
  // ---------------------------------------------------------------------

  lemma OpenApiSpecFieldsWritten(x: OpenApiSpec)
    ensures Field(EncodeOpenApiSpec(x).fields, "openapi") == EncodeOpt(x.openapi, EncodeString)
    ensures Field(EncodeOpenApiSpec(x).fields, "info") == EncodeOpt(x.info, EncodeInfo)
    ensures Field(EncodeOpenApiSpec(x).fields, "paths") == EncodeOptMap(x.paths, EncodePathItem)
    ensures Field(EncodeOpenApiSpec(x).fields, "components") == EncodeOpt(x.components, EncodeComponents)
    ensures Field(EncodeOpenApiSpec(x).fields, "servers") == EncodeOptList(x.servers, EncodeServer)
  {
    var values := [EncodeOpt(x.openapi, EncodeString), EncodeOpt(x.info, EncodeInfo), EncodeOptMap(x.paths, EncodePathItem), EncodeOpt(x.components, EncodeComponents), EncodeOptList(x.servers, EncodeServer)];
    ObjectOfLookup(OpenApiSpecWireNames, values, 0);
    ObjectOfLookup(OpenApiSpecWireNames, values, 1);
    ObjectOfLookup(OpenApiSpecWireNames, values, 2);
    ObjectOfLookup(OpenApiSpecWireNames, values, 3);
    ObjectOfLookup(OpenApiSpecWireNames, values, 4);
  }

  lemma OpenApiSpecDecodedFrom(f: map<string, Value>, x: OpenApiSpec)
    requires DecodeOpt(Field(f, "openapi"), DecodeString) == Ok(x.openapi)
    requires DecodeOpt(Field(f, "info"), DecodeInfo) == Ok(x.info)
    requires DecodeOptMap(Field(f, "paths"), DecodePathItem) == Ok(x.paths)
    requires DecodeOpt(Field(f, "components"), DecodeComponents) == Ok(x.components)
    requires DecodeOptList(Field(f, "servers"), DecodeServer) == Ok(x.servers)
    ensures DecodeOpenApiSpec(Obj(f)) == Ok(x)
  {
  }

  lemma {:induction false} OpenApiSpecRoundTrip(x: OpenApiSpec)
    requires CanonicalOpenApiSpec(x)
    ensures DecodeOpenApiSpec(EncodeOpenApiSpec(x)) == Ok(x)
  {
    var f := EncodeOpenApiSpec(x).fields;
    OpenApiSpecFieldsWritten(x);
    OptRoundTrip(x.openapi, EncodeString, DecodeString);
    if x.info.Some? { InfoRoundTrip(x.info.value); }
    OptRoundTrip(x.info, EncodeInfo, DecodeInfo);
    forall k | x.paths.Some? && k in x.paths.value ensures DecodePathItem(EncodePathItem(x.paths.value[k])) == Ok(x.paths.value[k]) {
      PathItemRoundTrip(x.paths.value[k]);
    }
    OptMapRoundTrip(x.paths, EncodePathItem, DecodePathItem);
    if x.components.Some? { ComponentsRoundTrip(x.components.value); }
    OptRoundTrip(x.components, EncodeComponents, DecodeComponents);
    forall i | x.servers.Some? && 0 <= i < |x.servers.value| ensures DecodeServer(EncodeServer(x.servers.value[i])) == Ok(x.servers.value[i]) {
      ServerRoundTrip(x.servers.value[i]);
    }
    OptListRoundTrip(x.servers, EncodeServer, DecodeServer);
    OpenApiSpecDecodedFrom(f, x);
  }

  lemma InfoFieldsWritten(x: Info)
    ensures Field(EncodeInfo(x).fields, "title") == EncodeOpt(x.title, EncodeString)
    ensures Field(EncodeInfo(x).fields, "description") == EncodeOpt(x.description, EncodeString)
    ensures Field(EncodeInfo(x).fields, "version") == EncodeOpt(x.version, EncodeString)
  {
    var values := [EncodeOpt(x.title, EncodeString), EncodeOpt(x.description, EncodeString), EncodeOpt(x.version, EncodeString)];
    ObjectOfLookup(InfoWireNames, values, 0);
    ObjectOfLookup(InfoWireNames, values, 1);
    ObjectOfLookup(InfoWireNames, values, 2);
  }

  lemma InfoDecodedFrom(f: map<string, Value>, x: Info)
    requires DecodeOpt(Field(f, "title"), DecodeString) == Ok(x.title)
    requires DecodeOpt(Field(f, "description"), DecodeString) == Ok(x.description)
    requires DecodeOpt(Field(f, "version"), DecodeString) == Ok(x.version)
    ensures DecodeInfo(Obj(f)) == Ok(x)
  {
  }

  lemma {:induction false} InfoRoundTrip(x: Info)
    ensures DecodeInfo(EncodeInfo(x)) == Ok(x)
  {
    var f := EncodeInfo(x).fields;
    InfoFieldsWritten(x);
    OptRoundTrip(x.title, EncodeString, DecodeString);
    OptRoundTrip(x.description, EncodeString, DecodeString);
    OptRoundTrip(x.version, EncodeString, DecodeString);
    InfoDecodedFrom(f, x);
  }

  lemma ServerFieldsWritten(x: Server)
    ensures Field(EncodeServer(x).fields, "url") == EncodeOpt(x.url, EncodeString)
    ensures Field(EncodeServer(x).fields, "description") == EncodeOpt(x.description, EncodeString)
  {
    var values := [EncodeOpt(x.url, EncodeString), EncodeOpt(x.description, EncodeString)];
    ObjectOfLookup(ServerWireNames, values, 0);
    ObjectOfLookup(ServerWireNames, values, 1);
  }

  lemma ServerDecodedFrom(f: map<string, Value>, x: Server)
    requires DecodeOpt(Field(f, "url"), DecodeString) == Ok(x.url)
    requires DecodeOpt(Field(f, "description"), DecodeString) == Ok(x.description)
    ensures DecodeServer(Obj(f)) == Ok(x)
  {
  }

  lemma {:induction false} ServerRoundTrip(x: Server)
    ensures DecodeServer(EncodeServer(x)) == Ok(x)
  {
    var f := EncodeServer(x).fields;
    ServerFieldsWritten(x);
    OptRoundTrip(x.url, EncodeString, DecodeString);
    OptRoundTrip(x.description, EncodeString, DecodeString);
    ServerDecodedFrom(f, x);
  }

  lemma PathItemFieldsWritten(x: PathItem)
    ensures Field(EncodePathItem(x).fields, "get") == EncodeOpt(x.get, EncodeOperation)
    ensures Field(EncodePathItem(x).fields, "post") == EncodeOpt(x.post, EncodeOperation)
    ensures Field(EncodePathItem(x).fields, "put") == EncodeOpt(x.put, EncodeOperation)
    ensures Field(EncodePathItem(x).fields, "delete") == EncodeOpt(x.delete, EncodeOperation)
    ensures Field(EncodePathItem(x).fields, "patch") == EncodeOpt(x.patch, EncodeOperation)
    ensures Field(EncodePathItem(x).fields, "options") == EncodeOpt(x.options, EncodeOperation)
    ensures Field(EncodePathItem(x).fields, "head") == EncodeOpt(x.head, EncodeOperation)
    ensures Field(EncodePathItem(x).fields, "trace") == EncodeOpt(x.trace, EncodeOperation)
  {
    var values := [EncodeOpt(x.get, EncodeOperation), EncodeOpt(x.post, EncodeOperation), EncodeOpt(x.put, EncodeOperation), EncodeOpt(x.delete, EncodeOperation), EncodeOpt(x.patch, EncodeOperation), EncodeOpt(x.options, EncodeOperation), EncodeOpt(x.head, EncodeOperation), EncodeOpt(x.trace, EncodeOperation)];
    ObjectOfLookup(PathItemWireNames, values, 0);
    ObjectOfLookup(PathItemWireNames, values, 1);
    ObjectOfLookup(PathItemWireNames, values, 2);
    ObjectOfLookup(PathItemWireNames, values, 3);
    ObjectOfLookup(PathItemWireNames, values, 4);
    ObjectOfLookup(PathItemWireNames, values, 5);
    ObjectOfLookup(PathItemWireNames, values, 6);
    ObjectOfLookup(PathItemWireNames, values, 7);
  }

  lemma PathItemDecodedFrom(f: map<string, Value>, x: PathItem)
    requires DecodeOpt(Field(f, "get"), DecodeOperation) == Ok(x.get)
    requires DecodeOpt(Field(f, "post"), DecodeOperation) == Ok(x.post)
    requires DecodeOpt(Field(f, "put"), DecodeOperation) == Ok(x.put)
    requires DecodeOpt(Field(f, "delete"), DecodeOperation) == Ok(x.delete)
    requires DecodeOpt(Field(f, "patch"), DecodeOperation) == Ok(x.patch)
    requires DecodeOpt(Field(f, "options"), DecodeOperation) == Ok(x.options)
    requires DecodeOpt(Field(f, "head"), DecodeOperation) == Ok(x.head)
    requires DecodeOpt(Field(f, "trace"), DecodeOperation) == Ok(x.trace)
    ensures DecodePathItem(Obj(f)) == Ok(x)
  {
  }

  lemma {:induction false} PathItemRoundTrip(x: PathItem)
    requires CanonicalPathItem(x)
    ensures DecodePathItem(EncodePathItem(x)) == Ok(x)
  {
    var f := EncodePathItem(x).fields;
    PathItemFieldsWritten(x);
    if x.get.Some? { OperationRoundTrip(x.get.value); }
    OptRoundTrip(x.get, EncodeOperation, DecodeOperation);
    if x.post.Some? { OperationRoundTrip(x.post.value); }
    OptRoundTrip(x.post, EncodeOperation, DecodeOperation);
    if x.put.Some? { OperationRoundTrip(x.put.value); }
    OptRoundTrip(x.put, EncodeOperation, DecodeOperation);
    if x.delete.Some? { OperationRoundTrip(x.delete.value); }
    OptRoundTrip(x.delete, EncodeOperation, DecodeOperation);
    if x.patch.Some? { OperationRoundTrip(x.patch.value); }
    OptRoundTrip(x.patch, EncodeOperation, DecodeOperation);
    if x.options.Some? { OperationRoundTrip(x.options.value); }
    OptRoundTrip(x.options, EncodeOperation, DecodeOperation);
    if x.head.Some? { OperationRoundTrip(x.head.value); }
    OptRoundTrip(x.head, EncodeOperation, DecodeOperation);
    if x.trace.Some? { OperationRoundTrip(x.trace.value); }
    OptRoundTrip(x.trace, EncodeOperation, DecodeOperation);
    PathItemDecodedFrom(f, x);
  }

  lemma OperationFieldsWritten(x: Operation)
    ensures Field(EncodeOperation(x).fields, "tags") == EncodeOptList(x.tags, EncodeString)
    ensures Field(EncodeOperation(x).fields, "summary") == EncodeOpt(x.summary, EncodeString)
    ensures Field(EncodeOperation(x).fields, "description") == EncodeOpt(x.description, EncodeString)
    ensures Field(EncodeOperation(x).fields, "operationId") == EncodeOpt(x.operation_id, EncodeString)
    ensures Field(EncodeOperation(x).fields, "parameters") == EncodeOptList(x.parameters, EncodeParameter)
    ensures Field(EncodeOperation(x).fields, "requestBody") == EncodeOpt(x.request_body, EncodeRequestBody)
    ensures Field(EncodeOperation(x).fields, "responses") == EncodeOpt(x.responses, EncodeResponses)
  {
    var values := [EncodeOptList(x.tags, EncodeString), EncodeOpt(x.summary, EncodeString), EncodeOpt(x.description, EncodeString), EncodeOpt(x.operation_id, EncodeString), EncodeOptList(x.parameters, EncodeParameter), EncodeOpt(x.request_body, EncodeRequestBody), EncodeOpt(x.responses, EncodeResponses)];
    ObjectOfLookup(OperationWireNames, values, 0);
    ObjectOfLookup(OperationWireNames, values, 1);
    ObjectOfLookup(OperationWireNames, values, 2);
    ObjectOfLookup(OperationWireNames, values, 3);
    ObjectOfLookup(OperationWireNames, values, 4);
    ObjectOfLookup(OperationWireNames, values, 5);
    ObjectOfLookup(OperationWireNames, values, 6);
  }

  lemma OperationDecodedFrom(f: map<string, Value>, x: Operation)
    requires DecodeOptList(Field(f, "tags"), DecodeString) == Ok(x.tags)
    requires DecodeOpt(Field(f, "summary"), DecodeString) == Ok(x.summary)
    requires DecodeOpt(Field(f, "description"), DecodeString) == Ok(x.description)
    requires DecodeOpt(Field(f, "operationId"), DecodeString) == Ok(x.operation_id)
    requires DecodeOptList(Field(f, "parameters"), DecodeParameter) == Ok(x.parameters)
    requires DecodeOpt(Field(f, "requestBody"), DecodeRequestBody) == Ok(x.request_body)
    requires DecodeOpt(Field(f, "responses"), DecodeResponses) == Ok(x.responses)
    ensures DecodeOperation(Obj(f)) == Ok(x)
  {
  }

  lemma {:induction false} OperationRoundTrip(x: Operation)
    requires CanonicalOperation(x)
    ensures DecodeOperation(EncodeOperation(x)) == Ok(x)
  {
    var f := EncodeOperation(x).fields;
    OperationFieldsWritten(x);
    OptListRoundTrip(x.tags, EncodeString, DecodeString);
    OptRoundTrip(x.summary, EncodeString, DecodeString);
    OptRoundTrip(x.description, EncodeString, DecodeString);
    OptRoundTrip(x.operation_id, EncodeString, DecodeString);
    forall i | x.parameters.Some? && 0 <= i < |x.parameters.value| ensures DecodeParameter(EncodeParameter(x.parameters.value[i])) == Ok(x.parameters.value[i]) {
      ParameterRoundTrip(x.parameters.value[i]);
    }
    OptListRoundTrip(x.parameters, EncodeParameter, DecodeParameter);
    if x.request_body.Some? { RequestBodyRoundTrip(x.request_body.value); }
    OptRoundTrip(x.request_body, EncodeRequestBody, DecodeRequestBody);
    if x.responses.Some? { ResponsesRoundTrip(x.responses.value); }
    OptRoundTrip(x.responses, EncodeResponses, DecodeResponses);
    OperationDecodedFrom(f, x);
  }

  lemma ParameterFieldsWritten(x: Parameter)
    ensures Field(EncodeParameter(x).fields, "name") == EncodeOpt(x.name, EncodeString)
    ensures Field(EncodeParameter(x).fields, "in") == EncodeOpt(x.in_, EncodeString)
    ensures Field(EncodeParameter(x).fields, "required") == EncodeOpt(x.required, EncodeBool)
    ensures Field(EncodeParameter(x).fields, "schema") == EncodeOpt(x.schema, EncodeSchema)
    ensures Field(EncodeParameter(x).fields, "description") == EncodeOpt(x.description, EncodeString)
    ensures Field(EncodeParameter(x).fields, "example") == EncodeOpt(x.example, EncodeAny)
    ensures Field(EncodeParameter(x).fields, "examples") == EncodeOptMap(x.examples, EncodeExample)
  {
    var values := [EncodeOpt(x.name, EncodeString), EncodeOpt(x.in_, EncodeString), EncodeOpt(x.required, EncodeBool), EncodeOpt(x.schema, EncodeSchema), EncodeOpt(x.description, EncodeString), EncodeOpt(x.example, EncodeAny), EncodeOptMap(x.examples, EncodeExample)];
    ObjectOfLookup(ParameterWireNames, values, 0);
    ObjectOfLookup(ParameterWireNames, values, 1);
    ObjectOfLookup(ParameterWireNames, values, 2);
    ObjectOfLookup(ParameterWireNames, values, 3);
    ObjectOfLookup(ParameterWireNames, values, 4);
    ObjectOfLookup(ParameterWireNames, values, 5);
    ObjectOfLookup(ParameterWireNames, values, 6);
  }

  lemma ParameterDecodedFrom(f: map<string, Value>, x: Parameter)
    requires DecodeOpt(Field(f, "name"), DecodeString) == Ok(x.name)
    requires DecodeOpt(Field(f, "in"), DecodeString) == Ok(x.in_)
    requires DecodeOpt(Field(f, "required"), DecodeBool) == Ok(x.required)
    requires DecodeOpt(Field(f, "schema"), DecodeSchema) == Ok(x.schema)
    requires DecodeOpt(Field(f, "description"), DecodeString) == Ok(x.description)
    requires DecodeOpt(Field(f, "example"), DecodeAny) == Ok(x.example)
    requires DecodeOptMap(Field(f, "examples"), DecodeExample) == Ok(x.examples)
    ensures DecodeParameter(Obj(f)) == Ok(x)
  {
  }

  lemma {:induction false} ParameterRoundTrip(x: Parameter)
    requires CanonicalParameter(x)
    ensures DecodeParameter(EncodeParameter(x)) == Ok(x)
  {
    var f := EncodeParameter(x).fields;
    ParameterFieldsWritten(x);
    OptRoundTrip(x.name, EncodeString, DecodeString);
    OptRoundTrip(x.in_, EncodeString, DecodeString);
    OptRoundTrip(x.required, EncodeBool, DecodeBool);
    if x.schema.Some? { SchemaRoundTrip(x.schema.value); }
    OptRoundTrip(x.schema, EncodeSchema, DecodeSchema);
    OptRoundTrip(x.description, EncodeString, DecodeString);
    OptRoundTrip(x.example, EncodeAny, DecodeAny);
    forall k | x.examples.Some? && k in x.examples.value ensures DecodeExample(EncodeExample(x.examples.value[k])) == Ok(x.examples.value[k]) {
      ExampleRoundTrip(x.examples.value[k]);
    }
    OptMapRoundTrip(x.examples, EncodeExample, DecodeExample);
    ParameterDecodedFrom(f, x);
  }

  lemma RequestBodyFieldsWritten(x: RequestBody)
    ensures Field(EncodeRequestBody(x).fields, "content") == EncodeOptMap(x.content, EncodeMediaType)
    ensures Field(EncodeRequestBody(x).fields, "description") == EncodeOpt(x.description, EncodeString)
    ensures Field(EncodeRequestBody(x).fields, "required") == EncodeOpt(x.required, EncodeBool)
  {
    var values := [EncodeOptMap(x.content, EncodeMediaType), EncodeOpt(x.description, EncodeString), EncodeOpt(x.required, EncodeBool)];
    ObjectOfLookup(RequestBodyWireNames, values, 0);
    ObjectOfLookup(RequestBodyWireNames, values, 1);
    ObjectOfLookup(RequestBodyWireNames, values, 2);
  }

  lemma RequestBodyDecodedFrom(f: map<string, Value>, x: RequestBody)
    requires DecodeOptMap(Field(f, "content"), DecodeMediaType) == Ok(x.content)
    requires DecodeOpt(Field(f, "description"), DecodeString) == Ok(x.description)
    requires DecodeOpt(Field(f, "required"), DecodeBool) == Ok(x.required)
    ensures DecodeRequestBody(Obj(f)) == Ok(x)
  {
  }

  lemma {:induction false} RequestBodyRoundTrip(x: RequestBody)
    requires CanonicalRequestBody(x)
    ensures DecodeRequestBody(EncodeRequestBody(x)) == Ok(x)
  {
    var f := EncodeRequestBody(x).fields;
    RequestBodyFieldsWritten(x);
    forall k | x.content.Some? && k in x.content.value ensures DecodeMediaType(EncodeMediaType(x.content.value[k])) == Ok(x.content.value[k]) {
      MediaTypeRoundTrip(x.content.value[k]);
    }
    OptMapRoundTrip(x.content, EncodeMediaType, DecodeMediaType);
    OptRoundTrip(x.description, EncodeString, DecodeString);
    OptRoundTrip(x.required, EncodeBool, DecodeBool);
    RequestBodyDecodedFrom(f, x);
  }

  lemma MediaTypeFieldsWritten(x: MediaType)
    ensures Field(EncodeMediaType(x).fields, "schema") == EncodeOpt(x.schema, EncodeSchema)
    ensures Field(EncodeMediaType(x).fields, "example") == EncodeOpt(x.example, EncodeAny)
    ensures Field(EncodeMediaType(x).fields, "examples") == EncodeOptMap(x.examples, EncodeExample)
  {
    var values := [EncodeOpt(x.schema, EncodeSchema), EncodeOpt(x.example, EncodeAny), EncodeOptMap(x.examples, EncodeExample)];
    ObjectOfLookup(MediaTypeWireNames, values, 0);
    ObjectOfLookup(MediaTypeWireNames, values, 1);
    ObjectOfLookup(MediaTypeWireNames, values, 2);
  }

  lemma MediaTypeDecodedFrom(f: map<string, Value>, x: MediaType)
    requires DecodeOpt(Field(f, "schema"), DecodeSchema) == Ok(x.schema)
    requires DecodeOpt(Field(f, "example"), DecodeAny) == Ok(x.example)
    requires DecodeOptMap(Field(f, "examples"), DecodeExample) == Ok(x.examples)
    ensures DecodeMediaType(Obj(f)) == Ok(x)
  {
  }

  lemma {:induction false} MediaTypeRoundTrip(x: MediaType)
    requires CanonicalMediaType(x)
    ensures DecodeMediaType(EncodeMediaType(x)) == Ok(x)
  {
    var f := EncodeMediaType(x).fields;
    MediaTypeFieldsWritten(x);
    if x.schema.Some? { SchemaRoundTrip(x.schema.value); }
    OptRoundTrip(x.schema, EncodeSchema, DecodeSchema);
    OptRoundTrip(x.example, EncodeAny, DecodeAny);
    forall k | x.examples.Some? && k in x.examples.value ensures DecodeExample(EncodeExample(x.examples.value[k])) == Ok(x.examples.value[k]) {
      ExampleRoundTrip(x.examples.value[k]);
    }
    OptMapRoundTrip(x.examples, EncodeExample, DecodeExample);
    MediaTypeDecodedFrom(f, x);
  }

  lemma {:induction false} ResponsesRoundTrip(x: Responses)
    requires CanonicalResponses(x)
    ensures DecodeResponses(EncodeResponses(x)) == Ok(x)
  {
    var m := x.responses.value;
    var f := EncodeResponses(x).fields;
    assert Field(f, "default") == EncodeOpt(x.default, EncodeResponse);
    if x.default.Some? { ResponseRoundTrip(x.default.value); }
    OptRoundTrip(x.default, EncodeResponse, DecodeResponse);
    var statusCodes := f - {"default"};
    assert statusCodes == EncodeMap(m, EncodeResponse).fields;
    forall k | k in m ensures DecodeResponse(EncodeResponse(m[k])) == Ok(m[k]) {
      ResponseRoundTrip(m[k]);
    }
    MapRoundTrip(m, EncodeResponse, DecodeResponse);
  }

  lemma ResponseFieldsWritten(x: Response)
    ensures Field(EncodeResponse(x).fields, "description") == EncodeOpt(x.description, EncodeString)
    ensures Field(EncodeResponse(x).fields, "content") == EncodeOptMap(x.content, EncodeMediaType)
    ensures Field(EncodeResponse(x).fields, "headers") == EncodeOptMap(x.headers, EncodeHeader)
  {
    var values := [EncodeOpt(x.description, EncodeString), EncodeOptMap(x.content, EncodeMediaType), EncodeOptMap(x.headers, EncodeHeader)];
    ObjectOfLookup(ResponseWireNames, values, 0);
    ObjectOfLookup(ResponseWireNames, values, 1);
    ObjectOfLookup(ResponseWireNames, values, 2);
  }

  lemma ResponseDecodedFrom(f: map<string, Value>, x: Response)
    requires DecodeOpt(Field(f, "description"), DecodeString) == Ok(x.description)
    requires DecodeOptMap(Field(f, "content"), DecodeMediaType) == Ok(x.content)
    requires DecodeOptMap(Field(f, "headers"), DecodeHeader) == Ok(x.headers)
    ensures DecodeResponse(Obj(f)) == Ok(x)
  {
  }

  lemma {:induction false} ResponseRoundTrip(x: Response)
    requires CanonicalResponse(x)
    ensures DecodeResponse(EncodeResponse(x)) == Ok(x)
  {
    var f := EncodeResponse(x).fields;
    ResponseFieldsWritten(x);
    OptRoundTrip(x.description, EncodeString, DecodeString);
    forall k | x.content.Some? && k in x.content.value ensures DecodeMediaType(EncodeMediaType(x.content.value[k])) == Ok(x.content.value[k]) {
      MediaTypeRoundTrip(x.content.value[k]);
    }
    OptMapRoundTrip(x.content, EncodeMediaType, DecodeMediaType);
    forall k | x.headers.Some? && k in x.headers.value ensures DecodeHeader(EncodeHeader(x.headers.value[k])) == Ok(x.headers.value[k]) {
      HeaderRoundTrip(x.headers.value[k]);
    }
    OptMapRoundTrip(x.headers, EncodeHeader, DecodeHeader);
    ResponseDecodedFrom(f, x);
  }

  lemma HeaderFieldsWritten(x: Header)
    ensures Field(EncodeHeader(x).fields, "description") == EncodeOpt(x.description, EncodeString)
    ensures Field(EncodeHeader(x).fields, "schema") == EncodeOpt(x.schema, EncodeSchema)
    ensures Field(EncodeHeader(x).fields, "example") == EncodeOpt(x.example, EncodeAny)
  {
    var values := [EncodeOpt(x.description, EncodeString), EncodeOpt(x.schema, EncodeSchema), EncodeOpt(x.example, EncodeAny)];
    ObjectOfLookup(HeaderWireNames, values, 0);
    ObjectOfLookup(HeaderWireNames, values, 1);
    ObjectOfLookup(HeaderWireNames, values, 2);
  }

  lemma HeaderDecodedFrom(f: map<string, Value>, x: Header)
    requires DecodeOpt(Field(f, "description"), DecodeString) == Ok(x.description)
    requires DecodeOpt(Field(f, "schema"), DecodeSchema) == Ok(x.schema)
    requires DecodeOpt(Field(f, "example"), DecodeAny) == Ok(x.example)
    ensures DecodeHeader(Obj(f)) == Ok(x)
  {
  }

  lemma {:induction false} HeaderRoundTrip(x: Header)
    requires CanonicalHeader(x)
    ensures DecodeHeader(EncodeHeader(x)) == Ok(x)
  {
    var f := EncodeHeader(x).fields;
    HeaderFieldsWritten(x);
    OptRoundTrip(x.description, EncodeString, DecodeString);
    if x.schema.Some? { SchemaRoundTrip(x.schema.value); }
    OptRoundTrip(x.schema, EncodeSchema, DecodeSchema);
    OptRoundTrip(x.example, EncodeAny, DecodeAny);
    HeaderDecodedFrom(f, x);
  }

  lemma ComponentsFieldsWritten(x: Components)
    ensures Field(EncodeComponents(x).fields, "schemas") == EncodeOptMap(x.schemas, EncodeSchema)
    ensures Field(EncodeComponents(x).fields, "responses") == EncodeOptMap(x.responses, EncodeResponse)
    ensures Field(EncodeComponents(x).fields, "parameters") == EncodeOptMap(x.parameters, EncodeParameter)
    ensures Field(EncodeComponents(x).fields, "examples") == EncodeOptMap(x.examples, EncodeExample)
    ensures Field(EncodeComponents(x).fields, "requestBodies") == EncodeOptMap(x.request_bodies, EncodeRequestBody)
    ensures Field(EncodeComponents(x).fields, "headers") == EncodeOptMap(x.headers, EncodeHeader)
    ensures Field(EncodeComponents(x).fields, "securitySchemes") == EncodeOptMap(x.security_schemes, EncodeSecurityScheme)
  {
    var values := [EncodeOptMap(x.schemas, EncodeSchema), EncodeOptMap(x.responses, EncodeResponse), EncodeOptMap(x.parameters, EncodeParameter), EncodeOptMap(x.examples, EncodeExample), EncodeOptMap(x.request_bodies, EncodeRequestBody), EncodeOptMap(x.headers, EncodeHeader), EncodeOptMap(x.security_schemes, EncodeSecurityScheme)];
    ObjectOfLookup(ComponentsWireNames, values, 0);
    ObjectOfLookup(ComponentsWireNames, values, 1);
    ObjectOfLookup(ComponentsWireNames, values, 2);
    ObjectOfLookup(ComponentsWireNames, values, 3);
    ObjectOfLookup(ComponentsWireNames, values, 4);
    ObjectOfLookup(ComponentsWireNames, values, 5);
    ObjectOfLookup(ComponentsWireNames, values, 6);
  }

  lemma ComponentsDecodedFrom(f: map<string, Value>, x: Components)
    requires DecodeOptMap(Field(f, "schemas"), DecodeSchema) == Ok(x.schemas)
    requires DecodeOptMap(Field(f, "responses"), DecodeResponse) == Ok(x.responses)
    requires DecodeOptMap(Field(f, "parameters"), DecodeParameter) == Ok(x.parameters)
    requires DecodeOptMap(Field(f, "examples"), DecodeExample) == Ok(x.examples)
    requires DecodeOptMap(Field(f, "requestBodies"), DecodeRequestBody) == Ok(x.request_bodies)
    requires DecodeOptMap(Field(f, "headers"), DecodeHeader) == Ok(x.headers)
    requires DecodeOptMap(Field(f, "securitySchemes"), DecodeSecurityScheme) == Ok(x.security_schemes)
    ensures DecodeComponents(Obj(f)) == Ok(x)
  {
  }

  lemma {:induction false} ComponentsRoundTrip(x: Components)
    requires CanonicalComponents(x)
    ensures DecodeComponents(EncodeComponents(x)) == Ok(x)
  {
    var f := EncodeComponents(x).fields;
    ComponentsFieldsWritten(x);
    forall k | x.schemas.Some? && k in x.schemas.value ensures DecodeSchema(EncodeSchema(x.schemas.value[k])) == Ok(x.schemas.value[k]) {
      SchemaRoundTrip(x.schemas.value[k]);
    }
    OptMapRoundTrip(x.schemas, EncodeSchema, DecodeSchema);
    forall k | x.responses.Some? && k in x.responses.value ensures DecodeResponse(EncodeResponse(x.responses.value[k])) == Ok(x.responses.value[k]) {
      ResponseRoundTrip(x.responses.value[k]);
    }
    OptMapRoundTrip(x.responses, EncodeResponse, DecodeResponse);
    forall k | x.parameters.Some? && k in x.parameters.value ensures DecodeParameter(EncodeParameter(x.parameters.value[k])) == Ok(x.parameters.value[k]) {
      ParameterRoundTrip(x.parameters.value[k]);
    }
    OptMapRoundTrip(x.parameters, EncodeParameter, DecodeParameter);
    forall k | x.examples.Some? && k in x.examples.value ensures DecodeExample(EncodeExample(x.examples.value[k])) == Ok(x.examples.value[k]) {
      ExampleRoundTrip(x.examples.value[k]);
    }
    OptMapRoundTrip(x.examples, EncodeExample, DecodeExample);
    forall k | x.request_bodies.Some? && k in x.request_bodies.value ensures DecodeRequestBody(EncodeRequestBody(x.request_bodies.value[k])) == Ok(x.request_bodies.value[k]) {
      RequestBodyRoundTrip(x.request_bodies.value[k]);
    }
    OptMapRoundTrip(x.request_bodies, EncodeRequestBody, DecodeRequestBody);
    forall k | x.headers.Some? && k in x.headers.value ensures DecodeHeader(EncodeHeader(x.headers.value[k])) == Ok(x.headers.value[k]) {
      HeaderRoundTrip(x.headers.value[k]);
    }
    OptMapRoundTrip(x.headers, EncodeHeader, DecodeHeader);
    forall k | x.security_schemes.Some? && k in x.security_schemes.value ensures DecodeSecurityScheme(EncodeSecurityScheme(x.security_schemes.value[k])) == Ok(x.security_schemes.value[k]) {
      SecuritySchemeRoundTrip(x.security_schemes.value[k]);
    }
    OptMapRoundTrip(x.security_schemes, EncodeSecurityScheme, DecodeSecurityScheme);
    ComponentsDecodedFrom(f, x);
  }

  lemma ExampleFieldsWritten(x: Example)
    ensures Field(EncodeExample(x).fields, "summary") == EncodeOpt(x.summary, EncodeString)
    ensures Field(EncodeExample(x).fields, "description") == EncodeOpt(x.description, EncodeString)
    ensures Field(EncodeExample(x).fields, "value") == EncodeOpt(x.value, EncodeAny)
    ensures Field(EncodeExample(x).fields, "externalValue") == EncodeOpt(x.external_value, EncodeString)
  {
    var values := [EncodeOpt(x.summary, EncodeString), EncodeOpt(x.description, EncodeString), EncodeOpt(x.value, EncodeAny), EncodeOpt(x.external_value, EncodeString)];
    ObjectOfLookup(ExampleWireNames, values, 0);
    ObjectOfLookup(ExampleWireNames, values, 1);
    ObjectOfLookup(ExampleWireNames, values, 2);
    ObjectOfLookup(ExampleWireNames, values, 3);
  }

  lemma ExampleDecodedFrom(f: map<string, Value>, x: Example)
    requires DecodeOpt(Field(f, "summary"), DecodeString) == Ok(x.summary)
    requires DecodeOpt(Field(f, "description"), DecodeString) == Ok(x.description)
    requires DecodeOpt(Field(f, "value"), DecodeAny) == Ok(x.value)
    requires DecodeOpt(Field(f, "externalValue"), DecodeString) == Ok(x.external_value)
    ensures DecodeExample(Obj(f)) == Ok(x)
  {
  }

  lemma {:induction false} ExampleRoundTrip(x: Example)
    requires CanonicalExample(x)
    ensures DecodeExample(EncodeExample(x)) == Ok(x)
  {
    var f := EncodeExample(x).fields;
    ExampleFieldsWritten(x);
    OptRoundTrip(x.summary, EncodeString, DecodeString);
    OptRoundTrip(x.description, EncodeString, DecodeString);
    OptRoundTrip(x.value, EncodeAny, DecodeAny);
    OptRoundTrip(x.external_value, EncodeString, DecodeString);
    ExampleDecodedFrom(f, x);
  }

  lemma DiscriminatorFieldsWritten(x: Discriminator)
    ensures Field(EncodeDiscriminator(x).fields, "propertyName") == EncodeOpt(x.property_name, EncodeString)
    ensures Field(EncodeDiscriminator(x).fields, "mapping") == EncodeOptMap(x.mapping, EncodeString)
  {
    var values := [EncodeOpt(x.property_name, EncodeString), EncodeOptMap(x.mapping, EncodeString)];
    ObjectOfLookup(DiscriminatorWireNames, values, 0);
    ObjectOfLookup(DiscriminatorWireNames, values, 1);
  }

  lemma DiscriminatorDecodedFrom(f: map<string, Value>, x: Discriminator)
    requires DecodeOpt(Field(f, "propertyName"), DecodeString) == Ok(x.property_name)
    requires DecodeOptMap(Field(f, "mapping"), DecodeString) == Ok(x.mapping)
    ensures DecodeDiscriminator(Obj(f)) == Ok(x)
  {
  }

  lemma {:induction false} DiscriminatorRoundTrip(x: Discriminator)
    ensures DecodeDiscriminator(EncodeDiscriminator(x)) == Ok(x)
  {
    var f := EncodeDiscriminator(x).fields;
    DiscriminatorFieldsWritten(x);
    OptRoundTrip(x.property_name, EncodeString, DecodeString);
    OptMapRoundTrip(x.mapping, EncodeString, DecodeString);
    DiscriminatorDecodedFrom(f, x);
  }

  lemma SecuritySchemeFieldsWritten(x: SecurityScheme)
    ensures Field(EncodeSecurityScheme(x).fields, "type") == EncodeOpt(x.type_, EncodeString)
    ensures Field(EncodeSecurityScheme(x).fields, "description") == EncodeOpt(x.description, EncodeString)
    ensures Field(EncodeSecurityScheme(x).fields, "name") == EncodeOpt(x.name, EncodeString)
    ensures Field(EncodeSecurityScheme(x).fields, "in") == EncodeOpt(x.in_, EncodeString)
    ensures Field(EncodeSecurityScheme(x).fields, "scheme") == EncodeOpt(x.scheme, EncodeString)
    ensures Field(EncodeSecurityScheme(x).fields, "bearerFormat") == EncodeOpt(x.bearer_format, EncodeString)
    ensures Field(EncodeSecurityScheme(x).fields, "flows") == EncodeOpt(x.flows, EncodeOAuthFlows)
    ensures Field(EncodeSecurityScheme(x).fields, "openIdConnectUrl") == EncodeOpt(x.open_id_connect_url, EncodeString)
  {
    var values := [EncodeOpt(x.type_, EncodeString), EncodeOpt(x.description, EncodeString), EncodeOpt(x.name, EncodeString), EncodeOpt(x.in_, EncodeString), EncodeOpt(x.scheme, EncodeString), EncodeOpt(x.bearer_format, EncodeString), EncodeOpt(x.flows, EncodeOAuthFlows), EncodeOpt(x.open_id_connect_url, EncodeString)];
    ObjectOfLookup(SecuritySchemeWireNames, values, 0);
    ObjectOfLookup(SecuritySchemeWireNames, values, 1);
    ObjectOfLookup(SecuritySchemeWireNames, values, 2);
    ObjectOfLookup(SecuritySchemeWireNames, values, 3);
    ObjectOfLookup(SecuritySchemeWireNames, values, 4);
    ObjectOfLookup(SecuritySchemeWireNames, values, 5);
    ObjectOfLookup(SecuritySchemeWireNames, values, 6);
    ObjectOfLookup(SecuritySchemeWireNames, values, 7);
  }

  lemma SecuritySchemeDecodedFrom(f: map<string, Value>, x: SecurityScheme)
    requires DecodeOpt(Field(f, "type"), DecodeString) == Ok(x.type_)
    requires DecodeOpt(Field(f, "description"), DecodeString) == Ok(x.description)
    requires DecodeOpt(Field(f, "name"), DecodeString) == Ok(x.name)
    requires DecodeOpt(Field(f, "in"), DecodeString) == Ok(x.in_)
    requires DecodeOpt(Field(f, "scheme"), DecodeString) == Ok(x.scheme)
    requires DecodeOpt(Field(f, "bearerFormat"), DecodeString) == Ok(x.bearer_format)
    requires DecodeOpt(Field(f, "flows"), DecodeOAuthFlows) == Ok(x.flows)
    requires DecodeOpt(Field(f, "openIdConnectUrl"), DecodeString) == Ok(x.open_id_connect_url)
    ensures DecodeSecurityScheme(Obj(f)) == Ok(x)
  {
  }

  lemma {:induction false} SecuritySchemeRoundTrip(x: SecurityScheme)
    ensures DecodeSecurityScheme(EncodeSecurityScheme(x)) == Ok(x)
  {
    var f := EncodeSecurityScheme(x).fields;
    SecuritySchemeFieldsWritten(x);
    OptRoundTrip(x.type_, EncodeString, DecodeString);
    OptRoundTrip(x.description, EncodeString, DecodeString);
    OptRoundTrip(x.name, EncodeString, DecodeString);
    OptRoundTrip(x.in_, EncodeString, DecodeString);
    OptRoundTrip(x.scheme, EncodeString, DecodeString);
    OptRoundTrip(x.bearer_format, EncodeString, DecodeString);
    if x.flows.Some? { OAuthFlowsRoundTrip(x.flows.value); }
    OptRoundTrip(x.flows, EncodeOAuthFlows, DecodeOAuthFlows);
    OptRoundTrip(x.open_id_connect_url, EncodeString, DecodeString);
    SecuritySchemeDecodedFrom(f, x);
  }

  lemma OAuthFlowsFieldsWritten(x: OAuthFlows)
    ensures Field(EncodeOAuthFlows(x).fields, "implicit") == EncodeOpt(x.implicit, EncodeOAuthFlow)
    ensures Field(EncodeOAuthFlows(x).fields, "password") == EncodeOpt(x.password, EncodeOAuthFlow)
    ensures Field(EncodeOAuthFlows(x).fields, "clientCredentials") == EncodeOpt(x.client_credentials, EncodeOAuthFlow)
    ensures Field(EncodeOAuthFlows(x).fields, "authorizationCode") == EncodeOpt(x.authorization_code, EncodeOAuthFlow)
  {
    var values := [EncodeOpt(x.implicit, EncodeOAuthFlow), EncodeOpt(x.password, EncodeOAuthFlow), EncodeOpt(x.client_credentials, EncodeOAuthFlow), EncodeOpt(x.authorization_code, EncodeOAuthFlow)];
    ObjectOfLookup(OAuthFlowsWireNames, values, 0);
    ObjectOfLookup(OAuthFlowsWireNames, values, 1);
    ObjectOfLookup(OAuthFlowsWireNames, values, 2);
    ObjectOfLookup(OAuthFlowsWireNames, values, 3);
  }

  lemma OAuthFlowsDecodedFrom(f: map<string, Value>, x: OAuthFlows)
    requires DecodeOpt(Field(f, "implicit"), DecodeOAuthFlow) == Ok(x.implicit)
    requires DecodeOpt(Field(f, "password"), DecodeOAuthFlow) == Ok(x.password)
    requires DecodeOpt(Field(f, "clientCredentials"), DecodeOAuthFlow) == Ok(x.client_credentials)
    requires DecodeOpt(Field(f, "authorizationCode"), DecodeOAuthFlow) == Ok(x.authorization_code)
    ensures DecodeOAuthFlows(Obj(f)) == Ok(x)
  {
  }

  lemma {:induction false} OAuthFlowsRoundTrip(x: OAuthFlows)
    ensures DecodeOAuthFlows(EncodeOAuthFlows(x)) == Ok(x)
  {
    var f := EncodeOAuthFlows(x).fields;
    OAuthFlowsFieldsWritten(x);
    if x.implicit.Some? { OAuthFlowRoundTrip(x.implicit.value); }
    OptRoundTrip(x.implicit, EncodeOAuthFlow, DecodeOAuthFlow);
    if x.password.Some? { OAuthFlowRoundTrip(x.password.value); }
    OptRoundTrip(x.password, EncodeOAuthFlow, DecodeOAuthFlow);
    if x.client_credentials.Some? { OAuthFlowRoundTrip(x.client_credentials.value); }
    OptRoundTrip(x.client_credentials, EncodeOAuthFlow, DecodeOAuthFlow);
    if x.authorization_code.Some? { OAuthFlowRoundTrip(x.authorization_code.value); }
    OptRoundTrip(x.authorization_code, EncodeOAuthFlow, DecodeOAuthFlow);
    OAuthFlowsDecodedFrom(f, x);
  }

  lemma OAuthFlowFieldsWritten(x: OAuthFlow)
    ensures Field(EncodeOAuthFlow(x).fields, "authorizationUrl") == EncodeOpt(x.authorization_url, EncodeString)
    ensures Field(EncodeOAuthFlow(x).fields, "tokenUrl") == EncodeOpt(x.token_url, EncodeString)
    ensures Field(EncodeOAuthFlow(x).fields, "refreshUrl") == EncodeOpt(x.refresh_url, EncodeString)
    ensures Field(EncodeOAuthFlow(x).fields, "scopes") == EncodeOptMap(x.scopes, EncodeString)
  {
    var values := [EncodeOpt(x.authorization_url, EncodeString), EncodeOpt(x.token_url, EncodeString), EncodeOpt(x.refresh_url, EncodeString), EncodeOptMap(x.scopes, EncodeString)];
    ObjectOfLookup(OAuthFlowWireNames, values, 0);
    ObjectOfLookup(OAuthFlowWireNames, values, 1);
    ObjectOfLookup(OAuthFlowWireNames, values, 2);
    ObjectOfLookup(OAuthFlowWireNames, values, 3);
  }

  lemma OAuthFlowDecodedFrom(f: map<string, Value>, x: OAuthFlow)
    requires DecodeOpt(Field(f, "authorizationUrl"), DecodeString) == Ok(x.authorization_url)
    requires DecodeOpt(Field(f, "tokenUrl"), DecodeString) == Ok(x.token_url)
    requires DecodeOpt(Field(f, "refreshUrl"), DecodeString) == Ok(x.refresh_url)
    requires DecodeOptMap(Field(f, "scopes"), DecodeString) == Ok(x.scopes)
    ensures DecodeOAuthFlow(Obj(f)) == Ok(x)
  {
  }

  lemma {:induction false} OAuthFlowRoundTrip(x: OAuthFlow)
    ensures DecodeOAuthFlow(EncodeOAuthFlow(x)) == Ok(x)
  {
    var f := EncodeOAuthFlow(x).fields;
    OAuthFlowFieldsWritten(x);
    OptRoundTrip(x.authorization_url, EncodeString, DecodeString);
    OptRoundTrip(x.token_url, EncodeString, DecodeString);
    OptRoundTrip(x.refresh_url, EncodeString, DecodeString);
    OptMapRoundTrip(x.scopes, EncodeString, DecodeString);
    OAuthFlowDecodedFrom(f, x);
  }

  lemma XMLFieldsWritten(x: XML)
    ensures Field(EncodeXML(x).fields, "name") == EncodeOpt(x.name, EncodeString)
    ensures Field(EncodeXML(x).fields, "namespace") == EncodeOpt(x.namespace, EncodeString)
    ensures Field(EncodeXML(x).fields, "prefix") == EncodeOpt(x.prefix, EncodeString)
    ensures Field(EncodeXML(x).fields, "attribute") == EncodeOpt(x.attribute, EncodeBool)
    ensures Field(EncodeXML(x).fields, "wrapped") == EncodeOpt(x.wrapped, EncodeBool)
  {
    var values := [EncodeOpt(x.name, EncodeString), EncodeOpt(x.namespace, EncodeString), EncodeOpt(x.prefix, EncodeString), EncodeOpt(x.attribute, EncodeBool), EncodeOpt(x.wrapped, EncodeBool)];
    ObjectOfLookup(XMLWireNames, values, 0);
    ObjectOfLookup(XMLWireNames, values, 1);
    ObjectOfLookup(XMLWireNames, values, 2);
    ObjectOfLookup(XMLWireNames, values, 3);
    ObjectOfLookup(XMLWireNames, values, 4);
  }

  lemma XMLDecodedFrom(f: map<string, Value>, x: XML)
    requires DecodeOpt(Field(f, "name"), DecodeString) == Ok(x.name)
    requires DecodeOpt(Field(f, "namespace"), DecodeString) == Ok(x.namespace)
    requires DecodeOpt(Field(f, "prefix"), DecodeString) == Ok(x.prefix)
    requires DecodeOpt(Field(f, "attribute"), DecodeBool) == Ok(x.attribute)
    requires DecodeOpt(Field(f, "wrapped"), DecodeBool) == Ok(x.wrapped)
    ensures DecodeXML(Obj(f)) == Ok(x)
  {
  }

  lemma {:induction false} XMLRoundTrip(x: XML)
    ensures DecodeXML(EncodeXML(x)) == Ok(x)
  {
    var f := EncodeXML(x).fields;
    XMLFieldsWritten(x);
    OptRoundTrip(x.name, EncodeString, DecodeString);
    OptRoundTrip(x.namespace, EncodeString, DecodeString);
    OptRoundTrip(x.prefix, EncodeString, DecodeString);
    OptRoundTrip(x.attribute, EncodeBool, DecodeBool);
    OptRoundTrip(x.wrapped, EncodeBool, DecodeBool);
    XMLDecodedFrom(f, x);
  }

  lemma SchemaWritesTitle(x: Schema)
    ensures Field(EncodeSchema(x).fields, "title") == EncodeOpt(x.title, EncodeString)
  {
    var values := [EncodeOpt(x.title, EncodeString), EncodeOpt(x.multiple_of, EncodeF64), EncodeOpt(x.maximum, EncodeF64), EncodeOpt(x.exclusive_maximum, EncodeBool), EncodeOpt(x.minimum, EncodeF64), EncodeOpt(x.exclusive_minimum, EncodeBool), EncodeOpt(x.max_length, EncodeU32), EncodeOpt(x.min_length, EncodeU32), EncodeOpt(x.pattern, EncodeString), EncodeOpt(x.max_items, EncodeU32), EncodeOpt(x.min_items, EncodeU32), EncodeOpt(x.unique_items, EncodeBool), EncodeOpt(x.max_properties, EncodeU32), EncodeOpt(x.min_properties, EncodeU32), EncodeOptList(x.required, EncodeString), EncodeOpt(x.type_, EncodeString), EncodeSchemaOpt(x.not), EncodeSchemaList(x.all_of), EncodeSchemaList(x.one_of), EncodeSchemaList(x.any_of), EncodeSchemaOpt(x.items), EncodeSchemaMap(x.properties), EncodeSchemaOpt(x.additional_properties), EncodeOpt(x.description, EncodeString), EncodeOpt(x.format, EncodeString), EncodeOpt(x.default, EncodeAny), EncodeOpt(x.nullable, EncodeBool), EncodeOpt(x.discriminator, EncodeDiscriminator), EncodeOpt(x.read_only, EncodeBool), EncodeOpt(x.write_only, EncodeBool), EncodeOpt(x.xml, EncodeXML), EncodeOpt(x.example, EncodeAny), EncodeOpt(x.deprecated, EncodeBool)];
    ObjectOfLookup(SchemaWireNames, values, 0);
  }

  lemma SchemaWritesMultipleOf(x: Schema)
    ensures Field(EncodeSchema(x).fields, "multipleOf") == EncodeOpt(x.multiple_of, EncodeF64)
  {
    var values := [EncodeOpt(x.title, EncodeString), EncodeOpt(x.multiple_of, EncodeF64), EncodeOpt(x.maximum, EncodeF64), EncodeOpt(x.exclusive_maximum, EncodeBool), EncodeOpt(x.minimum, EncodeF64), EncodeOpt(x.exclusive_minimum, EncodeBool), EncodeOpt(x.max_length, EncodeU32), EncodeOpt(x.min_length, EncodeU32), EncodeOpt(x.pattern, EncodeString), EncodeOpt(x.max_items, EncodeU32), EncodeOpt(x.min_items, EncodeU32), EncodeOpt(x.unique_items, EncodeBool), EncodeOpt(x.max_properties, EncodeU32), EncodeOpt(x.min_properties, EncodeU32), EncodeOptList(x.required, EncodeString), EncodeOpt(x.type_, EncodeString), EncodeSchemaOpt(x.not), EncodeSchemaList(x.all_of), EncodeSchemaList(x.one_of), EncodeSchemaList(x.any_of), EncodeSchemaOpt(x.items), EncodeSchemaMap(x.properties), EncodeSchemaOpt(x.additional_properties), EncodeOpt(x.description, EncodeString), EncodeOpt(x.format, EncodeString), EncodeOpt(x.default, EncodeAny), EncodeOpt(x.nullable, EncodeBool), EncodeOpt(x.discriminator, EncodeDiscriminator), EncodeOpt(x.read_only, EncodeBool), EncodeOpt(x.write_only, EncodeBool), EncodeOpt(x.xml, EncodeXML), EncodeOpt(x.example, EncodeAny), EncodeOpt(x.deprecated, EncodeBool)];
    ObjectOfLookup(SchemaWireNames, values, 1);
  }

  lemma SchemaWritesMaximum(x: Schema)
    ensures Field(EncodeSchema(x).fields, "maximum") == EncodeOpt(x.maximum, EncodeF64)
  {
    var values := [EncodeOpt(x.title, EncodeString), EncodeOpt(x.multiple_of, EncodeF64), EncodeOpt(x.maximum, EncodeF64), EncodeOpt(x.exclusive_maximum, EncodeBool), EncodeOpt(x.minimum, EncodeF64), EncodeOpt(x.exclusive_minimum, EncodeBool), EncodeOpt(x.max_length, EncodeU32), EncodeOpt(x.min_length, EncodeU32), EncodeOpt(x.pattern, EncodeString), EncodeOpt(x.max_items, EncodeU32), EncodeOpt(x.min_items, EncodeU32), EncodeOpt(x.unique_items, EncodeBool), EncodeOpt(x.max_properties, EncodeU32), EncodeOpt(x.min_properties, EncodeU32), EncodeOptList(x.required, EncodeString), EncodeOpt(x.type_, EncodeString), EncodeSchemaOpt(x.not), EncodeSchemaList(x.all_of), EncodeSchemaList(x.one_of), EncodeSchemaList(x.any_of), EncodeSchemaOpt(x.items), EncodeSchemaMap(x.properties), EncodeSchemaOpt(x.additional_properties), EncodeOpt(x.description, EncodeString), EncodeOpt(x.format, EncodeString), EncodeOpt(x.default, EncodeAny), EncodeOpt(x.nullable, EncodeBool), EncodeOpt(x.discriminator, EncodeDiscriminator), EncodeOpt(x.read_only, EncodeBool), EncodeOpt(x.write_only, EncodeBool), EncodeOpt(x.xml, EncodeXML), EncodeOpt(x.example, EncodeAny), EncodeOpt(x.deprecated, EncodeBool)];
    ObjectOfLookup(SchemaWireNames, values, 2);
  }

  lemma SchemaWritesExclusiveMaximum(x: Schema)
    ensures Field(EncodeSchema(x).fields, "exclusiveMaximum") == EncodeOpt(x.exclusive_maximum, EncodeBool)
  {
    var values := [EncodeOpt(x.title, EncodeString), EncodeOpt(x.multiple_of, EncodeF64), EncodeOpt(x.maximum, EncodeF64), EncodeOpt(x.exclusive_maximum, EncodeBool), EncodeOpt(x.minimum, EncodeF64), EncodeOpt(x.exclusive_minimum, EncodeBool), EncodeOpt(x.max_length, EncodeU32), EncodeOpt(x.min_length, EncodeU32), EncodeOpt(x.pattern, EncodeString), EncodeOpt(x.max_items, EncodeU32), EncodeOpt(x.min_items, EncodeU32), EncodeOpt(x.unique_items, EncodeBool), EncodeOpt(x.max_properties, EncodeU32), EncodeOpt(x.min_properties, EncodeU32), EncodeOptList(x.required, EncodeString), EncodeOpt(x.type_, EncodeString), EncodeSchemaOpt(x.not), EncodeSchemaList(x.all_of), EncodeSchemaList(x.one_of), EncodeSchemaList(x.any_of), EncodeSchemaOpt(x.items), EncodeSchemaMap(x.properties), EncodeSchemaOpt(x.additional_properties), EncodeOpt(x.description, EncodeString), EncodeOpt(x.format, EncodeString), EncodeOpt(x.default, EncodeAny), EncodeOpt(x.nullable, EncodeBool), EncodeOpt(x.discriminator, EncodeDiscriminator), EncodeOpt(x.read_only, EncodeBool), EncodeOpt(x.write_only, EncodeBool), EncodeOpt(x.xml, EncodeXML), EncodeOpt(x.example, EncodeAny), EncodeOpt(x.deprecated, EncodeBool)];
    ObjectOfLookup(SchemaWireNames, values, 3);
  }

  lemma SchemaWritesMinimum(x: Schema)
    ensures Field(EncodeSchema(x).fields, "minimum") == EncodeOpt(x.minimum, EncodeF64)
  {
    var values := [EncodeOpt(x.title, EncodeString), EncodeOpt(x.multiple_of, EncodeF64), EncodeOpt(x.maximum, EncodeF64), EncodeOpt(x.exclusive_maximum, EncodeBool), EncodeOpt(x.minimum, EncodeF64), EncodeOpt(x.exclusive_minimum, EncodeBool), EncodeOpt(x.max_length, EncodeU32), EncodeOpt(x.min_length, EncodeU32), EncodeOpt(x.pattern, EncodeString), EncodeOpt(x.max_items, EncodeU32), EncodeOpt(x.min_items, EncodeU32), EncodeOpt(x.unique_items, EncodeBool), EncodeOpt(x.max_properties, EncodeU32), EncodeOpt(x.min_properties, EncodeU32), EncodeOptList(x.required, EncodeString), EncodeOpt(x.type_, EncodeString), EncodeSchemaOpt(x.not), EncodeSchemaList(x.all_of), EncodeSchemaList(x.one_of), EncodeSchemaList(x.any_of), EncodeSchemaOpt(x.items), EncodeSchemaMap(x.properties), EncodeSchemaOpt(x.additional_properties), EncodeOpt(x.description, EncodeString), EncodeOpt(x.format, EncodeString), EncodeOpt(x.default, EncodeAny), EncodeOpt(x.nullable, EncodeBool), EncodeOpt(x.discriminator, EncodeDiscriminator), EncodeOpt(x.read_only, EncodeBool), EncodeOpt(x.write_only, EncodeBool), EncodeOpt(x.xml, EncodeXML), EncodeOpt(x.example, EncodeAny), EncodeOpt(x.deprecated, EncodeBool)];
    ObjectOfLookup(SchemaWireNames, values, 4);
  }

  lemma SchemaWritesExclusiveMinimum(x: Schema)
    ensures Field(EncodeSchema(x).fields, "exclusiveMinimum") == EncodeOpt(x.exclusive_minimum, EncodeBool)
  {
    var values := [EncodeOpt(x.title, EncodeString), EncodeOpt(x.multiple_of, EncodeF64), EncodeOpt(x.maximum, EncodeF64), EncodeOpt(x.exclusive_maximum, EncodeBool), EncodeOpt(x.minimum, EncodeF64), EncodeOpt(x.exclusive_minimum, EncodeBool), EncodeOpt(x.max_length, EncodeU32), EncodeOpt(x.min_length, EncodeU32), EncodeOpt(x.pattern, EncodeString), EncodeOpt(x.max_items, EncodeU32), EncodeOpt(x.min_items, EncodeU32), EncodeOpt(x.unique_items, EncodeBool), EncodeOpt(x.max_properties, EncodeU32), EncodeOpt(x.min_properties, EncodeU32), EncodeOptList(x.required, EncodeString), EncodeOpt(x.type_, EncodeString), EncodeSchemaOpt(x.not), EncodeSchemaList(x.all_of), EncodeSchemaList(x.one_of), EncodeSchemaList(x.any_of), EncodeSchemaOpt(x.items), EncodeSchemaMap(x.properties), EncodeSchemaOpt(x.additional_properties), EncodeOpt(x.description, EncodeString), EncodeOpt(x.format, EncodeString), EncodeOpt(x.default, EncodeAny), EncodeOpt(x.nullable, EncodeBool), EncodeOpt(x.discriminator, EncodeDiscriminator), EncodeOpt(x.read_only, EncodeBool), EncodeOpt(x.write_only, EncodeBool), EncodeOpt(x.xml, EncodeXML), EncodeOpt(x.example, EncodeAny), EncodeOpt(x.deprecated, EncodeBool)];
    ObjectOfLookup(SchemaWireNames, values, 5);
  }

  lemma SchemaWritesMaxLength(x: Schema)
    ensures Field(EncodeSchema(x).fields, "maxLength") == EncodeOpt(x.max_length, EncodeU32)
  {
    var values := [EncodeOpt(x.title, EncodeString), EncodeOpt(x.multiple_of, EncodeF64), EncodeOpt(x.maximum, EncodeF64), EncodeOpt(x.exclusive_maximum, EncodeBool), EncodeOpt(x.minimum, EncodeF64), EncodeOpt(x.exclusive_minimum, EncodeBool), EncodeOpt(x.max_length, EncodeU32), EncodeOpt(x.min_length, EncodeU32), EncodeOpt(x.pattern, EncodeString), EncodeOpt(x.max_items, EncodeU32), EncodeOpt(x.min_items, EncodeU32), EncodeOpt(x.unique_items, EncodeBool), EncodeOpt(x.max_properties, EncodeU32), EncodeOpt(x.min_properties, EncodeU32), EncodeOptList(x.required, EncodeString), EncodeOpt(x.type_, EncodeString), EncodeSchemaOpt(x.not), EncodeSchemaList(x.all_of), EncodeSchemaList(x.one_of), EncodeSchemaList(x.any_of), EncodeSchemaOpt(x.items), EncodeSchemaMap(x.properties), EncodeSchemaOpt(x.additional_properties), EncodeOpt(x.description, EncodeString), EncodeOpt(x.format, EncodeString), EncodeOpt(x.default, EncodeAny), EncodeOpt(x.nullable, EncodeBool), EncodeOpt(x.discriminator, EncodeDiscriminator), EncodeOpt(x.read_only, EncodeBool), EncodeOpt(x.write_only, EncodeBool), EncodeOpt(x.xml, EncodeXML), EncodeOpt(x.example, EncodeAny), EncodeOpt(x.deprecated, EncodeBool)];
    ObjectOfLookup(SchemaWireNames, values, 6);
  }

  lemma SchemaWritesMinLength(x: Schema)
    ensures Field(EncodeSchema(x).fields, "minLength") == EncodeOpt(x.min_length, EncodeU32)
  {
    var values := [EncodeOpt(x.title, EncodeString), EncodeOpt(x.multiple_of, EncodeF64), EncodeOpt(x.maximum, EncodeF64), EncodeOpt(x.exclusive_maximum, EncodeBool), EncodeOpt(x.minimum, EncodeF64), EncodeOpt(x.exclusive_minimum, EncodeBool), EncodeOpt(x.max_length, EncodeU32), EncodeOpt(x.min_length, EncodeU32), EncodeOpt(x.pattern, EncodeString), EncodeOpt(x.max_items, EncodeU32), EncodeOpt(x.min_items, EncodeU32), EncodeOpt(x.unique_items, EncodeBool), EncodeOpt(x.max_properties, EncodeU32), EncodeOpt(x.min_properties, EncodeU32), EncodeOptList(x.required, EncodeString), EncodeOpt(x.type_, EncodeString), EncodeSchemaOpt(x.not), EncodeSchemaList(x.all_of), EncodeSchemaList(x.one_of), EncodeSchemaList(x.any_of), EncodeSchemaOpt(x.items), EncodeSchemaMap(x.properties), EncodeSchemaOpt(x.additional_properties), EncodeOpt(x.description, EncodeString), EncodeOpt(x.format, EncodeString), EncodeOpt(x.default, EncodeAny), EncodeOpt(x.nullable, EncodeBool), EncodeOpt(x.discriminator, EncodeDiscriminator), EncodeOpt(x.read_only, EncodeBool), EncodeOpt(x.write_only, EncodeBool), EncodeOpt(x.xml, EncodeXML), EncodeOpt(x.example, EncodeAny), EncodeOpt(x.deprecated, EncodeBool)];
    ObjectOfLookup(SchemaWireNames, values, 7);
  }

  lemma SchemaWritesPattern(x: Schema)
    ensures Field(EncodeSchema(x).fields, "pattern") == EncodeOpt(x.pattern, EncodeString)
  {
    var values := [EncodeOpt(x.title, EncodeString), EncodeOpt(x.multiple_of, EncodeF64), EncodeOpt(x.maximum, EncodeF64), EncodeOpt(x.exclusive_maximum, EncodeBool), EncodeOpt(x.minimum, EncodeF64), EncodeOpt(x.exclusive_minimum, EncodeBool), EncodeOpt(x.max_length, EncodeU32), EncodeOpt(x.min_length, EncodeU32), EncodeOpt(x.pattern, EncodeString), EncodeOpt(x.max_items, EncodeU32), EncodeOpt(x.min_items, EncodeU32), EncodeOpt(x.unique_items, EncodeBool), EncodeOpt(x.max_properties, EncodeU32), EncodeOpt(x.min_properties, EncodeU32), EncodeOptList(x.required, EncodeString), EncodeOpt(x.type_, EncodeString), EncodeSchemaOpt(x.not), EncodeSchemaList(x.all_of), EncodeSchemaList(x.one_of), EncodeSchemaList(x.any_of), EncodeSchemaOpt(x.items), EncodeSchemaMap(x.properties), EncodeSchemaOpt(x.additional_properties), EncodeOpt(x.description, EncodeString), EncodeOpt(x.format, EncodeString), EncodeOpt(x.default, EncodeAny), EncodeOpt(x.nullable, EncodeBool), EncodeOpt(x.discriminator, EncodeDiscriminator), EncodeOpt(x.read_only, EncodeBool), EncodeOpt(x.write_only, EncodeBool), EncodeOpt(x.xml, EncodeXML), EncodeOpt(x.example, EncodeAny), EncodeOpt(x.deprecated, EncodeBool)];
    ObjectOfLookup(SchemaWireNames, values, 8);
  }

  lemma SchemaWritesMaxItems(x: Schema)
    ensures Field(EncodeSchema(x).fields, "maxItems") == EncodeOpt(x.max_items, EncodeU32)
  {
    var values := [EncodeOpt(x.title, EncodeString), EncodeOpt(x.multiple_of, EncodeF64), EncodeOpt(x.maximum, EncodeF64), EncodeOpt(x.exclusive_maximum, EncodeBool), EncodeOpt(x.minimum, EncodeF64), EncodeOpt(x.exclusive_minimum, EncodeBool), EncodeOpt(x.max_length, EncodeU32), EncodeOpt(x.min_length, EncodeU32), EncodeOpt(x.pattern, EncodeString), EncodeOpt(x.max_items, EncodeU32), EncodeOpt(x.min_items, EncodeU32), EncodeOpt(x.unique_items, EncodeBool), EncodeOpt(x.max_properties, EncodeU32), EncodeOpt(x.min_properties, EncodeU32), EncodeOptList(x.required, EncodeString), EncodeOpt(x.type_, EncodeString), EncodeSchemaOpt(x.not), EncodeSchemaList(x.all_of), EncodeSchemaList(x.one_of), EncodeSchemaList(x.any_of), EncodeSchemaOpt(x.items), EncodeSchemaMap(x.properties), EncodeSchemaOpt(x.additional_properties), EncodeOpt(x.description, EncodeString), EncodeOpt(x.format, EncodeString), EncodeOpt(x.default, EncodeAny), EncodeOpt(x.nullable, EncodeBool), EncodeOpt(x.discriminator, EncodeDiscriminator), EncodeOpt(x.read_only, EncodeBool), EncodeOpt(x.write_only, EncodeBool), EncodeOpt(x.xml, EncodeXML), EncodeOpt(x.example, EncodeAny), EncodeOpt(x.deprecated, EncodeBool)];
    ObjectOfLookup(SchemaWireNames, values, 9);
  }

  lemma SchemaWritesMinItems(x: Schema)
    ensures Field(EncodeSchema(x).fields, "minItems") == EncodeOpt(x.min_items, EncodeU32)
  {
    var values := [EncodeOpt(x.title, EncodeString), EncodeOpt(x.multiple_of, EncodeF64), EncodeOpt(x.maximum, EncodeF64), EncodeOpt(x.exclusive_maximum, EncodeBool), EncodeOpt(x.minimum, EncodeF64), EncodeOpt(x.exclusive_minimum, EncodeBool), EncodeOpt(x.max_length, EncodeU32), EncodeOpt(x.min_length, EncodeU32), EncodeOpt(x.pattern, EncodeString), EncodeOpt(x.max_items, EncodeU32), EncodeOpt(x.min_items, EncodeU32), EncodeOpt(x.unique_items, EncodeBool), EncodeOpt(x.max_properties, EncodeU32), EncodeOpt(x.min_properties, EncodeU32), EncodeOptList(x.required, EncodeString), EncodeOpt(x.type_, EncodeString), EncodeSchemaOpt(x.not), EncodeSchemaList(x.all_of), EncodeSchemaList(x.one_of), EncodeSchemaList(x.any_of), EncodeSchemaOpt(x.items), EncodeSchemaMap(x.properties), EncodeSchemaOpt(x.additional_properties), EncodeOpt(x.description, EncodeString), EncodeOpt(x.format, EncodeString), EncodeOpt(x.default, EncodeAny), EncodeOpt(x.nullable, EncodeBool), EncodeOpt(x.discriminator, EncodeDiscriminator), EncodeOpt(x.read_only, EncodeBool), EncodeOpt(x.write_only, EncodeBool), EncodeOpt(x.xml, EncodeXML), EncodeOpt(x.example, EncodeAny), EncodeOpt(x.deprecated, EncodeBool)];
    ObjectOfLookup(SchemaWireNames, values, 10);
  }

  lemma SchemaWritesUniqueItems(x: Schema)
    ensures Field(EncodeSchema(x).fields, "uniqueItems") == EncodeOpt(x.unique_items, EncodeBool)
  {
    var values := [EncodeOpt(x.title, EncodeString), EncodeOpt(x.multiple_of, EncodeF64), EncodeOpt(x.maximum, EncodeF64), EncodeOpt(x.exclusive_maximum, EncodeBool), EncodeOpt(x.minimum, EncodeF64), EncodeOpt(x.exclusive_minimum, EncodeBool), EncodeOpt(x.max_length, EncodeU32), EncodeOpt(x.min_length, EncodeU32), EncodeOpt(x.pattern, EncodeString), EncodeOpt(x.max_items, EncodeU32), EncodeOpt(x.min_items, EncodeU32), EncodeOpt(x.unique_items, EncodeBool), EncodeOpt(x.max_properties, EncodeU32), EncodeOpt(x.min_properties, EncodeU32), EncodeOptList(x.required, EncodeString), EncodeOpt(x.type_, EncodeString), EncodeSchemaOpt(x.not), EncodeSchemaList(x.all_of), EncodeSchemaList(x.one_of), EncodeSchemaList(x.any_of), EncodeSchemaOpt(x.items), EncodeSchemaMap(x.properties), EncodeSchemaOpt(x.additional_properties), EncodeOpt(x.description, EncodeString), EncodeOpt(x.format, EncodeString), EncodeOpt(x.default, EncodeAny), EncodeOpt(x.nullable, EncodeBool), EncodeOpt(x.discriminator, EncodeDiscriminator), EncodeOpt(x.read_only, EncodeBool), EncodeOpt(x.write_only, EncodeBool), EncodeOpt(x.xml, EncodeXML), EncodeOpt(x.example, EncodeAny), EncodeOpt(x.deprecated, EncodeBool)];
    ObjectOfLookup(SchemaWireNames, values, 11);
  }

  lemma SchemaWritesMaxProperties(x: Schema)
    ensures Field(EncodeSchema(x).fields, "maxProperties") == EncodeOpt(x.max_properties, EncodeU32)
  {
    var values := [EncodeOpt(x.title, EncodeString), EncodeOpt(x.multiple_of, EncodeF64), EncodeOpt(x.maximum, EncodeF64), EncodeOpt(x.exclusive_maximum, EncodeBool), EncodeOpt(x.minimum, EncodeF64), EncodeOpt(x.exclusive_minimum, EncodeBool), EncodeOpt(x.max_length, EncodeU32), EncodeOpt(x.min_length, EncodeU32), EncodeOpt(x.pattern, EncodeString), EncodeOpt(x.max_items, EncodeU32), EncodeOpt(x.min_items, EncodeU32), EncodeOpt(x.unique_items, EncodeBool), EncodeOpt(x.max_properties, EncodeU32), EncodeOpt(x.min_properties, EncodeU32), EncodeOptList(x.required, EncodeString), EncodeOpt(x.type_, EncodeString), EncodeSchemaOpt(x.not), EncodeSchemaList(x.all_of), EncodeSchemaList(x.one_of), EncodeSchemaList(x.any_of), EncodeSchemaOpt(x.items), EncodeSchemaMap(x.properties), EncodeSchemaOpt(x.additional_properties), EncodeOpt(x.description, EncodeString), EncodeOpt(x.format, EncodeString), EncodeOpt(x.default, EncodeAny), EncodeOpt(x.nullable, EncodeBool), EncodeOpt(x.discriminator, EncodeDiscriminator), EncodeOpt(x.read_only, EncodeBool), EncodeOpt(x.write_only, EncodeBool), EncodeOpt(x.xml, EncodeXML), EncodeOpt(x.example, EncodeAny), EncodeOpt(x.deprecated, EncodeBool)];
    ObjectOfLookup(SchemaWireNames, values, 12);
  }

  lemma SchemaWritesMinProperties(x: Schema)
    ensures Field(EncodeSchema(x).fields, "minProperties") == EncodeOpt(x.min_properties, EncodeU32)
  {
    var values := [EncodeOpt(x.title, EncodeString), EncodeOpt(x.multiple_of, EncodeF64), EncodeOpt(x.maximum, EncodeF64), EncodeOpt(x.exclusive_maximum, EncodeBool), EncodeOpt(x.minimum, EncodeF64), EncodeOpt(x.exclusive_minimum, EncodeBool), EncodeOpt(x.max_length, EncodeU32), EncodeOpt(x.min_length, EncodeU32), EncodeOpt(x.pattern, EncodeString), EncodeOpt(x.max_items, EncodeU32), EncodeOpt(x.min_items, EncodeU32), EncodeOpt(x.unique_items, EncodeBool), EncodeOpt(x.max_properties, EncodeU32), EncodeOpt(x.min_properties, EncodeU32), EncodeOptList(x.required, EncodeString), EncodeOpt(x.type_, EncodeString), EncodeSchemaOpt(x.not), EncodeSchemaList(x.all_of), EncodeSchemaList(x.one_of), EncodeSchemaList(x.any_of), EncodeSchemaOpt(x.items), EncodeSchemaMap(x.properties), EncodeSchemaOpt(x.additional_properties), EncodeOpt(x.description, EncodeString), EncodeOpt(x.format, EncodeString), EncodeOpt(x.default, EncodeAny), EncodeOpt(x.nullable, EncodeBool), EncodeOpt(x.discriminator, EncodeDiscriminator), EncodeOpt(x.read_only, EncodeBool), EncodeOpt(x.write_only, EncodeBool), EncodeOpt(x.xml, EncodeXML), EncodeOpt(x.example, EncodeAny), EncodeOpt(x.deprecated, EncodeBool)];
    ObjectOfLookup(SchemaWireNames, values, 13);
  }

  lemma SchemaWritesRequired(x: Schema)
    ensures Field(EncodeSchema(x).fields, "required") == EncodeOptList(x.required, EncodeString)
  {
    var values := [EncodeOpt(x.title, EncodeString), EncodeOpt(x.multiple_of, EncodeF64), EncodeOpt(x.maximum, EncodeF64), EncodeOpt(x.exclusive_maximum, EncodeBool), EncodeOpt(x.minimum, EncodeF64), EncodeOpt(x.exclusive_minimum, EncodeBool), EncodeOpt(x.max_length, EncodeU32), EncodeOpt(x.min_length, EncodeU32), EncodeOpt(x.pattern, EncodeString), EncodeOpt(x.max_items, EncodeU32), EncodeOpt(x.min_items, EncodeU32), EncodeOpt(x.unique_items, EncodeBool), EncodeOpt(x.max_properties, EncodeU32), EncodeOpt(x.min_properties, EncodeU32), EncodeOptList(x.required, EncodeString), EncodeOpt(x.type_, EncodeString), EncodeSchemaOpt(x.not), EncodeSchemaList(x.all_of), EncodeSchemaList(x.one_of), EncodeSchemaList(x.any_of), EncodeSchemaOpt(x.items), EncodeSchemaMap(x.properties), EncodeSchemaOpt(x.additional_properties), EncodeOpt(x.description, EncodeString), EncodeOpt(x.format, EncodeString), EncodeOpt(x.default, EncodeAny), EncodeOpt(x.nullable, EncodeBool), EncodeOpt(x.discriminator, EncodeDiscriminator), EncodeOpt(x.read_only, EncodeBool), EncodeOpt(x.write_only, EncodeBool), EncodeOpt(x.xml, EncodeXML), EncodeOpt(x.example, EncodeAny), EncodeOpt(x.deprecated, EncodeBool)];
    ObjectOfLookup(SchemaWireNames, values, 14);
  }

  lemma SchemaWritesType(x: Schema)
    ensures Field(EncodeSchema(x).fields, "type") == EncodeOpt(x.type_, EncodeString)
  {
    var values := [EncodeOpt(x.title, EncodeString), EncodeOpt(x.multiple_of, EncodeF64), EncodeOpt(x.maximum, EncodeF64), EncodeOpt(x.exclusive_maximum, EncodeBool), EncodeOpt(x.minimum, EncodeF64), EncodeOpt(x.exclusive_minimum, EncodeBool), EncodeOpt(x.max_length, EncodeU32), EncodeOpt(x.min_length, EncodeU32), EncodeOpt(x.pattern, EncodeString), EncodeOpt(x.max_items, EncodeU32), EncodeOpt(x.min_items, EncodeU32), EncodeOpt(x.unique_items, EncodeBool), EncodeOpt(x.max_properties, EncodeU32), EncodeOpt(x.min_properties, EncodeU32), EncodeOptList(x.required, EncodeString), EncodeOpt(x.type_, EncodeString), EncodeSchemaOpt(x.not), EncodeSchemaList(x.all_of), EncodeSchemaList(x.one_of), EncodeSchemaList(x.any_of), EncodeSchemaOpt(x.items), EncodeSchemaMap(x.properties), EncodeSchemaOpt(x.additional_properties), EncodeOpt(x.description, EncodeString), EncodeOpt(x.format, EncodeString), EncodeOpt(x.default, EncodeAny), EncodeOpt(x.nullable, EncodeBool), EncodeOpt(x.discriminator, EncodeDiscriminator), EncodeOpt(x.read_only, EncodeBool), EncodeOpt(x.write_only, EncodeBool), EncodeOpt(x.xml, EncodeXML), EncodeOpt(x.example, EncodeAny), EncodeOpt(x.deprecated, EncodeBool)];
    ObjectOfLookup(SchemaWireNames, values, 15);
  }

  lemma SchemaWritesNot(x: Schema)
    ensures Field(EncodeSchema(x).fields, "not") == EncodeSchemaOpt(x.not)
  {
    var values := [EncodeOpt(x.title, EncodeString), EncodeOpt(x.multiple_of, EncodeF64), EncodeOpt(x.maximum, EncodeF64), EncodeOpt(x.exclusive_maximum, EncodeBool), EncodeOpt(x.minimum, EncodeF64), EncodeOpt(x.exclusive_minimum, EncodeBool), EncodeOpt(x.max_length, EncodeU32), EncodeOpt(x.min_length, EncodeU32), EncodeOpt(x.pattern, EncodeString), EncodeOpt(x.max_items, EncodeU32), EncodeOpt(x.min_items, EncodeU32), EncodeOpt(x.unique_items, EncodeBool), EncodeOpt(x.max_properties, EncodeU32), EncodeOpt(x.min_properties, EncodeU32), EncodeOptList(x.required, EncodeString), EncodeOpt(x.type_, EncodeString), EncodeSchemaOpt(x.not), EncodeSchemaList(x.all_of), EncodeSchemaList(x.one_of), EncodeSchemaList(x.any_of), EncodeSchemaOpt(x.items), EncodeSchemaMap(x.properties), EncodeSchemaOpt(x.additional_properties), EncodeOpt(x.description, EncodeString), EncodeOpt(x.format, EncodeString), EncodeOpt(x.default, EncodeAny), EncodeOpt(x.nullable, EncodeBool), EncodeOpt(x.discriminator, EncodeDiscriminator), EncodeOpt(x.read_only, EncodeBool), EncodeOpt(x.write_only, EncodeBool), EncodeOpt(x.xml, EncodeXML), EncodeOpt(x.example, EncodeAny), EncodeOpt(x.deprecated, EncodeBool)];
    ObjectOfLookup(SchemaWireNames, values, 16);
  }

  lemma SchemaWritesAllOf(x: Schema)
    ensures Field(EncodeSchema(x).fields, "allOf") == EncodeSchemaList(x.all_of)
  {
    var values := [EncodeOpt(x.title, EncodeString), EncodeOpt(x.multiple_of, EncodeF64), EncodeOpt(x.maximum, EncodeF64), EncodeOpt(x.exclusive_maximum, EncodeBool), EncodeOpt(x.minimum, EncodeF64), EncodeOpt(x.exclusive_minimum, EncodeBool), EncodeOpt(x.max_length, EncodeU32), EncodeOpt(x.min_length, EncodeU32), EncodeOpt(x.pattern, EncodeString), EncodeOpt(x.max_items, EncodeU32), EncodeOpt(x.min_items, EncodeU32), EncodeOpt(x.unique_items, EncodeBool), EncodeOpt(x.max_properties, EncodeU32), EncodeOpt(x.min_properties, EncodeU32), EncodeOptList(x.required, EncodeString), EncodeOpt(x.type_, EncodeString), EncodeSchemaOpt(x.not), EncodeSchemaList(x.all_of), EncodeSchemaList(x.one_of), EncodeSchemaList(x.any_of), EncodeSchemaOpt(x.items), EncodeSchemaMap(x.properties), EncodeSchemaOpt(x.additional_properties), EncodeOpt(x.description, EncodeString), EncodeOpt(x.format, EncodeString), EncodeOpt(x.default, EncodeAny), EncodeOpt(x.nullable, EncodeBool), EncodeOpt(x.discriminator, EncodeDiscriminator), EncodeOpt(x.read_only, EncodeBool), EncodeOpt(x.write_only, EncodeBool), EncodeOpt(x.xml, EncodeXML), EncodeOpt(x.example, EncodeAny), EncodeOpt(x.deprecated, EncodeBool)];
    ObjectOfLookup(SchemaWireNames, values, 17);
  }

  lemma SchemaWritesOneOf(x: Schema)
    ensures Field(EncodeSchema(x).fields, "oneOf") == EncodeSchemaList(x.one_of)
  {
    var values := [EncodeOpt(x.title, EncodeString), EncodeOpt(x.multiple_of, EncodeF64), EncodeOpt(x.maximum, EncodeF64), EncodeOpt(x.exclusive_maximum, EncodeBool), EncodeOpt(x.minimum, EncodeF64), EncodeOpt(x.exclusive_minimum, EncodeBool), EncodeOpt(x.max_length, EncodeU32), EncodeOpt(x.min_length, EncodeU32), EncodeOpt(x.pattern, EncodeString), EncodeOpt(x.max_items, EncodeU32), EncodeOpt(x.min_items, EncodeU32), EncodeOpt(x.unique_items, EncodeBool), EncodeOpt(x.max_properties, EncodeU32), EncodeOpt(x.min_properties, EncodeU32), EncodeOptList(x.required, EncodeString), EncodeOpt(x.type_, EncodeString), EncodeSchemaOpt(x.not), EncodeSchemaList(x.all_of), EncodeSchemaList(x.one_of), EncodeSchemaList(x.any_of), EncodeSchemaOpt(x.items), EncodeSchemaMap(x.properties), EncodeSchemaOpt(x.additional_properties), EncodeOpt(x.description, EncodeString), EncodeOpt(x.format, EncodeString), EncodeOpt(x.default, EncodeAny), EncodeOpt(x.nullable, EncodeBool), EncodeOpt(x.discriminator, EncodeDiscriminator), EncodeOpt(x.read_only, EncodeBool), EncodeOpt(x.write_only, EncodeBool), EncodeOpt(x.xml, EncodeXML), EncodeOpt(x.example, EncodeAny), EncodeOpt(x.deprecated, EncodeBool)];
    ObjectOfLookup(SchemaWireNames, values, 18);
  }

  lemma SchemaWritesAnyOf(x: Schema)
    ensures Field(EncodeSchema(x).fields, "anyOf") == EncodeSchemaList(x.any_of)
  {
    var values := [EncodeOpt(x.title, EncodeString), EncodeOpt(x.multiple_of, EncodeF64), EncodeOpt(x.maximum, EncodeF64), EncodeOpt(x.exclusive_maximum, EncodeBool), EncodeOpt(x.minimum, EncodeF64), EncodeOpt(x.exclusive_minimum, EncodeBool), EncodeOpt(x.max_length, EncodeU32), EncodeOpt(x.min_length, EncodeU32), EncodeOpt(x.pattern, EncodeString), EncodeOpt(x.max_items, EncodeU32), EncodeOpt(x.min_items, EncodeU32), EncodeOpt(x.unique_items, EncodeBool), EncodeOpt(x.max_properties, EncodeU32), EncodeOpt(x.min_properties, EncodeU32), EncodeOptList(x.required, EncodeString), EncodeOpt(x.type_, EncodeString), EncodeSchemaOpt(x.not), EncodeSchemaList(x.all_of), EncodeSchemaList(x.one_of), EncodeSchemaList(x.any_of), EncodeSchemaOpt(x.items), EncodeSchemaMap(x.properties), EncodeSchemaOpt(x.additional_properties), EncodeOpt(x.description, EncodeString), EncodeOpt(x.format, EncodeString), EncodeOpt(x.default, EncodeAny), EncodeOpt(x.nullable, EncodeBool), EncodeOpt(x.discriminator, EncodeDiscriminator), EncodeOpt(x.read_only, EncodeBool), EncodeOpt(x.write_only, EncodeBool), EncodeOpt(x.xml, EncodeXML), EncodeOpt(x.example, EncodeAny), EncodeOpt(x.deprecated, EncodeBool)];
    ObjectOfLookup(SchemaWireNames, values, 19);
  }

  lemma SchemaWritesItems(x: Schema)
    ensures Field(EncodeSchema(x).fields, "items") == EncodeSchemaOpt(x.items)
  {
    var values := [EncodeOpt(x.title, EncodeString), EncodeOpt(x.multiple_of, EncodeF64), EncodeOpt(x.maximum, EncodeF64), EncodeOpt(x.exclusive_maximum, EncodeBool), EncodeOpt(x.minimum, EncodeF64), EncodeOpt(x.exclusive_minimum, EncodeBool), EncodeOpt(x.max_length, EncodeU32), EncodeOpt(x.min_length, EncodeU32), EncodeOpt(x.pattern, EncodeString), EncodeOpt(x.max_items, EncodeU32), EncodeOpt(x.min_items, EncodeU32), EncodeOpt(x.unique_items, EncodeBool), EncodeOpt(x.max_properties, EncodeU32), EncodeOpt(x.min_properties, EncodeU32), EncodeOptList(x.required, EncodeString), EncodeOpt(x.type_, EncodeString), EncodeSchemaOpt(x.not), EncodeSchemaList(x.all_of), EncodeSchemaList(x.one_of), EncodeSchemaList(x.any_of), EncodeSchemaOpt(x.items), EncodeSchemaMap(x.properties), EncodeSchemaOpt(x.additional_properties), EncodeOpt(x.description, EncodeString), EncodeOpt(x.format, EncodeString), EncodeOpt(x.default, EncodeAny), EncodeOpt(x.nullable, EncodeBool), EncodeOpt(x.discriminator, EncodeDiscriminator), EncodeOpt(x.read_only, EncodeBool), EncodeOpt(x.write_only, EncodeBool), EncodeOpt(x.xml, EncodeXML), EncodeOpt(x.example, EncodeAny), EncodeOpt(x.deprecated, EncodeBool)];
    ObjectOfLookup(SchemaWireNames, values, 20);
  }

  lemma SchemaWritesProperties(x: Schema)
    ensures Field(EncodeSchema(x).fields, "properties") == EncodeSchemaMap(x.properties)
  {
    var values := [EncodeOpt(x.title, EncodeString), EncodeOpt(x.multiple_of, EncodeF64), EncodeOpt(x.maximum, EncodeF64), EncodeOpt(x.exclusive_maximum, EncodeBool), EncodeOpt(x.minimum, EncodeF64), EncodeOpt(x.exclusive_minimum, EncodeBool), EncodeOpt(x.max_length, EncodeU32), EncodeOpt(x.min_length, EncodeU32), EncodeOpt(x.pattern, EncodeString), EncodeOpt(x.max_items, EncodeU32), EncodeOpt(x.min_items, EncodeU32), EncodeOpt(x.unique_items, EncodeBool), EncodeOpt(x.max_properties, EncodeU32), EncodeOpt(x.min_properties, EncodeU32), EncodeOptList(x.required, EncodeString), EncodeOpt(x.type_, EncodeString), EncodeSchemaOpt(x.not), EncodeSchemaList(x.all_of), EncodeSchemaList(x.one_of), EncodeSchemaList(x.any_of), EncodeSchemaOpt(x.items), EncodeSchemaMap(x.properties), EncodeSchemaOpt(x.additional_properties), EncodeOpt(x.description, EncodeString), EncodeOpt(x.format, EncodeString), EncodeOpt(x.default, EncodeAny), EncodeOpt(x.nullable, EncodeBool), EncodeOpt(x.discriminator, EncodeDiscriminator), EncodeOpt(x.read_only, EncodeBool), EncodeOpt(x.write_only, EncodeBool), EncodeOpt(x.xml, EncodeXML), EncodeOpt(x.example, EncodeAny), EncodeOpt(x.deprecated, EncodeBool)];
    ObjectOfLookup(SchemaWireNames, values, 21);
  }

  lemma SchemaWritesAdditionalProperties(x: Schema)
    ensures Field(EncodeSchema(x).fields, "additionalProperties") == EncodeSchemaOpt(x.additional_properties)
  {
    var values := [EncodeOpt(x.title, EncodeString), EncodeOpt(x.multiple_of, EncodeF64), EncodeOpt(x.maximum, EncodeF64), EncodeOpt(x.exclusive_maximum, EncodeBool), EncodeOpt(x.minimum, EncodeF64), EncodeOpt(x.exclusive_minimum, EncodeBool), EncodeOpt(x.max_length, EncodeU32), EncodeOpt(x.min_length, EncodeU32), EncodeOpt(x.pattern, EncodeString), EncodeOpt(x.max_items, EncodeU32), EncodeOpt(x.min_items, EncodeU32), EncodeOpt(x.unique_items, EncodeBool), EncodeOpt(x.max_properties, EncodeU32), EncodeOpt(x.min_properties, EncodeU32), EncodeOptList(x.required, EncodeString), EncodeOpt(x.type_, EncodeString), EncodeSchemaOpt(x.not), EncodeSchemaList(x.all_of), EncodeSchemaList(x.one_of), EncodeSchemaList(x.any_of), EncodeSchemaOpt(x.items), EncodeSchemaMap(x.properties), EncodeSchemaOpt(x.additional_properties), EncodeOpt(x.description, EncodeString), EncodeOpt(x.format, EncodeString), EncodeOpt(x.default, EncodeAny), EncodeOpt(x.nullable, EncodeBool), EncodeOpt(x.discriminator, EncodeDiscriminator), EncodeOpt(x.read_only, EncodeBool), EncodeOpt(x.write_only, EncodeBool), EncodeOpt(x.xml, EncodeXML), EncodeOpt(x.example, EncodeAny), EncodeOpt(x.deprecated, EncodeBool)];
    ObjectOfLookup(SchemaWireNames, values, 22);
  }

  lemma SchemaWritesDescription(x: Schema)
    ensures Field(EncodeSchema(x).fields, "description") == EncodeOpt(x.description, EncodeString)
  {
    var values := [EncodeOpt(x.title, EncodeString), EncodeOpt(x.multiple_of, EncodeF64), EncodeOpt(x.maximum, EncodeF64), EncodeOpt(x.exclusive_maximum, EncodeBool), EncodeOpt(x.minimum, EncodeF64), EncodeOpt(x.exclusive_minimum, EncodeBool), EncodeOpt(x.max_length, EncodeU32), EncodeOpt(x.min_length, EncodeU32), EncodeOpt(x.pattern, EncodeString), EncodeOpt(x.max_items, EncodeU32), EncodeOpt(x.min_items, EncodeU32), EncodeOpt(x.unique_items, EncodeBool), EncodeOpt(x.max_properties, EncodeU32), EncodeOpt(x.min_properties, EncodeU32), EncodeOptList(x.required, EncodeString), EncodeOpt(x.type_, EncodeString), EncodeSchemaOpt(x.not), EncodeSchemaList(x.all_of), EncodeSchemaList(x.one_of), EncodeSchemaList(x.any_of), EncodeSchemaOpt(x.items), EncodeSchemaMap(x.properties), EncodeSchemaOpt(x.additional_properties), EncodeOpt(x.description, EncodeString), EncodeOpt(x.format, EncodeString), EncodeOpt(x.default, EncodeAny), EncodeOpt(x.nullable, EncodeBool), EncodeOpt(x.discriminator, EncodeDiscriminator), EncodeOpt(x.read_only, EncodeBool), EncodeOpt(x.write_only, EncodeBool), EncodeOpt(x.xml, EncodeXML), EncodeOpt(x.example, EncodeAny), EncodeOpt(x.deprecated, EncodeBool)];
    ObjectOfLookup(SchemaWireNames, values, 23);
  }

  lemma SchemaWritesFormat(x: Schema)
    ensures Field(EncodeSchema(x).fields, "format") == EncodeOpt(x.format, EncodeString)
  {
    var values := [EncodeOpt(x.title, EncodeString), EncodeOpt(x.multiple_of, EncodeF64), EncodeOpt(x.maximum, EncodeF64), EncodeOpt(x.exclusive_maximum, EncodeBool), EncodeOpt(x.minimum, EncodeF64), EncodeOpt(x.exclusive_minimum, EncodeBool), EncodeOpt(x.max_length, EncodeU32), EncodeOpt(x.min_length, EncodeU32), EncodeOpt(x.pattern, EncodeString), EncodeOpt(x.max_items, EncodeU32), EncodeOpt(x.min_items, EncodeU32), EncodeOpt(x.unique_items, EncodeBool), EncodeOpt(x.max_properties, EncodeU32), EncodeOpt(x.min_properties, EncodeU32), EncodeOptList(x.required, EncodeString), EncodeOpt(x.type_, EncodeString), EncodeSchemaOpt(x.not), EncodeSchemaList(x.all_of), EncodeSchemaList(x.one_of), EncodeSchemaList(x.any_of), EncodeSchemaOpt(x.items), EncodeSchemaMap(x.properties), EncodeSchemaOpt(x.additional_properties), EncodeOpt(x.description, EncodeString), EncodeOpt(x.format, EncodeString), EncodeOpt(x.default, EncodeAny), EncodeOpt(x.nullable, EncodeBool), EncodeOpt(x.discriminator, EncodeDiscriminator), EncodeOpt(x.read_only, EncodeBool), EncodeOpt(x.write_only, EncodeBool), EncodeOpt(x.xml, EncodeXML), EncodeOpt(x.example, EncodeAny), EncodeOpt(x.deprecated, EncodeBool)];
    ObjectOfLookup(SchemaWireNames, values, 24);
  }

  lemma SchemaWritesDefault(x: Schema)
    ensures Field(EncodeSchema(x).fields, "default") == EncodeOpt(x.default, EncodeAny)
  {
    var values := [EncodeOpt(x.title, EncodeString), EncodeOpt(x.multiple_of, EncodeF64), EncodeOpt(x.maximum, EncodeF64), EncodeOpt(x.exclusive_maximum, EncodeBool), EncodeOpt(x.minimum, EncodeF64), EncodeOpt(x.exclusive_minimum, EncodeBool), EncodeOpt(x.max_length, EncodeU32), EncodeOpt(x.min_length, EncodeU32), EncodeOpt(x.pattern, EncodeString), EncodeOpt(x.max_items, EncodeU32), EncodeOpt(x.min_items, EncodeU32), EncodeOpt(x.unique_items, EncodeBool), EncodeOpt(x.max_properties, EncodeU32), EncodeOpt(x.min_properties, EncodeU32), EncodeOptList(x.required, EncodeString), EncodeOpt(x.type_, EncodeString), EncodeSchemaOpt(x.not), EncodeSchemaList(x.all_of), EncodeSchemaList(x.one_of), EncodeSchemaList(x.any_of), EncodeSchemaOpt(x.items), EncodeSchemaMap(x.properties), EncodeSchemaOpt(x.additional_properties), EncodeOpt(x.description, EncodeString), EncodeOpt(x.format, EncodeString), EncodeOpt(x.default, EncodeAny), EncodeOpt(x.nullable, EncodeBool), EncodeOpt(x.discriminator, EncodeDiscriminator), EncodeOpt(x.read_only, EncodeBool), EncodeOpt(x.write_only, EncodeBool), EncodeOpt(x.xml, EncodeXML), EncodeOpt(x.example, EncodeAny), EncodeOpt(x.deprecated, EncodeBool)];
    ObjectOfLookup(SchemaWireNames, values, 25);
  }

  lemma SchemaWritesNullable(x: Schema)
    ensures Field(EncodeSchema(x).fields, "nullable") == EncodeOpt(x.nullable, EncodeBool)
  {
    var values := [EncodeOpt(x.title, EncodeString), EncodeOpt(x.multiple_of, EncodeF64), EncodeOpt(x.maximum, EncodeF64), EncodeOpt(x.exclusive_maximum, EncodeBool), EncodeOpt(x.minimum, EncodeF64), EncodeOpt(x.exclusive_minimum, EncodeBool), EncodeOpt(x.max_length, EncodeU32), EncodeOpt(x.min_length, EncodeU32), EncodeOpt(x.pattern, EncodeString), EncodeOpt(x.max_items, EncodeU32), EncodeOpt(x.min_items, EncodeU32), EncodeOpt(x.unique_items, EncodeBool), EncodeOpt(x.max_properties, EncodeU32), EncodeOpt(x.min_properties, EncodeU32), EncodeOptList(x.required, EncodeString), EncodeOpt(x.type_, EncodeString), EncodeSchemaOpt(x.not), EncodeSchemaList(x.all_of), EncodeSchemaList(x.one_of), EncodeSchemaList(x.any_of), EncodeSchemaOpt(x.items), EncodeSchemaMap(x.properties), EncodeSchemaOpt(x.additional_properties), EncodeOpt(x.description, EncodeString), EncodeOpt(x.format, EncodeString), EncodeOpt(x.default, EncodeAny), EncodeOpt(x.nullable, EncodeBool), EncodeOpt(x.discriminator, EncodeDiscriminator), EncodeOpt(x.read_only, EncodeBool), EncodeOpt(x.write_only, EncodeBool), EncodeOpt(x.xml, EncodeXML), EncodeOpt(x.example, EncodeAny), EncodeOpt(x.deprecated, EncodeBool)];
    ObjectOfLookup(SchemaWireNames, values, 26);
  }

  lemma SchemaWritesDiscriminator(x: Schema)
    ensures Field(EncodeSchema(x).fields, "discriminator") == EncodeOpt(x.discriminator, EncodeDiscriminator)
  {
    var values := [EncodeOpt(x.title, EncodeString), EncodeOpt(x.multiple_of, EncodeF64), EncodeOpt(x.maximum, EncodeF64), EncodeOpt(x.exclusive_maximum, EncodeBool), EncodeOpt(x.minimum, EncodeF64), EncodeOpt(x.exclusive_minimum, EncodeBool), EncodeOpt(x.max_length, EncodeU32), EncodeOpt(x.min_length, EncodeU32), EncodeOpt(x.pattern, EncodeString), EncodeOpt(x.max_items, EncodeU32), EncodeOpt(x.min_items, EncodeU32), EncodeOpt(x.unique_items, EncodeBool), EncodeOpt(x.max_properties, EncodeU32), EncodeOpt(x.min_properties, EncodeU32), EncodeOptList(x.required, EncodeString), EncodeOpt(x.type_, EncodeString), EncodeSchemaOpt(x.not), EncodeSchemaList(x.all_of), EncodeSchemaList(x.one_of), EncodeSchemaList(x.any_of), EncodeSchemaOpt(x.items), EncodeSchemaMap(x.properties), EncodeSchemaOpt(x.additional_properties), EncodeOpt(x.description, EncodeString), EncodeOpt(x.format, EncodeString), EncodeOpt(x.default, EncodeAny), EncodeOpt(x.nullable, EncodeBool), EncodeOpt(x.discriminator, EncodeDiscriminator), EncodeOpt(x.read_only, EncodeBool), EncodeOpt(x.write_only, EncodeBool), EncodeOpt(x.xml, EncodeXML), EncodeOpt(x.example, EncodeAny), EncodeOpt(x.deprecated, EncodeBool)];
    ObjectOfLookup(SchemaWireNames, values, 27);
  }

  lemma SchemaWritesReadOnly(x: Schema)
    ensures Field(EncodeSchema(x).fields, "readOnly") == EncodeOpt(x.read_only, EncodeBool)
  {
    var values := [EncodeOpt(x.title, EncodeString), EncodeOpt(x.multiple_of, EncodeF64), EncodeOpt(x.maximum, EncodeF64), EncodeOpt(x.exclusive_maximum, EncodeBool), EncodeOpt(x.minimum, EncodeF64), EncodeOpt(x.exclusive_minimum, EncodeBool), EncodeOpt(x.max_length, EncodeU32), EncodeOpt(x.min_length, EncodeU32), EncodeOpt(x.pattern, EncodeString), EncodeOpt(x.max_items, EncodeU32), EncodeOpt(x.min_items, EncodeU32), EncodeOpt(x.unique_items, EncodeBool), EncodeOpt(x.max_properties, EncodeU32), EncodeOpt(x.min_properties, EncodeU32), EncodeOptList(x.required, EncodeString), EncodeOpt(x.type_, EncodeString), EncodeSchemaOpt(x.not), EncodeSchemaList(x.all_of), EncodeSchemaList(x.one_of), EncodeSchemaList(x.any_of), EncodeSchemaOpt(x.items), EncodeSchemaMap(x.properties), EncodeSchemaOpt(x.additional_properties), EncodeOpt(x.description, EncodeString), EncodeOpt(x.format, EncodeString), EncodeOpt(x.default, EncodeAny), EncodeOpt(x.nullable, EncodeBool), EncodeOpt(x.discriminator, EncodeDiscriminator), EncodeOpt(x.read_only, EncodeBool), EncodeOpt(x.write_only, EncodeBool), EncodeOpt(x.xml, EncodeXML), EncodeOpt(x.example, EncodeAny), EncodeOpt(x.deprecated, EncodeBool)];
    ObjectOfLookup(SchemaWireNames, values, 28);
  }

  lemma SchemaWritesWriteOnly(x: Schema)
    ensures Field(EncodeSchema(x).fields, "writeOnly") == EncodeOpt(x.write_only, EncodeBool)
  {
    var values := [EncodeOpt(x.title, EncodeString), EncodeOpt(x.multiple_of, EncodeF64), EncodeOpt(x.maximum, EncodeF64), EncodeOpt(x.exclusive_maximum, EncodeBool), EncodeOpt(x.minimum, EncodeF64), EncodeOpt(x.exclusive_minimum, EncodeBool), EncodeOpt(x.max_length, EncodeU32), EncodeOpt(x.min_length, EncodeU32), EncodeOpt(x.pattern, EncodeString), EncodeOpt(x.max_items, EncodeU32), EncodeOpt(x.min_items, EncodeU32), EncodeOpt(x.unique_items, EncodeBool), EncodeOpt(x.max_properties, EncodeU32), EncodeOpt(x.min_properties, EncodeU32), EncodeOptList(x.required, EncodeString), EncodeOpt(x.type_, EncodeString), EncodeSchemaOpt(x.not), EncodeSchemaList(x.all_of), EncodeSchemaList(x.one_of), EncodeSchemaList(x.any_of), EncodeSchemaOpt(x.items), EncodeSchemaMap(x.properties), EncodeSchemaOpt(x.additional_properties), EncodeOpt(x.description, EncodeString), EncodeOpt(x.format, EncodeString), EncodeOpt(x.default, EncodeAny), EncodeOpt(x.nullable, EncodeBool), EncodeOpt(x.discriminator, EncodeDiscriminator), EncodeOpt(x.read_only, EncodeBool), EncodeOpt(x.write_only, EncodeBool), EncodeOpt(x.xml, EncodeXML), EncodeOpt(x.example, EncodeAny), EncodeOpt(x.deprecated, EncodeBool)];
    ObjectOfLookup(SchemaWireNames, values, 29);
  }

  lemma SchemaWritesXml(x: Schema)
    ensures Field(EncodeSchema(x).fields, "xml") == EncodeOpt(x.xml, EncodeXML)
  {
    var values := [EncodeOpt(x.title, EncodeString), EncodeOpt(x.multiple_of, EncodeF64), EncodeOpt(x.maximum, EncodeF64), EncodeOpt(x.exclusive_maximum, EncodeBool), EncodeOpt(x.minimum, EncodeF64), EncodeOpt(x.exclusive_minimum, EncodeBool), EncodeOpt(x.max_length, EncodeU32), EncodeOpt(x.min_length, EncodeU32), EncodeOpt(x.pattern, EncodeString), EncodeOpt(x.max_items, EncodeU32), EncodeOpt(x.min_items, EncodeU32), EncodeOpt(x.unique_items, EncodeBool), EncodeOpt(x.max_properties, EncodeU32), EncodeOpt(x.min_properties, EncodeU32), EncodeOptList(x.required, EncodeString), EncodeOpt(x.type_, EncodeString), EncodeSchemaOpt(x.not), EncodeSchemaList(x.all_of), EncodeSchemaList(x.one_of), EncodeSchemaList(x.any_of), EncodeSchemaOpt(x.items), EncodeSchemaMap(x.properties), EncodeSchemaOpt(x.additional_properties), EncodeOpt(x.description, EncodeString), EncodeOpt(x.format, EncodeString), EncodeOpt(x.default, EncodeAny), EncodeOpt(x.nullable, EncodeBool), EncodeOpt(x.discriminator, EncodeDiscriminator), EncodeOpt(x.read_only, EncodeBool), EncodeOpt(x.write_only, EncodeBool), EncodeOpt(x.xml, EncodeXML), EncodeOpt(x.example, EncodeAny), EncodeOpt(x.deprecated, EncodeBool)];
    ObjectOfLookup(SchemaWireNames, values, 30);
  }

  lemma SchemaWritesExample(x: Schema)
    ensures Field(EncodeSchema(x).fields, "example") == EncodeOpt(x.example, EncodeAny)
  {
    var values := [EncodeOpt(x.title, EncodeString), EncodeOpt(x.multiple_of, EncodeF64), EncodeOpt(x.maximum, EncodeF64), EncodeOpt(x.exclusive_maximum, EncodeBool), EncodeOpt(x.minimum, EncodeF64), EncodeOpt(x.exclusive_minimum, EncodeBool), EncodeOpt(x.max_length, EncodeU32), EncodeOpt(x.min_length, EncodeU32), EncodeOpt(x.pattern, EncodeString), EncodeOpt(x.max_items, EncodeU32), EncodeOpt(x.min_items, EncodeU32), EncodeOpt(x.unique_items, EncodeBool), EncodeOpt(x.max_properties, EncodeU32), EncodeOpt(x.min_properties, EncodeU32), EncodeOptList(x.required, EncodeString), EncodeOpt(x.type_, EncodeString), EncodeSchemaOpt(x.not), EncodeSchemaList(x.all_of), EncodeSchemaList(x.one_of), EncodeSchemaList(x.any_of), EncodeSchemaOpt(x.items), EncodeSchemaMap(x.properties), EncodeSchemaOpt(x.additional_properties), EncodeOpt(x.description, EncodeString), EncodeOpt(x.format, EncodeString), EncodeOpt(x.default, EncodeAny), EncodeOpt(x.nullable, EncodeBool), EncodeOpt(x.discriminator, EncodeDiscriminator), EncodeOpt(x.read_only, EncodeBool), EncodeOpt(x.write_only, EncodeBool), EncodeOpt(x.xml, EncodeXML), EncodeOpt(x.example, EncodeAny), EncodeOpt(x.deprecated, EncodeBool)];
    ObjectOfLookup(SchemaWireNames, values, 31);
  }

  lemma SchemaWritesDeprecated(x: Schema)
    ensures Field(EncodeSchema(x).fields, "deprecated") == EncodeOpt(x.deprecated, EncodeBool)
  {
    var values := [EncodeOpt(x.title, EncodeString), EncodeOpt(x.multiple_of, EncodeF64), EncodeOpt(x.maximum, EncodeF64), EncodeOpt(x.exclusive_maximum, EncodeBool), EncodeOpt(x.minimum, EncodeF64), EncodeOpt(x.exclusive_minimum, EncodeBool), EncodeOpt(x.max_length, EncodeU32), EncodeOpt(x.min_length, EncodeU32), EncodeOpt(x.pattern, EncodeString), EncodeOpt(x.max_items, EncodeU32), EncodeOpt(x.min_items, EncodeU32), EncodeOpt(x.unique_items, EncodeBool), EncodeOpt(x.max_properties, EncodeU32), EncodeOpt(x.min_properties, EncodeU32), EncodeOptList(x.required, EncodeString), EncodeOpt(x.type_, EncodeString), EncodeSchemaOpt(x.not), EncodeSchemaList(x.all_of), EncodeSchemaList(x.one_of), EncodeSchemaList(x.any_of), EncodeSchemaOpt(x.items), EncodeSchemaMap(x.properties), EncodeSchemaOpt(x.additional_properties), EncodeOpt(x.description, EncodeString), EncodeOpt(x.format, EncodeString), EncodeOpt(x.default, EncodeAny), EncodeOpt(x.nullable, EncodeBool), EncodeOpt(x.discriminator, EncodeDiscriminator), EncodeOpt(x.read_only, EncodeBool), EncodeOpt(x.write_only, EncodeBool), EncodeOpt(x.xml, EncodeXML), EncodeOpt(x.example, EncodeAny), EncodeOpt(x.deprecated, EncodeBool)];
    ObjectOfLookup(SchemaWireNames, values, 32);
  }

  lemma {:induction false} SchemaReadsBack1(x: Schema)
    requires CanonicalSchema(x)
    ensures DecodeOpt(Field(EncodeSchema(x).fields, "title"), DecodeString) == Ok(x.title)
    ensures DecodeOpt(Field(EncodeSchema(x).fields, "multipleOf"), DecodeF64) == Ok(x.multiple_of)
    ensures DecodeOpt(Field(EncodeSchema(x).fields, "maximum"), DecodeF64) == Ok(x.maximum)
    ensures DecodeOpt(Field(EncodeSchema(x).fields, "exclusiveMaximum"), DecodeBool) == Ok(x.exclusive_maximum)
    ensures DecodeOpt(Field(EncodeSchema(x).fields, "minimum"), DecodeF64) == Ok(x.minimum)
    ensures DecodeOpt(Field(EncodeSchema(x).fields, "exclusiveMinimum"), DecodeBool) == Ok(x.exclusive_minimum)
    decreases x, 2
  {
    var f := EncodeSchema(x).fields;
    SchemaWritesTitle(x);
    SchemaWritesMultipleOf(x);
    SchemaWritesMaximum(x);
    SchemaWritesExclusiveMaximum(x);
    SchemaWritesMinimum(x);
    SchemaWritesExclusiveMinimum(x);
    OptRoundTrip(x.title, EncodeString, DecodeString);
    OptRoundTrip(x.multiple_of, EncodeF64, DecodeF64);
    OptRoundTrip(x.maximum, EncodeF64, DecodeF64);
    OptRoundTrip(x.exclusive_maximum, EncodeBool, DecodeBool);
    OptRoundTrip(x.minimum, EncodeF64, DecodeF64);
    OptRoundTrip(x.exclusive_minimum, EncodeBool, DecodeBool);
  }

  lemma {:induction false} SchemaReadsBack2(x: Schema)
    requires CanonicalSchema(x)
    ensures DecodeOpt(Field(EncodeSchema(x).fields, "maxLength"), DecodeU32) == Ok(x.max_length)
    ensures DecodeOpt(Field(EncodeSchema(x).fields, "minLength"), DecodeU32) == Ok(x.min_length)
    ensures DecodeOpt(Field(EncodeSchema(x).fields, "pattern"), DecodeString) == Ok(x.pattern)
    ensures DecodeOpt(Field(EncodeSchema(x).fields, "maxItems"), DecodeU32) == Ok(x.max_items)
    ensures DecodeOpt(Field(EncodeSchema(x).fields, "minItems"), DecodeU32) == Ok(x.min_items)
    ensures DecodeOpt(Field(EncodeSchema(x).fields, "uniqueItems"), DecodeBool) == Ok(x.unique_items)
    decreases x, 2
  {
    var f := EncodeSchema(x).fields;
    SchemaWritesMaxLength(x);
    SchemaWritesMinLength(x);
    SchemaWritesPattern(x);
    SchemaWritesMaxItems(x);
    SchemaWritesMinItems(x);
    SchemaWritesUniqueItems(x);
    OptRoundTrip(x.max_length, EncodeU32, DecodeU32);
    OptRoundTrip(x.min_length, EncodeU32, DecodeU32);
    OptRoundTrip(x.pattern, EncodeString, DecodeString);
    OptRoundTrip(x.max_items, EncodeU32, DecodeU32);
    OptRoundTrip(x.min_items, EncodeU32, DecodeU32);
    OptRoundTrip(x.unique_items, EncodeBool, DecodeBool);
  }

  lemma {:induction false} SchemaReadsBack3(x: Schema)
    requires CanonicalSchema(x)
    ensures DecodeOpt(Field(EncodeSchema(x).fields, "maxProperties"), DecodeU32) == Ok(x.max_properties)
    ensures DecodeOpt(Field(EncodeSchema(x).fields, "minProperties"), DecodeU32) == Ok(x.min_properties)
    ensures DecodeOptList(Field(EncodeSchema(x).fields, "required"), DecodeString) == Ok(x.required)
    ensures DecodeOpt(Field(EncodeSchema(x).fields, "type"), DecodeString) == Ok(x.type_)
    ensures DecodeSchemaAt(EncodeSchema(x).fields, "not") == Ok(x.not)
    ensures DecodeSchemasAt(EncodeSchema(x).fields, "allOf") == Ok(x.all_of)
    decreases x, 2
  {
    var f := EncodeSchema(x).fields;
    SchemaWritesMaxProperties(x);
    SchemaWritesMinProperties(x);
    SchemaWritesRequired(x);
    SchemaWritesType(x);
    SchemaWritesNot(x);
    SchemaWritesAllOf(x);
    OptRoundTrip(x.max_properties, EncodeU32, DecodeU32);
    OptRoundTrip(x.min_properties, EncodeU32, DecodeU32);
    OptListRoundTrip(x.required, EncodeString, DecodeString);
    OptRoundTrip(x.type_, EncodeString, DecodeString);
    SchemaAtRoundTrip(f, "not", x.not);
    SchemasAtRoundTrip(f, "allOf", x.all_of);
  }

  lemma {:induction false} SchemaReadsBack4(x: Schema)
    requires CanonicalSchema(x)
    ensures DecodeSchemasAt(EncodeSchema(x).fields, "oneOf") == Ok(x.one_of)
    ensures DecodeSchemasAt(EncodeSchema(x).fields, "anyOf") == Ok(x.any_of)
    ensures DecodeSchemaAt(EncodeSchema(x).fields, "items") == Ok(x.items)
    ensures DecodePropertiesAt(EncodeSchema(x).fields, "properties") == Ok(x.properties)
    ensures DecodeSchemaAt(EncodeSchema(x).fields, "additionalProperties") == Ok(x.additional_properties)
    ensures DecodeOpt(Field(EncodeSchema(x).fields, "description"), DecodeString) == Ok(x.description)
    decreases x, 2
  {
    var f := EncodeSchema(x).fields;
    SchemaWritesOneOf(x);
    SchemaWritesAnyOf(x);
    SchemaWritesItems(x);
    SchemaWritesProperties(x);
    SchemaWritesAdditionalProperties(x);
    SchemaWritesDescription(x);
    SchemasAtRoundTrip(f, "oneOf", x.one_of);
    SchemasAtRoundTrip(f, "anyOf", x.any_of);
    SchemaAtRoundTrip(f, "items", x.items);
    PropertiesAtRoundTrip(f, "properties", x.properties);
    SchemaAtRoundTrip(f, "additionalProperties", x.additional_properties);
    OptRoundTrip(x.description, EncodeString, DecodeString);
  }

  lemma {:induction false} SchemaReadsBack5(x: Schema)
    requires CanonicalSchema(x)
    ensures DecodeOpt(Field(EncodeSchema(x).fields, "format"), DecodeString) == Ok(x.format)
    ensures DecodeOpt(Field(EncodeSchema(x).fields, "default"), DecodeAny) == Ok(x.default)
    ensures DecodeOpt(Field(EncodeSchema(x).fields, "nullable"), DecodeBool) == Ok(x.nullable)
    ensures DecodeOpt(Field(EncodeSchema(x).fields, "discriminator"), DecodeDiscriminator) == Ok(x.discriminator)
    ensures DecodeOpt(Field(EncodeSchema(x).fields, "readOnly"), DecodeBool) == Ok(x.read_only)
    ensures DecodeOpt(Field(EncodeSchema(x).fields, "writeOnly"), DecodeBool) == Ok(x.write_only)
    decreases x, 2
  {
    var f := EncodeSchema(x).fields;
    SchemaWritesFormat(x);
    SchemaWritesDefault(x);
    SchemaWritesNullable(x);
    SchemaWritesDiscriminator(x);
    SchemaWritesReadOnly(x);
    SchemaWritesWriteOnly(x);
    OptRoundTrip(x.format, EncodeString, DecodeString);
    OptRoundTrip(x.default, EncodeAny, DecodeAny);
    OptRoundTrip(x.nullable, EncodeBool, DecodeBool);
    if x.discriminator.Some? { DiscriminatorRoundTrip(x.discriminator.value); }
    OptRoundTrip(x.discriminator, EncodeDiscriminator, DecodeDiscriminator);
    OptRoundTrip(x.read_only, EncodeBool, DecodeBool);
    OptRoundTrip(x.write_only, EncodeBool, DecodeBool);
  }

  lemma {:induction false} SchemaReadsBack6(x: Schema)
    requires CanonicalSchema(x)
    ensures DecodeOpt(Field(EncodeSchema(x).fields, "xml"), DecodeXML) == Ok(x.xml)
    ensures DecodeOpt(Field(EncodeSchema(x).fields, "example"), DecodeAny) == Ok(x.example)
    ensures DecodeOpt(Field(EncodeSchema(x).fields, "deprecated"), DecodeBool) == Ok(x.deprecated)
    decreases x, 2
  {
    var f := EncodeSchema(x).fields;
    SchemaWritesXml(x);
    SchemaWritesExample(x);
    SchemaWritesDeprecated(x);
    if x.xml.Some? { XMLRoundTrip(x.xml.value); }
    OptRoundTrip(x.xml, EncodeXML, DecodeXML);
    OptRoundTrip(x.example, EncodeAny, DecodeAny);
    OptRoundTrip(x.deprecated, EncodeBool, DecodeBool);
  }

  lemma SchemaDecodedFrom(f: map<string, Value>, x: Schema)
    requires DecodeOpt(Field(f, "title"), DecodeString) == Ok(x.title)
    requires DecodeOpt(Field(f, "multipleOf"), DecodeF64) == Ok(x.multiple_of)
    requires DecodeOpt(Field(f, "maximum"), DecodeF64) == Ok(x.maximum)
    requires DecodeOpt(Field(f, "exclusiveMaximum"), DecodeBool) == Ok(x.exclusive_maximum)
    requires DecodeOpt(Field(f, "minimum"), DecodeF64) == Ok(x.minimum)
    requires DecodeOpt(Field(f, "exclusiveMinimum"), DecodeBool) == Ok(x.exclusive_minimum)
    requires DecodeOpt(Field(f, "maxLength"), DecodeU32) == Ok(x.max_length)
    requires DecodeOpt(Field(f, "minLength"), DecodeU32) == Ok(x.min_length)
    requires DecodeOpt(Field(f, "pattern"), DecodeString) == Ok(x.pattern)
    requires DecodeOpt(Field(f, "maxItems"), DecodeU32) == Ok(x.max_items)
    requires DecodeOpt(Field(f, "minItems"), DecodeU32) == Ok(x.min_items)
    requires DecodeOpt(Field(f, "uniqueItems"), DecodeBool) == Ok(x.unique_items)
    requires DecodeOpt(Field(f, "maxProperties"), DecodeU32) == Ok(x.max_properties)
    requires DecodeOpt(Field(f, "minProperties"), DecodeU32) == Ok(x.min_properties)
    requires DecodeOptList(Field(f, "required"), DecodeString) == Ok(x.required)
    requires DecodeOpt(Field(f, "type"), DecodeString) == Ok(x.type_)
    requires DecodeSchemaAt(f, "not") == Ok(x.not)
    requires DecodeSchemasAt(f, "allOf") == Ok(x.all_of)
    requires DecodeSchemasAt(f, "oneOf") == Ok(x.one_of)
    requires DecodeSchemasAt(f, "anyOf") == Ok(x.any_of)
    requires DecodeSchemaAt(f, "items") == Ok(x.items)
    requires DecodePropertiesAt(f, "properties") == Ok(x.properties)
    requires DecodeSchemaAt(f, "additionalProperties") == Ok(x.additional_properties)
    requires DecodeOpt(Field(f, "description"), DecodeString) == Ok(x.description)
    requires DecodeOpt(Field(f, "format"), DecodeString) == Ok(x.format)
    requires DecodeOpt(Field(f, "default"), DecodeAny) == Ok(x.default)
    requires DecodeOpt(Field(f, "nullable"), DecodeBool) == Ok(x.nullable)
    requires DecodeOpt(Field(f, "discriminator"), DecodeDiscriminator) == Ok(x.discriminator)
    requires DecodeOpt(Field(f, "readOnly"), DecodeBool) == Ok(x.read_only)
    requires DecodeOpt(Field(f, "writeOnly"), DecodeBool) == Ok(x.write_only)
    requires DecodeOpt(Field(f, "xml"), DecodeXML) == Ok(x.xml)
    requires DecodeOpt(Field(f, "example"), DecodeAny) == Ok(x.example)
    requires DecodeOpt(Field(f, "deprecated"), DecodeBool) == Ok(x.deprecated)
    ensures DecodeSchema(Obj(f)) == Ok(x)
  {
  }

  lemma {:induction false} SchemaRoundTrip(x: Schema)
    requires CanonicalSchema(x)
    ensures DecodeSchema(EncodeSchema(x)) == Ok(x)
    decreases x, 3
  {
    SchemaReadsBack1(x);
    SchemaReadsBack2(x);
    SchemaReadsBack3(x);
    SchemaReadsBack4(x);
    SchemaReadsBack5(x);
    SchemaReadsBack6(x);
    SchemaDecodedFrom(EncodeSchema(x).fields, x);
  }


  lemma {:induction false} SchemaAtRoundTrip(f: map<string, Value>, key: string, o: Option<Schema>)
    requires Field(f, key) == EncodeSchemaOpt(o)
    requires o.Some? ==> CanonicalSchema(o.value)
    ensures DecodeSchemaAt(f, key) == Ok(o)
    decreases o, 0
  {
    if o.Some? {
      SchemaRoundTrip(o.value);
    }
  }

  lemma {:induction false} SchemasAtRoundTrip(f: map<string, Value>, key: string, l: SchemaList)
    requires Field(f, key) == EncodeSchemaList(l)
    requires CanonicalSchemaList(l)
    ensures DecodeSchemasAt(f, key) == Ok(l)
    decreases l, 0
  {
    if l.Schemas? {
      var elems := Field(f, key).elems;
      forall i | 0 <= i < |l.list| ensures DecodeSchema(elems[i]) == Ok(l.list[i]) {
        SchemaRoundTrip(l.list[i]);
      }
      var r := DecodeSchemaElems(elems);
      assert r.Ok? && r.value == l.list;
    }
  }

  lemma PropertiesDecodedFrom(f: map<string, Value>, key: string, entries: map<string, Schema>)
    requires Field(f, key).Obj? && Field(f, key).fields.Keys == entries.Keys
    requires forall k | k in entries :: DecodeSchema(Field(f, key).fields[k]) == Ok(entries[k])
    ensures DecodePropertiesAt(f, key) == Ok(Properties(entries))
  {
    var fields := Field(f, key).fields;
    var decoded := map k | k in fields :: DecodeSchema(fields[k]).value;
    assert decoded == entries;
  }

  lemma {:induction false} PropertiesAtRoundTrip(f: map<string, Value>, key: string, m: SchemaMap)
    requires Field(f, key) == EncodeSchemaMap(m)
    requires CanonicalSchemaMap(m)
    ensures DecodePropertiesAt(f, key) == Ok(m)
    decreases m, 0
  {
    if m.Properties? {
      var fields := Field(f, key).fields;
      forall k | k in m.entries ensures k in fields && DecodeSchema(fields[k]) == Ok(m.entries[k]) {
        assert m.entries[k] in m.entries.Values;
        SchemaRoundTrip(m.entries[k]);
      }
      PropertiesDecodedFrom(f, key, m.entries);
    }
  }

  /** A `properties` map fails only as `HashMap` does: a value that is
    * neither null nor an object is no map, and otherwise the error is that
    * of a named Schema that does not decode. */
  lemma PropertiesAtError(f: map<string, Value>, key: string)
    requires DecodePropertiesAt(f, key).Err?
    ensures !Field(f, key).Obj? ==> DecodePropertiesAt(f, key) == Err(InvalidType("a map"))
    ensures Field(f, key).Obj? ==> exists k | k in Field(f, key).fields ::
      DecodeSchema(Field(f, key).fields[k]) == Err(DecodePropertiesAt(f, key).error)
  {
  }

  // ---------------------------------------------------------------------
  // Wire names: each record writes exactly its declared names, reads nothing
  // else (no record but Responses has a catch-all), and reads a null as a
  // missing key.
  // ---------------------------------------------------------------------

  lemma OpenApiSpecWritesExactlyItsNames(x: OpenApiSpec)
    ensures EncodeOpenApiSpec(x).fields.Keys == set k | k in OpenApiSpecWireNames
  {
    ObjectOfKeys(OpenApiSpecWireNames, [EncodeOpt(x.openapi, EncodeString), EncodeOpt(x.info, EncodeInfo), EncodeOptMap(x.paths, EncodePathItem), EncodeOpt(x.components, EncodeComponents), EncodeOptList(x.servers, EncodeServer)]);
  }

  lemma OpenApiSpecReadsOnlyItsNames(m1: map<string, Value>, m2: map<string, Value>)
    requires Field(m1, "openapi") == Field(m2, "openapi")
    requires Field(m1, "info") == Field(m2, "info")
    requires Field(m1, "paths") == Field(m2, "paths")
    requires Field(m1, "components") == Field(m2, "components")
    requires Field(m1, "servers") == Field(m2, "servers")
    ensures DecodeOpenApiSpec(Obj(m1)) == DecodeOpenApiSpec(Obj(m2))
  {
  }

  lemma OpenApiSpecIgnoresUndeclaredKey(m: map<string, Value>, k: string, v: Value)
    requires k !in OpenApiSpecWireNames
    ensures DecodeOpenApiSpec(Obj(m[k := v])) == DecodeOpenApiSpec(Obj(m))
  {
    OpenApiSpecReadsOnlyItsNames(m[k := v], m);
  }

  /** A decoded OpenApiSpec holds, field by field, what its wire name held. */
  lemma OpenApiSpecReadsItsNames(m: map<string, Value>)
    requires DecodeOpenApiSpec(Obj(m)).Ok?
    ensures DecodeOpt(Field(m, "openapi"), DecodeString) == Ok(DecodeOpenApiSpec(Obj(m)).value.openapi)
    ensures DecodeOpt(Field(m, "info"), DecodeInfo) == Ok(DecodeOpenApiSpec(Obj(m)).value.info)
    ensures DecodeOptMap(Field(m, "paths"), DecodePathItem) == Ok(DecodeOpenApiSpec(Obj(m)).value.paths)
    ensures DecodeOpt(Field(m, "components"), DecodeComponents) == Ok(DecodeOpenApiSpec(Obj(m)).value.components)
    ensures DecodeOptList(Field(m, "servers"), DecodeServer) == Ok(DecodeOpenApiSpec(Obj(m)).value.servers)
  {
  }

  /** `{}` is a valid OpenApiSpec: every field is absent. */
  lemma OpenApiSpecFromEmptyObject()
    ensures DecodeOpenApiSpec(Obj(map[])) == Ok(OpenApiSpec(None, None, None, None, None))
  {
  }

  lemma OpenApiSpecReadsNullAsMissing(m: map<string, Value>, k: string)
    ensures DecodeOpenApiSpec(Obj(m[k := Null])) == DecodeOpenApiSpec(Obj(m - {k}))
  {
    NullIsMissing(m, k);
    OpenApiSpecReadsOnlyItsNames(m[k := Null], m - {k});
  }

  lemma InfoWritesExactlyItsNames(x: Info)
    ensures EncodeInfo(x).fields.Keys == set k | k in InfoWireNames
  {
    ObjectOfKeys(InfoWireNames, [EncodeOpt(x.title, EncodeString), EncodeOpt(x.description, EncodeString), EncodeOpt(x.version, EncodeString)]);
  }

  lemma InfoReadsOnlyItsNames(m1: map<string, Value>, m2: map<string, Value>)
    requires Field(m1, "title") == Field(m2, "title")
    requires Field(m1, "description") == Field(m2, "description")
    requires Field(m1, "version") == Field(m2, "version")
    ensures DecodeInfo(Obj(m1)) == DecodeInfo(Obj(m2))
  {
  }

  lemma InfoIgnoresUndeclaredKey(m: map<string, Value>, k: string, v: Value)
    requires k !in InfoWireNames
    ensures DecodeInfo(Obj(m[k := v])) == DecodeInfo(Obj(m))
  {
    InfoReadsOnlyItsNames(m[k := v], m);
  }

  /** A decoded Info holds, field by field, what its wire name held. */
  lemma InfoReadsItsNames(m: map<string, Value>)
    requires DecodeInfo(Obj(m)).Ok?
    ensures DecodeOpt(Field(m, "title"), DecodeString) == Ok(DecodeInfo(Obj(m)).value.title)
    ensures DecodeOpt(Field(m, "description"), DecodeString) == Ok(DecodeInfo(Obj(m)).value.description)
    ensures DecodeOpt(Field(m, "version"), DecodeString) == Ok(DecodeInfo(Obj(m)).value.version)
  {
  }

  /** `{}` is a valid Info: every field is absent. */
  lemma InfoFromEmptyObject()
    ensures DecodeInfo(Obj(map[])) == Ok(Info(None, None, None))
  {
  }

  lemma InfoReadsNullAsMissing(m: map<string, Value>, k: string)
    ensures DecodeInfo(Obj(m[k := Null])) == DecodeInfo(Obj(m - {k}))
  {
    NullIsMissing(m, k);
    InfoReadsOnlyItsNames(m[k := Null], m - {k});
  }

  lemma ServerWritesExactlyItsNames(x: Server)
    ensures EncodeServer(x).fields.Keys == set k | k in ServerWireNames
  {
    ObjectOfKeys(ServerWireNames, [EncodeOpt(x.url, EncodeString), EncodeOpt(x.description, EncodeString)]);
  }

  lemma ServerReadsOnlyItsNames(m1: map<string, Value>, m2: map<string, Value>)
    requires Field(m1, "url") == Field(m2, "url")
    requires Field(m1, "description") == Field(m2, "description")
    ensures DecodeServer(Obj(m1)) == DecodeServer(Obj(m2))
  {
  }

  lemma ServerIgnoresUndeclaredKey(m: map<string, Value>, k: string, v: Value)
    requires k !in ServerWireNames
    ensures DecodeServer(Obj(m[k := v])) == DecodeServer(Obj(m))
  {
    ServerReadsOnlyItsNames(m[k := v], m);
  }

  /** A decoded Server holds, field by field, what its wire name held. */
  lemma ServerReadsItsNames(m: map<string, Value>)
    requires DecodeServer(Obj(m)).Ok?
    ensures DecodeOpt(Field(m, "url"), DecodeString) == Ok(DecodeServer(Obj(m)).value.url)
    ensures DecodeOpt(Field(m, "description"), DecodeString) == Ok(DecodeServer(Obj(m)).value.description)
  {
  }

  /** `{}` is a valid Server: every field is absent. */
  lemma ServerFromEmptyObject()
    ensures DecodeServer(Obj(map[])) == Ok(Server(None, None))
  {
  }

  lemma ServerReadsNullAsMissing(m: map<string, Value>, k: string)
    ensures DecodeServer(Obj(m[k := Null])) == DecodeServer(Obj(m - {k}))
  {
    NullIsMissing(m, k);
    ServerReadsOnlyItsNames(m[k := Null], m - {k});
  }

  lemma PathItemWritesExactlyItsNames(x: PathItem)
    ensures EncodePathItem(x).fields.Keys == set k | k in PathItemWireNames
  {
    ObjectOfKeys(PathItemWireNames, [EncodeOpt(x.get, EncodeOperation), EncodeOpt(x.post, EncodeOperation), EncodeOpt(x.put, EncodeOperation), EncodeOpt(x.delete, EncodeOperation), EncodeOpt(x.patch, EncodeOperation), EncodeOpt(x.options, EncodeOperation), EncodeOpt(x.head, EncodeOperation), EncodeOpt(x.trace, EncodeOperation)]);
  }

  lemma PathItemReadsOnlyItsNames(m1: map<string, Value>, m2: map<string, Value>)
    requires Field(m1, "get") == Field(m2, "get")
    requires Field(m1, "post") == Field(m2, "post")
    requires Field(m1, "put") == Field(m2, "put")
    requires Field(m1, "delete") == Field(m2, "delete")
    requires Field(m1, "patch") == Field(m2, "patch")
    requires Field(m1, "options") == Field(m2, "options")
    requires Field(m1, "head") == Field(m2, "head")
    requires Field(m1, "trace") == Field(m2, "trace")
    ensures DecodePathItem(Obj(m1)) == DecodePathItem(Obj(m2))
  {
  }

  lemma PathItemIgnoresUndeclaredKey(m: map<string, Value>, k: string, v: Value)
    requires k !in PathItemWireNames
    ensures DecodePathItem(Obj(m[k := v])) == DecodePathItem(Obj(m))
  {
    PathItemReadsOnlyItsNames(m[k := v], m);
  }

  /** A decoded PathItem holds, field by field, what its wire name held. */
  lemma PathItemReadsItsNames(m: map<string, Value>)
    requires DecodePathItem(Obj(m)).Ok?
    ensures DecodeOpt(Field(m, "get"), DecodeOperation) == Ok(DecodePathItem(Obj(m)).value.get)
    ensures DecodeOpt(Field(m, "post"), DecodeOperation) == Ok(DecodePathItem(Obj(m)).value.post)
    ensures DecodeOpt(Field(m, "put"), DecodeOperation) == Ok(DecodePathItem(Obj(m)).value.put)
    ensures DecodeOpt(Field(m, "delete"), DecodeOperation) == Ok(DecodePathItem(Obj(m)).value.delete)
    ensures DecodeOpt(Field(m, "patch"), DecodeOperation) == Ok(DecodePathItem(Obj(m)).value.patch)
    ensures DecodeOpt(Field(m, "options"), DecodeOperation) == Ok(DecodePathItem(Obj(m)).value.options)
    ensures DecodeOpt(Field(m, "head"), DecodeOperation) == Ok(DecodePathItem(Obj(m)).value.head)
    ensures DecodeOpt(Field(m, "trace"), DecodeOperation) == Ok(DecodePathItem(Obj(m)).value.trace)
  {
  }

  /** `{}` is a valid PathItem: every field is absent. */
  lemma PathItemFromEmptyObject()
    ensures DecodePathItem(Obj(map[])) == Ok(PathItem(None, None, None, None, None, None, None, None))
  {
  }

  lemma PathItemReadsNullAsMissing(m: map<string, Value>, k: string)
    ensures DecodePathItem(Obj(m[k := Null])) == DecodePathItem(Obj(m - {k}))
  {
    NullIsMissing(m, k);
    PathItemReadsOnlyItsNames(m[k := Null], m - {k});
  }

  lemma OperationWritesExactlyItsNames(x: Operation)
    ensures EncodeOperation(x).fields.Keys == set k | k in OperationWireNames
  {
    ObjectOfKeys(OperationWireNames, [EncodeOptList(x.tags, EncodeString), EncodeOpt(x.summary, EncodeString), EncodeOpt(x.description, EncodeString), EncodeOpt(x.operation_id, EncodeString), EncodeOptList(x.parameters, EncodeParameter), EncodeOpt(x.request_body, EncodeRequestBody), EncodeOpt(x.responses, EncodeResponses)]);
  }

  lemma OperationReadsOnlyItsNames(m1: map<string, Value>, m2: map<string, Value>)
    requires Field(m1, "tags") == Field(m2, "tags")
    requires Field(m1, "summary") == Field(m2, "summary")
    requires Field(m1, "description") == Field(m2, "description")
    requires Field(m1, "operationId") == Field(m2, "operationId")
    requires Field(m1, "parameters") == Field(m2, "parameters")
    requires Field(m1, "requestBody") == Field(m2, "requestBody")
    requires Field(m1, "responses") == Field(m2, "responses")
    ensures DecodeOperation(Obj(m1)) == DecodeOperation(Obj(m2))
  {
  }

  lemma OperationIgnoresUndeclaredKey(m: map<string, Value>, k: string, v: Value)
    requires k !in OperationWireNames
    ensures DecodeOperation(Obj(m[k := v])) == DecodeOperation(Obj(m))
  {
    OperationReadsOnlyItsNames(m[k := v], m);
  }

  /** A decoded Operation holds, field by field, what its wire name held. */
  lemma OperationReadsItsNames(m: map<string, Value>)
    requires DecodeOperation(Obj(m)).Ok?
    ensures DecodeOptList(Field(m, "tags"), DecodeString) == Ok(DecodeOperation(Obj(m)).value.tags)
    ensures DecodeOpt(Field(m, "summary"), DecodeString) == Ok(DecodeOperation(Obj(m)).value.summary)
    ensures DecodeOpt(Field(m, "description"), DecodeString) == Ok(DecodeOperation(Obj(m)).value.description)
    ensures DecodeOpt(Field(m, "operationId"), DecodeString) == Ok(DecodeOperation(Obj(m)).value.operation_id)
    ensures DecodeOptList(Field(m, "parameters"), DecodeParameter) == Ok(DecodeOperation(Obj(m)).value.parameters)
    ensures DecodeOpt(Field(m, "requestBody"), DecodeRequestBody) == Ok(DecodeOperation(Obj(m)).value.request_body)
    ensures DecodeOpt(Field(m, "responses"), DecodeResponses) == Ok(DecodeOperation(Obj(m)).value.responses)
  {
  }

  /** `{}` is a valid Operation: every field is absent. */
  lemma OperationFromEmptyObject()
    ensures DecodeOperation(Obj(map[])) == Ok(Operation(None, None, None, None, None, None, None))
  {
  }

  lemma OperationReadsNullAsMissing(m: map<string, Value>, k: string)
    ensures DecodeOperation(Obj(m[k := Null])) == DecodeOperation(Obj(m - {k}))
  {
    NullIsMissing(m, k);
    OperationReadsOnlyItsNames(m[k := Null], m - {k});
  }

  lemma ParameterWritesExactlyItsNames(x: Parameter)
    ensures EncodeParameter(x).fields.Keys == set k | k in ParameterWireNames
  {
    ObjectOfKeys(ParameterWireNames, [EncodeOpt(x.name, EncodeString), EncodeOpt(x.in_, EncodeString), EncodeOpt(x.required, EncodeBool), EncodeOpt(x.schema, EncodeSchema), EncodeOpt(x.description, EncodeString), EncodeOpt(x.example, EncodeAny), EncodeOptMap(x.examples, EncodeExample)]);
  }

  lemma ParameterReadsOnlyItsNames(m1: map<string, Value>, m2: map<string, Value>)
    requires Field(m1, "name") == Field(m2, "name")
    requires Field(m1, "in") == Field(m2, "in")
    requires Field(m1, "required") == Field(m2, "required")
    requires Field(m1, "schema") == Field(m2, "schema")
    requires Field(m1, "description") == Field(m2, "description")
    requires Field(m1, "example") == Field(m2, "example")
    requires Field(m1, "examples") == Field(m2, "examples")
    ensures DecodeParameter(Obj(m1)) == DecodeParameter(Obj(m2))
  {
  }

  lemma ParameterIgnoresUndeclaredKey(m: map<string, Value>, k: string, v: Value)
    requires k !in ParameterWireNames
    ensures DecodeParameter(Obj(m[k := v])) == DecodeParameter(Obj(m))
  {
    ParameterReadsOnlyItsNames(m[k := v], m);
  }

  /** A decoded Parameter holds, field by field, what its wire name held. */
  lemma ParameterReadsItsNames(m: map<string, Value>)
    requires DecodeParameter(Obj(m)).Ok?
    ensures DecodeOpt(Field(m, "name"), DecodeString) == Ok(DecodeParameter(Obj(m)).value.name)
    ensures DecodeOpt(Field(m, "in"), DecodeString) == Ok(DecodeParameter(Obj(m)).value.in_)
    ensures DecodeOpt(Field(m, "required"), DecodeBool) == Ok(DecodeParameter(Obj(m)).value.required)
    ensures DecodeOpt(Field(m, "schema"), DecodeSchema) == Ok(DecodeParameter(Obj(m)).value.schema)
    ensures DecodeOpt(Field(m, "description"), DecodeString) == Ok(DecodeParameter(Obj(m)).value.description)
    ensures DecodeOpt(Field(m, "example"), DecodeAny) == Ok(DecodeParameter(Obj(m)).value.example)
    ensures DecodeOptMap(Field(m, "examples"), DecodeExample) == Ok(DecodeParameter(Obj(m)).value.examples)
  {
  }

  /** `{}` is a valid Parameter: every field is absent. */
  lemma ParameterFromEmptyObject()
    ensures DecodeParameter(Obj(map[])) == Ok(Parameter(None, None, None, None, None, None, None))
  {
  }

  lemma ParameterReadsNullAsMissing(m: map<string, Value>, k: string)
    ensures DecodeParameter(Obj(m[k := Null])) == DecodeParameter(Obj(m - {k}))
  {
    NullIsMissing(m, k);
    ParameterReadsOnlyItsNames(m[k := Null], m - {k});
  }

  lemma RequestBodyWritesExactlyItsNames(x: RequestBody)
    ensures EncodeRequestBody(x).fields.Keys == set k | k in RequestBodyWireNames
  {
    ObjectOfKeys(RequestBodyWireNames, [EncodeOptMap(x.content, EncodeMediaType), EncodeOpt(x.description, EncodeString), EncodeOpt(x.required, EncodeBool)]);
  }

  lemma RequestBodyReadsOnlyItsNames(m1: map<string, Value>, m2: map<string, Value>)
    requires Field(m1, "content") == Field(m2, "content")
    requires Field(m1, "description") == Field(m2, "description")
    requires Field(m1, "required") == Field(m2, "required")
    ensures DecodeRequestBody(Obj(m1)) == DecodeRequestBody(Obj(m2))
  {
  }

  lemma RequestBodyIgnoresUndeclaredKey(m: map<string, Value>, k: string, v: Value)
    requires k !in RequestBodyWireNames
    ensures DecodeRequestBody(Obj(m[k := v])) == DecodeRequestBody(Obj(m))
  {
    RequestBodyReadsOnlyItsNames(m[k := v], m);
  }

  /** A decoded RequestBody holds, field by field, what its wire name held. */
  lemma RequestBodyReadsItsNames(m: map<string, Value>)
    requires DecodeRequestBody(Obj(m)).Ok?
    ensures DecodeOptMap(Field(m, "content"), DecodeMediaType) == Ok(DecodeRequestBody(Obj(m)).value.content)
    ensures DecodeOpt(Field(m, "description"), DecodeString) == Ok(DecodeRequestBody(Obj(m)).value.description)
    ensures DecodeOpt(Field(m, "required"), DecodeBool) == Ok(DecodeRequestBody(Obj(m)).value.required)
  {
  }

  /** `{}` is a valid RequestBody: every field is absent. */
  lemma RequestBodyFromEmptyObject()
    ensures DecodeRequestBody(Obj(map[])) == Ok(RequestBody(None, None, None))
  {
  }

  lemma RequestBodyReadsNullAsMissing(m: map<string, Value>, k: string)
    ensures DecodeRequestBody(Obj(m[k := Null])) == DecodeRequestBody(Obj(m - {k}))
  {
    NullIsMissing(m, k);
    RequestBodyReadsOnlyItsNames(m[k := Null], m - {k});
  }

  lemma MediaTypeWritesExactlyItsNames(x: MediaType)
    ensures EncodeMediaType(x).fields.Keys == set k | k in MediaTypeWireNames
  {
    ObjectOfKeys(MediaTypeWireNames, [EncodeOpt(x.schema, EncodeSchema), EncodeOpt(x.example, EncodeAny), EncodeOptMap(x.examples, EncodeExample)]);
  }

  lemma MediaTypeReadsOnlyItsNames(m1: map<string, Value>, m2: map<string, Value>)
    requires Field(m1, "schema") == Field(m2, "schema")
    requires Field(m1, "example") == Field(m2, "example")
    requires Field(m1, "examples") == Field(m2, "examples")
    ensures DecodeMediaType(Obj(m1)) == DecodeMediaType(Obj(m2))
  {
  }

  lemma MediaTypeIgnoresUndeclaredKey(m: map<string, Value>, k: string, v: Value)
    requires k !in MediaTypeWireNames
    ensures DecodeMediaType(Obj(m[k := v])) == DecodeMediaType(Obj(m))
  {
    MediaTypeReadsOnlyItsNames(m[k := v], m);
  }

  /** A decoded MediaType holds, field by field, what its wire name held. */
  lemma MediaTypeReadsItsNames(m: map<string, Value>)
    requires DecodeMediaType(Obj(m)).Ok?
    ensures DecodeOpt(Field(m, "schema"), DecodeSchema) == Ok(DecodeMediaType(Obj(m)).value.schema)
    ensures DecodeOpt(Field(m, "example"), DecodeAny) == Ok(DecodeMediaType(Obj(m)).value.example)
    ensures DecodeOptMap(Field(m, "examples"), DecodeExample) == Ok(DecodeMediaType(Obj(m)).value.examples)
  {
  }

  /** `{}` is a valid MediaType: every field is absent. */
  lemma MediaTypeFromEmptyObject()
    ensures DecodeMediaType(Obj(map[])) == Ok(MediaType(None, None, None))
  {
  }

  lemma MediaTypeReadsNullAsMissing(m: map<string, Value>, k: string)
    ensures DecodeMediaType(Obj(m[k := Null])) == DecodeMediaType(Obj(m - {k}))
  {
    NullIsMissing(m, k);
    MediaTypeReadsOnlyItsNames(m[k := Null], m - {k});
  }

  lemma ResponseWritesExactlyItsNames(x: Response)
    ensures EncodeResponse(x).fields.Keys == set k | k in ResponseWireNames
  {
    ObjectOfKeys(ResponseWireNames, [EncodeOpt(x.description, EncodeString), EncodeOptMap(x.content, EncodeMediaType), EncodeOptMap(x.headers, EncodeHeader)]);
  }

  lemma ResponseReadsOnlyItsNames(m1: map<string, Value>, m2: map<string, Value>)
    requires Field(m1, "description") == Field(m2, "description")
    requires Field(m1, "content") == Field(m2, "content")
    requires Field(m1, "headers") == Field(m2, "headers")
    ensures DecodeResponse(Obj(m1)) == DecodeResponse(Obj(m2))
  {
  }

  lemma ResponseIgnoresUndeclaredKey(m: map<string, Value>, k: string, v: Value)
    requires k !in ResponseWireNames
    ensures DecodeResponse(Obj(m[k := v])) == DecodeResponse(Obj(m))
  {
    ResponseReadsOnlyItsNames(m[k := v], m);
  }

  /** A decoded Response holds, field by field, what its wire name held. */
  lemma ResponseReadsItsNames(m: map<string, Value>)
    requires DecodeResponse(Obj(m)).Ok?
    ensures DecodeOpt(Field(m, "description"), DecodeString) == Ok(DecodeResponse(Obj(m)).value.description)
    ensures DecodeOptMap(Field(m, "content"), DecodeMediaType) == Ok(DecodeResponse(Obj(m)).value.content)
    ensures DecodeOptMap(Field(m, "headers"), DecodeHeader) == Ok(DecodeResponse(Obj(m)).value.headers)
  {
  }

  /** `{}` is a valid Response: every field is absent. */
  lemma ResponseFromEmptyObject()
    ensures DecodeResponse(Obj(map[])) == Ok(Response(None, None, None))
  {
  }

  lemma ResponseReadsNullAsMissing(m: map<string, Value>, k: string)
    ensures DecodeResponse(Obj(m[k := Null])) == DecodeResponse(Obj(m - {k}))
  {
    NullIsMissing(m, k);
    ResponseReadsOnlyItsNames(m[k := Null], m - {k});
  }

  lemma HeaderWritesExactlyItsNames(x: Header)
    ensures EncodeHeader(x).fields.Keys == set k | k in HeaderWireNames
  {
    ObjectOfKeys(HeaderWireNames, [EncodeOpt(x.description, EncodeString), EncodeOpt(x.schema, EncodeSchema), EncodeOpt(x.example, EncodeAny)]);
  }

  lemma HeaderReadsOnlyItsNames(m1: map<string, Value>, m2: map<string, Value>)
    requires Field(m1, "description") == Field(m2, "description")
    requires Field(m1, "schema") == Field(m2, "schema")
    requires Field(m1, "example") == Field(m2, "example")
    ensures DecodeHeader(Obj(m1)) == DecodeHeader(Obj(m2))
  {
  }

  lemma HeaderIgnoresUndeclaredKey(m: map<string, Value>, k: string, v: Value)
    requires k !in HeaderWireNames
    ensures DecodeHeader(Obj(m[k := v])) == DecodeHeader(Obj(m))
  {
    HeaderReadsOnlyItsNames(m[k := v], m);
  }

  /** A decoded Header holds, field by field, what its wire name held. */
  lemma HeaderReadsItsNames(m: map<string, Value>)
    requires DecodeHeader(Obj(m)).Ok?
    ensures DecodeOpt(Field(m, "description"), DecodeString) == Ok(DecodeHeader(Obj(m)).value.description)
    ensures DecodeOpt(Field(m, "schema"), DecodeSchema) == Ok(DecodeHeader(Obj(m)).value.schema)
    ensures DecodeOpt(Field(m, "example"), DecodeAny) == Ok(DecodeHeader(Obj(m)).value.example)
  {
  }

  /** `{}` is a valid Header: every field is absent. */
  lemma HeaderFromEmptyObject()
    ensures DecodeHeader(Obj(map[])) == Ok(Header(None, None, None))
  {
  }

  lemma HeaderReadsNullAsMissing(m: map<string, Value>, k: string)
    ensures DecodeHeader(Obj(m[k := Null])) == DecodeHeader(Obj(m - {k}))
  {
    NullIsMissing(m, k);
    HeaderReadsOnlyItsNames(m[k := Null], m - {k});
  }

  lemma ComponentsWritesExactlyItsNames(x: Components)
    ensures EncodeComponents(x).fields.Keys == set k | k in ComponentsWireNames
  {
    ObjectOfKeys(ComponentsWireNames, [EncodeOptMap(x.schemas, EncodeSchema), EncodeOptMap(x.responses, EncodeResponse), EncodeOptMap(x.parameters, EncodeParameter), EncodeOptMap(x.examples, EncodeExample), EncodeOptMap(x.request_bodies, EncodeRequestBody), EncodeOptMap(x.headers, EncodeHeader), EncodeOptMap(x.security_schemes, EncodeSecurityScheme)]);
  }

  lemma ComponentsReadsOnlyItsNames(m1: map<string, Value>, m2: map<string, Value>)
    requires Field(m1, "schemas") == Field(m2, "schemas")
    requires Field(m1, "responses") == Field(m2, "responses")
    requires Field(m1, "parameters") == Field(m2, "parameters")
    requires Field(m1, "examples") == Field(m2, "examples")
    requires Field(m1, "requestBodies") == Field(m2, "requestBodies")
    requires Field(m1, "headers") == Field(m2, "headers")
    requires Field(m1, "securitySchemes") == Field(m2, "securitySchemes")
    ensures DecodeComponents(Obj(m1)) == DecodeComponents(Obj(m2))
  {
  }

  lemma ComponentsIgnoresUndeclaredKey(m: map<string, Value>, k: string, v: Value)
    requires k !in ComponentsWireNames
    ensures DecodeComponents(Obj(m[k := v])) == DecodeComponents(Obj(m))
  {
    ComponentsReadsOnlyItsNames(m[k := v], m);
  }

  /** A decoded Components holds, field by field, what its wire name held. */
  lemma ComponentsReadsItsNames(m: map<string, Value>)
    requires DecodeComponents(Obj(m)).Ok?
    ensures DecodeOptMap(Field(m, "schemas"), DecodeSchema) == Ok(DecodeComponents(Obj(m)).value.schemas)
    ensures DecodeOptMap(Field(m, "responses"), DecodeResponse) == Ok(DecodeComponents(Obj(m)).value.responses)
    ensures DecodeOptMap(Field(m, "parameters"), DecodeParameter) == Ok(DecodeComponents(Obj(m)).value.parameters)
    ensures DecodeOptMap(Field(m, "examples"), DecodeExample) == Ok(DecodeComponents(Obj(m)).value.examples)
    ensures DecodeOptMap(Field(m, "requestBodies"), DecodeRequestBody) == Ok(DecodeComponents(Obj(m)).value.request_bodies)
    ensures DecodeOptMap(Field(m, "headers"), DecodeHeader) == Ok(DecodeComponents(Obj(m)).value.headers)
    ensures DecodeOptMap(Field(m, "securitySchemes"), DecodeSecurityScheme) == Ok(DecodeComponents(Obj(m)).value.security_schemes)
  {
  }

  /** `{}` is a valid Components: every field is absent. */
  lemma ComponentsFromEmptyObject()
    ensures DecodeComponents(Obj(map[])) == Ok(Components(None, None, None, None, None, None, None))
  {
  }

  lemma ComponentsReadsNullAsMissing(m: map<string, Value>, k: string)
    ensures DecodeComponents(Obj(m[k := Null])) == DecodeComponents(Obj(m - {k}))
  {
    NullIsMissing(m, k);
    ComponentsReadsOnlyItsNames(m[k := Null], m - {k});
  }

  lemma ExampleWritesExactlyItsNames(x: Example)
    ensures EncodeExample(x).fields.Keys == set k | k in ExampleWireNames
  {
    ObjectOfKeys(ExampleWireNames, [EncodeOpt(x.summary, EncodeString), EncodeOpt(x.description, EncodeString), EncodeOpt(x.value, EncodeAny), EncodeOpt(x.external_value, EncodeString)]);
  }

  lemma ExampleReadsOnlyItsNames(m1: map<string, Value>, m2: map<string, Value>)
    requires Field(m1, "summary") == Field(m2, "summary")
    requires Field(m1, "description") == Field(m2, "description")
    requires Field(m1, "value") == Field(m2, "value")
    requires Field(m1, "externalValue") == Field(m2, "externalValue")
    ensures DecodeExample(Obj(m1)) == DecodeExample(Obj(m2))
  {
  }

  lemma ExampleIgnoresUndeclaredKey(m: map<string, Value>, k: string, v: Value)
    requires k !in ExampleWireNames
    ensures DecodeExample(Obj(m[k := v])) == DecodeExample(Obj(m))
  {
    ExampleReadsOnlyItsNames(m[k := v], m);
  }

  /** A decoded Example holds, field by field, what its wire name held. */
  lemma ExampleReadsItsNames(m: map<string, Value>)
    requires DecodeExample(Obj(m)).Ok?
    ensures DecodeOpt(Field(m, "summary"), DecodeString) == Ok(DecodeExample(Obj(m)).value.summary)
    ensures DecodeOpt(Field(m, "description"), DecodeString) == Ok(DecodeExample(Obj(m)).value.description)
    ensures DecodeOpt(Field(m, "value"), DecodeAny) == Ok(DecodeExample(Obj(m)).value.value)
    ensures DecodeOpt(Field(m, "externalValue"), DecodeString) == Ok(DecodeExample(Obj(m)).value.external_value)
  {
  }

  /** `{}` is a valid Example: every field is absent. */
  lemma ExampleFromEmptyObject()
    ensures DecodeExample(Obj(map[])) == Ok(Example(None, None, None, None))
  {
  }

  lemma ExampleReadsNullAsMissing(m: map<string, Value>, k: string)
    ensures DecodeExample(Obj(m[k := Null])) == DecodeExample(Obj(m - {k}))
  {
    NullIsMissing(m, k);
    ExampleReadsOnlyItsNames(m[k := Null], m - {k});
  }

  lemma DiscriminatorWritesExactlyItsNames(x: Discriminator)
    ensures EncodeDiscriminator(x).fields.Keys == set k | k in DiscriminatorWireNames
  {
    ObjectOfKeys(DiscriminatorWireNames, [EncodeOpt(x.property_name, EncodeString), EncodeOptMap(x.mapping, EncodeString)]);
  }

  lemma DiscriminatorReadsOnlyItsNames(m1: map<string, Value>, m2: map<string, Value>)
    requires Field(m1, "propertyName") == Field(m2, "propertyName")
    requires Field(m1, "mapping") == Field(m2, "mapping")
    ensures DecodeDiscriminator(Obj(m1)) == DecodeDiscriminator(Obj(m2))
  {
  }

  lemma DiscriminatorIgnoresUndeclaredKey(m: map<string, Value>, k: string, v: Value)
    requires k !in DiscriminatorWireNames
    ensures DecodeDiscriminator(Obj(m[k := v])) == DecodeDiscriminator(Obj(m))
  {
    DiscriminatorReadsOnlyItsNames(m[k := v], m);
  }

  /** A decoded Discriminator holds, field by field, what its wire name held. */
  lemma DiscriminatorReadsItsNames(m: map<string, Value>)
    requires DecodeDiscriminator(Obj(m)).Ok?
    ensures DecodeOpt(Field(m, "propertyName"), DecodeString) == Ok(DecodeDiscriminator(Obj(m)).value.property_name)
    ensures DecodeOptMap(Field(m, "mapping"), DecodeString) == Ok(DecodeDiscriminator(Obj(m)).value.mapping)
  {
  }

  /** `{}` is a valid Discriminator: every field is absent. */
  lemma DiscriminatorFromEmptyObject()
    ensures DecodeDiscriminator(Obj(map[])) == Ok(Discriminator(None, None))
  {
  }

  lemma DiscriminatorReadsNullAsMissing(m: map<string, Value>, k: string)
    ensures DecodeDiscriminator(Obj(m[k := Null])) == DecodeDiscriminator(Obj(m - {k}))
  {
    NullIsMissing(m, k);
    DiscriminatorReadsOnlyItsNames(m[k := Null], m - {k});
  }

  lemma SecuritySchemeWritesExactlyItsNames(x: SecurityScheme)
    ensures EncodeSecurityScheme(x).fields.Keys == set k | k in SecuritySchemeWireNames
  {
    ObjectOfKeys(SecuritySchemeWireNames, [EncodeOpt(x.type_, EncodeString), EncodeOpt(x.description, EncodeString), EncodeOpt(x.name, EncodeString), EncodeOpt(x.in_, EncodeString), EncodeOpt(x.scheme, EncodeString), EncodeOpt(x.bearer_format, EncodeString), EncodeOpt(x.flows, EncodeOAuthFlows), EncodeOpt(x.open_id_connect_url, EncodeString)]);
  }

  lemma SecuritySchemeReadsOnlyItsNames(m1: map<string, Value>, m2: map<string, Value>)
    requires Field(m1, "type") == Field(m2, "type")
    requires Field(m1, "description") == Field(m2, "description")
    requires Field(m1, "name") == Field(m2, "name")
    requires Field(m1, "in") == Field(m2, "in")
    requires Field(m1, "scheme") == Field(m2, "scheme")
    requires Field(m1, "bearerFormat") == Field(m2, "bearerFormat")
    requires Field(m1, "flows") == Field(m2, "flows")
    requires Field(m1, "openIdConnectUrl") == Field(m2, "openIdConnectUrl")
    ensures DecodeSecurityScheme(Obj(m1)) == DecodeSecurityScheme(Obj(m2))
  {
  }

  lemma SecuritySchemeIgnoresUndeclaredKey(m: map<string, Value>, k: string, v: Value)
    requires k !in SecuritySchemeWireNames
    ensures DecodeSecurityScheme(Obj(m[k := v])) == DecodeSecurityScheme(Obj(m))
  {
    SecuritySchemeReadsOnlyItsNames(m[k := v], m);
  }

  /** A decoded SecurityScheme holds, field by field, what its wire name held. */
  lemma SecuritySchemeReadsItsNames(m: map<string, Value>)
    requires DecodeSecurityScheme(Obj(m)).Ok?
    ensures DecodeOpt(Field(m, "type"), DecodeString) == Ok(DecodeSecurityScheme(Obj(m)).value.type_)
    ensures DecodeOpt(Field(m, "description"), DecodeString) == Ok(DecodeSecurityScheme(Obj(m)).value.description)
    ensures DecodeOpt(Field(m, "name"), DecodeString) == Ok(DecodeSecurityScheme(Obj(m)).value.name)
    ensures DecodeOpt(Field(m, "in"), DecodeString) == Ok(DecodeSecurityScheme(Obj(m)).value.in_)
    ensures DecodeOpt(Field(m, "scheme"), DecodeString) == Ok(DecodeSecurityScheme(Obj(m)).value.scheme)
    ensures DecodeOpt(Field(m, "bearerFormat"), DecodeString) == Ok(DecodeSecurityScheme(Obj(m)).value.bearer_format)
    ensures DecodeOpt(Field(m, "flows"), DecodeOAuthFlows) == Ok(DecodeSecurityScheme(Obj(m)).value.flows)
    ensures DecodeOpt(Field(m, "openIdConnectUrl"), DecodeString) == Ok(DecodeSecurityScheme(Obj(m)).value.open_id_connect_url)
  {
  }

  /** `{}` is a valid SecurityScheme: every field is absent. */
  lemma SecuritySchemeFromEmptyObject()
    ensures DecodeSecurityScheme(Obj(map[])) == Ok(SecurityScheme(None, None, None, None, None, None, None, None))
  {
  }

  lemma SecuritySchemeReadsNullAsMissing(m: map<string, Value>, k: string)
    ensures DecodeSecurityScheme(Obj(m[k := Null])) == DecodeSecurityScheme(Obj(m - {k}))
  {
    NullIsMissing(m, k);
    SecuritySchemeReadsOnlyItsNames(m[k := Null], m - {k});
  }

  lemma OAuthFlowsWritesExactlyItsNames(x: OAuthFlows)
    ensures EncodeOAuthFlows(x).fields.Keys == set k | k in OAuthFlowsWireNames
  {
    ObjectOfKeys(OAuthFlowsWireNames, [EncodeOpt(x.implicit, EncodeOAuthFlow), EncodeOpt(x.password, EncodeOAuthFlow), EncodeOpt(x.client_credentials, EncodeOAuthFlow), EncodeOpt(x.authorization_code, EncodeOAuthFlow)]);
  }

  lemma OAuthFlowsReadsOnlyItsNames(m1: map<string, Value>, m2: map<string, Value>)
    requires Field(m1, "implicit") == Field(m2, "implicit")
    requires Field(m1, "password") == Field(m2, "password")
    requires Field(m1, "clientCredentials") == Field(m2, "clientCredentials")
    requires Field(m1, "authorizationCode") == Field(m2, "authorizationCode")
    ensures DecodeOAuthFlows(Obj(m1)) == DecodeOAuthFlows(Obj(m2))
  {
  }

  lemma OAuthFlowsIgnoresUndeclaredKey(m: map<string, Value>, k: string, v: Value)
    requires k !in OAuthFlowsWireNames
    ensures DecodeOAuthFlows(Obj(m[k := v])) == DecodeOAuthFlows(Obj(m))
  {
    OAuthFlowsReadsOnlyItsNames(m[k := v], m);
  }

  /** A decoded OAuthFlows holds, field by field, what its wire name held. */
  lemma OAuthFlowsReadsItsNames(m: map<string, Value>)
    requires DecodeOAuthFlows(Obj(m)).Ok?
    ensures DecodeOpt(Field(m, "implicit"), DecodeOAuthFlow) == Ok(DecodeOAuthFlows(Obj(m)).value.implicit)
    ensures DecodeOpt(Field(m, "password"), DecodeOAuthFlow) == Ok(DecodeOAuthFlows(Obj(m)).value.password)
    ensures DecodeOpt(Field(m, "clientCredentials"), DecodeOAuthFlow) == Ok(DecodeOAuthFlows(Obj(m)).value.client_credentials)
    ensures DecodeOpt(Field(m, "authorizationCode"), DecodeOAuthFlow) == Ok(DecodeOAuthFlows(Obj(m)).value.authorization_code)
  {
  }

  /** `{}` is a valid OAuthFlows: every field is absent. */
  lemma OAuthFlowsFromEmptyObject()
    ensures DecodeOAuthFlows(Obj(map[])) == Ok(OAuthFlows(None, None, None, None))
  {
  }

  lemma OAuthFlowsReadsNullAsMissing(m: map<string, Value>, k: string)
    ensures DecodeOAuthFlows(Obj(m[k := Null])) == DecodeOAuthFlows(Obj(m - {k}))
  {
    NullIsMissing(m, k);
    OAuthFlowsReadsOnlyItsNames(m[k := Null], m - {k});
  }

  lemma OAuthFlowWritesExactlyItsNames(x: OAuthFlow)
    ensures EncodeOAuthFlow(x).fields.Keys == set k | k in OAuthFlowWireNames
  {
    ObjectOfKeys(OAuthFlowWireNames, [EncodeOpt(x.authorization_url, EncodeString), EncodeOpt(x.token_url, EncodeString), EncodeOpt(x.refresh_url, EncodeString), EncodeOptMap(x.scopes, EncodeString)]);
  }

  lemma OAuthFlowReadsOnlyItsNames(m1: map<string, Value>, m2: map<string, Value>)
    requires Field(m1, "authorizationUrl") == Field(m2, "authorizationUrl")
    requires Field(m1, "tokenUrl") == Field(m2, "tokenUrl")
    requires Field(m1, "refreshUrl") == Field(m2, "refreshUrl")
    requires Field(m1, "scopes") == Field(m2, "scopes")
    ensures DecodeOAuthFlow(Obj(m1)) == DecodeOAuthFlow(Obj(m2))
  {
  }

  lemma OAuthFlowIgnoresUndeclaredKey(m: map<string, Value>, k: string, v: Value)
    requires k !in OAuthFlowWireNames
    ensures DecodeOAuthFlow(Obj(m[k := v])) == DecodeOAuthFlow(Obj(m))
  {
    OAuthFlowReadsOnlyItsNames(m[k := v], m);
  }

  /** A decoded OAuthFlow holds, field by field, what its wire name held. */
  lemma OAuthFlowReadsItsNames(m: map<string, Value>)
    requires DecodeOAuthFlow(Obj(m)).Ok?
    ensures DecodeOpt(Field(m, "authorizationUrl"), DecodeString) == Ok(DecodeOAuthFlow(Obj(m)).value.authorization_url)
    ensures DecodeOpt(Field(m, "tokenUrl"), DecodeString) == Ok(DecodeOAuthFlow(Obj(m)).value.token_url)
    ensures DecodeOpt(Field(m, "refreshUrl"), DecodeString) == Ok(DecodeOAuthFlow(Obj(m)).value.refresh_url)
    ensures DecodeOptMap(Field(m, "scopes"), DecodeString) == Ok(DecodeOAuthFlow(Obj(m)).value.scopes)
  {
  }

  /** `{}` is a valid OAuthFlow: every field is absent. */
  lemma OAuthFlowFromEmptyObject()
    ensures DecodeOAuthFlow(Obj(map[])) == Ok(OAuthFlow(None, None, None, None))
  {
  }

  lemma OAuthFlowReadsNullAsMissing(m: map<string, Value>, k: string)
    ensures DecodeOAuthFlow(Obj(m[k := Null])) == DecodeOAuthFlow(Obj(m - {k}))
  {
    NullIsMissing(m, k);
    OAuthFlowReadsOnlyItsNames(m[k := Null], m - {k});
  }

  lemma XMLWritesExactlyItsNames(x: XML)
    ensures EncodeXML(x).fields.Keys == set k | k in XMLWireNames
  {
    ObjectOfKeys(XMLWireNames, [EncodeOpt(x.name, EncodeString), EncodeOpt(x.namespace, EncodeString), EncodeOpt(x.prefix, EncodeString), EncodeOpt(x.attribute, EncodeBool), EncodeOpt(x.wrapped, EncodeBool)]);
  }

  lemma XMLReadsOnlyItsNames(m1: map<string, Value>, m2: map<string, Value>)
    requires Field(m1, "name") == Field(m2, "name")
    requires Field(m1, "namespace") == Field(m2, "namespace")
    requires Field(m1, "prefix") == Field(m2, "prefix")
    requires Field(m1, "attribute") == Field(m2, "attribute")
    requires Field(m1, "wrapped") == Field(m2, "wrapped")
    ensures DecodeXML(Obj(m1)) == DecodeXML(Obj(m2))
  {
  }

  lemma XMLIgnoresUndeclaredKey(m: map<string, Value>, k: string, v: Value)
    requires k !in XMLWireNames
    ensures DecodeXML(Obj(m[k := v])) == DecodeXML(Obj(m))
  {
    XMLReadsOnlyItsNames(m[k := v], m);
  }

  /** A decoded XML holds, field by field, what its wire name held. */
  lemma XMLReadsItsNames(m: map<string, Value>)
    requires DecodeXML(Obj(m)).Ok?
    ensures DecodeOpt(Field(m, "name"), DecodeString) == Ok(DecodeXML(Obj(m)).value.name)
    ensures DecodeOpt(Field(m, "namespace"), DecodeString) == Ok(DecodeXML(Obj(m)).value.namespace)
    ensures DecodeOpt(Field(m, "prefix"), DecodeString) == Ok(DecodeXML(Obj(m)).value.prefix)
    ensures DecodeOpt(Field(m, "attribute"), DecodeBool) == Ok(DecodeXML(Obj(m)).value.attribute)
    ensures DecodeOpt(Field(m, "wrapped"), DecodeBool) == Ok(DecodeXML(Obj(m)).value.wrapped)
  {
  }

  /** `{}` is a valid XML: every field is absent. */
  lemma XMLFromEmptyObject()
    ensures DecodeXML(Obj(map[])) == Ok(XML(None, None, None, None, None))
  {
  }

  lemma XMLReadsNullAsMissing(m: map<string, Value>, k: string)
    ensures DecodeXML(Obj(m[k := Null])) == DecodeXML(Obj(m - {k}))
  {
    NullIsMissing(m, k);
    XMLReadsOnlyItsNames(m[k := Null], m - {k});
  }

  lemma SchemaWritesExactlyItsNames(x: Schema)
    ensures EncodeSchema(x).fields.Keys == set k | k in SchemaWireNames
  {
    ObjectOfKeys(SchemaWireNames, [EncodeOpt(x.title, EncodeString), EncodeOpt(x.multiple_of, EncodeF64), EncodeOpt(x.maximum, EncodeF64), EncodeOpt(x.exclusive_maximum, EncodeBool), EncodeOpt(x.minimum, EncodeF64), EncodeOpt(x.exclusive_minimum, EncodeBool), EncodeOpt(x.max_length, EncodeU32), EncodeOpt(x.min_length, EncodeU32), EncodeOpt(x.pattern, EncodeString), EncodeOpt(x.max_items, EncodeU32), EncodeOpt(x.min_items, EncodeU32), EncodeOpt(x.unique_items, EncodeBool), EncodeOpt(x.max_properties, EncodeU32), EncodeOpt(x.min_properties, EncodeU32), EncodeOptList(x.required, EncodeString), EncodeOpt(x.type_, EncodeString), EncodeSchemaOpt(x.not), EncodeSchemaList(x.all_of), EncodeSchemaList(x.one_of), EncodeSchemaList(x.any_of), EncodeSchemaOpt(x.items), EncodeSchemaMap(x.properties), EncodeSchemaOpt(x.additional_properties), EncodeOpt(x.description, EncodeString), EncodeOpt(x.format, EncodeString), EncodeOpt(x.default, EncodeAny), EncodeOpt(x.nullable, EncodeBool), EncodeOpt(x.discriminator, EncodeDiscriminator), EncodeOpt(x.read_only, EncodeBool), EncodeOpt(x.write_only, EncodeBool), EncodeOpt(x.xml, EncodeXML), EncodeOpt(x.example, EncodeAny), EncodeOpt(x.deprecated, EncodeBool)]);
  }

  /** A nested Schema field is read from its own key only. */
  lemma SchemaNestedReadsOnlyItsName(m1: map<string, Value>, m2: map<string, Value>, key: string)
    requires Field(m1, key) == Field(m2, key)
    ensures DecodeSchemaAt(m1, key) == DecodeSchemaAt(m2, key)
    ensures DecodeSchemasAt(m1, key) == DecodeSchemasAt(m2, key)
    ensures DecodePropertiesAt(m1, key) == DecodePropertiesAt(m2, key)
  {
  }

  lemma SchemaPart1ReadsOnlyItsNames(m1: map<string, Value>, m2: map<string, Value>)
    requires Field(m1, "title") == Field(m2, "title")
    requires Field(m1, "multipleOf") == Field(m2, "multipleOf")
    requires Field(m1, "maximum") == Field(m2, "maximum")
    requires Field(m1, "exclusiveMaximum") == Field(m2, "exclusiveMaximum")
    requires Field(m1, "minimum") == Field(m2, "minimum")
    requires Field(m1, "exclusiveMinimum") == Field(m2, "exclusiveMinimum")
    ensures DecodeSchemaPart1(m1) == DecodeSchemaPart1(m2)
  {
  }

  lemma SchemaPart2ReadsOnlyItsNames(m1: map<string, Value>, m2: map<string, Value>)
    requires Field(m1, "maxLength") == Field(m2, "maxLength")
    requires Field(m1, "minLength") == Field(m2, "minLength")
    requires Field(m1, "pattern") == Field(m2, "pattern")
    requires Field(m1, "maxItems") == Field(m2, "maxItems")
    requires Field(m1, "minItems") == Field(m2, "minItems")
    requires Field(m1, "uniqueItems") == Field(m2, "uniqueItems")
    ensures DecodeSchemaPart2(m1) == DecodeSchemaPart2(m2)
  {
  }

  lemma SchemaPart3ReadsOnlyItsNames(m1: map<string, Value>, m2: map<string, Value>)
    requires Field(m1, "maxProperties") == Field(m2, "maxProperties")
    requires Field(m1, "minProperties") == Field(m2, "minProperties")
    requires Field(m1, "required") == Field(m2, "required")
    requires Field(m1, "type") == Field(m2, "type")
    requires Field(m1, "not") == Field(m2, "not")
    requires Field(m1, "allOf") == Field(m2, "allOf")
    ensures DecodeSchemaPart3(m1) == DecodeSchemaPart3(m2)
  {
    SchemaNestedReadsOnlyItsName(m1, m2, "not");
    SchemaNestedReadsOnlyItsName(m1, m2, "allOf");
  }

  lemma SchemaPart4ReadsOnlyItsNames(m1: map<string, Value>, m2: map<string, Value>)
    requires Field(m1, "oneOf") == Field(m2, "oneOf")
    requires Field(m1, "anyOf") == Field(m2, "anyOf")
    requires Field(m1, "items") == Field(m2, "items")
    requires Field(m1, "properties") == Field(m2, "properties")
    requires Field(m1, "additionalProperties") == Field(m2, "additionalProperties")
    requires Field(m1, "description") == Field(m2, "description")
    ensures DecodeSchemaPart4(m1) == DecodeSchemaPart4(m2)
  {
    SchemaNestedReadsOnlyItsName(m1, m2, "oneOf");
    SchemaNestedReadsOnlyItsName(m1, m2, "anyOf");
    SchemaNestedReadsOnlyItsName(m1, m2, "items");
    SchemaNestedReadsOnlyItsName(m1, m2, "properties");
    SchemaNestedReadsOnlyItsName(m1, m2, "additionalProperties");
  }

  lemma SchemaPart5ReadsOnlyItsNames(m1: map<string, Value>, m2: map<string, Value>)
    requires Field(m1, "format") == Field(m2, "format")
    requires Field(m1, "default") == Field(m2, "default")
    requires Field(m1, "nullable") == Field(m2, "nullable")
    requires Field(m1, "discriminator") == Field(m2, "discriminator")
    requires Field(m1, "readOnly") == Field(m2, "readOnly")
    requires Field(m1, "writeOnly") == Field(m2, "writeOnly")
    ensures DecodeSchemaPart5(m1) == DecodeSchemaPart5(m2)
  {
  }

  lemma SchemaPart6ReadsOnlyItsNames(m1: map<string, Value>, m2: map<string, Value>)
    requires Field(m1, "xml") == Field(m2, "xml")
    requires Field(m1, "example") == Field(m2, "example")
    requires Field(m1, "deprecated") == Field(m2, "deprecated")
    ensures DecodeSchemaPart6(m1) == DecodeSchemaPart6(m2)
  {
  }

  lemma SchemaReadsOnlyItsNames(m1: map<string, Value>, m2: map<string, Value>)
    requires Field(m1, "title") == Field(m2, "title")
    requires Field(m1, "multipleOf") == Field(m2, "multipleOf")
    requires Field(m1, "maximum") == Field(m2, "maximum")
    requires Field(m1, "exclusiveMaximum") == Field(m2, "exclusiveMaximum")
    requires Field(m1, "minimum") == Field(m2, "minimum")
    requires Field(m1, "exclusiveMinimum") == Field(m2, "exclusiveMinimum")
    requires Field(m1, "maxLength") == Field(m2, "maxLength")
    requires Field(m1, "minLength") == Field(m2, "minLength")
    requires Field(m1, "pattern") == Field(m2, "pattern")
    requires Field(m1, "maxItems") == Field(m2, "maxItems")
    requires Field(m1, "minItems") == Field(m2, "minItems")
    requires Field(m1, "uniqueItems") == Field(m2, "uniqueItems")
    requires Field(m1, "maxProperties") == Field(m2, "maxProperties")
    requires Field(m1, "minProperties") == Field(m2, "minProperties")
    requires Field(m1, "required") == Field(m2, "required")
    requires Field(m1, "type") == Field(m2, "type")
    requires Field(m1, "not") == Field(m2, "not")
    requires Field(m1, "allOf") == Field(m2, "allOf")
    requires Field(m1, "oneOf") == Field(m2, "oneOf")
    requires Field(m1, "anyOf") == Field(m2, "anyOf")
    requires Field(m1, "items") == Field(m2, "items")
    requires Field(m1, "properties") == Field(m2, "properties")
    requires Field(m1, "additionalProperties") == Field(m2, "additionalProperties")
    requires Field(m1, "description") == Field(m2, "description")
    requires Field(m1, "format") == Field(m2, "format")
    requires Field(m1, "default") == Field(m2, "default")
    requires Field(m1, "nullable") == Field(m2, "nullable")
    requires Field(m1, "discriminator") == Field(m2, "discriminator")
    requires Field(m1, "readOnly") == Field(m2, "readOnly")
    requires Field(m1, "writeOnly") == Field(m2, "writeOnly")
    requires Field(m1, "xml") == Field(m2, "xml")
    requires Field(m1, "example") == Field(m2, "example")
    requires Field(m1, "deprecated") == Field(m2, "deprecated")
    ensures DecodeSchema(Obj(m1)) == DecodeSchema(Obj(m2))
  {
    SchemaPart1ReadsOnlyItsNames(m1, m2);
    SchemaPart2ReadsOnlyItsNames(m1, m2);
    SchemaPart3ReadsOnlyItsNames(m1, m2);
    SchemaPart4ReadsOnlyItsNames(m1, m2);
    SchemaPart5ReadsOnlyItsNames(m1, m2);
    SchemaPart6ReadsOnlyItsNames(m1, m2);
  }

  lemma SchemaPart1IgnoresUndeclaredKey(m: map<string, Value>, k: string, v: Value)
    requires k !in SchemaWireNames
    ensures DecodeSchemaPart1(m[k := v]) == DecodeSchemaPart1(m)
  {
    SchemaPart1ReadsOnlyItsNames(m[k := v], m);
  }

  lemma SchemaPart2IgnoresUndeclaredKey(m: map<string, Value>, k: string, v: Value)
    requires k !in SchemaWireNames
    ensures DecodeSchemaPart2(m[k := v]) == DecodeSchemaPart2(m)
  {
    SchemaPart2ReadsOnlyItsNames(m[k := v], m);
  }

  lemma SchemaPart3IgnoresUndeclaredKey(m: map<string, Value>, k: string, v: Value)
    requires k !in SchemaWireNames
    ensures DecodeSchemaPart3(m[k := v]) == DecodeSchemaPart3(m)
  {
    SchemaPart3ReadsOnlyItsNames(m[k := v], m);
  }

  lemma SchemaPart4IgnoresUndeclaredKey(m: map<string, Value>, k: string, v: Value)
    requires k !in SchemaWireNames
    ensures DecodeSchemaPart4(m[k := v]) == DecodeSchemaPart4(m)
  {
    SchemaPart4ReadsOnlyItsNames(m[k := v], m);
  }

  lemma SchemaPart5IgnoresUndeclaredKey(m: map<string, Value>, k: string, v: Value)
    requires k !in SchemaWireNames
    ensures DecodeSchemaPart5(m[k := v]) == DecodeSchemaPart5(m)
  {
    SchemaPart5ReadsOnlyItsNames(m[k := v], m);
  }

  lemma SchemaPart6IgnoresUndeclaredKey(m: map<string, Value>, k: string, v: Value)
    requires k !in SchemaWireNames
    ensures DecodeSchemaPart6(m[k := v]) == DecodeSchemaPart6(m)
  {
    SchemaPart6ReadsOnlyItsNames(m[k := v], m);
  }

  lemma SchemaIgnoresUndeclaredKey(m: map<string, Value>, k: string, v: Value)
    requires k !in SchemaWireNames
    ensures DecodeSchema(Obj(m[k := v])) == DecodeSchema(Obj(m))
  {
    SchemaPart1IgnoresUndeclaredKey(m, k, v);
    SchemaPart2IgnoresUndeclaredKey(m, k, v);
    SchemaPart3IgnoresUndeclaredKey(m, k, v);
    SchemaPart4IgnoresUndeclaredKey(m, k, v);
    SchemaPart5IgnoresUndeclaredKey(m, k, v);
    SchemaPart6IgnoresUndeclaredKey(m, k, v);
  }

  /** A decoded Schema holds, field by field, what its wire name held. */
  lemma SchemaReadsItsNames(m: map<string, Value>)
    requires DecodeSchema(Obj(m)).Ok?
    ensures DecodeOpt(Field(m, "title"), DecodeString) == Ok(DecodeSchema(Obj(m)).value.title)
    ensures DecodeOpt(Field(m, "multipleOf"), DecodeF64) == Ok(DecodeSchema(Obj(m)).value.multiple_of)
    ensures DecodeOpt(Field(m, "maximum"), DecodeF64) == Ok(DecodeSchema(Obj(m)).value.maximum)
    ensures DecodeOpt(Field(m, "exclusiveMaximum"), DecodeBool) == Ok(DecodeSchema(Obj(m)).value.exclusive_maximum)
    ensures DecodeOpt(Field(m, "minimum"), DecodeF64) == Ok(DecodeSchema(Obj(m)).value.minimum)
    ensures DecodeOpt(Field(m, "exclusiveMinimum"), DecodeBool) == Ok(DecodeSchema(Obj(m)).value.exclusive_minimum)
    ensures DecodeOpt(Field(m, "maxLength"), DecodeU32) == Ok(DecodeSchema(Obj(m)).value.max_length)
    ensures DecodeOpt(Field(m, "minLength"), DecodeU32) == Ok(DecodeSchema(Obj(m)).value.min_length)
    ensures DecodeOpt(Field(m, "pattern"), DecodeString) == Ok(DecodeSchema(Obj(m)).value.pattern)
    ensures DecodeOpt(Field(m, "maxItems"), DecodeU32) == Ok(DecodeSchema(Obj(m)).value.max_items)
    ensures DecodeOpt(Field(m, "minItems"), DecodeU32) == Ok(DecodeSchema(Obj(m)).value.min_items)
    ensures DecodeOpt(Field(m, "uniqueItems"), DecodeBool) == Ok(DecodeSchema(Obj(m)).value.unique_items)
    ensures DecodeOpt(Field(m, "maxProperties"), DecodeU32) == Ok(DecodeSchema(Obj(m)).value.max_properties)
    ensures DecodeOpt(Field(m, "minProperties"), DecodeU32) == Ok(DecodeSchema(Obj(m)).value.min_properties)
    ensures DecodeOptList(Field(m, "required"), DecodeString) == Ok(DecodeSchema(Obj(m)).value.required)
    ensures DecodeOpt(Field(m, "type"), DecodeString) == Ok(DecodeSchema(Obj(m)).value.type_)
    ensures DecodeSchemaAt(m, "not") == Ok(DecodeSchema(Obj(m)).value.not)
    ensures DecodeSchemasAt(m, "allOf") == Ok(DecodeSchema(Obj(m)).value.all_of)
    ensures DecodeSchemasAt(m, "oneOf") == Ok(DecodeSchema(Obj(m)).value.one_of)
    ensures DecodeSchemasAt(m, "anyOf") == Ok(DecodeSchema(Obj(m)).value.any_of)
    ensures DecodeSchemaAt(m, "items") == Ok(DecodeSchema(Obj(m)).value.items)
    ensures DecodePropertiesAt(m, "properties") == Ok(DecodeSchema(Obj(m)).value.properties)
    ensures DecodeSchemaAt(m, "additionalProperties") == Ok(DecodeSchema(Obj(m)).value.additional_properties)
    ensures DecodeOpt(Field(m, "description"), DecodeString) == Ok(DecodeSchema(Obj(m)).value.description)
    ensures DecodeOpt(Field(m, "format"), DecodeString) == Ok(DecodeSchema(Obj(m)).value.format)
    ensures DecodeOpt(Field(m, "default"), DecodeAny) == Ok(DecodeSchema(Obj(m)).value.default)
    ensures DecodeOpt(Field(m, "nullable"), DecodeBool) == Ok(DecodeSchema(Obj(m)).value.nullable)
    ensures DecodeOpt(Field(m, "discriminator"), DecodeDiscriminator) == Ok(DecodeSchema(Obj(m)).value.discriminator)
    ensures DecodeOpt(Field(m, "readOnly"), DecodeBool) == Ok(DecodeSchema(Obj(m)).value.read_only)
    ensures DecodeOpt(Field(m, "writeOnly"), DecodeBool) == Ok(DecodeSchema(Obj(m)).value.write_only)
    ensures DecodeOpt(Field(m, "xml"), DecodeXML) == Ok(DecodeSchema(Obj(m)).value.xml)
    ensures DecodeOpt(Field(m, "example"), DecodeAny) == Ok(DecodeSchema(Obj(m)).value.example)
    ensures DecodeOpt(Field(m, "deprecated"), DecodeBool) == Ok(DecodeSchema(Obj(m)).value.deprecated)
  {
  }

  /** `{}` is a valid Schema: every field is absent. */
  lemma SchemaFromEmptyObject()
    ensures DecodeSchema(Obj(map[])) == Ok(Schema(None, None, None, None, None, None, None, None, None, None, None, None, None, None, None, None, None, NoSchemas, NoSchemas, NoSchemas, None, NoProperties, None, None, None, None, None, None, None, None, None, None, None))
  {
  }

  lemma SchemaPart1ReadsNullAsMissing(m: map<string, Value>, k: string)
    ensures DecodeSchemaPart1(m[k := Null]) == DecodeSchemaPart1(m - {k})
  {
    NullIsMissing(m, k);
    SchemaPart1ReadsOnlyItsNames(m[k := Null], m - {k});
  }

  lemma SchemaPart2ReadsNullAsMissing(m: map<string, Value>, k: string)
    ensures DecodeSchemaPart2(m[k := Null]) == DecodeSchemaPart2(m - {k})
  {
    NullIsMissing(m, k);
    SchemaPart2ReadsOnlyItsNames(m[k := Null], m - {k});
  }

  lemma SchemaPart3ReadsNullAsMissing(m: map<string, Value>, k: string)
    ensures DecodeSchemaPart3(m[k := Null]) == DecodeSchemaPart3(m - {k})
  {
    NullIsMissing(m, k);
    SchemaPart3ReadsOnlyItsNames(m[k := Null], m - {k});
  }

  lemma SchemaPart4ReadsNullAsMissing(m: map<string, Value>, k: string)
    ensures DecodeSchemaPart4(m[k := Null]) == DecodeSchemaPart4(m - {k})
  {
    NullIsMissing(m, k);
    SchemaPart4ReadsOnlyItsNames(m[k := Null], m - {k});
  }

  lemma SchemaPart5ReadsNullAsMissing(m: map<string, Value>, k: string)
    ensures DecodeSchemaPart5(m[k := Null]) == DecodeSchemaPart5(m - {k})
  {
    NullIsMissing(m, k);
    SchemaPart5ReadsOnlyItsNames(m[k := Null], m - {k});
  }

  lemma SchemaPart6ReadsNullAsMissing(m: map<string, Value>, k: string)
    ensures DecodeSchemaPart6(m[k := Null]) == DecodeSchemaPart6(m - {k})
  {
    NullIsMissing(m, k);
    SchemaPart6ReadsOnlyItsNames(m[k := Null], m - {k});
  }

  lemma SchemaReadsNullAsMissing(m: map<string, Value>, k: string)
    ensures DecodeSchema(Obj(m[k := Null])) == DecodeSchema(Obj(m - {k}))
  {
    SchemaPart1ReadsNullAsMissing(m, k);
    SchemaPart2ReadsNullAsMissing(m, k);
    SchemaPart3ReadsNullAsMissing(m, k);
    SchemaPart4ReadsNullAsMissing(m, k);
    SchemaPart5ReadsNullAsMissing(m, k);
    SchemaPart6ReadsNullAsMissing(m, k);
  }

}
