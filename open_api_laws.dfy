/**
 * What the OpenAPI records promise beyond the round trip: the fields renamed
 * around reserved words keep their wire names in both directions, the
 * flattened Responses map is all-or-nothing beside its `default`, and the
 * fixed-shape records drop every key they do not declare.
 */
module OpenApiLaws {
  import opened Wrappers
  import opened Wire
  import opened Naming
  import opened WireNames
  import opened OpenApi
  import opened OpenApiProofs

  // ---------------------------------------------------------------------
  // Fields renamed around reserved words
  // ---------------------------------------------------------------------

  /** The identifiers `in_` and `type_` are the wire names `in` and `type`,
    * by the camelCase rule alone: a trailing underscore is dropped. */
  lemma TrailingUnderscoreDropped()
    ensures CamelCase("in_") == "in" && CamelCase("type_") == "type"
    ensures Snake(["in", ""]) == "in_" && Snake(["type", ""]) == "type_"
  {
  }

  /** Which fields are the renamed ones, and their wire names. */
  lemma RenamedFieldsWireNames()
    ensures ParameterIdentifiers[1] == ["in", ""] && ParameterWireNames[1] == "in"
    ensures SchemaIdentifiers[15] == ["type", ""] && SchemaWireNames[15] == "type"
    ensures SecuritySchemeIdentifiers[0] == ["type", ""] && SecuritySchemeWireNames[0] == "type"
    ensures SecuritySchemeIdentifiers[3] == ["in", ""] && SecuritySchemeWireNames[3] == "in"
  {
    assert SchemaIdentifiers[15] == SchemaIdentifiers3[3];
    assert SecuritySchemeIdentifiers[0] == SecuritySchemeIdentifiers1[0];
    assert SecuritySchemeIdentifiers[3] == SecuritySchemeIdentifiers1[3];
  }

  /** No record that has a renamed field declares the identifier itself as a
    * wire name. */
  lemma RenamedIdentifiersAreNoWireNames()
    ensures "in_" !in ParameterWireNames && "in_" !in SecuritySchemeWireNames
    ensures "type_" !in SchemaWireNames && "type_" !in SecuritySchemeWireNames
  {
    assert "in_"[2] == '_' && "type_"[4] == '_';
    ParameterWireNamesFollowTheRule();
    UnderscoreKeyIsNoWireName(ParameterIdentifiers, ParameterWireNames, "in_");
    SchemaWireNamesFollowTheRule();
    UnderscoreKeyIsNoWireName(SchemaIdentifiers, SchemaWireNames, "type_");
    SecuritySchemeWireNamesFollowTheRule();
    UnderscoreKeyIsNoWireName(SecuritySchemeIdentifiers, SecuritySchemeWireNames, "type_");
    UnderscoreKeyIsNoWireName(SecuritySchemeIdentifiers, SecuritySchemeWireNames, "in_");
  }

  /** Parameter's `in_` is written under `in`; no key `in_` is written. */
  lemma ParameterWritesLocationAsIn(p: Parameter)
    ensures Field(EncodeParameter(p).fields, "in") == EncodeOpt(p.in_, EncodeString)
    ensures "in_" !in EncodeParameter(p).fields
  {
    ParameterFieldsWritten(p);
    RenamedIdentifiersAreNoWireNames();
    ParameterWritesExactlyItsNames(p);
  }

  /** Parameter's `in_` is read from `in`; a key `in_` is ignored. */
  lemma ParameterReadsLocationFromIn(m: map<string, Value>, v: Value)
    ensures DecodeParameter(Obj(m)).Ok? ==>
      DecodeOpt(Field(m, "in"), DecodeString) == Ok(DecodeParameter(Obj(m)).value.in_)
    ensures DecodeParameter(Obj(m["in_" := v])) == DecodeParameter(Obj(m))
  {
    if DecodeParameter(Obj(m)).Ok? {
      ParameterReadsItsNames(m);
    }
    RenamedIdentifiersAreNoWireNames();
    ParameterIgnoresUndeclaredKey(m, "in_", v);
  }

  /** Schema's `type_` is written under `type`; no key `type_` is written. */
  lemma SchemaWritesTypeAsType(s: Schema)
    ensures Field(EncodeSchema(s).fields, "type") == EncodeOpt(s.type_, EncodeString)
    ensures "type_" !in EncodeSchema(s).fields
  {
    SchemaWritesType(s);
    RenamedIdentifiersAreNoWireNames();
    SchemaWritesExactlyItsNames(s);
  }

  /** Schema's `type_` is read from `type`; a key `type_` is ignored. */
  lemma SchemaReadsTypeFromType(m: map<string, Value>, v: Value)
    ensures DecodeSchema(Obj(m)).Ok? ==>
      DecodeOpt(Field(m, "type"), DecodeString) == Ok(DecodeSchema(Obj(m)).value.type_)
    ensures DecodeSchema(Obj(m["type_" := v])) == DecodeSchema(Obj(m))
  {
    if DecodeSchema(Obj(m)).Ok? {
      SchemaReadsItsNames(m);
    }
    RenamedIdentifiersAreNoWireNames();
    SchemaIgnoresUndeclaredKey(m, "type_", v);
  }

  /** SecurityScheme's `type_` and `in_` are written under `type` and `in`. */
  lemma SecuritySchemeWritesTypeAndIn(s: SecurityScheme)
    ensures Field(EncodeSecurityScheme(s).fields, "type") == EncodeOpt(s.type_, EncodeString)
    ensures Field(EncodeSecurityScheme(s).fields, "in") == EncodeOpt(s.in_, EncodeString)
    ensures "type_" !in EncodeSecurityScheme(s).fields && "in_" !in EncodeSecurityScheme(s).fields
  {
    SecuritySchemeFieldsWritten(s);
    RenamedIdentifiersAreNoWireNames();
    SecuritySchemeWritesExactlyItsNames(s);
  }

  /** SecurityScheme's `type_` and `in_` are read from `type` and `in`;
    * keys `type_` and `in_` are ignored. */
  lemma SecuritySchemeReadsTypeAndIn(m: map<string, Value>, v: Value)
    ensures DecodeSecurityScheme(Obj(m)).Ok? ==>
      && DecodeOpt(Field(m, "type"), DecodeString) == Ok(DecodeSecurityScheme(Obj(m)).value.type_)
      && DecodeOpt(Field(m, "in"), DecodeString) == Ok(DecodeSecurityScheme(Obj(m)).value.in_)
    ensures DecodeSecurityScheme(Obj(m["type_" := v])) == DecodeSecurityScheme(Obj(m))
    ensures DecodeSecurityScheme(Obj(m["in_" := v])) == DecodeSecurityScheme(Obj(m))
  {
    if DecodeSecurityScheme(Obj(m)).Ok? {
      SecuritySchemeReadsItsNames(m);
    }
    RenamedIdentifiersAreNoWireNames();
    SecuritySchemeIgnoresUndeclaredKey(m, "type_", v);
    SecuritySchemeIgnoresUndeclaredKey(m, "in_", v);
  }

  // ---------------------------------------------------------------------
  // Fixed shapes: PathItem has a slot per verb, OAuthFlows one per flow
  // ---------------------------------------------------------------------

  /** PathItem reads only its eight verbs: the other keys an OpenAPI path
    * item may hold (`summary`, `parameters`, `$ref`, extensions) are dropped. */
  lemma PathItemDropsNonVerbKeys(m: map<string, Value>, v: Value)
    ensures |PathItemWireNames| == 8
    ensures DecodePathItem(Obj(m["summary" := v])) == DecodePathItem(Obj(m))
    ensures DecodePathItem(Obj(m["parameters" := v])) == DecodePathItem(Obj(m))
    ensures DecodePathItem(Obj(m["$ref" := v])) == DecodePathItem(Obj(m))
    ensures DecodePathItem(Obj(m["x-internal" := v])) == DecodePathItem(Obj(m))
  {
    PathItemIgnoresUndeclaredKey(m, "summary", v);
    PathItemIgnoresUndeclaredKey(m, "parameters", v);
    PathItemIgnoresUndeclaredKey(m, "$ref", v);
    PathItemIgnoresUndeclaredKey(m, "x-internal", v);
  }

  /** OAuthFlows reads only its four flows. */
  lemma OAuthFlowsDropsOtherKeys(m: map<string, Value>, v: Value)
    ensures |OAuthFlowsWireNames| == 4
    ensures DecodeOAuthFlows(Obj(m["deviceCode" := v])) == DecodeOAuthFlows(Obj(m))
    ensures DecodeOAuthFlows(Obj(m["x-flow" := v])) == DecodeOAuthFlows(Obj(m))
  {
    OAuthFlowsIgnoresUndeclaredKey(m, "deviceCode", v);
    OAuthFlowsIgnoresUndeclaredKey(m, "x-flow", v);
  }

  // ---------------------------------------------------------------------
  // Responses: `default` beside a flattened, all-or-nothing map
  // ---------------------------------------------------------------------

  /** The object `{"description": text}`. */
  function Described(text: string): (v: Value)
    ensures DecodeResponse(v) == Ok(Response(Some(text), None, None))
  {
    Obj(map["description" := Str(text)])
  }

  /** `{}` reads as an empty status-code map, not as an absent one. */
  lemma EmptyResponses()
    ensures DecodeResponses(Obj(map[])) == Ok(Responses(Some(map[]), None))
  {
    var r := DecodeResponses(Obj(map[]));
    assert r.Ok? && r.value.responses.Some?;
  }

  /** Whether the status-code map is absent or empty, it is written as
    * nothing and read back as empty. */
  lemma AbsentStatusCodesReadBackEmpty(d: Option<Response>)
    requires d.Some? ==> CanonicalResponse(d.value)
    ensures EncodeResponses(Responses(None, d)) == EncodeResponses(Responses(Some(map[]), d))
    ensures DecodeResponses(EncodeResponses(Responses(None, d))) == Ok(Responses(Some(map[]), d))
  {
    assert EncodeMap(map[], EncodeResponse).fields == map[];
    ResponsesRoundTrip(Responses(Some(map[]), d));
  }

  /** A status-code entry named `default` is overwritten by the dedicated
    * `default` when written, so it does not come back. */
  lemma DefaultEntryIsShadowed(m: map<string, Response>, d: Option<Response>)
    requires "default" in m
    requires forall k | k in m :: CanonicalResponse(m[k])
    requires d.Some? ==> CanonicalResponse(d.value)
    ensures DecodeResponses(EncodeResponses(Responses(Some(m), d))) == Ok(Responses(Some(m - {"default"}), d))
  {
    var rest := m - {"default"};
    var full := EncodeMap(m, EncodeResponse).fields;
    var trimmed := EncodeMap(rest, EncodeResponse).fields;
    assert full["default" := EncodeOpt(d, EncodeResponse)] == trimmed["default" := EncodeOpt(d, EncodeResponse)];
    ResponsesRoundTrip(Responses(Some(rest), d));
  }

  /** One status-code entry that is not a Response makes the whole map
    * absent, without an error; only a bad `default` is an error. */
  lemma BadStatusCodeDropsTheMap(f: map<string, Value>, k: string)
    requires k in f && k != "default" && DecodeResponse(f[k]).Err?
    requires DecodeOpt(Field(f, "default"), DecodeResponse).Ok?
    ensures DecodeResponses(Obj(f)) == Ok(Responses(None, DecodeOpt(Field(f, "default"), DecodeResponse).value))
  {
  }

  /** A null status-code entry is not "absent": it drops the map too. */
  lemma NullStatusCodeDropsTheMap(f: map<string, Value>, k: string)
    requires k in f && k != "default" && f[k] == Null
    requires DecodeOpt(Field(f, "default"), DecodeResponse).Ok?
    ensures DecodeResponses(Obj(f)) == Ok(Responses(None, DecodeOpt(Field(f, "default"), DecodeResponse).value))
  {
    BadStatusCodeDropsTheMap(f, k);
  }

  /** An extension key beside the status codes hides them all:
    * `{"200": {"description": "ok"}, "x-rate-limit": true}` has no map. */
  lemma ExtensionKeyHidesStatusCodes()
    ensures DecodeResponses(Obj(map["200" := Described("ok"), "x-rate-limit" := Bool(true)]))
         == Ok(Responses(None, None))
  {
    var f := map["200" := Described("ok"), "x-rate-limit" := Bool(true)];
    BadStatusCodeDropsTheMap(f, "x-rate-limit");
  }

  // ---------------------------------------------------------------------
  // Errors inside a map
  // ---------------------------------------------------------------------

  /** A path item that is no object fails the document with the path item's
    * own error, which the `HashMap` under `paths` passes up. */
  lemma BadPathItemIsReported()
    ensures DecodeOpenApiSpec(Obj(map["paths" := Obj(map["/x" := Num(Integer(5))])]))
         == Err(InvalidType("struct PathItem"))
  {
    var m := map["/x" := Num(Integer(5))];
    assert (set k | k in m && DecodePathItem(m[k]).Err?) == {"/x"};
  }

  /** The same holds for a named Schema under `properties`. */
  lemma BadPropertyIsReported()
    ensures DecodeSchema(Obj(map["properties" := Obj(map["a" := Num(Integer(5))])]))
         == Err(InvalidType("struct Schema"))
  {
    var m := map["a" := Num(Integer(5))];
    var f := map["properties" := Obj(m)];
    assert DecodeSchemaPart1(f).Ok?;
    assert DecodeSchemaPart2(f).Ok?;
    assert DecodeSchemaPart3(f).Ok?;
    assert DecodePropertiesAt(f, "properties") == Err(InvalidType("struct Schema")) by {
      assert (set k | k in m && DecodeSchema(m[k]).Err?) == {"a"};
    }
    assert DecodeSchemaPart4(f) == Err(InvalidType("struct Schema"));
  }
}
