/**
 * The wire name of every field: serde's camelCase rule applied to the Rust
 * identifier, which is written here as its underscore-separated words. A
 * trailing underscore (`in_`, `type_`) is an empty last word, so `in_` is
 * `in` on the wire and no wire name keeps an underscore.
 */
module WireNames {
  import opened Naming
  import opened OpenApi

  /** An identifier written as words: lower-case start, no underscore inside a word. */
  predicate WellFormedIdentifier(words: seq<string>)
  {
    && words != [] && words[0] != [] && !('A' <= words[0][0] <= 'Z')
    && forall i | 0 <= i < |words| :: NoUnderscore(words[i])
  }

  /** The wire names are the camelCase of the identifiers, one for one. */
  predicate NamedByRule(identifiers: seq<seq<string>>, wireNames: seq<string>)
  {
    && |identifiers| == |wireNames|
    && forall i | 0 <= i < |identifiers| ::
         WellFormedIdentifier(identifiers[i]) && CamelCase(Snake(identifiers[i])) == wireNames[i]
  }

  /** What the rule gives for each field of a record. */
  lemma {:induction false} RuleNamesFields(identifiers: seq<seq<string>>, wireNames: seq<string>)
    requires |identifiers| == |wireNames|
    requires forall i | 0 <= i < |identifiers| ::
      WellFormedIdentifier(identifiers[i]) && CamelWords(identifiers[i]) == wireNames[i]
    ensures NamedByRule(identifiers, wireNames)
    ensures forall i | 0 <= i < |wireNames| :: NoUnderscore(wireNames[i])
  {
    forall i | 0 <= i < |identifiers|
      ensures CamelCase(Snake(identifiers[i])) == wireNames[i]
    {
      CamelCaseOfSnake(identifiers[i]);
    }
  }

  /** A key holding an underscore is no wire name of a record that follows
    * the rule: `in_` and `type_` are never keys on the wire. */
  lemma UnderscoreKeyIsNoWireName(identifiers: seq<seq<string>>, wireNames: seq<string>, k: string)
    requires NamedByRule(identifiers, wireNames)
    requires !NoUnderscore(k)
    ensures k !in wireNames
  {
    forall i | 0 <= i < |wireNames|
      ensures wireNames[i] != k
    {
      assert NoUnderscore(CamelCase(Snake(identifiers[i])));
    }
  }

  /** Records whose halves follow the rule follow it as a whole. */
  lemma NamedByRuleConcat(ids1: seq<seq<string>>, names1: seq<string>, ids2: seq<seq<string>>, names2: seq<string>)
    requires NamedByRule(ids1, names1) && NamedByRule(ids2, names2)
    ensures NamedByRule(ids1 + ids2, names1 + names2)
  {
    forall i | |ids1| <= i < |ids1| + |ids2|
      ensures (ids1 + ids2)[i] == ids2[i - |ids1|] && (names1 + names2)[i] == names2[i - |ids1|]
    {
    }
  }

  /** The identifiers of OpenApiSpec's fields, in declaration order. */
  const OpenApiSpecIdentifiers: seq<seq<string>> := [["openapi"], ["info"], ["paths"], ["components"], ["servers"]]

  lemma OpenApiSpecWireNamesFollowTheRule()
    ensures NamedByRule(OpenApiSpecIdentifiers, OpenApiSpecWireNames)
  {
    RuleNamesFields(OpenApiSpecIdentifiers, OpenApiSpecWireNames);
  }

  /** The identifiers of Info's fields, in declaration order. */
  const InfoIdentifiers: seq<seq<string>> := [["title"], ["description"], ["version"]]

  lemma InfoWireNamesFollowTheRule()
    ensures NamedByRule(InfoIdentifiers, InfoWireNames)
  {
    RuleNamesFields(InfoIdentifiers, InfoWireNames);
  }

  /** The identifiers of Server's fields, in declaration order. */
  const ServerIdentifiers: seq<seq<string>> := [["url"], ["description"]]

  lemma ServerWireNamesFollowTheRule()
    ensures NamedByRule(ServerIdentifiers, ServerWireNames)
  {
    RuleNamesFields(ServerIdentifiers, ServerWireNames);
  }

  /** The identifiers of PathItem's fields, in declaration order. */
  const PathItemIdentifiers: seq<seq<string>> := [["get"], ["post"], ["put"], ["delete"], ["patch"], ["options"], ["head"], ["trace"]]

  lemma PathItemWireNamesFollowTheRule()
    ensures NamedByRule(PathItemIdentifiers, PathItemWireNames)
  {
    RuleNamesFields(PathItemIdentifiers, PathItemWireNames);
  }

  /** The identifiers of Operation's fields, in declaration order. */
  const OperationIdentifiers: seq<seq<string>> := [["tags"], ["summary"], ["description"], ["operation", "id"], ["parameters"], ["request", "body"], ["responses"]]

  lemma OperationWireNamesFollowTheRule()
    ensures NamedByRule(OperationIdentifiers, OperationWireNames)
  {
    RuleNamesFields(OperationIdentifiers, OperationWireNames);
  }

  /** The identifiers of Parameter's fields, in declaration order. */
  const ParameterIdentifiers: seq<seq<string>> := [["name"], ["in", ""], ["required"], ["schema"], ["description"], ["example"], ["examples"]]

  lemma ParameterWireNamesFollowTheRule()
    ensures NamedByRule(ParameterIdentifiers, ParameterWireNames)
  {
    RuleNamesFields(ParameterIdentifiers, ParameterWireNames);
  }

  /** The identifiers of RequestBody's fields, in declaration order. */
  const RequestBodyIdentifiers: seq<seq<string>> := [["content"], ["description"], ["required"]]

  lemma RequestBodyWireNamesFollowTheRule()
    ensures NamedByRule(RequestBodyIdentifiers, RequestBodyWireNames)
  {
    RuleNamesFields(RequestBodyIdentifiers, RequestBodyWireNames);
  }

  /** The identifiers of MediaType's fields, in declaration order. */
  const MediaTypeIdentifiers: seq<seq<string>> := [["schema"], ["example"], ["examples"]]

  lemma MediaTypeWireNamesFollowTheRule()
    ensures NamedByRule(MediaTypeIdentifiers, MediaTypeWireNames)
  {
    RuleNamesFields(MediaTypeIdentifiers, MediaTypeWireNames);
  }

  /** The identifiers of Response's fields, in declaration order. */
  const ResponseIdentifiers: seq<seq<string>> := [["description"], ["content"], ["headers"]]

  lemma ResponseWireNamesFollowTheRule()
    ensures NamedByRule(ResponseIdentifiers, ResponseWireNames)
  {
    RuleNamesFields(ResponseIdentifiers, ResponseWireNames);
  }

  /** The identifiers of Header's fields, in declaration order. */
  const HeaderIdentifiers: seq<seq<string>> := [["description"], ["schema"], ["example"]]

  lemma HeaderWireNamesFollowTheRule()
    ensures NamedByRule(HeaderIdentifiers, HeaderWireNames)
  {
    RuleNamesFields(HeaderIdentifiers, HeaderWireNames);
  }

  /** The identifiers of Components's fields, in declaration order. */
  const ComponentsIdentifiers: seq<seq<string>> := [["schemas"], ["responses"], ["parameters"], ["examples"], ["request", "bodies"], ["headers"], ["security", "schemes"]]

  lemma ComponentsWireNamesFollowTheRule()
    ensures NamedByRule(ComponentsIdentifiers, ComponentsWireNames)
  {
    RuleNamesFields(ComponentsIdentifiers, ComponentsWireNames);
  }

  /** The identifiers of Example's fields, in declaration order. */
  const ExampleIdentifiers: seq<seq<string>> := [["summary"], ["description"], ["value"], ["external", "value"]]

  lemma ExampleWireNamesFollowTheRule()
    ensures NamedByRule(ExampleIdentifiers, ExampleWireNames)
  {
    RuleNamesFields(ExampleIdentifiers, ExampleWireNames);
  }

  /** The identifiers of Discriminator's fields, in declaration order. */
  const DiscriminatorIdentifiers: seq<seq<string>> := [["property", "name"], ["mapping"]]

  lemma DiscriminatorWireNamesFollowTheRule()
    ensures NamedByRule(DiscriminatorIdentifiers, DiscriminatorWireNames)
  {
    RuleNamesFields(DiscriminatorIdentifiers, DiscriminatorWireNames);
  }

  /** The identifiers of SecurityScheme's fields, in declaration order, in groups of four. */
  const SecuritySchemeIdentifiers: seq<seq<string>> :=
    SecuritySchemeIdentifiers1 + SecuritySchemeIdentifiers2
  const SecuritySchemeIdentifiers1: seq<seq<string>> := [["type", ""], ["description"], ["name"], ["in", ""]]
  const SecuritySchemeIdentifiers2: seq<seq<string>> := [["scheme"], ["bearer", "format"], ["flows"], ["open", "id", "connect", "url"]]

  lemma SecuritySchemeWireNamesFollowTheRule1()
    ensures NamedByRule(SecuritySchemeIdentifiers1, ["type", "description", "name", "in"])
  {
    RuleNamesFields(SecuritySchemeIdentifiers1, ["type", "description", "name", "in"]);
  }

  lemma SecuritySchemeWireNamesFollowTheRule2()
    ensures NamedByRule(SecuritySchemeIdentifiers2, ["scheme", "bearerFormat", "flows", "openIdConnectUrl"])
  {
    RuleNamesFields(SecuritySchemeIdentifiers2, ["scheme", "bearerFormat", "flows", "openIdConnectUrl"]);
  }

  lemma SecuritySchemeWireNamesInGroups()
    ensures SecuritySchemeWireNames == ["type", "description", "name", "in"]
      + ["scheme", "bearerFormat", "flows", "openIdConnectUrl"]
  {
  }

  lemma SecuritySchemeWireNamesFollowTheRule()
    ensures NamedByRule(SecuritySchemeIdentifiers, SecuritySchemeWireNames)
  {
    SecuritySchemeWireNamesFollowTheRule1();
    SecuritySchemeWireNamesFollowTheRule2();
    NamedByRuleConcat(SecuritySchemeIdentifiers1, ["type", "description", "name", "in"],
                      SecuritySchemeIdentifiers2, ["scheme", "bearerFormat", "flows", "openIdConnectUrl"]);
    SecuritySchemeWireNamesInGroups();
  }

  /** The identifiers of OAuthFlows's fields, in declaration order. */
  const OAuthFlowsIdentifiers: seq<seq<string>> := [["implicit"], ["password"], ["client", "credentials"], ["authorization", "code"]]

  lemma OAuthFlowsWireNamesFollowTheRule()
    ensures NamedByRule(OAuthFlowsIdentifiers, OAuthFlowsWireNames)
  {
    RuleNamesFields(OAuthFlowsIdentifiers, OAuthFlowsWireNames);
  }

  /** The identifiers of OAuthFlow's fields, in declaration order. */
  const OAuthFlowIdentifiers: seq<seq<string>> := [["authorization", "url"], ["token", "url"], ["refresh", "url"], ["scopes"]]

  lemma OAuthFlowWireNamesFollowTheRule()
    ensures NamedByRule(OAuthFlowIdentifiers, OAuthFlowWireNames)
  {
    RuleNamesFields(OAuthFlowIdentifiers, OAuthFlowWireNames);
  }

  /** The identifiers of XML's fields, in declaration order. */
  const XMLIdentifiers: seq<seq<string>> := [["name"], ["namespace"], ["prefix"], ["attribute"], ["wrapped"]]

  lemma XMLWireNamesFollowTheRule()
    ensures NamedByRule(XMLIdentifiers, XMLWireNames)
  {
    RuleNamesFields(XMLIdentifiers, XMLWireNames);
  }

  /** The identifiers of Schema's fields, in declaration order, in groups of six. */
  const SchemaIdentifiers: seq<seq<string>> :=
    SchemaIdentifiers1 + SchemaIdentifiers2 + SchemaIdentifiers3 + SchemaIdentifiers4 + SchemaIdentifiers5 + SchemaIdentifiers6
  const SchemaIdentifiers1: seq<seq<string>> := [["title"], ["multiple", "of"], ["maximum"], ["exclusive", "maximum"], ["minimum"], ["exclusive", "minimum"]]
  const SchemaIdentifiers2: seq<seq<string>> := [["max", "length"], ["min", "length"], ["pattern"], ["max", "items"], ["min", "items"], ["unique", "items"]]
  const SchemaIdentifiers3: seq<seq<string>> := [["max", "properties"], ["min", "properties"], ["required"], ["type", ""], ["not"], ["all", "of"]]
  const SchemaIdentifiers4: seq<seq<string>> := [["one", "of"], ["any", "of"], ["items"], ["properties"], ["additional", "properties"], ["description"]]
  const SchemaIdentifiers5: seq<seq<string>> := [["format"], ["default"], ["nullable"], ["discriminator"], ["read", "only"], ["write", "only"]]
  const SchemaIdentifiers6: seq<seq<string>> := [["xml"], ["example"], ["deprecated"]]

  lemma SchemaWireNamesFollowTheRule1()
    ensures NamedByRule(SchemaIdentifiers1, ["title", "multipleOf", "maximum", "exclusiveMaximum", "minimum", "exclusiveMinimum"])
  {
    RuleNamesFields(SchemaIdentifiers1, ["title", "multipleOf", "maximum", "exclusiveMaximum", "minimum", "exclusiveMinimum"]);
  }

  lemma SchemaWireNamesFollowTheRule2()
    ensures NamedByRule(SchemaIdentifiers2, ["maxLength", "minLength", "pattern", "maxItems", "minItems", "uniqueItems"])
  {
    RuleNamesFields(SchemaIdentifiers2, ["maxLength", "minLength", "pattern", "maxItems", "minItems", "uniqueItems"]);
  }

  lemma SchemaWireNamesFollowTheRule3()
    ensures NamedByRule(SchemaIdentifiers3, ["maxProperties", "minProperties", "required", "type", "not", "allOf"])
  {
    RuleNamesFields(SchemaIdentifiers3, ["maxProperties", "minProperties", "required", "type", "not", "allOf"]);
  }

  lemma SchemaWireNamesFollowTheRule4()
    ensures NamedByRule(SchemaIdentifiers4, ["oneOf", "anyOf", "items", "properties", "additionalProperties", "description"])
  {
    RuleNamesFields(SchemaIdentifiers4, ["oneOf", "anyOf", "items", "properties", "additionalProperties", "description"]);
  }

  lemma SchemaWireNamesFollowTheRule5()
    ensures NamedByRule(SchemaIdentifiers5, ["format", "default", "nullable", "discriminator", "readOnly", "writeOnly"])
  {
    RuleNamesFields(SchemaIdentifiers5, ["format", "default", "nullable", "discriminator", "readOnly", "writeOnly"]);
  }

  lemma SchemaWireNamesFollowTheRule6()
    ensures NamedByRule(SchemaIdentifiers6, ["xml", "example", "deprecated"])
  {
    RuleNamesFields(SchemaIdentifiers6, ["xml", "example", "deprecated"]);
  }

  lemma SchemaWireNamesInGroups()
    ensures SchemaWireNames == ["title", "multipleOf", "maximum", "exclusiveMaximum", "minimum", "exclusiveMinimum"]
      + ["maxLength", "minLength", "pattern", "maxItems", "minItems", "uniqueItems"]
      + ["maxProperties", "minProperties", "required", "type", "not", "allOf"]
      + ["oneOf", "anyOf", "items", "properties", "additionalProperties", "description"]
      + ["format", "default", "nullable", "discriminator", "readOnly", "writeOnly"]
      + ["xml", "example", "deprecated"]
  {
  }

  lemma SchemaWireNamesFollowTheRule()
    ensures NamedByRule(SchemaIdentifiers, SchemaWireNames)
  {
    SchemaWireNamesFollowTheRule1();
    SchemaWireNamesFollowTheRule2();
    NamedByRuleConcat(SchemaIdentifiers1, ["title", "multipleOf", "maximum", "exclusiveMaximum", "minimum", "exclusiveMinimum"],
                      SchemaIdentifiers2, ["maxLength", "minLength", "pattern", "maxItems", "minItems", "uniqueItems"]);
    SchemaWireNamesFollowTheRule3();
    NamedByRuleConcat(SchemaIdentifiers1 + SchemaIdentifiers2, ["title", "multipleOf", "maximum", "exclusiveMaximum", "minimum", "exclusiveMinimum"] + ["maxLength", "minLength", "pattern", "maxItems", "minItems", "uniqueItems"],
                      SchemaIdentifiers3, ["maxProperties", "minProperties", "required", "type", "not", "allOf"]);
    SchemaWireNamesFollowTheRule4();
    NamedByRuleConcat(SchemaIdentifiers1 + SchemaIdentifiers2 + SchemaIdentifiers3, ["title", "multipleOf", "maximum", "exclusiveMaximum", "minimum", "exclusiveMinimum"] + ["maxLength", "minLength", "pattern", "maxItems", "minItems", "uniqueItems"] + ["maxProperties", "minProperties", "required", "type", "not", "allOf"],
                      SchemaIdentifiers4, ["oneOf", "anyOf", "items", "properties", "additionalProperties", "description"]);
    SchemaWireNamesFollowTheRule5();
    NamedByRuleConcat(SchemaIdentifiers1 + SchemaIdentifiers2 + SchemaIdentifiers3 + SchemaIdentifiers4, ["title", "multipleOf", "maximum", "exclusiveMaximum", "minimum", "exclusiveMinimum"] + ["maxLength", "minLength", "pattern", "maxItems", "minItems", "uniqueItems"] + ["maxProperties", "minProperties", "required", "type", "not", "allOf"] + ["oneOf", "anyOf", "items", "properties", "additionalProperties", "description"],
                      SchemaIdentifiers5, ["format", "default", "nullable", "discriminator", "readOnly", "writeOnly"]);
    SchemaWireNamesFollowTheRule6();
    NamedByRuleConcat(SchemaIdentifiers1 + SchemaIdentifiers2 + SchemaIdentifiers3 + SchemaIdentifiers4 + SchemaIdentifiers5, ["title", "multipleOf", "maximum", "exclusiveMaximum", "minimum", "exclusiveMinimum"] + ["maxLength", "minLength", "pattern", "maxItems", "minItems", "uniqueItems"] + ["maxProperties", "minProperties", "required", "type", "not", "allOf"] + ["oneOf", "anyOf", "items", "properties", "additionalProperties", "description"] + ["format", "default", "nullable", "discriminator", "readOnly", "writeOnly"],
                      SchemaIdentifiers6, ["xml", "example", "deprecated"]);
    SchemaWireNamesInGroups();
  }
}
