# openapi3-parser, modelled in Dafny

This project models the library core of openapi3-parser, a Rust crate that
loads an OpenAPI 3 document from a `.json`, `.yaml` or `.yml` file into typed
records. It has two halves.

- **The document model** (`src/open_api.rs`). Nineteen serde-derived records
  (`OpenApiSpec`, `Info`, `Server`, `PathItem`, `Operation`, `Parameter`,
  `RequestBody`, `MediaType`, `Responses`, `Response`, `Header`,
  `Components`, `Example`, `Schema`, `Discriminator`, `SecurityScheme`,
  `OAuthFlows`, `OAuthFlow`, `XML`), each with every field optional. The
  derived `Deserialize`/`Serialize` code is modelled as a pure decoder and
  encoder per record over a generic value tree (`Wire.Value`, the shape of
  `serde_json::Value`). The crate itself deserializes the text straight into
  the records; the value tree stands in for that typed deserialization, as
  the two steps "parse the text" and "fit it to the records". The model
  keeps serde's rules as the derives apply them:
  - `rename_all = "camelCase"` gives every wire name. The explicit renames
    to `in` and `type` agree with that rule.
  - A missing key and an explicit null both read as None.
  - Unknown keys are dropped.
  - None is written as null, so every declared key is written.
  - A field that does not decode fails the whole record. The model checks
    the fields in declaration order; serde meets them in document order.
  - `Responses` flattens its status-code map beside `default`.
- **The loader** (`src/lib.rs`).
  - `determine_file_type` is a pure classification of the path's extension.
    It follows the rules of Rust's `Path::file_name` and `Path::extension`
    for `/`-separated paths.
  - `parse_openapi_file` is a step-by-step method: classify, read the file
    into a buffer, then decode with the decoder the classification chose.
    Each `?` returns early.
  - The file system and the two text parsers are parameters.

Files:

- `wrappers.dfy`: Option and Result.
- `wire.dfy`: the value tree and serde's rules for scalars, `Option`, `Vec` and `HashMap`.
- `naming.dfy`: serde's camelCase rule.
- `open_api.dfy`: the records, their decoders and encoders.
- `open_api_proofs.dfy`: round trips and key-set laws, record by record.
- `wire_names.dfy`: each record's wire names derived from its identifiers.
- `open_api_laws.dfy`: the reserved-word fields, the fixed shapes and the `Responses` flatten.
- `loader.dfy`: the classifier and the loader.

Where the code departs from what the OpenAPI shapes suggest, the model
follows the code:

- **A bad status code empties the whole map.** Serde reads the flattened
  `Option<HashMap<String, Response>>` of `Responses` as an untagged option.
  When any sibling key other than `default` fails to decode as a `Response`,
  the whole map is None, silently: no error, and the good entries are lost
  too. A null entry and an extension key such as `x-rate-limit` do this as
  well. So the sibling keys are not simply split between `default` and the
  map: the code drops the whole map (`OpenApiLaws.BadStatusCodeDropsTheMap`,
  `OpenApiLaws.ExtensionKeyHidesStatusCodes`).
- **An empty map is never absent.** An object with no status-code keys
  decodes to Some of an empty map, never to None
  (`OpenApiLaws.EmptyResponses`).
- **An absent map encodes like an empty one.** So the round trip of
  `Responses` needs the map present and without a `default` entry. A
  `default` entry is shadowed by the dedicated field when written into a
  value tree (`OpenApiLaws.DefaultEntryIsShadowed`).
- **`Header` has no location field.** Like the OpenAPI header object,
  `Header` has no `in`, so only `Parameter` and `SecurityScheme` carry the
  `in` rename.
- **`PathItem` keeps only its verbs.** It has only the eight HTTP-verb
  slots. `summary`, `description`, `servers`, `parameters` and `$ref` of an
  OpenAPI path item are dropped (`OpenApiLaws.PathItemDropsNonVerbKeys`).
- **Unknown keys are dropped.** No record keeps them.

Extension matching is case-sensitive: `spec.JSON` is unsupported.

## Model

| member | source | states |
|---|---|---|
| Wire.AbsentIffMissingOrNull | src/open_api.rs:7 | An `Option` field reads as None exactly when its key is missing or holds null; any other value is Some of its decoding or an error |
| Wire.NullPayloadReadsAsAbsent | src/open_api.rs:63 | An `Option<serde_json::Value>` holding Some(null) is written as null and read back as None, the one value such a field cannot carry |
| Wire.DecodeU32 | src/open_api.rs:137 | A `u32` field accepts exactly the integer literals in [0, 2^32) and keeps their value |
| Wire.DecodeElems | src/open_api.rs:45 | A `Vec` decodes when every element decodes, keeping length and order; otherwise it fails |
| Wire.DecodeEntries | src/open_api.rs:9 | A `HashMap` decodes exactly when every entry decodes, keeping exactly the document's keys; otherwise it fails with the error of an entry that does not decode |
| Wire.ListRoundTrip | src/open_api.rs:45 | A `Vec` written as an array reads back as the same sequence when each element does |
| Wire.MapRoundTrip | src/open_api.rs:9 | A `HashMap` written as an object reads back as the same map when each value does |
| Wire.OptRoundTrip | src/open_api.rs:7 | An `Option` written as its payload or null reads back as itself when the payload is never written as null |
| Naming.CamelCase | src/open_api.rs:5 | The camelCase wire name of any identifier holds no underscore |
| Naming.CamelCaseOfSnake | src/open_api.rs:5 | For a snake_case identifier, serde's character-level camelCase rule is the word-level rule: first word unchanged, later words capitalized and joined |
| WireNames.UnderscoreKeyIsNoWireName | src/open_api.rs:58-59 | A key holding an underscore (such as `in_` or `type_`) is never the wire name of a record whose names follow the rule |
| WireNames.OpenApiSpecWireNamesFollowTheRule | src/open_api.rs:4-12 | Each wire name of OpenApiSpec is the camelCase of its field's identifier, one for one in declaration order |
| OpenApiProofs.OpenApiSpecFieldsWritten | src/open_api.rs:4-12 | The encoder writes each field of OpenApiSpec under its wire name, None as null |
| OpenApiProofs.OpenApiSpecWritesExactlyItsNames | src/open_api.rs:4-12 | The encoded OpenApiSpec has exactly its declared wire names as keys: nothing skipped, nothing extra |
| OpenApiProofs.OpenApiSpecRoundTrip | src/open_api.rs:4-12 | Every OpenApiSpec the wire can carry (no untyped Some(null) payload, Responses maps present and without `default`) reads back as itself after encoding |
| OpenApiProofs.OpenApiSpecReadsOnlyItsNames | src/open_api.rs:4-12 | Two objects that agree on OpenApiSpec's declared keys decode alike |
| OpenApiProofs.OpenApiSpecIgnoresUndeclaredKey | src/open_api.rs:4-12 | Adding or changing a key that is no wire name of OpenApiSpec does not change its decoding |
| OpenApiProofs.OpenApiSpecFromEmptyObject | src/open_api.rs:4-12 | `{}` decodes as an OpenApiSpec with every field absent |
| OpenApiProofs.OpenApiSpecReadsNullAsMissing | src/open_api.rs:4-12 | A key of OpenApiSpec holding null decodes as if the key were missing |
| WireNames.InfoWireNamesFollowTheRule | src/open_api.rs:14-20 | Each wire name of Info is the camelCase of its field's identifier, one for one in declaration order |
| OpenApiProofs.InfoFieldsWritten | src/open_api.rs:14-20 | The encoder writes each field of Info under its wire name, None as null |
| OpenApiProofs.InfoWritesExactlyItsNames | src/open_api.rs:14-20 | The encoded Info has exactly its declared wire names as keys: nothing skipped, nothing extra |
| OpenApiProofs.InfoRoundTrip | src/open_api.rs:14-20 | Every Info reads back as itself after encoding |
| OpenApiProofs.InfoReadsOnlyItsNames | src/open_api.rs:14-20 | Two objects that agree on Info's declared keys decode alike |
| OpenApiProofs.InfoIgnoresUndeclaredKey | src/open_api.rs:14-20 | Adding or changing a key that is no wire name of Info does not change its decoding |
| OpenApiProofs.InfoFromEmptyObject | src/open_api.rs:14-20 | `{}` decodes as an Info with every field absent |
| OpenApiProofs.InfoReadsNullAsMissing | src/open_api.rs:14-20 | A key of Info holding null decodes as if the key were missing |
| WireNames.ServerWireNamesFollowTheRule | src/open_api.rs:22-27 | Each wire name of Server is the camelCase of its field's identifier, one for one in declaration order |
| OpenApiProofs.ServerFieldsWritten | src/open_api.rs:22-27 | The encoder writes each field of Server under its wire name, None as null |
| OpenApiProofs.ServerWritesExactlyItsNames | src/open_api.rs:22-27 | The encoded Server has exactly its declared wire names as keys: nothing skipped, nothing extra |
| OpenApiProofs.ServerRoundTrip | src/open_api.rs:22-27 | Every Server reads back as itself after encoding |
| OpenApiProofs.ServerReadsOnlyItsNames | src/open_api.rs:22-27 | Two objects that agree on Server's declared keys decode alike |
| OpenApiProofs.ServerIgnoresUndeclaredKey | src/open_api.rs:22-27 | Adding or changing a key that is no wire name of Server does not change its decoding |
| OpenApiProofs.ServerFromEmptyObject | src/open_api.rs:22-27 | `{}` decodes as a Server with every field absent |
| OpenApiProofs.ServerReadsNullAsMissing | src/open_api.rs:22-27 | A key of Server holding null decodes as if the key were missing |
| WireNames.PathItemWireNamesFollowTheRule | src/open_api.rs:29-40 | Each wire name of PathItem is the camelCase of its field's identifier, one for one in declaration order |
| OpenApiProofs.PathItemFieldsWritten | src/open_api.rs:29-40 | The encoder writes each field of PathItem under its wire name, None as null |
| OpenApiProofs.PathItemWritesExactlyItsNames | src/open_api.rs:29-40 | The encoded PathItem has exactly its declared wire names as keys: nothing skipped, nothing extra |
| OpenApiProofs.PathItemRoundTrip | src/open_api.rs:29-40 | Every PathItem the wire can carry (no untyped Some(null) payload, Responses maps present and without `default`) reads back as itself after encoding |
| OpenApiProofs.PathItemReadsOnlyItsNames | src/open_api.rs:29-40 | Two objects that agree on PathItem's declared keys decode alike |
| OpenApiProofs.PathItemIgnoresUndeclaredKey | src/open_api.rs:29-40 | Adding or changing a key that is no wire name of PathItem does not change its decoding |
| OpenApiProofs.PathItemFromEmptyObject | src/open_api.rs:29-40 | `{}` decodes as a PathItem with every field absent |
| OpenApiProofs.PathItemReadsNullAsMissing | src/open_api.rs:29-40 | A key of PathItem holding null decodes as if the key were missing |
| WireNames.OperationWireNamesFollowTheRule | src/open_api.rs:42-52 | Each wire name of Operation is the camelCase of its field's identifier, one for one in declaration order |
| OpenApiProofs.OperationFieldsWritten | src/open_api.rs:42-52 | The encoder writes each field of Operation under its wire name, None as null |
| OpenApiProofs.OperationWritesExactlyItsNames | src/open_api.rs:42-52 | The encoded Operation has exactly its declared wire names as keys: nothing skipped, nothing extra |
| OpenApiProofs.OperationRoundTrip | src/open_api.rs:42-52 | Every Operation the wire can carry (no untyped Some(null) payload, Responses maps present and without `default`) reads back as itself after encoding |
| OpenApiProofs.OperationReadsOnlyItsNames | src/open_api.rs:42-52 | Two objects that agree on Operation's declared keys decode alike |
| OpenApiProofs.OperationIgnoresUndeclaredKey | src/open_api.rs:42-52 | Adding or changing a key that is no wire name of Operation does not change its decoding |
| OpenApiProofs.OperationFromEmptyObject | src/open_api.rs:42-52 | `{}` decodes as an Operation with every field absent |
| OpenApiProofs.OperationReadsNullAsMissing | src/open_api.rs:42-52 | A key of Operation holding null decodes as if the key were missing |
| WireNames.ParameterWireNamesFollowTheRule | src/open_api.rs:54-65 | Each wire name of Parameter is the camelCase of its field's identifier, one for one in declaration order |
| OpenApiProofs.ParameterFieldsWritten | src/open_api.rs:54-65 | The encoder writes each field of Parameter under its wire name, None as null |
| OpenApiProofs.ParameterWritesExactlyItsNames | src/open_api.rs:54-65 | The encoded Parameter has exactly its declared wire names as keys: nothing skipped, nothing extra |
| OpenApiProofs.ParameterRoundTrip | src/open_api.rs:54-65 | Every Parameter the wire can carry (no untyped Some(null) payload, Responses maps present and without `default`) reads back as itself after encoding |
| OpenApiProofs.ParameterReadsOnlyItsNames | src/open_api.rs:54-65 | Two objects that agree on Parameter's declared keys decode alike |
| OpenApiProofs.ParameterIgnoresUndeclaredKey | src/open_api.rs:54-65 | Adding or changing a key that is no wire name of Parameter does not change its decoding |
| OpenApiProofs.ParameterFromEmptyObject | src/open_api.rs:54-65 | `{}` decodes as a Parameter with every field absent |
| OpenApiProofs.ParameterReadsNullAsMissing | src/open_api.rs:54-65 | A key of Parameter holding null decodes as if the key were missing |
| WireNames.RequestBodyWireNamesFollowTheRule | src/open_api.rs:67-73 | Each wire name of RequestBody is the camelCase of its field's identifier, one for one in declaration order |
| OpenApiProofs.RequestBodyFieldsWritten | src/open_api.rs:67-73 | The encoder writes each field of RequestBody under its wire name, None as null |
| OpenApiProofs.RequestBodyWritesExactlyItsNames | src/open_api.rs:67-73 | The encoded RequestBody has exactly its declared wire names as keys: nothing skipped, nothing extra |
| OpenApiProofs.RequestBodyRoundTrip | src/open_api.rs:67-73 | Every RequestBody the wire can carry (no untyped Some(null) payload, Responses maps present and without `default`) reads back as itself after encoding |
| OpenApiProofs.RequestBodyReadsOnlyItsNames | src/open_api.rs:67-73 | Two objects that agree on RequestBody's declared keys decode alike |
| OpenApiProofs.RequestBodyIgnoresUndeclaredKey | src/open_api.rs:67-73 | Adding or changing a key that is no wire name of RequestBody does not change its decoding |
| OpenApiProofs.RequestBodyFromEmptyObject | src/open_api.rs:67-73 | `{}` decodes as a RequestBody with every field absent |
| OpenApiProofs.RequestBodyReadsNullAsMissing | src/open_api.rs:67-73 | A key of RequestBody holding null decodes as if the key were missing |
| WireNames.MediaTypeWireNamesFollowTheRule | src/open_api.rs:75-81 | Each wire name of MediaType is the camelCase of its field's identifier, one for one in declaration order |
| OpenApiProofs.MediaTypeFieldsWritten | src/open_api.rs:75-81 | The encoder writes each field of MediaType under its wire name, None as null |
| OpenApiProofs.MediaTypeWritesExactlyItsNames | src/open_api.rs:75-81 | The encoded MediaType has exactly its declared wire names as keys: nothing skipped, nothing extra |
| OpenApiProofs.MediaTypeRoundTrip | src/open_api.rs:75-81 | Every MediaType the wire can carry (no untyped Some(null) payload, Responses maps present and without `default`) reads back as itself after encoding |
| OpenApiProofs.MediaTypeReadsOnlyItsNames | src/open_api.rs:75-81 | Two objects that agree on MediaType's declared keys decode alike |
| OpenApiProofs.MediaTypeIgnoresUndeclaredKey | src/open_api.rs:75-81 | Adding or changing a key that is no wire name of MediaType does not change its decoding |
| OpenApiProofs.MediaTypeFromEmptyObject | src/open_api.rs:75-81 | `{}` decodes as a MediaType with every field absent |
| OpenApiProofs.MediaTypeReadsNullAsMissing | src/open_api.rs:75-81 | A key of MediaType holding null decodes as if the key were missing |
| OpenApi.DecodeResponses | src/open_api.rs:83-89 | `default` is read into its own field and is the only key that can fail; every other key goes to the status-code map, which is Some exactly when all of them are Responses (then with exactly those keys) and None otherwise |
| OpenApi.EncodeResponses | src/open_api.rs:83-89 | The map's entries are written as siblings of `default`, which is always written: the keys are `default` plus the map's keys |
| OpenApiProofs.ResponsesRoundTrip | src/open_api.rs:83-89 | A Responses whose map is present and has no `default` entry reads back as itself |
| WireNames.ResponseWireNamesFollowTheRule | src/open_api.rs:91-97 | Each wire name of Response is the camelCase of its field's identifier, one for one in declaration order |
| OpenApiProofs.ResponseFieldsWritten | src/open_api.rs:91-97 | The encoder writes each field of Response under its wire name, None as null |
| OpenApiProofs.ResponseWritesExactlyItsNames | src/open_api.rs:91-97 | The encoded Response has exactly its declared wire names as keys: nothing skipped, nothing extra |
| OpenApiProofs.ResponseRoundTrip | src/open_api.rs:91-97 | Every Response the wire can carry (no untyped Some(null) payload, Responses maps present and without `default`) reads back as itself after encoding |
| OpenApiProofs.ResponseReadsOnlyItsNames | src/open_api.rs:91-97 | Two objects that agree on Response's declared keys decode alike |
| OpenApiProofs.ResponseIgnoresUndeclaredKey | src/open_api.rs:91-97 | Adding or changing a key that is no wire name of Response does not change its decoding |
| OpenApiProofs.ResponseFromEmptyObject | src/open_api.rs:91-97 | `{}` decodes as a Response with every field absent |
| OpenApiProofs.ResponseReadsNullAsMissing | src/open_api.rs:91-97 | A key of Response holding null decodes as if the key were missing |
| WireNames.HeaderWireNamesFollowTheRule | src/open_api.rs:99-105 | Each wire name of Header is the camelCase of its field's identifier, one for one in declaration order |
| OpenApiProofs.HeaderFieldsWritten | src/open_api.rs:99-105 | The encoder writes each field of Header under its wire name, None as null |
| OpenApiProofs.HeaderWritesExactlyItsNames | src/open_api.rs:99-105 | The encoded Header has exactly its declared wire names as keys: nothing skipped, nothing extra |
| OpenApiProofs.HeaderRoundTrip | src/open_api.rs:99-105 | Every Header the wire can carry (no untyped Some(null) payload, Responses maps present and without `default`) reads back as itself after encoding |
| OpenApiProofs.HeaderReadsOnlyItsNames | src/open_api.rs:99-105 | Two objects that agree on Header's declared keys decode alike |
| OpenApiProofs.HeaderIgnoresUndeclaredKey | src/open_api.rs:99-105 | Adding or changing a key that is no wire name of Header does not change its decoding |
| OpenApiProofs.HeaderFromEmptyObject | src/open_api.rs:99-105 | `{}` decodes as a Header with every field absent |
| OpenApiProofs.HeaderReadsNullAsMissing | src/open_api.rs:99-105 | A key of Header holding null decodes as if the key were missing |
| WireNames.ComponentsWireNamesFollowTheRule | src/open_api.rs:107-117 | Each wire name of Components is the camelCase of its field's identifier, one for one in declaration order |
| OpenApiProofs.ComponentsFieldsWritten | src/open_api.rs:107-117 | The encoder writes each field of Components under its wire name, None as null |
| OpenApiProofs.ComponentsWritesExactlyItsNames | src/open_api.rs:107-117 | The encoded Components has exactly its declared wire names as keys: nothing skipped, nothing extra |
| OpenApiProofs.ComponentsRoundTrip | src/open_api.rs:107-117 | Every Components the wire can carry (no untyped Some(null) payload, Responses maps present and without `default`) reads back as itself after encoding |
| OpenApiProofs.ComponentsReadsOnlyItsNames | src/open_api.rs:107-117 | Two objects that agree on Components's declared keys decode alike |
| OpenApiProofs.ComponentsIgnoresUndeclaredKey | src/open_api.rs:107-117 | Adding or changing a key that is no wire name of Components does not change its decoding |
| OpenApiProofs.ComponentsFromEmptyObject | src/open_api.rs:107-117 | `{}` decodes as a Components with every field absent |
| OpenApiProofs.ComponentsReadsNullAsMissing | src/open_api.rs:107-117 | A key of Components holding null decodes as if the key were missing |
| WireNames.ExampleWireNamesFollowTheRule | src/open_api.rs:119-126 | Each wire name of Example is the camelCase of its field's identifier, one for one in declaration order |
| OpenApiProofs.ExampleFieldsWritten | src/open_api.rs:119-126 | The encoder writes each field of Example under its wire name, None as null |
| OpenApiProofs.ExampleWritesExactlyItsNames | src/open_api.rs:119-126 | The encoded Example has exactly its declared wire names as keys: nothing skipped, nothing extra |
| OpenApiProofs.ExampleRoundTrip | src/open_api.rs:119-126 | Every Example the wire can carry (no untyped Some(null) payload, Responses maps present and without `default`) reads back as itself after encoding |
| OpenApiProofs.ExampleReadsOnlyItsNames | src/open_api.rs:119-126 | Two objects that agree on Example's declared keys decode alike |
| OpenApiProofs.ExampleIgnoresUndeclaredKey | src/open_api.rs:119-126 | Adding or changing a key that is no wire name of Example does not change its decoding |
| OpenApiProofs.ExampleFromEmptyObject | src/open_api.rs:119-126 | `{}` decodes as an Example with every field absent |
| OpenApiProofs.ExampleReadsNullAsMissing | src/open_api.rs:119-126 | A key of Example holding null decodes as if the key were missing |
| WireNames.SchemaWireNamesFollowTheRule | src/open_api.rs:128-165 | Each wire name of Schema is the camelCase of its field's identifier, one for one in declaration order |
| OpenApiProofs.SchemaWritesType | src/open_api.rs:146-147 | The encoder writes `type_` under `type`, None as null |
| OpenApiProofs.SchemaWritesExactlyItsNames | src/open_api.rs:128-165 | The encoded Schema has exactly its declared wire names as keys: nothing skipped, nothing extra |
| OpenApiProofs.SchemaRoundTrip | src/open_api.rs:128-165 | Every Schema the wire can carry (no untyped Some(null) payload, Responses maps present and without `default`) reads back as itself after encoding; nested schemas under `not`, `items`, `additionalProperties`, the `allOf`/`oneOf`/`anyOf` lists and `properties` come back unchanged |
| OpenApiProofs.SchemaReadsOnlyItsNames | src/open_api.rs:128-165 | Two objects that agree on Schema's declared keys decode alike |
| OpenApiProofs.SchemaIgnoresUndeclaredKey | src/open_api.rs:128-165 | Adding or changing a key that is no wire name of Schema does not change its decoding |
| OpenApiProofs.SchemaFromEmptyObject | src/open_api.rs:128-165 | `{}` decodes as a Schema with every field absent |
| OpenApiProofs.SchemaReadsNullAsMissing | src/open_api.rs:128-165 | A key of Schema holding null decodes as if the key were missing |
| OpenApiProofs.SchemaAtRoundTrip | src/open_api.rs:148 | A boxed nested schema (`not`, `items`, `additionalProperties`) reads back as itself |
| OpenApiProofs.SchemasAtRoundTrip | src/open_api.rs:149-151 | A nested list of schemas (`allOf`, `oneOf`, `anyOf`) reads back as itself, element by element |
| OpenApiProofs.PropertiesAtRoundTrip | src/open_api.rs:153 | A nested map of schemas (`properties`) reads back as itself, key by key |
| OpenApiProofs.PropertiesAtError | src/open_api.rs:153 | `properties` fails with `InvalidType("a map")` when it is neither null nor an object, and otherwise with the error of a named Schema that does not decode |
| WireNames.DiscriminatorWireNamesFollowTheRule | src/open_api.rs:167-172 | Each wire name of Discriminator is the camelCase of its field's identifier, one for one in declaration order |
| OpenApiProofs.DiscriminatorFieldsWritten | src/open_api.rs:167-172 | The encoder writes each field of Discriminator under its wire name, None as null |
| OpenApiProofs.DiscriminatorWritesExactlyItsNames | src/open_api.rs:167-172 | The encoded Discriminator has exactly its declared wire names as keys: nothing skipped, nothing extra |
| OpenApiProofs.DiscriminatorRoundTrip | src/open_api.rs:167-172 | Every Discriminator reads back as itself after encoding |
| OpenApiProofs.DiscriminatorReadsOnlyItsNames | src/open_api.rs:167-172 | Two objects that agree on Discriminator's declared keys decode alike |
| OpenApiProofs.DiscriminatorIgnoresUndeclaredKey | src/open_api.rs:167-172 | Adding or changing a key that is no wire name of Discriminator does not change its decoding |
| OpenApiProofs.DiscriminatorFromEmptyObject | src/open_api.rs:167-172 | `{}` decodes as a Discriminator with every field absent |
| OpenApiProofs.DiscriminatorReadsNullAsMissing | src/open_api.rs:167-172 | A key of Discriminator holding null decodes as if the key were missing |
| WireNames.SecuritySchemeWireNamesFollowTheRule | src/open_api.rs:174-186 | Each wire name of SecurityScheme is the camelCase of its field's identifier, one for one in declaration order |
| OpenApiProofs.SecuritySchemeFieldsWritten | src/open_api.rs:174-186 | The encoder writes each field of SecurityScheme under its wire name, None as null |
| OpenApiProofs.SecuritySchemeWritesExactlyItsNames | src/open_api.rs:174-186 | The encoded SecurityScheme has exactly its declared wire names as keys: nothing skipped, nothing extra |
| OpenApiProofs.SecuritySchemeRoundTrip | src/open_api.rs:174-186 | Every SecurityScheme reads back as itself after encoding |
| OpenApiProofs.SecuritySchemeReadsOnlyItsNames | src/open_api.rs:174-186 | Two objects that agree on SecurityScheme's declared keys decode alike |
| OpenApiProofs.SecuritySchemeIgnoresUndeclaredKey | src/open_api.rs:174-186 | Adding or changing a key that is no wire name of SecurityScheme does not change its decoding |
| OpenApiProofs.SecuritySchemeFromEmptyObject | src/open_api.rs:174-186 | `{}` decodes as a SecurityScheme with every field absent |
| OpenApiProofs.SecuritySchemeReadsNullAsMissing | src/open_api.rs:174-186 | A key of SecurityScheme holding null decodes as if the key were missing |
| WireNames.OAuthFlowsWireNamesFollowTheRule | src/open_api.rs:188-195 | Each wire name of OAuthFlows is the camelCase of its field's identifier, one for one in declaration order |
| OpenApiProofs.OAuthFlowsFieldsWritten | src/open_api.rs:188-195 | The encoder writes each field of OAuthFlows under its wire name, None as null |
| OpenApiProofs.OAuthFlowsWritesExactlyItsNames | src/open_api.rs:188-195 | The encoded OAuthFlows has exactly its declared wire names as keys: nothing skipped, nothing extra |
| OpenApiProofs.OAuthFlowsRoundTrip | src/open_api.rs:188-195 | Every OAuthFlows reads back as itself after encoding |
| OpenApiProofs.OAuthFlowsReadsOnlyItsNames | src/open_api.rs:188-195 | Two objects that agree on OAuthFlows's declared keys decode alike |
| OpenApiProofs.OAuthFlowsIgnoresUndeclaredKey | src/open_api.rs:188-195 | Adding or changing a key that is no wire name of OAuthFlows does not change its decoding |
| OpenApiProofs.OAuthFlowsFromEmptyObject | src/open_api.rs:188-195 | `{}` decodes as an OAuthFlows with every field absent |
| OpenApiProofs.OAuthFlowsReadsNullAsMissing | src/open_api.rs:188-195 | A key of OAuthFlows holding null decodes as if the key were missing |
| WireNames.OAuthFlowWireNamesFollowTheRule | src/open_api.rs:197-204 | Each wire name of OAuthFlow is the camelCase of its field's identifier, one for one in declaration order |
| OpenApiProofs.OAuthFlowFieldsWritten | src/open_api.rs:197-204 | The encoder writes each field of OAuthFlow under its wire name, None as null |
| OpenApiProofs.OAuthFlowWritesExactlyItsNames | src/open_api.rs:197-204 | The encoded OAuthFlow has exactly its declared wire names as keys: nothing skipped, nothing extra |
| OpenApiProofs.OAuthFlowRoundTrip | src/open_api.rs:197-204 | Every OAuthFlow reads back as itself after encoding |
| OpenApiProofs.OAuthFlowReadsOnlyItsNames | src/open_api.rs:197-204 | Two objects that agree on OAuthFlow's declared keys decode alike |
| OpenApiProofs.OAuthFlowIgnoresUndeclaredKey | src/open_api.rs:197-204 | Adding or changing a key that is no wire name of OAuthFlow does not change its decoding |
| OpenApiProofs.OAuthFlowFromEmptyObject | src/open_api.rs:197-204 | `{}` decodes as an OAuthFlow with every field absent |
| OpenApiProofs.OAuthFlowReadsNullAsMissing | src/open_api.rs:197-204 | A key of OAuthFlow holding null decodes as if the key were missing |
| WireNames.XMLWireNamesFollowTheRule | src/open_api.rs:206-214 | Each wire name of XML is the camelCase of its field's identifier, one for one in declaration order |
| OpenApiProofs.XMLFieldsWritten | src/open_api.rs:206-214 | The encoder writes each field of XML under its wire name, None as null |
| OpenApiProofs.XMLWritesExactlyItsNames | src/open_api.rs:206-214 | The encoded XML has exactly its declared wire names as keys: nothing skipped, nothing extra |
| OpenApiProofs.XMLRoundTrip | src/open_api.rs:206-214 | Every XML reads back as itself after encoding |
| OpenApiProofs.XMLReadsOnlyItsNames | src/open_api.rs:206-214 | Two objects that agree on XML's declared keys decode alike |
| OpenApiProofs.XMLIgnoresUndeclaredKey | src/open_api.rs:206-214 | Adding or changing a key that is no wire name of XML does not change its decoding |
| OpenApiProofs.XMLFromEmptyObject | src/open_api.rs:206-214 | `{}` decodes as an XML with every field absent |
| OpenApiProofs.XMLReadsNullAsMissing | src/open_api.rs:206-214 | A key of XML holding null decodes as if the key were missing |
| OpenApiLaws.TrailingUnderscoreDropped | src/open_api.rs:181 | The rule alone turns the identifiers `in_` and `type_` into `in` and `type` |
| OpenApiLaws.RenamedFieldsWireNames | src/open_api.rs:58-181 | The reserved-word fields (Parameter `in_`, Schema `type_`, SecurityScheme `type_` and `in_`) have the wire names `in` and `type` |
| OpenApiLaws.RenamedIdentifiersAreNoWireNames | src/open_api.rs:58-59 | `in_` and `type_` are no wire name of Parameter, Schema or SecurityScheme |
| OpenApiLaws.ParameterWritesLocationAsIn | src/open_api.rs:58-59 | Parameter's `in_` is written under `in`, and no key `in_` is written |
| OpenApiLaws.ParameterReadsLocationFromIn | src/open_api.rs:58-59 | Parameter's `in_` is read from `in`, and a key `in_` is ignored |
| OpenApiLaws.SchemaWritesTypeAsType | src/open_api.rs:146-147 | Schema's `type_` is written under `type`, and no key `type_` is written |
| OpenApiLaws.SchemaReadsTypeFromType | src/open_api.rs:146-147 | Schema's `type_` is read from `type`, and a key `type_` is ignored |
| OpenApiLaws.SecuritySchemeWritesTypeAndIn | src/open_api.rs:177-181 | SecurityScheme's `type_` and `in_` are written under `type` and `in`; neither `type_` nor `in_` is written |
| OpenApiLaws.SecuritySchemeReadsTypeAndIn | src/open_api.rs:177-181 | SecurityScheme's `type_` and `in_` are read from `type` and `in`; keys `type_` and `in_` are ignored |
| OpenApiLaws.PathItemDropsNonVerbKeys | src/open_api.rs:31-40 | PathItem has eight slots; `summary`, `parameters`, `$ref` and extension keys do not change its decoding |
| OpenApiLaws.OAuthFlowsDropsOtherKeys | src/open_api.rs:190-195 | OAuthFlows has four slots; other flow names and extension keys do not change its decoding |
| OpenApiLaws.EmptyResponses | src/open_api.rs:86-87 | `{}` decodes as an empty, present status-code map |
| OpenApiLaws.AbsentStatusCodesReadBackEmpty | src/open_api.rs:86-87 | An absent and an empty status-code map are written alike and both read back as empty |
| OpenApiLaws.DefaultEntryIsShadowed | src/open_api.rs:86-88 | A status-code entry named `default` is overwritten by the `default` field when written, and does not come back |
| OpenApiLaws.BadStatusCodeDropsTheMap | src/open_api.rs:86-87 | One non-`default` entry that is not a Response makes the whole map None, without an error |
| OpenApiLaws.NullStatusCodeDropsTheMap | src/open_api.rs:86-87 | A null status-code entry also makes the whole map None |
| OpenApiLaws.ExtensionKeyHidesStatusCodes | src/open_api.rs:86-87 | `{"200": {"description": "ok"}, "x-rate-limit": true}` decodes with no status-code map |
| OpenApiLaws.BadPathItemIsReported | src/open_api.rs:9 | `{"paths": {"/x": 5}}` fails with the path item's own error, `InvalidType("struct PathItem")` |
| OpenApiLaws.BadPropertyIsReported | src/open_api.rs:153 | `{"properties": {"a": 5}}` fails with the named Schema's own error, `InvalidType("struct Schema")` |
| Loader.FileName | src/lib.rs:32 | The path's file name, if any, is a normal component: non-empty, no separator, not `.` or `..` |
| Loader.ExtensionOfName | src/lib.rs:32 | A file name has an extension exactly when it holds a dot after its first character; the extension is the text after the last dot |
| Loader.DetermineFileType | src/lib.rs:31-37 | JSON exactly for extension `json`, YAML exactly for `yaml` or `yml` (case-sensitive), UnsupportedFormat for anything else or no extension |
| Loader.FileNameOfName | src/lib.rs:32 | A path that is a single file name has that name |
| Loader.FileNameAfterSeparator | src/lib.rs:32 | The file name of `dir/name` is `name`, whatever the directory |
| Loader.ExtensionOfStem | src/lib.rs:32 | The extension of `stem.ext` is `ext`, whatever dots the stem holds |
| Loader.ExtensionOfFile | src/lib.rs:32 | The path `stem.ext` has extension `ext` |
| Loader.ExtensionInDirectory | src/lib.rs:32 | The path `dir/stem.ext` has extension `ext`, whatever dots the directory holds |
| Loader.HiddenFileHasNoExtension | src/lib.rs:32 | A name whose only dot is its first character (`.json`) has no extension |
| Loader.NestedExtensionExample | src/lib.rs:33 | `api/a.tar.json` is JSON: only the last dot counts |
| Loader.YmlExample | src/lib.rs:34 | `spec.yml` is YAML |
| Loader.BackupExample | src/lib.rs:35 | `x.json.bak` is unsupported |
| Loader.HiddenFileExample | src/lib.rs:35 | `.json` is unsupported |
| Loader.UpperCaseExample | src/lib.rs:35 | `spec.JSON` is unsupported: the match is case-sensitive |
| Loader.DecodeText | src/lib.rs:52 | Decoding text succeeds exactly when it parses and its value tree decodes as an OpenApiSpec, and yields that spec; a parse failure is reported as Syntax, a shape failure as Shape |
| Loader.ParseOpenApiFile | src/lib.rs:40-60 | The step-by-step loader returns exactly what classify-read-decode (LoadSpec) gives |
| Loader.UnsupportedBeforeRead | src/lib.rs:42 | An unsupported path fails with UnsupportedFormat whatever the file system and the decoders do |
| Loader.ReadErrorBeforeDecode | src/lib.rs:45-47 | A read failure is a ReadError carrying the cause, whatever the decoders do |
| Loader.JsonFileUsesJsonDecoder | src/lib.rs:51-54 | A JSON file never reaches the YAML decoder; its failures are ReadError or JsonParseError |
| Loader.YamlFileUsesYamlDecoder | src/lib.rs:55-58 | A YAML file never reaches the JSON decoder; its failures are ReadError or YamlParseError |
| Loader.SuccessIsTheDecodedSpec | src/lib.rs:40-60 | Loading succeeds exactly when the path is supported, the file is read and its text decodes; the spec is the decoder's, unchanged |
| Loader.ExampleDocumentDecodes | src/open_api.rs:4-12 | A small document with `openapi`, `info` and one path with `200` and `default` responses decodes to the expected spec |
| Loader.EndToEndExample | src/lib.rs:66-71 | Loading `spec.json` whose text parses to that document succeeds with that spec |

## Left out

- Positional decoding: serde's derived visitors also accept a record written as an array of its fields in order. Only the object form is modelled.
- Duplicate keys and key order: an object is a `map<string, Value>`, so a key written twice is a single entry, the last one written. In JSON text, a `Responses` whose map has a `default` entry would be written with `default` twice. The model's `OpenApiLaws.DefaultEntryIsShadowed` describes the value-tree form only. What the crate does with a key written twice is not modelled. A derived record rejects a declared key written twice with a `duplicate_field` error, and for `Responses` that includes `default`. A `HashMap` key or a flattened status-code key written twice keeps its last value.
- Wire.DecodeEntries: when several entries fail, it reports the error of the one with the least key in code-point order. serde reports the first failing entry in document order, which a `map` does not keep. `OpenApi.DecodePropertiesAt` does the same for `properties`.
- YAML-specific input (non-string keys, anchors, tags) is not modelled: the YAML parser is a parameter that yields the same value tree.
- Loader.DecodeText: splits `serde_json::from_str` and `serde_yaml::from_str` into parsing to a value tree, then decoding the tree. The crate does both in one pass, and the split loses two behaviours. First, it reports a syntax error whenever the text does not parse. serde_json instead reports a shape error that comes before a later syntax error: for the truncated text `{"openapi": 5,` it reports the bad `5`. Second, for a YAML file, serde_yaml gives a plain scalar to a `String` field whatever it looks like (`version: 1.0` loads as `Some("1.0")`). The model's YAML parser is a parameter; one that resolves that scalar as a number, as YAML's core schema does, yields a number node, and decoding then fails.
- Wire.DecodeString: accepts only a string node. So it rejects a YAML plain scalar that resolves to a number or boolean, which serde_yaml accepts for a `String` field (see the line above).
- OpenApi.DecodeSchema: like every record decoder, it checks fields in declaration order. serde reports the first malformed key in document order. With several malformed fields, the reported `ShapeError` may therefore name another field or have another variant: `{"maxLength": -1, "title": 5}` gives `InvalidType` here where serde gives `InvalidValue`.
- Floating point: an `f64` field keeps the number's token as written. Rounding, and numbers too large for `f64`, are not modelled.
- Error messages: the `Display` texts of `OpenApiError` and the positions inside parser errors are left out. The errors keep only their variant and cause.
- The file system, `File::open` and `read_to_string` are a single parameter `read` from path to text or error message. A non-UTF-8 file is one of its errors.
- The text parsers (`serde_json::from_str` syntax, `serde_yaml::from_str` syntax) are parameters from text to value tree or error message.
- Paths are `/`-separated strings. Windows prefixes and separators, and non-UTF-8 path names (`to_str` returning None) are not modelled.
- `Debug` output is left out.
- The tests of `src/lib.rs` read files from disk. `Loader.EndToEndExample` states their promise for a given document instead.
- `Schema`'s `allOf`/`oneOf`/`anyOf` are `SchemaList` (absent or a sequence) and `properties` is `SchemaMap` (absent or a map), instead of `Option<seq<Schema>>` and `Option<map<string, Schema>>`. This lets Dafny prove that decoding recursive schemas terminates. It is the same choice of absent or present.
- Boxing: `Box<Schema>` is modelled by value, which the model cannot distinguish.
- The round-trip lemmas (`OpenApiProofs.*RoundTrip`) require a canonical value. No untyped field holds Some(null), because that is written as null and read back as None (`Wire.NullPayloadReadsAsAbsent`). Every `Responses` map is present and has no `default` key. For other values the round trip does not hold, as the `OpenApiLaws` lemmas show.
