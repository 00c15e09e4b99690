/**
 * The entry point of the library: classify a path by its extension, read the
 * file, and hand its text to the JSON or the YAML decoder. The file system
 * and the two text parsers are parameters; what is proved is the order in
 * which the steps can fail and which decoder sees the text.
 */
module Loader {
  import opened Wrappers
  import opened Wire
  import opened OpenApi
  import opened OpenApiLaws

  /** The two encodings the loader accepts. */
  datatype FileType = Json | Yaml

  /** What a `serde_json::Error` or `serde_yaml::Error` reports: the text is
    * not valid JSON/YAML, or its value tree does not fit the typed model. */
  datatype DecodeFailure = Syntax(message: string) | Shape(error: ShapeError)

  /** `OpenApiError`; the causes of ReadError are `std::io::Error` messages. */
  datatype OpenApiError =
    | ReadError(cause: string)
    | JsonParseError(failure: DecodeFailure)
    | YamlParseError(failure: DecodeFailure)
    | UnsupportedFormat

  // ---------------------------------------------------------------------
  // Rust's `Path::file_name` and `Path::extension` (Unix separators)
  // ---------------------------------------------------------------------

  /** The position of the last `c` in `s`. */
  function LastIndexOf(s: string, c: char): (r: Option<nat>)
    ensures r.Some? ==> r.value < |s| && s[r.value] == c && forall j | r.value < j < |s| :: s[j] != c
    ensures r.None? ==> forall j | 0 <= j < |s| :: s[j] != c
  {
    if s == [] then None
    else if s[|s| - 1] == c then Some(|s| - 1)
    else LastIndexOf(s[..|s| - 1], c)
  }

  /** A path component that `file_name` can return: a normal component. */
  predicate IsFileName(s: string)
  {
    s != "" && s != "." && s != ".." && forall j | 0 <= j < |s| :: s[j] != '/'
  }

  /** The last component of the path: empty components (repeated or
    * trailing separators) and `.` are skipped, and a last component that is
    * `..` (or nothing at all, as for `/`) gives no file name. */
  function FileName(path: string): (r: Option<string>)
    ensures r.Some? ==> IsFileName(r.value)
    decreases |path|
  {
    match LastIndexOf(path, '/')
    case None => if IsFileName(path) then Some(path) else None
    case Some(i) =>
      var last := path[i + 1..];
      if last == "" || last == "." then FileName(path[..i])
      else if IsFileName(last) then Some(last)
      else None
  }

  /** The text after the final dot of a file name, unless that dot is the
    * first character (a name like `.json` has no extension). */
  function ExtensionOfName(name: string): (r: Option<string>)
    ensures r.Some? <==> exists i | 0 < i < |name| :: name[i] == '.'
    ensures r.Some? ==> exists i | 0 < i < |name| :: name[i] == '.' && r.value == name[i + 1..]
    ensures r.Some? ==> forall j | 0 <= j < |r.value| :: r.value[j] != '.'
  {
    match LastIndexOf(name, '.')
    case None => None
    case Some(i) =>
      if i == 0 then None
      else Some(name[i + 1..])
  }

  function Extension(path: string): Option<string>
  {
    match FileName(path)
    case None => None
    case Some(name) => ExtensionOfName(name)
  }

  /** `determine_file_type`: an exact, case-sensitive match on the extension. */
  function DetermineFileType(path: string): (r: Result<FileType, OpenApiError>)
    ensures r == Ok(Json) <==> Extension(path) == Some("json")
    ensures r == Ok(Yaml) <==> Extension(path) == Some("yaml") || Extension(path) == Some("yml")
    ensures r.Err? <==> Extension(path) !in {Some("json"), Some("yaml"), Some("yml")}
    ensures r.Err? ==> r.error == UnsupportedFormat
  {
    var ext := Extension(path);
    if ext == Some("json") then Ok(Json)
    else if ext == Some("yaml") || ext == Some("yml") then Ok(Yaml)
    else Err(UnsupportedFormat)
  }

  // ---------------------------------------------------------------------
  // Loading
  // ---------------------------------------------------------------------

  /** `serde_json::from_str` / `serde_yaml::from_str` into an OpenApiSpec:
    * the text parser yields the value tree, which the typed model decodes. */
  function DecodeText(parse: string -> Result<Value, string>, text: string): (r: Result<OpenApiSpec, DecodeFailure>)
    ensures r.Ok? <==> parse(text).Ok? && DecodeOpenApiSpec(parse(text).value).Ok?
    ensures r.Ok? ==> r.value == DecodeOpenApiSpec(parse(text).value).value
    ensures parse(text).Err? ==> r == Err(Syntax(parse(text).error))
    ensures parse(text).Ok? && DecodeOpenApiSpec(parse(text).value).Err? ==>
      r == Err(Shape(DecodeOpenApiSpec(parse(text).value).error))
  {
    match parse(text)
    case Err(message) => Err(Syntax(message))
    case Ok(v) =>
      match DecodeOpenApiSpec(v)
      case Err(e) => Err(Shape(e))
      case Ok(spec) => Ok(spec)
  }

  /** What `parse_openapi_file` returns: classify, then read, then decode
    * with the decoder the classification chose. */
  function LoadSpec(path: string, read: string -> Result<string, string>,
                    parseJson: string -> Result<Value, string>,
                    parseYaml: string -> Result<Value, string>): Result<OpenApiSpec, OpenApiError>
  {
    match DetermineFileType(path)
    case Err(e) => Err(e)
    case Ok(fileType) =>
      match read(path)
      case Err(cause) => Err(ReadError(cause))
      case Ok(contents) =>
        match fileType
        case Json =>
          (match DecodeText(parseJson, contents)
           case Err(f) => Err(JsonParseError(f))
           case Ok(spec) => Ok(spec))
        case Yaml =>
          (match DecodeText(parseYaml, contents)
           case Err(f) => Err(YamlParseError(f))
           case Ok(spec) => Ok(spec))
  }

  /** `parse_openapi_file`, step by step: each `?` returns early, the file's
    * text is read into the `contents` buffer before any decoder runs. */
  method ParseOpenApiFile(path: string, read: string -> Result<string, string>,
                          parseJson: string -> Result<Value, string>,
                          parseYaml: string -> Result<Value, string>)
    returns (r: Result<OpenApiSpec, OpenApiError>)
    ensures r == LoadSpec(path, read, parseJson, parseYaml)
  {
    var fileType := DetermineFileType(path);
    if fileType.Err? {
      return Err(fileType.error);
    }
    var contents := "";
    var file := read(path);
    if file.Err? {
      return Err(ReadError(file.error));
    }
    contents := file.value;
    match fileType.value {
      case Json =>
        var decoded := DecodeText(parseJson, contents);
        if decoded.Err? {
          return Err(JsonParseError(decoded.error));
        }
        r := Ok(decoded.value);
      case Yaml =>
        var decoded := DecodeText(parseYaml, contents);
        if decoded.Err? {
          return Err(YamlParseError(decoded.error));
        }
        r := Ok(decoded.value);
    }
  }

  // ---------------------------------------------------------------------
  // Classification
  // ---------------------------------------------------------------------

  /** The last occurrence of `c` is the one no later character repeats. */
  lemma LastIndexOfIs(s: string, c: char, i: nat)
    requires i < |s| && s[i] == c
    requires forall j | i < j < |s| :: s[j] != c
    ensures LastIndexOf(s, c) == Some(i)
  {
  }

  /** A path that is a file name alone names itself. */
  lemma FileNameOfName(name: string)
    requires IsFileName(name)
    ensures FileName(name) == Some(name)
  {
  }

  /** A file name directly after a separator is the path's file name. */
  lemma FileNameAfterSeparator(dir: string, name: string)
    requires IsFileName(name)
    ensures FileName(dir + "/" + name) == Some(name)
  {
    var path := dir + "/" + name;
    var i := |dir|;
    assert path[i + 1..] == name;
    assert forall j | i < j < |path| :: path[j] == name[j - i - 1];
    LastIndexOfIs(path, '/', i);
  }

  /** The name `stem.ext`, for a non-empty stem and an extension without
    * dots or separators. */
  predicate StemDotExt(stem: string, ext: string)
  {
    && stem != "" && stem + "." + ext != ".."
    && (forall j | 0 <= j < |stem| :: stem[j] != '/')
    && (forall j | 0 <= j < |ext| :: ext[j] != '.' && ext[j] != '/')
  }

  /** `stem.ext` is a file name whose extension is `ext`, whatever dots the
    * stem holds. */
  lemma {:induction false} ExtensionOfStem(stem: string, ext: string)
    requires StemDotExt(stem, ext)
    ensures IsFileName(stem + "." + ext)
    ensures ExtensionOfName(stem + "." + ext) == Some(ext)
  {
    var name := stem + "." + ext;
    var i := |stem|;
    assert name[i + 1..] == ext;
    forall j | 0 <= j < |name|
      ensures name[j] != '/'
      ensures i < j ==> name[j] != '.'
    {
      if j < i { assert name[j] == stem[j]; }
      else if j > i { assert name[j] == ext[j - i - 1]; }
    }
    LastIndexOfIs(name, '.', i);
  }

  /** The path `stem.ext` has extension `ext`. */
  lemma ExtensionOfFile(stem: string, ext: string)
    requires StemDotExt(stem, ext)
    ensures Extension(stem + "." + ext) == Some(ext)
  {
    ExtensionOfStem(stem, ext);
    FileNameOfName(stem + "." + ext);
  }

  /** The path `dir/stem.ext` has extension `ext`, whatever the directory. */
  lemma ExtensionInDirectory(dir: string, stem: string, ext: string)
    requires StemDotExt(stem, ext)
    ensures Extension(dir + "/" + stem + "." + ext) == Some(ext)
  {
    ExtensionOfStem(stem, ext);
    FileNameAfterSeparator(dir, stem + "." + ext);
    assert dir + "/" + stem + "." + ext == dir + "/" + (stem + "." + ext);
  }

  /** A name whose only dot is its first character has no extension. */
  lemma {:induction false} HiddenFileHasNoExtension(rest: string)
    requires forall j | 0 <= j < |rest| :: rest[j] != '.' && rest[j] != '/'
    ensures Extension("." + rest) == None
  {
    var name := "." + rest;
    if rest != "" {
      assert forall j | 0 < j < |name| :: name[j] == rest[j - 1];
      LastIndexOfIs(name, '.', 0);
      FileNameOfName(name);
    }
  }

  /** `a.tar.json` is JSON: only the final dot counts. */
  lemma NestedExtensionExample()
    ensures DetermineFileType("api/a.tar.json") == Ok(Json)
  {
    ExtensionInDirectory("api", "a.tar", "json");
    assert "api/a.tar.json" == "api" + "/" + "a.tar" + "." + "json";
  }

  lemma YmlExample()
    ensures DetermineFileType("spec.yml") == Ok(Yaml)
  {
    ExtensionOfFile("spec", "yml");
    assert "spec.yml" == "spec" + "." + "yml";
  }

  /** `x.json.bak` is classified by `bak`. */
  lemma BackupExample()
    ensures DetermineFileType("x.json.bak") == Err(UnsupportedFormat)
  {
    ExtensionOfFile("x.json", "bak");
    assert "x.json.bak" == "x.json" + "." + "bak";
  }

  /** `.json` is a hidden file without extension. */
  lemma HiddenFileExample()
    ensures DetermineFileType(".json") == Err(UnsupportedFormat)
  {
    HiddenFileHasNoExtension("json");
    assert ".json" == "." + "json";
  }

  /** The match is case-sensitive. */
  lemma UpperCaseExample()
    ensures DetermineFileType("spec.JSON") == Err(UnsupportedFormat)
  {
    ExtensionOfFile("spec", "JSON");
    assert "spec.JSON" == "spec" + "." + "JSON";
  }

  // ---------------------------------------------------------------------
  // The order of failures and the dispatch
  // ---------------------------------------------------------------------

  /** An unsupported extension is reported before the file is read: the
    * result is the same whatever the file system and decoders do. */
  lemma UnsupportedBeforeRead(path: string,
                              read1: string -> Result<string, string>, read2: string -> Result<string, string>,
                              json1: string -> Result<Value, string>, json2: string -> Result<Value, string>,
                              yaml1: string -> Result<Value, string>, yaml2: string -> Result<Value, string>)
    requires DetermineFileType(path).Err?
    ensures LoadSpec(path, read1, json1, yaml1) == Err(UnsupportedFormat)
    ensures LoadSpec(path, read1, json1, yaml1) == LoadSpec(path, read2, json2, yaml2)
  {
  }

  /** A read failure is a ReadError, and no decoder is consulted. */
  lemma ReadErrorBeforeDecode(path: string, read: string -> Result<string, string>,
                              json1: string -> Result<Value, string>, json2: string -> Result<Value, string>,
                              yaml1: string -> Result<Value, string>, yaml2: string -> Result<Value, string>)
    requires DetermineFileType(path).Ok? && read(path).Err?
    ensures LoadSpec(path, read, json1, yaml1) == Err(ReadError(read(path).error))
    ensures LoadSpec(path, read, json1, yaml1) == LoadSpec(path, read, json2, yaml2)
  {
  }

  /** A JSON file is decoded by the JSON decoder only; its failures are
    * JsonParseError (or ReadError, before it). */
  lemma JsonFileUsesJsonDecoder(path: string, read: string -> Result<string, string>,
                                json: string -> Result<Value, string>,
                                yaml1: string -> Result<Value, string>, yaml2: string -> Result<Value, string>)
    requires DetermineFileType(path) == Ok(Json)
    ensures LoadSpec(path, read, json, yaml1) == LoadSpec(path, read, json, yaml2)
    ensures LoadSpec(path, read, json, yaml1).Err? ==>
      LoadSpec(path, read, json, yaml1).error.ReadError? || LoadSpec(path, read, json, yaml1).error.JsonParseError?
    ensures read(path).Ok? ==>
      LoadSpec(path, read, json, yaml1) == match DecodeText(json, read(path).value)
                                          case Ok(spec) => Ok(spec)
                                          case Err(f) => Err(JsonParseError(f))
  {
  }

  /** A YAML file is decoded by the YAML decoder only; its failures are
    * YamlParseError (or ReadError, before it). */
  lemma YamlFileUsesYamlDecoder(path: string, read: string -> Result<string, string>,
                                json1: string -> Result<Value, string>, json2: string -> Result<Value, string>,
                                yaml: string -> Result<Value, string>)
    requires DetermineFileType(path) == Ok(Yaml)
    ensures LoadSpec(path, read, json1, yaml) == LoadSpec(path, read, json2, yaml)
    ensures LoadSpec(path, read, json1, yaml).Err? ==>
      LoadSpec(path, read, json1, yaml).error.ReadError? || LoadSpec(path, read, json1, yaml).error.YamlParseError?
    ensures read(path).Ok? ==>
      LoadSpec(path, read, json1, yaml) == match DecodeText(yaml, read(path).value)
                                          case Ok(spec) => Ok(spec)
                                          case Err(f) => Err(YamlParseError(f))
  {
  }

  /** Success means every step succeeded, and the spec is the decoder's. */
  lemma SuccessIsTheDecodedSpec(path: string, read: string -> Result<string, string>,
                                json: string -> Result<Value, string>, yaml: string -> Result<Value, string>,
                                spec: OpenApiSpec)
    ensures LoadSpec(path, read, json, yaml) == Ok(spec) <==>
      && DetermineFileType(path).Ok?
      && read(path).Ok?
      && DecodeText(if DetermineFileType(path).value == Json then json else yaml, read(path).value) == Ok(spec)
  {
  }

  // ---------------------------------------------------------------------
  // An end-to-end example: `spec.json` holding a one-path document
  // ---------------------------------------------------------------------

  /** The document `{"openapi":"3.0.0","info":{"title":"T","version":"1.0"},
    * "paths":{"/x":{"get":{"responses":{"200":{"description":"ok"},
    * "default":{"description":"err"}}}}}}` as a value tree. */
  function ExampleDocument(): Value
  {
    Obj(map[
      "openapi" := Str("3.0.0"),
      "info" := Obj(map["title" := Str("T"), "version" := Str("1.0")]),
      "paths" := Obj(map["/x" := Obj(map["get" := Obj(map["responses" :=
        Obj(map["200" := Described("ok"), "default" := Described("err")])])])])])
  }

  function ExampleSpec(): OpenApiSpec
  {
    var ok := Response(Some("ok"), None, None);
    var err := Response(Some("err"), None, None);
    var get := Operation(None, None, None, None, None, None, Some(Responses(Some(map["200" := ok]), Some(err))));
    OpenApiSpec(Some("3.0.0"), Some(Info(Some("T"), None, Some("1.0"))),
                Some(map["/x" := PathItem(Some(get), None, None, None, None, None, None, None)]), None, None)
  }

  lemma ExampleResponses()
    ensures DecodeResponses(Obj(map["200" := Described("ok"), "default" := Described("err")]))
         == Ok(Responses(Some(map["200" := Response(Some("ok"), None, None)]), Some(Response(Some("err"), None, None))))
  {
    var f := map["200" := Described("ok"), "default" := Described("err")];
    var r := DecodeResponses(Obj(f));
    assert f.Keys - {"default"} == {"200"};
    assert r.Ok? && r.value.responses.Some?;
    assert r.value.responses.value == map["200" := Response(Some("ok"), None, None)];
  }

  lemma OperationWithResponses(v: Value, x: Responses)
    requires DecodeResponses(v) == Ok(x)
    ensures DecodeOperation(Obj(map["responses" := v])) == Ok(Operation(None, None, None, None, None, None, Some(x)))
  {
  }

  lemma PathItemWithGet(v: Value, x: Operation)
    requires DecodeOperation(v) == Ok(x)
    ensures DecodePathItem(Obj(map["get" := v])) == Ok(PathItem(Some(x), None, None, None, None, None, None, None))
  {
  }

  lemma ExampleInfo()
    ensures DecodeInfo(Obj(map["title" := Str("T"), "version" := Str("1.0")])) == Ok(Info(Some("T"), None, Some("1.0")))
  {
  }

  lemma SingletonMap<T>(key: string, v: Value, x: T, dec: Value -> Decoded<T>)
    requires dec(v) == Ok(x)
    ensures DecodeOptMap(Obj(map[key := v]), dec) == Ok(Some(map[key := x]))
  {
    var r := DecodeEntries(map[key := v], dec);
    assert r.Ok? && r.value == map[key := x];
  }

  lemma DocumentOf(version: string, info: Value, paths: Value, x: OpenApiSpec)
    requires x.openapi == Some(version) && x.components.None? && x.servers.None?
    requires info != Null && x.info.Some? && DecodeInfo(info) == Ok(x.info.value)
    requires paths != Null && DecodeOptMap(paths, DecodePathItem) == Ok(x.paths)
    ensures DecodeOpenApiSpec(Obj(map["openapi" := Str(version), "info" := info, "paths" := paths])) == Ok(x)
  {
  }

  lemma ExampleDocumentDecodes()
    ensures DecodeOpenApiSpec(ExampleDocument()) == Ok(ExampleSpec())
  {
    var responses := Obj(map["200" := Described("ok"), "default" := Described("err")]);
    ExampleResponses();
    var get := Obj(map["responses" := responses]);
    OperationWithResponses(responses, ExampleSpec().paths.value["/x"].get.value.responses.value);
    PathItemWithGet(get, ExampleSpec().paths.value["/x"].get.value);
    ExampleInfo();
    SingletonMap("/x", Obj(map["get" := get]), ExampleSpec().paths.value["/x"], DecodePathItem);
    DocumentOf("3.0.0", Obj(map["title" := Str("T"), "version" := Str("1.0")]),
               Obj(map["/x" := Obj(map["get" := get])]), ExampleSpec());
  }

  lemma EndToEndExample(read: string -> Result<string, string>,
                        json: string -> Result<Value, string>, yaml: string -> Result<Value, string>)
    requires read("spec.json").Ok? && json(read("spec.json").value) == Ok(ExampleDocument())
    ensures LoadSpec("spec.json", read, json, yaml) == Ok(ExampleSpec())
  {
    ExtensionOfFile("spec", "json");
    assert "spec.json" == "spec" + "." + "json";
    ExampleDocumentDecodes();
  }
}
