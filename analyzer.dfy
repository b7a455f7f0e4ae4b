/**
 * FileSchemaAnalyzer: the seven-step pipeline that validates a request,
 * selects and runs a parser, fuses the sample files, generates and checks
 * the schema, and builds the result with its statistics.
 */
module Analyzer {
  import opened Wrappers
  import opened Text
  import opened OrderedMap
  import opened Model
  import opened Json
  import opened Request
  import CsvParser
  import PojoGenerator

  const SchemaVersion := "http://json-schema.org/draft-07/schema#"
  const FileTypeNullMessage := "File type cannot be null"
  const CannotParseMessage := "Parser cannot handle the provided file content"
  const NullStructureMessage := "Parser returned null structure"
  const EmptySchemaMessage := "Schema generator returned null or empty schema"
  const InvalidSchemaMessage := "Generated schema is not valid"
  const AnalysisFailedPrefix := "Analysis failed: "
  const MergeFailedPrefix := "Failed to merge structures: "
  /** Stands for the message of the NullPointerException a null structure raises. */
  const NullDereferenceMessage := "null"

  /** A generated schema: the Map<String, Object> at the top of the document. */
  type Schema = OMap<string, Json>

  /**
   * A FileParser: the CSV parser of this model, or a parser this model does
   * not contain, given by what it answers (its parse may return null).
   */
  datatype FileParser =
    | CsvFileParser(env: CsvParser.CsvEnv)
    | OtherParser(
        canParse: RequestFields -> bool,
        parse: RequestFields -> Result<Option<Node>, Exception>,
        merge: seq<Option<Node>> -> Result<Option<Node>, Exception>)

  /** ParserFactory.getParser: the parser registered for a file type, or the IllegalArgumentException message. */
  type ParserFactory = FileType -> Result<FileParser, string>

  /** JsonSchemaGenerator: the generator used for every type but CSV, and the schema check used for all. */
  datatype JsonSchemaGenerator = JsonSchemaGenerator(
    generate: (Option<Node>, RequestFields) -> Result<Option<Schema>, Exception>,
    validate: Schema -> bool)

  datatype SchemaMetadata = SchemaMetadata(
    schemaVersion: string,
    rootElement: string,
    sourceFileType: Option<FileType>,
    totalElements: nat,
    totalAttributes: nat,
    arrayElements: nat)

  datatype SchemaGenerationResult = SchemaGenerationResult(
    schemaName: Option<string>,
    sourceFileType: Option<FileType>,
    jsonSchema: Schema,
    metadata: SchemaMetadata,
    detectedArrayFields: seq<string>,
    elementsAnalyzed: nat,
    success: bool)

  // ---------------------------------------------------------------- the parser interface

  predicate CanParseWith(p: FileParser, f: RequestFields) {
    match p
    case CsvFileParser(_) => CsvParser.CanParse(Some(f))
    case OtherParser(canParse, _, _) => canParse(f)
  }

  function ParseWith(p: FileParser, f: RequestFields): Result<Option<Node>, Exception>
    requires f.schemaName.Some?
  {
    match p
    case CsvFileParser(env) =>
      (match CsvParser.ParseSpec(f, env)
       case Ok(tree) => Ok(Some(tree))
       case Err(e) => Err(e))
    case OtherParser(_, parse, _) => parse(f)
  }

  /** The trees of a list without nulls. */
  function Present(structures: seq<Option<Node>>): (r: seq<Node>)
    requires forall i :: 0 <= i < |structures| ==> structures[i].Some?
    ensures |r| == |structures| && forall i :: 0 <= i < |r| ==> structures[i] == Some(r[i])
  {
    seq(|structures|, i requires 0 <= i < |structures| => structures[i].value)
  }

  /**
   * mergeStructures. For CSV a null tree among several is dereferenced inside
   * the try block and so reported as MERGE_ERROR.
   */
  function MergeWith(p: FileParser, structures: seq<Option<Node>>): (r: Result<Option<Node>, Exception>)
    ensures p.CsvFileParser? && structures == [] ==> r == Err(CsvParser.CsvError("MERGE_ERROR", CsvParser.NoStructuresMessage))
    ensures p.CsvFileParser? && |structures| == 1 ==> r == Ok(structures[0])
    ensures p.CsvFileParser? && |structures| >= 2 && (exists i :: 0 <= i < |structures| && structures[i].None?) ==>
      r == Err(CsvParser.CsvError("MERGE_ERROR", MergeFailedPrefix + NullDereferenceMessage))
    ensures p.CsvFileParser? && |structures| >= 2 ==> (r.Ok? && r.value.Some? <==> forall i :: 0 <= i < |structures| ==> structures[i].Some?)
    ensures p.OtherParser? ==> r == p.merge(structures)
  {
    match p
    case CsvFileParser(env) =>
      if structures == [] then Err(CsvParser.CsvError("MERGE_ERROR", CsvParser.NoStructuresMessage))
      else if |structures| == 1 then Ok(structures[0])
      else if exists i :: 0 <= i < |structures| && structures[i].None? then
        Err(CsvParser.CsvError("MERGE_ERROR", MergeFailedPrefix + NullDereferenceMessage))
      else
        (match CsvParser.MergeSpec(env.inference, Some(Present(structures)))
         case Ok(tree) => Ok(Some(tree))
         case Err(e) => Err(e))
    case OtherParser(_, _, merge) => merge(structures)
  }

  // ---------------------------------------------------------------- the steps

  /**
   * Step 1, validateRequest: validate()'s IllegalArgumentException becomes
   * VALIDATION_ERROR with its message; the later null file type check can
   * never fire, since validate() already checks the file type.
   */
  function ValidateRequest(f: RequestFields): (r: Outcome<Exception>)
    ensures r.Pass? <==> IsValid(f)
    ensures r.Fail? ==> r.error == AnalyzerException("VALIDATION_ERROR", None, Validate(f).error.message)
    ensures r.Fail? ==> r.error.message != FileTypeNullMessage
  {
    match Validate(f)
    case Fail(e) => Fail(AnalyzerException("VALIDATION_ERROR", None, e.message))
    case Pass =>
      if f.fileType.None? then Fail(AnalyzerException("VALIDATION_ERROR", None, FileTypeNullMessage)) else Pass
  }

  /** Step 2, selectParser: an unknown type is PARSER_NOT_FOUND, a parser that declines the request PARSER_ERROR. */
  function SelectParser(factory: ParserFactory, f: RequestFields): (r: Result<FileParser, Exception>)
    requires f.fileType.Some?
    ensures r.Ok? <==> factory(f.fileType.value).Ok? && CanParseWith(factory(f.fileType.value).value, f)
    ensures r.Ok? ==> factory(f.fileType.value) == Ok(r.value)
    ensures factory(f.fileType.value).Err? ==> r == Err(AnalyzerException("PARSER_NOT_FOUND", f.fileType, factory(f.fileType.value).error))
    ensures r.Err? ==> r.error.AnalyzerException? && r.error.fileType == f.fileType && r.error.code in {"PARSER_NOT_FOUND", "PARSER_ERROR"}
  {
    match factory(f.fileType.value)
    case Err(message) => Err(AnalyzerException("PARSER_NOT_FOUND", f.fileType, message))
    case Ok(p) =>
      if !CanParseWith(p, f) then Err(AnalyzerException("PARSER_ERROR", f.fileType, CannotParseMessage)) else Ok(p)
  }

  /** Step 3, parseMainFile: the parser's exceptions pass through, a null tree is PARSE_ERROR. */
  function ParseMainFile(p: FileParser, f: RequestFields): (r: Result<Node, Exception>)
    requires f.schemaName.Some?
    ensures r.Ok? <==> ParseWith(p, f).Ok? && ParseWith(p, f).value.Some?
    ensures r.Ok? ==> ParseWith(p, f) == Ok(Some(r.value))
    ensures ParseWith(p, f).Err? ==> r == Err(ParseWith(p, f).error)
    ensures ParseWith(p, f) == Ok(None) ==> r == Err(AnalyzerException("PARSE_ERROR", f.fileType, NullStructureMessage))
  {
    match ParseWith(p, f)
    case Err(e) => Err(e)
    case Ok(None) => Err(AnalyzerException("PARSE_ERROR", f.fileType, NullStructureMessage))
    case Ok(Some(tree)) => Ok(tree)
  }

  /** hasSamples: a non-null, non-empty sample list. */
  predicate HasSamples(f: RequestFields) {
    f.sampleFileContents.Some? && f.sampleFileContents.value != []
  }

  /** The schema name of the i-th sample request (string concatenation prints null as "null"). */
  function SampleName(f: RequestFields, i: nat): string {
    f.schemaName.GetOr("null") + "_sample" + NatToString(i)
  }

  /** The request the builder fills for the i-th sample. */
  function SampleFields(f: RequestFields, i: nat, content: Option<string>): RequestFields {
    NewRequest.(fileType := f.fileType, fileContent := content, schemaName := Some(SampleName(f, i)),
                parserOptions := f.parserOptions, detectArrays := f.detectArrays)
  }

  /**
   * One sample: the builder's exception when it rejects the sample request,
   * else the list with the sample's tree added, or unchanged when the parse
   * throws.
   */
  function SampleStep(p: FileParser, f: RequestFields, i: nat, content: Option<string>, all: seq<Option<Node>>): Result<seq<Option<Node>>, Exception> {
    var sample := SampleFields(f, i, content);
    match Validate(sample)
    case Fail(e) => Err(e)
    case Pass =>
      match ParseWith(p, sample)
      case Ok(tree) => Ok(all + [tree])
      case Err(_) => Ok(all)
  }

  /**
   * The list of trees after the samples: the main tree, then the result of
   * every sample that parsed; the first sample the builder rejects ends the
   * analysis with the builder's exception.
   */
  function SampleStructures(p: FileParser, f: RequestFields, samples: seq<Option<string>>, main: Node): Result<seq<Option<Node>>, Exception>
    decreases |samples|
  {
    if samples == [] then Ok([Some(main)])
    else
      var i := |samples| - 1;
      match SampleStructures(p, f, samples[..i], main)
      case Err(e) => Err(e)
      case Ok(all) => SampleStep(p, f, i, samples[i], all)
  }

  /** Step 4, fuseSamples: the trees of the main file and the samples, merged by the parser. */
  function FuseSpec(p: FileParser, f: RequestFields, main: Node): Result<Option<Node>, Exception>
    requires HasSamples(f)
  {
    match SampleStructures(p, f, f.sampleFileContents.value, main)
    case Err(e) => Err(e)
    case Ok(all) => MergeWith(p, all)
  }

  /** The top-level members of a generated document. */
  function SchemaOf(doc: Json): Schema {
    if doc.JObject? then doc.members else []
  }

  /**
   * Step 5, generateSchema: CSV goes to the jsonschema2pojo generator, every
   * other type to the JSON Schema generator; a null or empty schema is
   * GENERATION_ERROR.
   */
  function GenerateWith(gen: JsonSchemaGenerator, f: RequestFields, structure: Option<Node>): Result<Schema, Exception> {
    var generated :=
      if f.fileType == Some(CSV) then
        (match PojoGenerator.GenerateSpec(structure, f)
         case Ok(doc) => Ok(Some(SchemaOf(doc)))
         case Err(e) => Err(e))
      else gen.generate(structure, f);
    match generated
    case Err(e) => Err(e)
    case Ok(schema) =>
      if schema.None? || schema.value == [] then Err(AnalyzerException("GENERATION_ERROR", f.fileType, EmptySchemaMessage))
      else Ok(schema.value)
  }

  /** Step 7, buildResult: the statistics of the tree; a null tree is dereferenced for its name. */
  function BuildResultSpec(f: RequestFields, structure: Option<Node>, schema: Schema): Result<SchemaGenerationResult, Exception> {
    if structure.None? then Err(Runtime(NullDereferenceMessage))
    else
      var metadata := SchemaMetadata(SchemaVersion, structure.value.name, f.fileType,
        CountElements(structure), CountAttributes(structure), CountArrays(structure));
      Ok(SchemaGenerationResult(f.schemaName, f.fileType, schema, metadata, ArrayPaths(structure, ""), CountElements(structure), true))
  }

  /** Steps 1 to 7, each one's exception ending the analysis. */
  function Steps(factory: ParserFactory, gen: JsonSchemaGenerator, f: RequestFields): Result<SchemaGenerationResult, Exception> {
    match ValidateRequest(f)
    case Fail(e) => Err(e)
    case Pass =>
      match SelectParser(factory, f)
      case Err(e) => Err(e)
      case Ok(p) =>
        match ParseMainFile(p, f)
        case Err(e) => Err(e)
        case Ok(main) =>
          var fused := if HasSamples(f) then FuseSpec(p, f, main) else Ok(Some(main));
          match fused
          case Err(e) => Err(e)
          case Ok(structure) =>
            match GenerateWith(gen, f, structure)
            case Err(e) => Err(e)
            case Ok(schema) =>
              if !gen.validate(schema) then Err(AnalyzerException("VALIDATION_ERROR", None, InvalidSchemaMessage))
              else BuildResultSpec(f, structure, schema)
  }

  /** The catch blocks of analyze: an AnalyzerException is rethrown, anything else becomes ANALYSIS_ERROR. */
  function Wrap(f: RequestFields, e: Exception): (r: Exception)
    ensures r.AnalyzerException?
    ensures e.AnalyzerException? ==> r == e
    ensures !e.AnalyzerException? ==> r == AnalyzerException("ANALYSIS_ERROR", f.fileType, AnalysisFailedPrefix + e.message)
  {
    if e.AnalyzerException? then e else AnalyzerException("ANALYSIS_ERROR", f.fileType, AnalysisFailedPrefix + e.message)
  }

  /** analyze: the steps, with every failure reported as an AnalyzerException. */
  function AnalyzeSpec(factory: ParserFactory, gen: JsonSchemaGenerator, f: RequestFields): (r: Result<SchemaGenerationResult, Exception>)
    ensures r.Err? ==> r.error.AnalyzerException?
    ensures r.Ok? ==> r.value.success && r.value.schemaName == f.schemaName && r.value.sourceFileType == f.fileType
  {
    match Steps(factory, gen, f)
    case Ok(result) => Ok(result)
    case Err(e) => Err(Wrap(f, e))
  }

  // ---------------------------------------------------------------- statistics

  /** countElements: the tree's nodes; 0 for null. */
  function CountElements(e: Option<Node>): nat {
    if e.None? then 0 else ElementsIn(e.value)
  }

  function ElementsIn(n: Node): nat
    decreases n, 1
  {
    1 + ElementsOf(n.children)
  }

  function ElementsOf(ns: seq<Node>): nat
    decreases ns, 0
  {
    if ns == [] then 0 else ElementsOf(ns[..|ns| - 1]) + ElementsIn(ns[|ns| - 1])
  }

  /** countAttributes: the attributes of all the tree's nodes; 0 for null. */
  function CountAttributes(e: Option<Node>): nat {
    if e.None? then 0 else AttributesIn(e.value)
  }

  function AttributesIn(n: Node): nat
    decreases n, 1
  {
    |n.attributes| + AttributesOf(n.children)
  }

  function AttributesOf(ns: seq<Node>): nat
    decreases ns, 0
  {
    if ns == [] then 0 else AttributesOf(ns[..|ns| - 1]) + AttributesIn(ns[|ns| - 1])
  }

  /** countArrays: the tree's nodes marked as arrays; 0 for null. */
  function CountArrays(e: Option<Node>): nat {
    if e.None? then 0 else ArraysIn(e.value)
  }

  function ArraysIn(n: Node): nat
    decreases n, 1
  {
    (if n.isArray then 1 else 0) + ArraysOf(n.children)
  }

  function ArraysOf(ns: seq<Node>): nat
    decreases ns, 0
  {
    if ns == [] then 0 else ArraysOf(ns[..|ns| - 1]) + ArraysIn(ns[|ns| - 1])
  }

  /** The path of a node under a parent path: the name alone at the top, else parent.name. */
  function ChildPath(path: string, name: string): string {
    if path == [] then name else path + "." + name
  }

  /** collectArrayFields: the path of every array node, in pre-order; nothing for null. */
  function ArrayPaths(e: Option<Node>, path: string): seq<string> {
    if e.None? then [] else ArrayPathsIn(e.value, path)
  }

  function ArrayPathsIn(n: Node, path: string): seq<string>
    decreases n, 1
  {
    var current := ChildPath(path, n.name);
    (if n.isArray then [current] else []) + ArrayPathsOf(n.children, current)
  }

  function ArrayPathsOf(ns: seq<Node>, path: string): seq<string>
    decreases ns, 0
  {
    if ns == [] then [] else ArrayPathsOf(ns[..|ns| - 1], path) + ArrayPathsIn(ns[|ns| - 1], path)
  }

  /** countElements: one for the node, then the children's counts added in a loop. */
  method CountElementsIn(element: Node) returns (count: nat)
    ensures count == ElementsIn(element)
    decreases element, 1
  {
    count := 1;
    var children := element.children;
    for i := 0 to |children|
      invariant count == 1 + ElementsOf(children[..i])
    {
      var childCount := CountElementsIn(children[i]);
      PrefixOfPrefix(children, i);
      count := count + childCount;
    }
    WholePrefix(children, |children|);
  }

  /** countAttributes: the node's attributes, then the children's counts added in a loop. */
  method CountAttributesIn(element: Node) returns (count: nat)
    ensures count == AttributesIn(element)
    decreases element, 1
  {
    count := |element.attributes|;
    var children := element.children;
    for i := 0 to |children|
      invariant count == |element.attributes| + AttributesOf(children[..i])
    {
      var childCount := CountAttributesIn(children[i]);
      PrefixOfPrefix(children, i);
      count := count + childCount;
    }
    WholePrefix(children, |children|);
  }

  /** countArrays: one if the node is an array, then the children's counts added in a loop. */
  method CountArraysIn(element: Node) returns (count: nat)
    ensures count == ArraysIn(element)
    decreases element, 1
  {
    count := if element.isArray then 1 else 0;
    var children := element.children;
    for i := 0 to |children|
      invariant count == (if element.isArray then 1 else 0) + ArraysOf(children[..i])
    {
      var childCount := CountArraysIn(children[i]);
      PrefixOfPrefix(children, i);
      count := count + childCount;
    }
    WholePrefix(children, |children|);
  }

  /** collectArrayFieldsRecursive: appends the array paths of the subtree to the list. */
  method CollectArrayFieldsRecursive(element: Node, path: string, arrayFields: seq<string>) returns (updated: seq<string>)
    ensures updated == arrayFields + ArrayPathsIn(element, path)
    decreases element, 1
  {
    var currentPath := if |path| == 0 then element.name else path + "." + element.name;
    assert currentPath == ChildPath(path, element.name);
    ghost var mark: seq<string> := if element.isArray then [currentPath] else [];
    updated := arrayFields;
    if element.isArray {
      updated := updated + [currentPath];
    }
    ghost var own := updated;
    assert own == arrayFields + mark;
    var children := element.children;
    for i := 0 to |children|
      invariant updated == own + ArrayPathsOf(children[..i], currentPath)
    {
      ghost var before := updated;
      updated := CollectArrayFieldsRecursive(children[i], currentPath, updated);
      AppendStep(own, children, i, currentPath, before, updated);
    }
    WholePrefix(children, |children|);
    AppendAssoc(arrayFields, mark, ArrayPathsOf(children, currentPath));
  }

  /** One child's paths appended to the paths of the children before it. */
  lemma AppendStep(own: seq<string>, children: seq<Node>, i: nat, path: string, before: seq<string>, after: seq<string>)
    requires i < |children|
    requires before == own + ArrayPathsOf(children[..i], path)
    requires after == before + ArrayPathsIn(children[i], path)
    ensures after == own + ArrayPathsOf(children[..i + 1], path)
  {
    PrefixOfPrefix(children, i);
    AppendAssoc(own, ArrayPathsOf(children[..i], path), ArrayPathsIn(children[i], path));
  }

  // ---------------------------------------------------------------- the analyzer

  /** A FileSchemaAnalyzer with its parser factory and schema generator. */
  class FileSchemaAnalyzer {
    const parserFactory: ParserFactory
    const schemaGenerator: JsonSchemaGenerator

    /** The analyzer with the factory and generator it is handed. */
    constructor(parserFactory: ParserFactory, schemaGenerator: JsonSchemaGenerator)
      ensures this.parserFactory == parserFactory && this.schemaGenerator == schemaGenerator
    {
      this.parserFactory := parserFactory;
      this.schemaGenerator := schemaGenerator;
    }

    /** fuseSamples: builds, parses and collects each sample, then merges all trees. */
    method FuseSamples(request: FileAnalysisRequest, parser: FileParser, mainStructure: Node)
      returns (r: Result<Option<Node>, Exception>)
      requires HasSamples(request.Fields())
      ensures r == FuseSpec(parser, request.Fields(), mainStructure)
    {
      ghost var f := request.Fields();
      var samples := request.sampleFileContents.value;
      var allStructures: seq<Option<Node>> := [Some(mainStructure)];
      assert samples[..0] == [];
      for i := 0 to |samples|
        invariant SampleStructures(parser, f, samples[..i], mainStructure) == Ok(allStructures)
      {
        var step := FuseSample(request, parser, i, samples[i], allStructures);
        PrefixOfPrefix(samples, i);
        assert SampleStructures(parser, f, samples[..i + 1], mainStructure) == step;
        if step.Err? {
          FailureSticks(parser, f, samples, mainStructure, i + 1);
          WholePrefix(samples, |samples|);
          return Err(step.error);
        }
        allStructures := step.value;
      }
      WholePrefix(samples, |samples|);
      r := MergeWith(parser, allStructures);
    }

    /** The body of the sample loop: a request built for the sample, then parsed. */
    method FuseSample(request: FileAnalysisRequest, parser: FileParser, i: nat, sampleContent: Option<string>, allStructures: seq<Option<Node>>)
      returns (r: Result<seq<Option<Node>>, Exception>)
      ensures r == SampleStep(parser, request.Fields(), i, sampleContent, allStructures)
    {
      var builder := new Builder();
      builder.WithFileType(request.fileType);
      builder.WithFileContent(sampleContent);
      builder.WithSchemaName(Some(request.schemaName.GetOr("null") + "_sample" + NatToString(i)));
      builder.WithParserOptions(request.parserOptions);
      builder.WithDetectArrays(request.detectArrays);
      assert builder.request.Fields() == SampleFields(request.Fields(), i, sampleContent);
      var built := builder.Build();
      if built.Err? {
        return Err(built.error);
      }
      var sampleRequest := built.value;
      var sampleStructure := ParseWith(parser, sampleRequest.Fields());
      r := if sampleStructure.Ok? then Ok(allStructures + [sampleStructure.value]) else Ok(allStructures);
    }

    /** buildResult: the metadata, statistics and array paths of the final tree. */
    method BuildResult(request: FileAnalysisRequest, structure: Option<Node>, jsonSchema: Schema)
      returns (r: Result<SchemaGenerationResult, Exception>)
      ensures r == BuildResultSpec(request.Fields(), structure, jsonSchema)
    {
      if structure.None? {
        return Err(Runtime(NullDereferenceMessage));
      }
      var tree := structure.value;
      var totalElements := CountElementsIn(tree);
      var totalAttributes := CountAttributesIn(tree);
      var arrayElements := CountArraysIn(tree);
      var metadata := SchemaMetadata(SchemaVersion, tree.name, request.fileType, totalElements, totalAttributes, arrayElements);
      var arrayFields := CollectArrayFieldsRecursive(tree, "", []);
      assert arrayFields == ArrayPaths(structure, "");
      var elementsAnalyzed := CountElementsIn(tree);
      r := Ok(SchemaGenerationResult(request.schemaName, request.fileType, jsonSchema, metadata, arrayFields, elementsAnalyzed, true));
    }

    /** generateSchema: the jsonschema2pojo generator for CSV, the JSON Schema generator otherwise. */
    method GenerateSchema(request: FileAnalysisRequest, structure: Option<Node>) returns (r: Result<Schema, Exception>)
      ensures r == GenerateWith(schemaGenerator, request.Fields(), structure)
    {
      var schema: Result<Option<Schema>, Exception>;
      if request.fileType == Some(CSV) {
        var generated := PojoGenerator.GenerateSchema(structure, request);
        schema := if generated.Ok? then Ok(Some(SchemaOf(generated.value))) else Err(generated.error);
      } else {
        schema := schemaGenerator.generate(structure, request.Fields());
      }
      if schema.Err? {
        return Err(schema.error);
      }
      if schema.value.None? || |schema.value.value| == 0 {
        return Err(AnalyzerException("GENERATION_ERROR", request.fileType, EmptySchemaMessage));
      }
      r := Ok(schema.value.value);
    }

    /** The seven steps of analyze, each failure returned as it was thrown. */
    method RunSteps(request: FileAnalysisRequest) returns (r: Result<SchemaGenerationResult, Exception>)
      ensures r == Steps(parserFactory, schemaGenerator, request.Fields())
    {
      var f := request.Fields();
      var validated := ValidateRequest(f);
      if validated.Fail? {
        return Err(validated.error);
      }
      var selected := SelectParser(parserFactory, f);
      if selected.Err? {
        return Err(selected.error);
      }
      var parser := selected.value;
      var parsed := ParseMainFile(parser, f);
      if parsed.Err? {
        return Err(parsed.error);
      }
      var structure := Some(parsed.value);
      if HasSamples(f) {
        var fused := FuseSamples(request, parser, parsed.value);
        if fused.Err? {
          return Err(fused.error);
        }
        structure := fused.value;
      }
      var jsonSchema := GenerateSchema(request, structure);
      if jsonSchema.Err? {
        return Err(jsonSchema.error);
      }
      if !schemaGenerator.validate(jsonSchema.value) {
        return Err(AnalyzerException("VALIDATION_ERROR", None, InvalidSchemaMessage));
      }
      r := BuildResult(request, structure, jsonSchema.value);
    }

    /** analyze: the steps inside the try block and its two catch clauses. */
    method Analyze(request: FileAnalysisRequest) returns (r: Result<SchemaGenerationResult, Exception>)
      ensures r == AnalyzeSpec(parserFactory, schemaGenerator, request.Fields())
    {
      var outcome := RunSteps(request);
      if outcome.Ok? {
        return Ok(outcome.value);
      }
      var e := outcome.error;
      if e.AnalyzerException? {
        return Err(e);
      }
      r := Err(AnalyzerException("ANALYSIS_ERROR", request.fileType, AnalysisFailedPrefix + e.message));
    }
  }

  // ---------------------------------------------------------------- properties

  /** Once a sample has ended the fusion with an exception, no later sample changes the outcome. */
  lemma {:induction false} FailureSticks(p: FileParser, f: RequestFields, samples: seq<Option<string>>, main: Node, k: nat)
    requires 0 < k <= |samples|
    requires SampleStructures(p, f, samples[..k], main).Err?
    ensures SampleStructures(p, f, samples, main) == SampleStructures(p, f, samples[..k], main)
    decreases |samples|
  {
    if k < |samples| {
      var i := |samples| - 1;
      assert samples[..i][..k] == samples[..k];
      FailureSticks(p, f, samples[..i], main, k);
    } else {
      WholePrefix(samples, k);
    }
  }

  /** The request of a sample passes the builder's validation exactly when the sample has text. */
  lemma SampleValidation(f: RequestFields, i: nat, content: Option<string>)
    requires f.fileType.Some?
    ensures Validate(SampleFields(f, i, content)) == if NullOrBlank(content) then Fail(IllegalArgument(ContentMissing)) else Pass
  {
    var name := SampleName(f, i);
    var prefix := f.schemaName.GetOr("null");
    assert name[|prefix|] == '_';
    assert !IsWhitespace(name[|prefix|]);
  }

  /**
   * The samples end the analysis exactly when one of them is null or blank,
   * and then with the builder's message about missing content.
   */
  lemma SampleRejection(p: FileParser, f: RequestFields, samples: seq<Option<string>>, main: Node)
    requires f.fileType.Some?
    ensures SampleStructures(p, f, samples, main).Err? <==> exists i :: 0 <= i < |samples| && NullOrBlank(samples[i])
    ensures SampleStructures(p, f, samples, main).Err? ==> SampleStructures(p, f, samples, main).error == IllegalArgument(ContentMissing)
  {
    if SampleStructures(p, f, samples, main).Err? {
      RejectedSampleIsBlank(p, f, samples, main);
    }
    if exists i :: 0 <= i < |samples| && NullOrBlank(samples[i]) {
      var k :| 0 <= k < |samples| && NullOrBlank(samples[k]);
      BlankSampleRejected(p, f, samples, main, k);
    }
  }

  /** Only a null or blank sample ends the fusion, and always with the missing-content message. */
  lemma {:induction false} RejectedSampleIsBlank(p: FileParser, f: RequestFields, samples: seq<Option<string>>, main: Node)
    requires f.fileType.Some? && SampleStructures(p, f, samples, main).Err?
    ensures SampleStructures(p, f, samples, main).error == IllegalArgument(ContentMissing)
    ensures exists k :: 0 <= k < |samples| && NullOrBlank(samples[k])
    decreases |samples|
  {
    var i := |samples| - 1;
    var prefix := samples[..i];
    if SampleStructures(p, f, prefix, main).Err? {
      RejectedSampleIsBlank(p, f, prefix, main);
      var k :| 0 <= k < |prefix| && NullOrBlank(prefix[k]);
      assert samples[k] == prefix[k];
    } else {
      SampleValidation(f, i, samples[i]);
    }
  }

  /** A null or blank sample ends the fusion with the missing-content message. */
  lemma {:induction false} BlankSampleRejected(p: FileParser, f: RequestFields, samples: seq<Option<string>>, main: Node, k: nat)
    requires f.fileType.Some? && k < |samples| && NullOrBlank(samples[k])
    ensures SampleStructures(p, f, samples, main) == Err(IllegalArgument(ContentMissing))
    decreases |samples|
  {
    var i := |samples| - 1;
    var prefix := samples[..i];
    if k < i {
      assert prefix[k] == samples[k];
      BlankSampleRejected(p, f, prefix, main, k);
    } else {
      LastSampleBlank(p, f, samples, main);
    }
  }

  /** A null or blank last sample ends the fusion with the missing-content message, whatever came before. */
  lemma LastSampleBlank(p: FileParser, f: RequestFields, samples: seq<Option<string>>, main: Node)
    requires f.fileType.Some? && samples != [] && NullOrBlank(samples[|samples| - 1])
    ensures SampleStructures(p, f, samples, main) == Err(IllegalArgument(ContentMissing))
  {
    var i := |samples| - 1;
    var prefix := samples[..i];
    match SampleStructures(p, f, prefix, main)
    case Err(e) =>
      RejectedSampleIsBlank(p, f, prefix, main);
    case Ok(all) =>
      SampleValidation(f, i, samples[i]);
      assert SampleStep(p, f, i, samples[i], all) == Err(IllegalArgument(ContentMissing));
  }

  /** Samples that all fail to parse leave the main tree alone in the list. */
  lemma {:induction false} UnparsableSamplesIgnored(p: FileParser, f: RequestFields, samples: seq<Option<string>>, main: Node)
    requires f.fileType.Some?
    requires forall i :: 0 <= i < |samples| ==> !NullOrBlank(samples[i]) && ParseWith(p, SampleFields(f, i, samples[i])).Err?
    ensures SampleStructures(p, f, samples, main) == Ok([Some(main)])
    decreases |samples|
  {
    if samples != [] {
      var i := |samples| - 1;
      UnparsableSamplesIgnored(p, f, samples[..i], main);
      SampleValidation(f, i, samples[i]);
    }
  }

  /** With valid samples the main tree comes first and each sample adds at most one tree. */
  lemma {:induction false} SampleStructuresShape(p: FileParser, f: RequestFields, samples: seq<Option<string>>, main: Node)
    requires f.fileType.Some?
    requires forall i :: 0 <= i < |samples| ==> !NullOrBlank(samples[i])
    ensures SampleStructures(p, f, samples, main).Ok?
    ensures var all := SampleStructures(p, f, samples, main).value;
      1 <= |all| <= 1 + |samples| && all[0] == Some(main)
    decreases |samples|
  {
    if samples != [] {
      var i := |samples| - 1;
      SampleStructuresShape(p, f, samples[..i], main);
      SampleValidation(f, i, samples[i]);
    }
  }

  /** A request validate() rejects ends the analysis with VALIDATION_ERROR and validate()'s message. */
  lemma InvalidRequestFails(factory: ParserFactory, gen: JsonSchemaGenerator, f: RequestFields)
    requires !IsValid(f)
    ensures AnalyzeSpec(factory, gen, f) == Err(AnalyzerException("VALIDATION_ERROR", None, Validate(f).error.message))
  {
  }

  /** A file type the factory does not know ends the analysis with PARSER_NOT_FOUND and the factory's message. */
  lemma UnknownTypeFails(factory: ParserFactory, gen: JsonSchemaGenerator, f: RequestFields)
    requires IsValid(f) && factory(f.fileType.value).Err?
    ensures AnalyzeSpec(factory, gen, f) == Err(AnalyzerException("PARSER_NOT_FOUND", f.fileType, factory(f.fileType.value).error))
  {
  }

  /**
   * A valid CSV request that carries its content only as bytes is declined by
   * the CSV parser: the analysis ends with PARSER_ERROR.
   */
  lemma CsvNeedsTextContent(factory: ParserFactory, gen: JsonSchemaGenerator, f: RequestFields, env: CsvParser.CsvEnv)
    requires IsValid(f) && f.fileType == Some(CSV) && factory(CSV) == Ok(CsvFileParser(env))
    requires NullOrBlank(f.fileContent)
    ensures AnalyzeSpec(factory, gen, f) == Err(AnalyzerException("PARSER_ERROR", Some(CSV), CannotParseMessage))
  {
  }

  /**
   * A parser the factory returns that declines the request ends the analysis
   * with PARSER_ERROR; one that accepts it but returns null ends it with
   * PARSE_ERROR; an exception the parser throws is reported through the
   * catch blocks.
   */
  lemma ParserStageFails(factory: ParserFactory, gen: JsonSchemaGenerator, f: RequestFields, p: FileParser)
    requires IsValid(f) && factory(f.fileType.value) == Ok(p)
    ensures !CanParseWith(p, f) ==> AnalyzeSpec(factory, gen, f) == Err(AnalyzerException("PARSER_ERROR", f.fileType, CannotParseMessage))
    ensures CanParseWith(p, f) && ParseWith(p, f) == Ok(None) ==>
      AnalyzeSpec(factory, gen, f) == Err(AnalyzerException("PARSE_ERROR", f.fileType, NullStructureMessage))
    ensures CanParseWith(p, f) && ParseWith(p, f).Err? ==> AnalyzeSpec(factory, gen, f) == Err(Wrap(f, ParseWith(p, f).error))
  {
  }

  /**
   * Without samples, a generator that yields no schema ends the analysis with
   * GENERATION_ERROR, and a schema the validator refuses with VALIDATION_ERROR.
   */
  lemma GenerationStageFails(factory: ParserFactory, gen: JsonSchemaGenerator, f: RequestFields, p: FileParser, main: Node)
    requires IsValid(f) && SelectParser(factory, f) == Ok(p) && ParseMainFile(p, f) == Ok(main) && !HasSamples(f)
    ensures f.fileType != Some(CSV) && (gen.generate(Some(main), f) == Ok(None) || gen.generate(Some(main), f) == Ok(Some([]))) ==>
      AnalyzeSpec(factory, gen, f) == Err(AnalyzerException("GENERATION_ERROR", f.fileType, EmptySchemaMessage))
    ensures GenerateWith(gen, f, Some(main)).Err? ==> AnalyzeSpec(factory, gen, f) == Err(Wrap(f, GenerateWith(gen, f, Some(main)).error))
    ensures GenerateWith(gen, f, Some(main)).Ok? && !gen.validate(GenerateWith(gen, f, Some(main)).value) ==>
      AnalyzeSpec(factory, gen, f) == Err(AnalyzerException("VALIDATION_ERROR", None, InvalidSchemaMessage))
  {
  }

  /**
   * A blank sample makes the builder throw IllegalArgumentException inside
   * the try block, so the whole analysis fails with ANALYSIS_ERROR.
   */
  lemma BlankSampleFailsAnalysis(factory: ParserFactory, gen: JsonSchemaGenerator, f: RequestFields, p: FileParser, main: Node, k: nat)
    requires IsValid(f) && factory(f.fileType.value) == Ok(p) && CanParseWith(p, f)
    requires ParseWith(p, f) == Ok(Some(main))
    requires f.sampleFileContents.Some? && k < |f.sampleFileContents.value| && NullOrBlank(f.sampleFileContents.value[k])
    ensures AnalyzeSpec(factory, gen, f) == Err(AnalyzerException("ANALYSIS_ERROR", f.fileType, AnalysisFailedPrefix + ContentMissing))
  {
    SampleRejection(p, f, f.sampleFileContents.value, main);
    assert FuseSpec(p, f, main) == Err(IllegalArgument(ContentMissing));
  }

  /** Every array node contributes one path. */
  lemma {:induction false} ArrayPathsCountIn(n: Node, path: string)
    ensures |ArrayPathsIn(n, path)| == ArraysIn(n)
    decreases n, 1
  {
    ArrayPathsCountOf(n.children, ChildPath(path, n.name));
  }

  /** The same, over a list of siblings. */
  lemma {:induction false} ArrayPathsCountOf(ns: seq<Node>, path: string)
    ensures |ArrayPathsOf(ns, path)| == ArraysOf(ns)
    decreases ns, 0
  {
    if ns != [] {
      ArrayPathsCountOf(ns[..|ns| - 1], path);
      ArrayPathsCountIn(ns[|ns| - 1], path);
    }
  }

  /** No more arrays than nodes. */
  lemma {:induction false} ArraysAtMostElementsIn(n: Node)
    ensures ArraysIn(n) <= ElementsIn(n)
    decreases n, 1
  {
    ArraysAtMostElementsOf(n.children);
  }

  /** The same, over a list of siblings. */
  lemma {:induction false} ArraysAtMostElementsOf(ns: seq<Node>)
    ensures ArraysOf(ns) <= ElementsOf(ns)
    decreases ns, 0
  {
    if ns != [] {
      ArraysAtMostElementsOf(ns[..|ns| - 1]);
      ArraysAtMostElementsIn(ns[|ns| - 1]);
    }
  }

  /**
   * The statistics of a successful analysis agree with each other: as many
   * elements analyzed as counted, one detected path per array, no more
   * arrays than elements, and the root named in the metadata.
   */
  lemma ResultStatistics(factory: ParserFactory, gen: JsonSchemaGenerator, f: RequestFields)
    requires AnalyzeSpec(factory, gen, f).Ok?
    ensures var result := AnalyzeSpec(factory, gen, f).value;
      && result.elementsAnalyzed == result.metadata.totalElements
      && |result.detectedArrayFields| == result.metadata.arrayElements <= result.metadata.totalElements
      && result.metadata.schemaVersion == SchemaVersion
      && result.metadata.sourceFileType == f.fileType
  {
    var result := AnalyzeSpec(factory, gen, f).value;
    assert Steps(factory, gen, f) == Ok(result);
    var structure, schema :| BuildResultSpec(f, structure, schema) == Ok(result);
    BuildResultStatistics(f, structure, schema);
  }

  /** The statistics buildResult records for one tree agree with each other. */
  lemma BuildResultStatistics(f: RequestFields, structure: Option<Node>, schema: Schema)
    requires BuildResultSpec(f, structure, schema).Ok?
    ensures var result := BuildResultSpec(f, structure, schema).value;
      && result.elementsAnalyzed == result.metadata.totalElements
      && |result.detectedArrayFields| == result.metadata.arrayElements <= result.metadata.totalElements
      && result.metadata.schemaVersion == SchemaVersion
      && result.metadata.sourceFileType == f.fileType
  {
    ArrayPathsCountIn(structure.value, "");
    ArraysAtMostElementsIn(structure.value);
  }

  /** A column node: neither an array nor a parent, and without attributes. */
  predicate IsColumn(c: Node) {
    !c.isArray && c.children == [] && c.attributes == []
  }

  /** The tree the CSV parser builds: the named array root over one item object of columns. */
  predicate IsCsvTree(t: Node, name: string) {
    |t.children| == 1 && t == CsvParser.CsvTree(name, t.children[0].children)
    && forall i :: 0 <= i < |t.children[0].children| ==> IsColumn(t.children[0].children[i])
  }

  /** The column nodes of a CSV tree: the children of its item. */
  function CsvColumns(t: Node): seq<Node> {
    if t.children == [] then [] else t.children[0].children
  }

  /** Every tree the CSV parser returns has that shape. */
  lemma CsvParseTree(f: RequestFields, env: CsvParser.CsvEnv)
    requires f.schemaName.Some? && CsvParser.ParseSpec(f, env).Ok?
    ensures IsCsvTree(CsvParser.ParseSpec(f, env).value, f.schemaName.value)
  {
  }

  /** Columns are leaves: one element each, no arrays, no attributes, no array paths. */
  lemma {:induction false} ColumnCounts(columns: seq<Node>, path: string)
    requires forall i :: 0 <= i < |columns| ==> IsColumn(columns[i])
    ensures ElementsOf(columns) == |columns| && ArraysOf(columns) == 0 && AttributesOf(columns) == 0
    ensures ArrayPathsOf(columns, path) == []
  {
    if columns != [] {
      var last := columns[|columns| - 1];
      assert forall i :: 0 <= i < |columns| - 1 ==> columns[..|columns| - 1][i] == columns[i];
      ColumnCounts(columns[..|columns| - 1], path);
      assert IsColumn(last);
      assert ElementsIn(last) == 1 && ArraysIn(last) == 0 && AttributesIn(last) == 0;
      assert ArrayPathsIn(last, path) == [];
    }
  }

  /** The statistics of a CSV tree: root, item and columns; one array, found at the root's name; no attributes. */
  lemma CsvTreeStatistics(t: Node, name: string)
    requires IsCsvTree(t, name)
    ensures CountElements(Some(t)) == 2 + |t.children[0].children|
    ensures CountArrays(Some(t)) == 1 && CountAttributes(Some(t)) == 0
    ensures ArrayPaths(Some(t), "") == [name]
  {
    var item := t.children[0];
    ColumnCounts(item.children, ChildPath(name, "item"));
    assert t.children[..0] == [];
    assert ElementsOf(t.children) == ElementsIn(item);
    assert ArraysOf(t.children) == ArraysIn(item);
    assert AttributesOf(t.children) == AttributesIn(item);
    assert ArrayPathsOf(t.children, name) == ArrayPathsIn(item, name);
  }

  /**
   * A valid CSV request without samples, whose content parses and whose
   * schema the validator accepts, yields the jsonschema2pojo document of the
   * parsed columns, with the CSV tree's statistics and the schema name as
   * its only array path.
   */
  lemma CsvAnalysis(factory: ParserFactory, gen: JsonSchemaGenerator, f: RequestFields, env: CsvParser.CsvEnv)
    requires IsValid(f) && f.fileType == Some(CSV) && factory(CSV) == Ok(CsvFileParser(env))
    requires !NullOrBlank(f.fileContent) && !HasSamples(f)
    requires CsvParser.ParseSpec(f, env).Ok?
    requires var columns := CsvColumns(CsvParser.ParseSpec(f, env).value);
      gen.validate(SchemaOf(PojoGenerator.Document(f, PutAll(PojoGenerator.FlatEntries(columns)))))
    ensures AnalyzeSpec(factory, gen, f).Ok?
    ensures var result := AnalyzeSpec(factory, gen, f).value;
      var columns := CsvColumns(CsvParser.ParseSpec(f, env).value);
      && result.jsonSchema == SchemaOf(PojoGenerator.Document(f, PutAll(PojoGenerator.FlatEntries(columns))))
      && result.metadata.rootElement == f.schemaName.value
      && result.metadata.totalElements == 2 + |columns|
      && result.metadata.arrayElements == 1 && result.metadata.totalAttributes == 0
      && result.detectedArrayFields == [f.schemaName.value]
  {
    var tree := CsvParser.ParseSpec(f, env).value;
    var p := CsvFileParser(env);
    CsvParseTree(f, env);
    CsvTreeStatistics(tree, f.schemaName.value);
    var columns := CsvColumns(tree);
    var doc := PojoGenerator.Document(f, PutAll(PojoGenerator.FlatEntries(columns)));
    assert GenerateWith(gen, f, Some(tree)) == Ok(SchemaOf(doc)) by {
      PojoGenerator.DocumentKeys(f, PutAll(PojoGenerator.FlatEntries(columns)));
      assert SchemaOf(doc) != [];
    }
    assert ParseMainFile(p, f) == Ok(tree);
    AnalyzeWithoutSamples(factory, gen, f, p, tree, SchemaOf(doc));
  }

  /** Without samples, a request that passes every step gets the result built from the main tree and its schema. */
  lemma AnalyzeWithoutSamples(factory: ParserFactory, gen: JsonSchemaGenerator, f: RequestFields, p: FileParser, main: Node, schema: Schema)
    requires IsValid(f) && SelectParser(factory, f) == Ok(p) && ParseMainFile(p, f) == Ok(main) && !HasSamples(f)
    requires GenerateWith(gen, f, Some(main)) == Ok(schema) && gen.validate(schema)
    ensures AnalyzeSpec(factory, gen, f) == BuildResultSpec(f, Some(main), schema)
  {
  }
}
