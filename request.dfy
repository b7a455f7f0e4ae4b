/**
 * FileAnalysisRequest: the mutable request object with its validation, its
 * option lookup, its setters and its Builder.
 */
module Request {
  import opened Wrappers
  import opened Text
  import opened Model

  newtype byte = x: int | 0 <= x < 256

  /** A HashMap<String, String>: order is never observed, and a key may map to null. */
  type Options = map<string, Option<string>>

  /** The state of one FileAnalysisRequest; None stands for a null reference. */
  datatype RequestFields = RequestFields(
    fileType: Option<FileType>,
    fileContent: Option<string>,
    fileBytes: Option<seq<byte>>,
    schemaName: Option<string>,
    sampleFileContents: Option<seq<Option<string>>>,
    detectArrays: bool,
    parserOptions: Option<Options>,
    typeOverrides: Option<Options>)

  /** What the no-argument constructor leaves in a new request. */
  const NewRequest := RequestFields(None, None, None, None, Some([]), true, Some(map[]), Some(map[]))

  const FileTypeMissing := "fileType cannot be null"
  const ContentMissing := "Either fileContent or fileBytes must be provided"
  const SchemaNameMissing := "schemaName cannot be null or blank"

  /** Some file content: non-blank text or a non-empty byte array. */
  predicate HasContent(f: RequestFields) {
    !NullOrBlank(f.fileContent) || (f.fileBytes.Some? && |f.fileBytes.value| > 0)
  }

  /** The three conditions validate() enforces. */
  predicate IsValid(f: RequestFields) {
    f.fileType.Some? && HasContent(f) && !NullOrBlank(f.schemaName)
  }

  /**
   * validate(): checks the file type, then the content, then the schema
   * name, and throws IllegalArgumentException for the first one missing.
   */
  function Validate(f: RequestFields): (r: Outcome<Exception>)
    ensures r.Pass? <==> IsValid(f)
    ensures f.fileType.None? ==> r == Fail(IllegalArgument(FileTypeMissing))
    ensures f.fileType.Some? && !HasContent(f) ==> r == Fail(IllegalArgument(ContentMissing))
    ensures f.fileType.Some? && HasContent(f) && NullOrBlank(f.schemaName) ==> r == Fail(IllegalArgument(SchemaNameMissing))
  {
    if f.fileType.None? then Fail(IllegalArgument(FileTypeMissing))
    else if NullOrBlank(f.fileContent) && (f.fileBytes.None? || |f.fileBytes.value| == 0) then Fail(IllegalArgument(ContentMissing))
    else if NullOrBlank(f.schemaName) then Fail(IllegalArgument(SchemaNameMissing))
    else Pass
  }

  /** getParserOption(key): the stored value, null when the options map is null or has no non-null value for key. */
  function GetParserOption(f: RequestFields, key: string): (r: Option<string>)
    ensures r.Some? <==> f.parserOptions.Some? && key in f.parserOptions.value && f.parserOptions.value[key].Some?
    ensures r.Some? ==> f.parserOptions.value[key] == r
  {
    match f.parserOptions
    case None => None
    case Some(m) => if key in m then m[key] else None
  }

  /** getParserOption(key, defaultValue): the stored value if it is non-null, else the default. */
  function GetParserOptionOr(f: RequestFields, key: string, default: string): (r: string)
    ensures f.parserOptions.Some? && key in f.parserOptions.value && f.parserOptions.value[key].Some? ==> r == f.parserOptions.value[key].value
    ensures f.parserOptions.None? || key !in f.parserOptions.value || f.parserOptions.value[key].None? ==> r == default
  {
    GetParserOption(f, key).GetOr(default)
  }

  /** Validation looks at the type, content and name only: samples, options and overrides never matter. */
  lemma ValidateIgnoresSettings(f: RequestFields, samples: Option<seq<Option<string>>>, detect: bool, options: Option<Options>, overrides: Option<Options>)
    ensures Validate(f.(sampleFileContents := samples, detectArrays := detect, parserOptions := options, typeOverrides := overrides)) == Validate(f)
  {
  }

  /**
   * A request that passed validation fails it again once its content is set
   * to the empty string, unless it carries bytes.
   */
  lemma EmptyContentBreaksValidation(f: RequestFields)
    requires IsValid(f)
    requires f.fileBytes.None? || |f.fileBytes.value| == 0
    ensures Validate(f.(fileContent := Some(""))) == Fail(IllegalArgument(ContentMissing))
  {
  }

  /** A FileAnalysisRequest object. */
  class FileAnalysisRequest {
    var fileType: Option<FileType>
    var fileContent: Option<string>
    var fileBytes: Option<seq<byte>>
    var schemaName: Option<string>
    var sampleFileContents: Option<seq<Option<string>>>
    var detectArrays: bool
    var parserOptions: Option<Options>
    var typeOverrides: Option<Options>

    /** The current state of the object as a value. */
    function Fields(): RequestFields
      reads this
    {
      RequestFields(fileType, fileContent, fileBytes, schemaName, sampleFileContents, detectArrays, parserOptions, typeOverrides)
    }

    /** new FileAnalysisRequest(): empty samples, detectArrays on, empty options and overrides. */
    constructor()
      ensures Fields() == NewRequest
    {
      fileType, fileContent, fileBytes, schemaName := None, None, None, None;
      sampleFileContents := Some([]);
      detectArrays := true;
      parserOptions, typeOverrides := Some(map[]), Some(map[]);
    }

    method SetFileType(t: Option<FileType>)
      modifies this
      ensures Fields() == old(Fields()).(fileType := t)
    {
      fileType := t;
    }

    method SetFileContent(content: Option<string>)
      modifies this
      ensures Fields() == old(Fields()).(fileContent := content)
    {
      fileContent := content;
    }

    method SetFileBytes(bytes: Option<seq<byte>>)
      modifies this
      ensures Fields() == old(Fields()).(fileBytes := bytes)
    {
      fileBytes := bytes;
    }

    method SetSchemaName(name: Option<string>)
      modifies this
      ensures Fields() == old(Fields()).(schemaName := name)
    {
      schemaName := name;
    }

    method SetDetectArrays(detect: bool)
      modifies this
      ensures Fields() == old(Fields()).(detectArrays := detect)
    {
      detectArrays := detect;
    }

    /** A null list is replaced by a new empty one. */
    method SetSampleFileContents(samples: Option<seq<Option<string>>>)
      modifies this
      ensures sampleFileContents.Some?
      ensures Fields() == old(Fields()).(sampleFileContents := Some(samples.GetOr([])))
    {
      sampleFileContents := if samples.Some? then samples else Some([]);
    }

    /** A null map is replaced by a new empty one. */
    method SetParserOptions(options: Option<Options>)
      modifies this
      ensures parserOptions.Some?
      ensures Fields() == old(Fields()).(parserOptions := Some(options.GetOr(map[])))
    {
      parserOptions := if options.Some? then options else Some(map[]);
    }

    /** A null map is replaced by a new empty one. */
    method SetTypeOverrides(overrides: Option<Options>)
      modifies this
      ensures typeOverrides.Some?
      ensures Fields() == old(Fields()).(typeOverrides := Some(overrides.GetOr(map[])))
    {
      typeOverrides := if overrides.Some? then overrides else Some(map[]);
    }
  }

  /**
   * FileAnalysisRequest.Builder: fills one request in place. Unlike the
   * request's own setters, its collection setters store null as given.
   */
  class Builder {
    const request: FileAnalysisRequest

    constructor()
      ensures fresh(request) && request.Fields() == NewRequest
    {
      request := new FileAnalysisRequest();
    }

    method WithFileType(t: Option<FileType>)
      modifies request
      ensures request.Fields() == old(request.Fields()).(fileType := t)
    {
      request.fileType := t;
    }

    method WithFileContent(content: Option<string>)
      modifies request
      ensures request.Fields() == old(request.Fields()).(fileContent := content)
    {
      request.fileContent := content;
    }

    method WithFileBytes(bytes: Option<seq<byte>>)
      modifies request
      ensures request.Fields() == old(request.Fields()).(fileBytes := bytes)
    {
      request.fileBytes := bytes;
    }

    method WithSchemaName(name: Option<string>)
      modifies request
      ensures request.Fields() == old(request.Fields()).(schemaName := name)
    {
      request.schemaName := name;
    }

    method WithSampleFileContents(samples: Option<seq<Option<string>>>)
      modifies request
      ensures request.Fields() == old(request.Fields()).(sampleFileContents := samples)
    {
      request.sampleFileContents := samples;
    }

    /** Appends one sample, creating the list first when it is null. */
    method AddSampleFile(sample: Option<string>)
      modifies request
      ensures request.sampleFileContents.Some?
      ensures request.sampleFileContents.value == old(request.sampleFileContents).GetOr([]) + [sample]
      ensures request.Fields() == old(request.Fields()).(sampleFileContents := request.sampleFileContents)
    {
      var current := if request.sampleFileContents.Some? then request.sampleFileContents.value else [];
      request.sampleFileContents := Some(current + [sample]);
    }

    method WithDetectArrays(detect: bool)
      modifies request
      ensures request.Fields() == old(request.Fields()).(detectArrays := detect)
    {
      request.detectArrays := detect;
    }

    method WithParserOptions(options: Option<Options>)
      modifies request
      ensures request.Fields() == old(request.Fields()).(parserOptions := options)
    {
      request.parserOptions := options;
    }

    /** Puts one option, creating the map first when it is null; every other option is unchanged. */
    method ParserOption(key: string, value: Option<string>)
      modifies request
      ensures request.parserOptions.Some?
      ensures request.parserOptions.value == old(request.parserOptions).GetOr(map[])[key := value]
      ensures request.Fields() == old(request.Fields()).(parserOptions := request.parserOptions)
    {
      var current := if request.parserOptions.Some? then request.parserOptions.value else map[];
      request.parserOptions := Some(current[key := value]);
    }

    method WithTypeOverrides(overrides: Option<Options>)
      modifies request
      ensures request.Fields() == old(request.Fields()).(typeOverrides := overrides)
    {
      request.typeOverrides := overrides;
    }

    /** Puts one type override, creating the map first when it is null; every other override is unchanged. */
    method TypeOverride(path: string, typ: Option<string>)
      modifies request
      ensures request.typeOverrides.Some?
      ensures request.typeOverrides.value == old(request.typeOverrides).GetOr(map[])[path := typ]
      ensures request.Fields() == old(request.Fields()).(typeOverrides := request.typeOverrides)
    {
      var current := if request.typeOverrides.Some? then request.typeOverrides.value else map[];
      request.typeOverrides := Some(current[path := typ]);
    }

    /** build(): validates the request and hands out the very object it filled. */
    method Build() returns (r: Result<FileAnalysisRequest, Exception>)
      ensures r.Ok? <==> IsValid(request.Fields())
      ensures r.Ok? ==> r.value == request
      ensures r.Err? ==> Validate(request.Fields()) == Fail(r.error)
    {
      match Validate(request.Fields())
      case Pass => r := Ok(request);
      case Fail(e) => r := Err(e);
    }
  }
}
