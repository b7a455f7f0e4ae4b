/**
 * FileSchemaAnalyzerAdapter: the SDK module around the analyzer. It applies
 * the context's configuration to the request, runs the analysis and wraps
 * the analyzer's failures in SdkException.
 */
module Adapter {
  import opened Wrappers
  import opened Text
  import opened Model
  import opened Request
  import CsvParser
  import Analyzer

  const ModuleName := "file-schema-analyzer"
  const ModuleDescription := "Analyzes file schemas (CSV, JSON, Fixed-Length, Variable-Length) and generates JSON Schemas for BeanIO configuration"
  const ModuleVersion := "1.0.0-SNAPSHOT"

  const AnalyzerNullMessage := "FileSchemaAnalyzer cannot be null"
  const InputNullMessage := "Input request cannot be null"
  const SdkFailurePrefix := "File schema analysis failed: "
  const OptionPrefix := "parserOptions."

  /** The configuration of an SdkContext: its string settings by key. */
  type Config = map<string, string>

  /** What execute throws: an SdkException with its cause, or an exception passed on as it is. */
  datatype AdapterError =
    | SdkException(message: string, cause: Exception)
    | Thrown(exception: Exception)

  /** The parser options the module advertises, by option name. */
  const AdvertisedNames: set<string> := {
    "delimiter", "hasHeader", "encoding", "quoteChar", "escapeChar", "skipLines", "sampleRows",
    "strictMode", "allowComments", "allowTrailingCommas",
    "descriptorFile", "fieldDefinitions", "trimFields", "recordLength",
    "tagValuePairs", "tagValueDelimiter"}

  /** The description the configuration schema gives an advertised parser option. */
  function OptionDescription(option: string): string {
    if option == "delimiter" then "CSV: Column delimiter (default: ,)"
    else if option == "hasHeader" then "CSV: First row is header (true/false, default: true)"
    else if option == "encoding" then "CSV: File encoding (default: UTF-8)"
    else if option == "quoteChar" then "CSV: Quote character (default: \")"
    else if option == "escapeChar" then "CSV: Escape character (default: \\)"
    else if option == "skipLines" then "CSV: Lines to skip at beginning (default: 0)"
    else if option == "sampleRows" then "CSV: Rows to sample for type inference (default: 100)"
    else if option == "strictMode" then "JSON: Enable strict validation (true/false, default: true)"
    else if option == "allowComments" then "JSON: Allow comments (true/false, default: false)"
    else if option == "allowTrailingCommas" then "JSON: Allow trailing commas (true/false, default: false)"
    else if option == "descriptorFile" then "Fixed-Length: Descriptor JSON content (default: null)"
    else if option == "fieldDefinitions" then "Fixed-Length: Inline field definitions JSON (default: null)"
    else if option == "trimFields" then "Fixed-Length: Trim whitespace (true/false, default: true)"
    else if option == "recordLength" then "Fixed-Length: Expected record length (default: null)"
    else if option == "tagValuePairs" then "Variable-Length: Enable tag-value mode (true/false, default: false)"
    else "Variable-Length: Tag-value delimiter (default: =)"
  }

  /** The advertised parser options with their descriptions. */
  function AdvertisedOptions(): map<string, string> {
    map o | o in AdvertisedNames :: OptionDescription(o)
  }

  /** The same entries with parserOptions. in front of each name. */
  function Prefixed(options: map<string, string>): (r: map<string, string>)
    ensures forall o :: o in options ==> OptionPrefix + o in r && r[OptionPrefix + o] == options[o]
    ensures forall k :: k in r ==> IsOptionKey(k) && OptionName(k) in options
  {
    PrefixedNamesDistinct();
    map o | o in options :: OptionPrefix + o := options[o]
  }

  /** configurationSchema: detectArrays and the advertised parser options. */
  function ConfigurationSchema(): map<string, string> {
    Prefixed(AdvertisedOptions())["detectArrays" := "Enable automatic array detection (true/false, default: true)"]
  }

  /**
   * The configuration schema's keys are exactly detectArrays and the prefixed
   * advertised option names, each option with its description.
   */
  lemma ConfigurationSchemaKeys()
    ensures forall k :: k in ConfigurationSchema() <==> k == "detectArrays" || (IsOptionKey(k) && OptionName(k) in AdvertisedOptions())
    ensures forall o :: o in AdvertisedOptions() ==> OptionPrefix + o in ConfigurationSchema() && ConfigurationSchema()[OptionPrefix + o] == AdvertisedOptions()[o]
  {
    NotOptionKey("detectArrays");
    PrefixedWithFlag(AdvertisedOptions(), "detectArrays", "Enable automatic array detection (true/false, default: true)");
  }

  /** A prefixed options map with one setting that is no option key added beside it. */
  lemma PrefixedWithFlag(options: map<string, string>, key: string, value: string)
    requires !IsOptionKey(key)
    ensures forall k :: k in Prefixed(options)[key := value] <==> k == key || (IsOptionKey(k) && OptionName(k) in options)
    ensures forall o :: o in options ==> OptionPrefix + o in Prefixed(options)[key := value] && Prefixed(options)[key := value][OptionPrefix + o] == options[o]
  {
    var prefixed := Prefixed(options);
    forall k | IsOptionKey(k) && OptionName(k) in options
      ensures k in prefixed
    {
      assert OptionPrefix + OptionName(k) == k;
    }
    forall o | o in options
      ensures OptionPrefix + o != key
    {
      assert (OptionPrefix + o)[..|OptionPrefix|] == OptionPrefix;
    }
  }

  /** Different option names give different keys. */
  lemma PrefixedNamesDistinct()
    ensures forall a, b :: OptionPrefix + a == OptionPrefix + b ==> a == b
  {
    forall a, b | OptionPrefix + a == OptionPrefix + b
      ensures a == b
    {
      assert (OptionPrefix + a)[|OptionPrefix|..] == a;
      assert (OptionPrefix + b)[|OptionPrefix|..] == b;
    }
  }

  /** The CSV parser's options are among the advertised ones. */
  lemma CsvOptionsAmongAdvertised()
    ensures CsvParser.OptionsRead + {"encoding"} <= AdvertisedNames
  {
  }

  /**
   * Every option the CSV parser lists in getAvailableOptions (the options it
   * reads, and encoding) is advertised under parserOptions. in the
   * configuration schema.
   */
  lemma CsvOptionsAdvertised()
    ensures forall o :: o in CsvParser.OptionsRead + {"encoding"} ==> OptionPrefix + o in ConfigurationSchema()
  {
    CsvOptionsAmongAdvertised();
    var advertised := AdvertisedOptions();
    assert CsvParser.OptionsRead + {"encoding"} <= advertised.Keys;
  }

  /** A key that does not start with 'p' is no parser option key. */
  lemma NotOptionKey(key: string)
    requires |key| > 0 && key[0] != 'p'
    ensures !IsOptionKey(key)
  {
  }

  /** detectArrays is advertised; optimizeForBeanIO, although the class documentation names it, is not. */
  lemma BeanIOKeyNotAdvertised(key: string)
    requires key == "optimizeForBeanIO"
    ensures "detectArrays" in ConfigurationSchema() && key !in ConfigurationSchema()
  {
    assert key[0] == 'o';
    NotOptionKey(key);
    assert key != "detectArrays";
  }

  // ---------------------------------------------------------------- applying the context

  /** key.startsWith("parserOptions."). */
  predicate IsOptionKey(key: string) {
    |OptionPrefix| <= |key| && key[..|OptionPrefix|] == OptionPrefix
  }

  /** The option name after the prefix. */
  function OptionName(key: string): (r: string)
    requires IsOptionKey(key)
    ensures OptionPrefix + r == key
  {
    assert key == key[..|OptionPrefix|] + key[|OptionPrefix|..];
    key[|OptionPrefix|..]
  }

  /** The parser options the given configuration keys contribute. */
  function ContextOptions(config: Config, keys: set<string>): (r: Options)
    ensures forall k :: k in keys && k in config && IsOptionKey(k) ==> OptionName(k) in r && r[OptionName(k)] == Some(config[k])
  {
    map k | k in keys && k in config && IsOptionKey(k) :: OptionName(k) := Some(config[k])
  }

  /** The request after applyContextConfiguration. */
  function ConfiguredFields(f: RequestFields, config: Config): RequestFields {
    var detect := if "detectArrays" in config then ParseBoolean(Some(config["detectArrays"])) else f.detectArrays;
    var merged := f.parserOptions.GetOr(map[]) + ContextOptions(config, config.Keys);
    f.(detectArrays := detect, parserOptions := if merged != map[] then Some(merged) else f.parserOptions)
  }

  /** A null context leaves the request alone. */
  function WithContext(f: RequestFields, context: Option<Config>): RequestFields {
    if context.Some? then ConfiguredFields(f, context.value) else f
  }

  /** execute: the null check, the configuration, the analysis and the SdkException wrapping. */
  function ExecuteSpec(factory: Analyzer.ParserFactory, gen: Analyzer.JsonSchemaGenerator, input: Option<RequestFields>, context: Option<Config>)
    : Result<Analyzer.SchemaGenerationResult, AdapterError>
  {
    if input.None? then Err(Thrown(IllegalArgument(InputNullMessage)))
    else
      match Analyzer.AnalyzeSpec(factory, gen, WithContext(input.value, context))
      case Ok(result) => Ok(result)
      case Err(e) =>
        if e.AnalyzerException? then Err(SdkException(SdkFailurePrefix + e.message, e))
        else Err(Thrown(e))
  }

  /** One more configuration key visited by the forEach loop. */
  lemma ContextStep(config: Config, done: set<string>, key: string)
    requires key in config && key !in done
    ensures IsOptionKey(key) ==> ContextOptions(config, done + {key}) == ContextOptions(config, done)[OptionName(key) := Some(config[key])]
    ensures !IsOptionKey(key) ==> ContextOptions(config, done + {key}) == ContextOptions(config, done)
  {
    var before := ContextOptions(config, done);
    var after := ContextOptions(config, done + {key});
    if IsOptionKey(key) {
      var expected := before[OptionName(key) := Some(config[key])];
      forall o | o in after
        ensures o in expected && after[o] == expected[o]
      {
        assert OptionName(OptionPrefix + o) == o;
      }
      forall o | o in expected
        ensures o in after
      {
      }
      assert after == expected;
    } else {
      forall o | o in after
        ensures o in before && after[o] == before[o]
      {
        assert OptionName(OptionPrefix + o) == o;
      }
      assert after == before;
    }
  }

  /**
   * The forEach over the context's settings: each parserOptions. key puts
   * its stripped name into the options. HashMap order is not fixed, so the
   * next key is any one not yet visited.
   */
  method MergeContextOptions(base: Options, config: Config) returns (merged: Options)
    ensures merged == base + ContextOptions(config, config.Keys)
  {
    merged := base;
    var remaining := config.Keys;
    ghost var done: set<string> := {};
    while remaining != {}
      invariant done !! remaining && done + remaining == config.Keys
      invariant merged == base + ContextOptions(config, done)
      decreases |remaining|
    {
      var key :| key in remaining;
      MergeStep(base, config, done, key, merged);
      if IsOptionKey(key) {
        var optionName := OptionName(key);
        merged := merged[optionName := Some(config[key])];
      }
      remaining := remaining - {key};
      done := done + {key};
    }
    assert done == config.Keys;
  }

  /** The options after one more key of the forEach loop. */
  lemma MergeStep(base: Options, config: Config, done: set<string>, key: string, merged: Options)
    requires key in config && key !in done
    requires merged == base + ContextOptions(config, done)
    ensures (if IsOptionKey(key) then merged[OptionName(key) := Some(config[key])] else merged)
      == base + ContextOptions(config, done + {key})
  {
    ContextStep(config, done, key);
    if IsOptionKey(key) {
      OverlayUpdate(base, ContextOptions(config, done), OptionName(key), Some(config[key]));
    }
  }

  /** Putting one entry after an overlay is putting it into the overlaid map. */
  lemma OverlayUpdate<K, V>(base: map<K, V>, overlay: map<K, V>, k: K, v: V)
    ensures (base + overlay)[k := v] == base + overlay[k := v]
  {
  }

  /** applyContextConfiguration: detectArrays from the context, then the merged parser options if there are any. */
  method ApplyContextConfiguration(request: FileAnalysisRequest, config: Config)
    modifies request
    ensures request.Fields() == ConfiguredFields(old(request.Fields()), config)
  {
    if "detectArrays" in config {
      request.SetDetectArrays(ParseBoolean(Some(config["detectArrays"])));
    }
    var parserOptions: Options := map[];
    if request.parserOptions.Some? {
      parserOptions := request.parserOptions.value;
    }
    parserOptions := MergeContextOptions(parserOptions, config);
    if parserOptions != map[] {
      request.SetParserOptions(Some(parserOptions));
    }
  }

  /** The SDK module around one analyzer. */
  class FileSchemaAnalyzerAdapter {
    const analyzer: Analyzer.FileSchemaAnalyzer

    constructor(analyzer: Analyzer.FileSchemaAnalyzer)
      ensures this.analyzer == analyzer
    {
      this.analyzer := analyzer;
    }

    /** The constructor taking an analyzer, which rejects null. */
    static method Create(analyzer: Option<Analyzer.FileSchemaAnalyzer>) returns (r: Result<FileSchemaAnalyzerAdapter, AdapterError>)
      ensures r.Err? <==> analyzer.None?
      ensures r.Err? ==> r.error == Thrown(IllegalArgument(AnalyzerNullMessage))
      ensures r.Ok? ==> fresh(r.value) && r.value.analyzer == analyzer.value
    {
      if analyzer.None? {
        return Err(Thrown(IllegalArgument(AnalyzerNullMessage)));
      }
      var adapter := new FileSchemaAnalyzerAdapter(analyzer.value);
      r := Ok(adapter);
    }

    /** execute(input, context). */
    method Execute(input: Option<FileAnalysisRequest>, context: Option<Config>) returns (r: Result<Analyzer.SchemaGenerationResult, AdapterError>)
      modifies if input.Some? then {input.value} else {}
      ensures input.None? ==> r == Err(Thrown(IllegalArgument(InputNullMessage)))
      ensures input.Some? ==> input.value.Fields() == WithContext(old(input.value.Fields()), context)
      ensures r == ExecuteSpec(analyzer.parserFactory, analyzer.schemaGenerator,
                               if input.Some? then Some(old(input.value.Fields())) else None, context)
    {
      if input.None? {
        return Err(Thrown(IllegalArgument(InputNullMessage)));
      }
      var request := input.value;
      if context.Some? {
        ApplyContextConfiguration(request, context.value);
      }
      var outcome := analyzer.Analyze(request);
      if outcome.Ok? {
        return Ok(outcome.value);
      }
      var e := outcome.error;
      r := Err(SdkException(SdkFailurePrefix + e.message, e));
    }
  }

  // ---------------------------------------------------------------- properties

  /**
   * Every failure of a request that is not null reaches the caller as an
   * SdkException around the analyzer's exception: the branch for
   * UnsupportedOperationException can never be taken.
   */
  lemma FailuresAreSdkExceptions(factory: Analyzer.ParserFactory, gen: Analyzer.JsonSchemaGenerator, f: RequestFields, context: Option<Config>)
    requires ExecuteSpec(factory, gen, Some(f), context).Err?
    ensures var e := ExecuteSpec(factory, gen, Some(f), context).error;
      e.SdkException? && e.cause.AnalyzerException? && e.message == SdkFailurePrefix + e.cause.message
  {
  }

  /**
   * A request that is not null succeeds exactly when the analysis of the
   * request as the context configured it succeeds, with that analysis' result.
   */
  lemma ExecuteReportsAnalysis(factory: Analyzer.ParserFactory, gen: Analyzer.JsonSchemaGenerator, f: RequestFields, context: Option<Config>)
    ensures ExecuteSpec(factory, gen, Some(f), context).Ok? <==> Analyzer.AnalyzeSpec(factory, gen, WithContext(f, context)).Ok?
    ensures ExecuteSpec(factory, gen, Some(f), context).Ok? ==>
      ExecuteSpec(factory, gen, Some(f), context).value == Analyzer.AnalyzeSpec(factory, gen, WithContext(f, context)).value
    ensures context.None? ==> ExecuteSpec(factory, gen, Some(f), context) == ExecuteSpec(factory, gen, Some(f), Some(map[]))
  {
    if context.None? {
      EmptyContextChangesNothing(f);
    }
  }

  /** A parserOptions. setting of the context is the value the parser reads for that option. */
  lemma ContextOptionReachesParser(f: RequestFields, config: Config, option: string)
    requires OptionPrefix + option in config
    ensures GetParserOption(ConfiguredFields(f, config), option) == Some(config[OptionPrefix + option])
  {
    var key := OptionPrefix + option;
    assert key[..|OptionPrefix|] == OptionPrefix;
    assert key[|OptionPrefix|..] == option;
    var options := ContextOptions(config, config.Keys);
    assert options[option] == Some(config[key]);
    var merged := f.parserOptions.GetOr(map[]) + options;
    assert merged[option] == Some(config[key]);
    assert ConfiguredFields(f, config).parserOptions == Some(merged);
  }

  /** An option the context does not set reads as it did before. */
  lemma OtherOptionsKept(f: RequestFields, config: Config, option: string)
    requires OptionPrefix + option !in config
    ensures GetParserOption(ConfiguredFields(f, config), option) == GetParserOption(f, option)
  {
  }

  /** The context's detectArrays setting decides array detection through Boolean.parseBoolean; without it the request keeps its own. */
  lemma ContextDetectArrays(f: RequestFields, config: Config)
    ensures "detectArrays" in config ==> ConfiguredFields(f, config).detectArrays == (ToLower(config["detectArrays"]) == "true")
    ensures "detectArrays" !in config ==> ConfiguredFields(f, config).detectArrays == f.detectArrays
  {
  }

  /** An empty context configuration leaves the request as it is. */
  lemma EmptyContextChangesNothing(f: RequestFields)
    ensures ConfiguredFields(f, map[]) == f
  {
    var none: Config := map[];
    assert ContextOptions(none, none.Keys) == map[];
    var g := ConfiguredFields(f, none);
    assert "detectArrays" !in none;
    assert g.detectArrays == f.detectArrays;
    assert f.parserOptions.GetOr(map[]) + map[] == f.parserOptions.GetOr(map[]);
    assert g.parserOptions == f.parserOptions;
  }

  /** Applying the same context twice is the same as applying it once. */
  lemma ConfigurationIdempotent(f: RequestFields, config: Config)
    ensures ConfiguredFields(ConfiguredFields(f, config), config) == ConfiguredFields(f, config)
  {
    var once := ConfiguredFields(f, config);
    var extra := ContextOptions(config, config.Keys);
    var merged := f.parserOptions.GetOr(map[]) + extra;
    if merged != map[] {
      assert once.parserOptions == Some(merged);
      assert merged + extra == merged;
    } else {
      assert extra == map[];
      assert once.parserOptions.GetOr(map[]) + extra == once.parserOptions.GetOr(map[]);
    }
  }

  /** The configuration never changes whether the request passes validation. */
  lemma ConfigurationKeepsValidity(f: RequestFields, config: Config)
    ensures Validate(ConfiguredFields(f, config)) == Validate(f)
  {
    var g := ConfiguredFields(f, config);
    ValidateIgnoresSettings(f, g.sampleFileContents, g.detectArrays, g.parserOptions, g.typeOverrides);
  }
}
