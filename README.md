# File schema analyzer: a verified model of the CSV core

The file schema analyzer reads a delimited text file and emits a JSON Schema
describing one record. This project models that core in Dafny and proves
properties of the model. The pipeline has four parts:

- **The CSV parser.** It turns the rows left after the reader skipped `skipLines` lines into a structure tree: a root array named after the schema, one `item` object under it, and one leaf per column, typed by folding type inference over a bounded sample of non-blank cells. It also merges several such trees in first-seen column order.
- **Two generators that turn a tree into a schema map.**
  - The segmented BeanIO generator splits column names at their first dot into segment and field, numbers fields with `x-position`, and computes `required` lists.
  - The flat Header/Record jsonschema2pojo generator camel-cases and numbers column names and shares one property map between `Header` and `Record`.
- **The analyzer.** It validates the request, selects a parser, parses the main file, fuses sample files, generates and checks the schema, and records tree statistics (element, attribute and array counts, and the dotted paths of array nodes). An `AnalyzerException` from any step ends the analysis unchanged; anything else becomes `ANALYSIS_ERROR`.
- **The SDK adapter.** It overlays the context's `parserOptions.*` settings and its `detectArrays` flag onto the request, runs the analysis, and wraps failures in `SdkException`.

The request object (`FileAnalysisRequest`) is a Dafny class. Its setters and its `Builder` are methods that state the whole new state. Objects the source fills in place become methods with loops: maps, lists, counters, `StringBuilder`s. Each such method is proved equal to a specification function. The lemmas then state the source's promises about those functions.

Java's `LinkedHashMap` is modelled as a sequence of key/value pairs with distinct keys (`OrderedMap.OMap`). `put` on a present key replaces the value in its slot. `null` is `Option.None`. Collaborators whose code is not part of this model are parameters:

- the CSV reader;
- `TypeInferenceUtil.inferType`/`mergeTypes`;
- the `ParserFactory`;
- the non-CSV parsers;
- the `JsonSchemaGenerator` and its `validateSchema`.

Every property about type inference holds for all such functions; no type lattice is assumed.

Files:

- `wrappers.dfy`: `Option`, `Result`, `Outcome`.
- `text.dfy`: ASCII case mapping, `isBlank`, `Integer.parseInt`/`Integer.toString`, splitting and joining.
- `ordered_map.dfy`: the insertion-ordered map.
- `model.dfy`: `Node` (StructureElement), `FileType`, exceptions, `Inference`.
- `json.dfy`: JSON values.
- `request.dfy`: `FileAnalysisRequest` and its `Builder`.
- `csv_parser.dfy` and `csv_parser_properties.dfy`: the CSV parser.
- `beanio_generator.dfy` and `pojo_generator.dfy`: the generators.
- `analyzer.dfy`: the analyzer.
- `adapter.dfy`: the adapter.

## Model

| member | source | states |
|---|---|---|
| Request.Validate | analyzer-core/src/main/java/com/datasabai/services/schemaanalyzer/core/model/FileAnalysisRequest.java:80-90 | fails exactly when the request is not valid; the first missing item is reported: a null file type, then no text and no bytes, then a null or blank schema name, each with its own IllegalArgumentException message |
| Request.GetParserOption | analyzer-core/src/main/java/com/datasabai/services/schemaanalyzer/core/model/FileAnalysisRequest.java:216-218 | a value exactly when the options map is non-null and holds a non-null value for the key, and then that value |
| Request.GetParserOptionOr | analyzer-core/src/main/java/com/datasabai/services/schemaanalyzer/core/model/FileAnalysisRequest.java:227-230 | the stored value when the map is non-null and holds a non-null value for the key, the default in every other case |
| Request.ValidateIgnoresSettings | analyzer-core/src/main/java/com/datasabai/services/schemaanalyzer/core/model/FileAnalysisRequest.java:80-90 | validation never depends on samples, detectArrays, parser options or type overrides |
| Request.EmptyContentBreaksValidation | analyzer-core/src/main/java/com/datasabai/services/schemaanalyzer/core/model/FileAnalysisRequest.java:80-90 | a valid request without bytes fails validation with the missing-content message once its content is set to "" |
| Request.FileAnalysisRequest.constructor | analyzer-core/src/main/java/com/datasabai/services/schemaanalyzer/core/model/FileAnalysisRequest.java:61-66 | a new request has empty samples, detectArrays on, empty parser options and empty type overrides, and every other field null |
| Request.FileAnalysisRequest.SetFileType | analyzer-core/src/main/java/com/datasabai/services/schemaanalyzer/core/model/FileAnalysisRequest.java:103-105 | only the file type changes |
| Request.FileAnalysisRequest.SetFileContent | analyzer-core/src/main/java/com/datasabai/services/schemaanalyzer/core/model/FileAnalysisRequest.java:116-118 | only the content changes |
| Request.FileAnalysisRequest.SetFileBytes | analyzer-core/src/main/java/com/datasabai/services/schemaanalyzer/core/model/FileAnalysisRequest.java:129-131 | only the bytes change |
| Request.FileAnalysisRequest.SetSchemaName | analyzer-core/src/main/java/com/datasabai/services/schemaanalyzer/core/model/FileAnalysisRequest.java:142-144 | only the schema name changes |
| Request.FileAnalysisRequest.SetDetectArrays | analyzer-core/src/main/java/com/datasabai/services/schemaanalyzer/core/model/FileAnalysisRequest.java:168-170 | only detectArrays changes |
| Request.FileAnalysisRequest.SetSampleFileContents | analyzer-core/src/main/java/com/datasabai/services/schemaanalyzer/core/model/FileAnalysisRequest.java:155-157 | the samples become the given list, or a new empty list for null; nothing else changes |
| Request.FileAnalysisRequest.SetParserOptions | analyzer-core/src/main/java/com/datasabai/services/schemaanalyzer/core/model/FileAnalysisRequest.java:189-191 | the options become the given map, or a new empty map for null; nothing else changes |
| Request.FileAnalysisRequest.SetTypeOverrides | analyzer-core/src/main/java/com/datasabai/services/schemaanalyzer/core/model/FileAnalysisRequest.java:206-208 | the overrides become the given map, or a new empty map for null; nothing else changes |
| Request.Builder.constructor | analyzer-core/src/main/java/com/datasabai/services/schemaanalyzer/core/model/FileAnalysisRequest.java:236-238 | the builder holds a fresh request in its initial state |
| Request.Builder.WithFileType | analyzer-core/src/main/java/com/datasabai/services/schemaanalyzer/core/model/FileAnalysisRequest.java:240-243 | only the file type of the request being built changes |
| Request.Builder.WithFileContent | analyzer-core/src/main/java/com/datasabai/services/schemaanalyzer/core/model/FileAnalysisRequest.java:245-248 | only the content changes |
| Request.Builder.WithFileBytes | analyzer-core/src/main/java/com/datasabai/services/schemaanalyzer/core/model/FileAnalysisRequest.java:250-253 | only the bytes change |
| Request.Builder.WithSchemaName | analyzer-core/src/main/java/com/datasabai/services/schemaanalyzer/core/model/FileAnalysisRequest.java:255-258 | only the schema name changes |
| Request.Builder.WithSampleFileContents | analyzer-core/src/main/java/com/datasabai/services/schemaanalyzer/core/model/FileAnalysisRequest.java:260-263 | the samples are set as given, null kept as null |
| Request.Builder.AddSampleFile | analyzer-core/src/main/java/com/datasabai/services/schemaanalyzer/core/model/FileAnalysisRequest.java:265-271 | the list is created when null and exactly the one sample is appended; nothing else changes |
| Request.Builder.WithDetectArrays | analyzer-core/src/main/java/com/datasabai/services/schemaanalyzer/core/model/FileAnalysisRequest.java:273-276 | only detectArrays changes |
| Request.Builder.WithParserOptions | analyzer-core/src/main/java/com/datasabai/services/schemaanalyzer/core/model/FileAnalysisRequest.java:278-281 | the options are set as given, null kept as null |
| Request.Builder.ParserOption | analyzer-core/src/main/java/com/datasabai/services/schemaanalyzer/core/model/FileAnalysisRequest.java:283-289 | the map is created when null and exactly that key is put; every other option is unchanged |
| Request.Builder.WithTypeOverrides | analyzer-core/src/main/java/com/datasabai/services/schemaanalyzer/core/model/FileAnalysisRequest.java:291-294 | the overrides are set as given, null kept as null |
| Request.Builder.TypeOverride | analyzer-core/src/main/java/com/datasabai/services/schemaanalyzer/core/model/FileAnalysisRequest.java:296-302 | the map is created when null and exactly that path is put; every other override is unchanged |
| Request.Builder.Build | analyzer-core/src/main/java/com/datasabai/services/schemaanalyzer/core/model/FileAnalysisRequest.java:304-307 | returns the request it filled exactly when that request is valid, else validate()'s exception |
| CsvParser.RemoveBom | analyzer-core/src/main/java/com/datasabai/services/schemaanalyzer/core/parser/CsvFileParser.java:203-209 | the content minus one leading U+FEFF, or the content itself when it does not start with one |
| CsvParser.ReadOptions | analyzer-core/src/main/java/com/datasabai/services/schemaanalyzer/core/parser/CsvFileParser.java:97-102 | fails exactly when skipLines or sampleRows (after defaults) is not a decimal int, and then with INVALID_OPTION |
| CsvParser.AvailableOptions | analyzer-core/src/main/java/com/datasabai/services/schemaanalyzer/core/parser/CsvFileParser.java:350-360 | the option keys are exactly those parse() reads plus encoding |
| CsvParser.GenerateColumnNames | analyzer-core/src/main/java/com/datasabai/services/schemaanalyzer/core/parser/CsvFileParser.java:137-141 | the names column1 .. columnN |
| CsvParser.NewColumnValues | analyzer-core/src/main/java/com/datasabai/services/schemaanalyzer/core/parser/CsvFileParser.java:154-157 | one entry per distinct header, in first-seen order, each an empty list |
| CsvParser.AppendValue | analyzer-core/src/main/java/com/datasabai/services/schemaanalyzer/core/parser/CsvFileParser.java:165 | the value is appended to the list of that key only; the keys are unchanged |
| CsvParser.AddRowSamples | analyzer-core/src/main/java/com/datasabai/services/schemaanalyzer/core/parser/CsvFileParser.java:162-167 | each non-blank cell of the row, up to min(headers, row length), is appended to the list of its header |
| CsvParser.CollectSamples | analyzer-core/src/main/java/com/datasabai/services/schemaanalyzer/core/parser/CsvFileParser.java:148-168 | each header's list holds the non-blank cells under that header in the sampled rows, in row order; the sampled rows are the first min(sampleRows, data rows) data rows |
| CsvParser.InferColumnType | analyzer-core/src/main/java/com/datasabai/services/schemaanalyzer/core/parser/CsvFileParser.java:217-236 | equals the left fold of mergeTypes over inferType of the samples, stopped at the first "string"; "null" for no samples |
| CsvParser.InferColumnTypes | analyzer-core/src/main/java/com/datasabai/services/schemaanalyzer/core/parser/CsvFileParser.java:171-177 | each header's type is inferColumnType of its sample list |
| CsvParser.BuildStructure | analyzer-core/src/main/java/com/datasabai/services/schemaanalyzer/core/parser/CsvFileParser.java:247-275 | a root named after the schema, of type array and an array, with one child item of type object whose children are the headers, in order, with their inferred types |
| CsvParser.Parse | analyzer-core/src/main/java/com/datasabai/services/schemaanalyzer/core/parser/CsvFileParser.java:84-194 | equals the parse specification: blank content is INVALID_CSV "No file content provided"; a bad numeric option is that INVALID_OPTION; on success the root is named after the schema and is an array with one child |
| CsvParser.BuildTree | analyzer-core/src/main/java/com/datasabai/services/schemaanalyzer/core/parser/CsvFileParser.java:129-180 | the tree of the headers (the first row or generated names) and the types of the sampled columns |
| CsvParser.SampleColumnTypes | analyzer-core/src/main/java/com/datasabai/services/schemaanalyzer/core/parser/CsvFileParser.java:154-177 | each header's type is the inferred type of that header's samples in the sampled rows |
| CsvParser.MergeItemColumns | analyzer-core/src/main/java/com/datasabai/services/schemaanalyzer/core/parser/CsvFileParser.java:307-320 | allColumns after one tree is the entry-by-entry merge of that tree's item columns |
| CsvParser.ColumnElements | analyzer-core/src/main/java/com/datasabai/services/schemaanalyzer/core/parser/CsvFileParser.java:330-336 | one column element per allColumns entry, in order, with its type |
| CsvParser.MergeStructures | analyzer-core/src/main/java/com/datasabai/services/schemaanalyzer/core/parser/CsvFileParser.java:278-347 | equals the merge specification: a null or empty list is MERGE_ERROR, and exactly then; a single tree is returned as it is |
| Analyzer.MergeWith | analyzer-core/src/main/java/com/datasabai/services/schemaanalyzer/core/parser/CsvFileParser.java:277-347 | for CSV: an empty list is MERGE_ERROR, one structure is returned as it is, a null tree among several is MERGE_ERROR, and several non-null trees merge to a non-null tree exactly when none is null; another parser's merge is used as it is |
| CsvParserProperties.ReadOptionsOfOptions | analyzer-core/src/main/java/com/datasabai/services/schemaanalyzer/core/parser/CsvFileParser.java:97-102 | the options read depend on the parser options alone |
| CsvParserProperties.BomIsTransparent | analyzer-core/src/main/java/com/datasabai/services/schemaanalyzer/core/parser/CsvFileParser.java:88-94 | content with one BOM in front parses exactly like the content without it |
| CsvParserProperties.RemoveBomRemovesOne | analyzer-core/src/main/java/com/datasabai/services/schemaanalyzer/core/parser/CsvFileParser.java:203-209 | only one BOM is removed: a second one stays |
| CsvParserProperties.CanParseAgreesWithParse | analyzer-core/src/main/java/com/datasabai/services/schemaanalyzer/core/parser/CsvFileParser.java:74-91 | canParse accepts a CSV request exactly when parse does not reject its content as missing |
| CsvParser.CanParse | analyzer-core/src/main/java/com/datasabai/services/schemaanalyzer/core/parser/CsvFileParser.java:74-81 | a request it accepts has content that validate() accepts; a valid CSV request it declines carries its content only as bytes |
| CsvParserProperties.ReaderOutcome | analyzer-core/src/main/java/com/datasabai/services/schemaanalyzer/core/parser/CsvFileParser.java:121-126 | with the options read, no records from the reader is EMPTY_CSV, a reader failure is PARSE_ERROR with its message, and a tree comes only from a non-empty list of records |
| CsvParserProperties.EmptyDialectOption | analyzer-core/src/main/java/com/datasabai/services/schemaanalyzer/core/parser/CsvFileParser.java:108-112 | an empty delimiter, quote or escape option ends in PARSE_ERROR with the charAt message |
| CsvParserProperties.DefaultsWithoutOptions | analyzer-core/src/main/java/com/datasabai/services/schemaanalyzer/core/parser/CsvFileParser.java:97-102 | without options (null or empty) the defaults are used: comma, header row, double quote, backslash, skip 0, sample 100 |
| CsvParserProperties.InvalidSkipLines | analyzer-core/src/main/java/com/datasabai/services/schemaanalyzer/core/parser/CsvFileParser.java:101-189 | a non-numeric skipLines is INVALID_OPTION with "Invalid numeric option value: For input string: ..." |
| CsvParserProperties.InvalidSampleRows | analyzer-core/src/main/java/com/datasabai/services/schemaanalyzer/core/parser/CsvFileParser.java:101-189 | with skipLines parsed, a non-numeric sampleRows is INVALID_OPTION with "Invalid numeric option value: For input string: ..." for that value |
| CsvParserProperties.OptionsReadAreAvailable | analyzer-core/src/main/java/com/datasabai/services/schemaanalyzer/core/parser/CsvFileParser.java:350-360 | every option parse() reads is listed by getAvailableOptions, which adds only encoding |
| CsvParserProperties.GeneratedNamesDistinct | analyzer-core/src/main/java/com/datasabai/services/schemaanalyzer/core/parser/CsvFileParser.java:137-141 | the generated names are n distinct names, the i-th being column(i+1) |
| CsvParserProperties.HeaderlessColumns | analyzer-core/src/main/java/com/datasabai/services/schemaanalyzer/core/parser/CsvFileParser.java:132-143 | without a header the columns are column1..columnN, N the length of the first row |
| CsvParserProperties.SamplesAreNonBlankCells | analyzer-core/src/main/java/com/datasabai/services/schemaanalyzer/core/parser/CsvFileParser.java:160-168 | every sample of a header is a non-blank cell of a sampled row under a header of that name, within both the headers and the row |
| CsvParserProperties.RowSamplesAreCells | analyzer-core/src/main/java/com/datasabai/services/schemaanalyzer/core/parser/CsvFileParser.java:162-167 | every sample one row adds is a non-blank cell under that header |
| CsvParserProperties.NoSamplesWithoutSampleRows | analyzer-core/src/main/java/com/datasabai/services/schemaanalyzer/core/parser/CsvFileParser.java:148-168 | with sampleRows at most 0 every column is "null" |
| CsvParserProperties.LaterRowsIgnored | analyzer-core/src/main/java/com/datasabai/services/schemaanalyzer/core/parser/CsvFileParser.java:148-160 | rows past the first sampleRows data rows never change the tree |
| CsvParserProperties.FoldStaysString | analyzer-core/src/main/java/com/datasabai/services/schemaanalyzer/core/parser/CsvFileParser.java:229-232 | if mergeTypes("string", x) is "string", the fold stays "string" |
| CsvParserProperties.EarlyExitHarmless | analyzer-core/src/main/java/com/datasabai/services/schemaanalyzer/core/parser/CsvFileParser.java:224-233 | if mergeTypes("string", x) is "string", the early exit gives the plain left fold |
| CsvParserProperties.WidenIsFoldUnlessString | analyzer-core/src/main/java/com/datasabai/services/schemaanalyzer/core/parser/CsvFileParser.java:224-233 | for any mergeTypes, a result other than "string" is the plain left fold |
| CsvParserProperties.InferredTypeOfFewSamples | analyzer-core/src/main/java/com/datasabai/services/schemaanalyzer/core/parser/CsvFileParser.java:217-236 | no samples give "null"; one sample gives its inferred type |
| CsvParserProperties.ParsedTreeShape | analyzer-core/src/main/java/com/datasabai/services/schemaanalyzer/core/parser/CsvFileParser.java:247-275 | root named after the schema, array; one child item of type object; one leaf per header, in header order |
| CsvParserProperties.MergedColumnsInFirstSeenOrder | analyzer-core/src/main/java/com/datasabai/services/schemaanalyzer/core/parser/CsvFileParser.java:301-322 | the merged columns are the distinct column names in first-seen order |
| CsvParserProperties.MergeIntoIsMergeAll | analyzer-core/src/main/java/com/datasabai/services/schemaanalyzer/core/parser/CsvFileParser.java:307-320 | the column merge is the generic ordered-map merge with mergeTypes |
| CsvParserProperties.OccurrencesOfKeys | analyzer-core/src/main/java/com/datasabai/services/schemaanalyzer/core/parser/CsvFileParser.java:307-320 | a column name is merged exactly when it occurs in some tree |
| CsvParserProperties.MergedTypeIsFold | analyzer-core/src/main/java/com/datasabai/services/schemaanalyzer/core/parser/CsvFileParser.java:307-320 | each merged column's type is the left fold of mergeTypes over its types, in order of occurrence |
| CsvParserProperties.ColumnEntriesAppend | analyzer-core/src/main/java/com/datasabai/services/schemaanalyzer/core/parser/CsvFileParser.java:301-322 | the columns of two lists of trees are those of the first, then of the second |
| CsvParserProperties.ChildlessTreeAddsNoEntries | analyzer-core/src/main/java/com/datasabai/services/schemaanalyzer/core/parser/CsvFileParser.java:303-305 | a childless tree adds no columns wherever it stands |
| CsvParserProperties.ChildlessTreesSkipped | analyzer-core/src/main/java/com/datasabai/services/schemaanalyzer/core/parser/CsvFileParser.java:291-341 | a childless tree anywhere after the first leaves a merge of two or more trees unchanged |
| CsvParserProperties.MergeDistinctEntries | analyzer-core/src/main/java/com/datasabai/services/schemaanalyzer/core/parser/CsvFileParser.java:307-320 | merging columns with distinct names just collects them |
| CsvParserProperties.MergeKnownEntries | analyzer-core/src/main/java/com/datasabai/services/schemaanalyzer/core/parser/CsvFileParser.java:307-320 | merging columns already present with a mergeTypes that keeps equal types changes nothing |
| CsvParserProperties.MergeIsIdempotent | analyzer-core/src/main/java/com/datasabai/services/schemaanalyzer/core/parser/CsvFileParser.java:278-347 | merging a CSV tree with distinct column names with itself gives it back when mergeTypes(t, t) = t |
| BeanIOGenerator.SplitColumnJoins | analyzer-core/src/main/java/com/datasabai/services/schemaanalyzer/core/generator/BeanIOJsonSchemaGenerator.java:225-233 | a dotted name is its dot-free segment, ".", its field; a name without a dot goes to GENERAL |
| BeanIOGenerator.SplitColumnOfJoin | analyzer-core/src/main/java/com/datasabai/services/schemaanalyzer/core/generator/BeanIOJsonSchemaGenerator.java:225-233 | splitting segment + "." + field gives back the segment and the field, whatever dots the field holds |
| BeanIOGenerator.GroupFieldsBySegment | analyzer-core/src/main/java/com/datasabai/services/schemaanalyzer/core/generator/BeanIOJsonSchemaGenerator.java:216-247 | the grouping loop yields the grouped specification of the item's columns |
| BeanIOGenerator.AddField | analyzer-core/src/main/java/com/datasabai/services/schemaanalyzer/core/generator/BeanIOJsonSchemaGenerator.java:219-243 | one column: its segment created when absent, its field put with its original name and type |
| BeanIOGenerator.ComputeIfAbsentThenPut | analyzer-core/src/main/java/com/datasabai/services/schemaanalyzer/core/generator/BeanIOJsonSchemaGenerator.java:236-243 | computeIfAbsent followed by get().put() is one grouping step |
| BeanIOGenerator.GroupedWellFormed | analyzer-core/src/main/java/com/datasabai/services/schemaanalyzer/core/generator/BeanIOJsonSchemaGenerator.java:216-247 | one entry per segment and one per field within a segment |
| BeanIOGenerator.GroupedSegmentOrder | analyzer-core/src/main/java/com/datasabai/services/schemaanalyzer/core/generator/BeanIOJsonSchemaGenerator.java:217-236 | segments appear in order of their first column |
| BeanIOGenerator.GroupedLookup | analyzer-core/src/main/java/com/datasabai/services/schemaanalyzer/core/generator/BeanIOJsonSchemaGenerator.java:243 | a repeated (segment, field) key holds the FieldInfo of its last column |
| BeanIOGenerator.BuildSegmentFields | analyzer-core/src/main/java/com/datasabai/services/schemaanalyzer/core/generator/BeanIOJsonSchemaGenerator.java:137-157 | one property per field in order, each with its x-position; the required list; the counter advanced by the field count |
| BeanIOGenerator.BuildSegment | analyzer-core/src/main/java/com/datasabai/services/schemaanalyzer/core/generator/BeanIOJsonSchemaGenerator.java:129-162 | the segment schema: object, description, x-segment, properties, required when non-empty |
| BeanIOGenerator.BuildProperties | analyzer-core/src/main/java/com/datasabai/services/schemaanalyzer/core/generator/BeanIOJsonSchemaGenerator.java:124-165 | one property per segment in order; the final counter equals the total number of grouped fields |
| BeanIOGenerator.CollectRequiredSegments | analyzer-core/src/main/java/com/datasabai/services/schemaanalyzer/core/generator/BeanIOJsonSchemaGenerator.java:170-177 | the required-segments list |
| BeanIOGenerator.CamelParts | analyzer-core/src/main/java/com/datasabai/services/schemaanalyzer/core/generator/BeanIOJsonSchemaGenerator.java:258-271 | fails exactly when a part after the first is empty, with charAt's StringIndexOutOfBounds |
| BeanIOGenerator.RecordName | analyzer-core/src/main/java/com/datasabai/services/schemaanalyzer/core/generator/BeanIOJsonSchemaGenerator.java:252-255 | "record" for a null or empty schema name |
| BeanIOGenerator.ToRecordName | analyzer-core/src/main/java/com/datasabai/services/schemaanalyzer/core/generator/BeanIOJsonSchemaGenerator.java:252-274 | the StringBuilder loop equals the record-name specification |
| BeanIOGenerator.GenerateSchema | analyzer-core/src/main/java/com/datasabai/services/schemaanalyzer/core/generator/BeanIOJsonSchemaGenerator.java:79-186 | a null root is GENERATION_ERROR; otherwise, with a record name and a file type, it fails exactly when the root has no children or its first child is not an object |
| BeanIOGenerator.PositionIsFlatIndex | analyzer-core/src/main/java/com/datasabai/services/schemaanalyzer/core/generator/BeanIOJsonSchemaGenerator.java:124-157 | field k of segment s has x-position equal to its index in the grouped field list |
| BeanIOGenerator.FlattenIsLookup | analyzer-core/src/main/java/com/datasabai/services/schemaanalyzer/core/generator/BeanIOJsonSchemaGenerator.java:124-157 | the grouped field list holds exactly the (segment, field, info) triples the grouping stores |
| BeanIOGenerator.GroupedFields | analyzer-core/src/main/java/com/datasabai/services/schemaanalyzer/core/generator/BeanIOJsonSchemaGenerator.java:216-247 | a field in the schema exactly when its key's last column has that name and type, so x-csv-column and the description name the original column |
| BeanIOGenerator.LastInfoExists | analyzer-core/src/main/java/com/datasabai/services/schemaanalyzer/core/generator/BeanIOJsonSchemaGenerator.java:216-247 | a key has a field exactly when some column has that key, and the field comes from such a column |
| BeanIOGenerator.FlatKeysDistinct | analyzer-core/src/main/java/com/datasabai/services/schemaanalyzer/core/generator/BeanIOJsonSchemaGenerator.java:124-157 | no (segment, field) key appears twice, so the positions 0..N-1 are each used once |
| BeanIOGenerator.RequiredFieldsAgree | analyzer-core/src/main/java/com/datasabai/services/schemaanalyzer/core/generator/BeanIOJsonSchemaGenerator.java:151-154 | a name is in a segment's required list exactly when one of its fields with that name is not typed "null" |
| BeanIOGenerator.RequiredFieldsNonEmpty | analyzer-core/src/main/java/com/datasabai/services/schemaanalyzer/core/generator/BeanIOJsonSchemaGenerator.java:160-173 | a segment has a non-"null" field exactly when its required list is non-empty |
| BeanIOGenerator.RequiredSegmentsAgree | analyzer-core/src/main/java/com/datasabai/services/schemaanalyzer/core/generator/BeanIOJsonSchemaGenerator.java:170-180 | a segment is required exactly when one of its fields is not typed "null" |
| BeanIOGenerator.RecordNameHasNoUnderscore | analyzer-core/src/main/java/com/datasabai/services/schemaanalyzer/core/generator/BeanIOJsonSchemaGenerator.java:258-271 | a record name never contains "_" |
| BeanIOGenerator.RecordNameOfSinglePart | analyzer-core/src/main/java/com/datasabai/services/schemaanalyzer/core/generator/BeanIOJsonSchemaGenerator.java:258-264 | a name without "_" is lower-cased |
| BeanIOGenerator.RecordNameOfTwoParts | analyzer-core/src/main/java/com/datasabai/services/schemaanalyzer/core/generator/BeanIOJsonSchemaGenerator.java:258-271 | a_b becomes lower(a) followed by b lower-cased with its first letter upper-cased |
| BeanIOGenerator.RecordNameExample | analyzer-core/src/main/java/com/datasabai/services/schemaanalyzer/core/generator/BeanIOJsonSchemaGenerator.java:257-271 | ORDER_DOCUMENT becomes orderDocument |
| BeanIOGenerator.RecordNameOfDoubleUnderscore | analyzer-core/src/main/java/com/datasabai/services/schemaanalyzer/core/generator/BeanIOJsonSchemaGenerator.java:266 | A__B fails at charAt(0) on the empty middle part |
| BeanIOGenerator.GenerationErrors | analyzer-core/src/main/java/com/datasabai/services/schemaanalyzer/core/generator/BeanIOJsonSchemaGenerator.java:81-118 | a null root, a childless root and a non-object item each raise their GENERATION_ERROR; an object item succeeds |
| BeanIOGenerator.ConfigEchoesOptions | analyzer-core/src/main/java/com/datasabai/services/schemaanalyzer/core/generator/BeanIOJsonSchemaGenerator.java:95-101 | x-beanio-config echoes the delimiter and quoteChar options, defaulting to "," and the double quote, with format csv and strict true |
| PojoGenerator.Normalize | analyzer-core/src/main/java/com/datasabai/services/schemaanalyzer/core/generator/JsonSchema2PojoGenerator.java:168 | same length; every character is a letter, digit or "_"; word characters kept and every other one replaced |
| PojoGenerator.ToCamelCase | analyzer-core/src/main/java/com/datasabai/services/schemaanalyzer/core/generator/JsonSchema2PojoGenerator.java:185-203 | the loop equals the camel-case specification: split on runs of "_"/whitespace, the first part lowercased, later non-empty parts capitalised |
| PojoGenerator.AppendParts | analyzer-core/src/main/java/com/datasabai/services/schemaanalyzer/core/generator/JsonSchema2PojoGenerator.java:190-201 | the StringBuilder loop yields the camel form of the parts |
| PojoGenerator.AppendPart | analyzer-core/src/main/java/com/datasabai/services/schemaanalyzer/core/generator/JsonSchema2PojoGenerator.java:192-200 | the first part as it is, a later one capitalised |
| PojoGenerator.ColumnNameToCamelCase | analyzer-core/src/main/java/com/datasabai/services/schemaanalyzer/core/generator/JsonSchema2PojoGenerator.java:167-170 | equals the camel name of the column |
| PojoGenerator.CamelNameIsAlphanumeric | analyzer-core/src/main/java/com/datasabai/services/schemaanalyzer/core/generator/JsonSchema2PojoGenerator.java:167-203 | a camel name holds only ASCII letters and digits |
| PojoGenerator.CamelNameOfWordParts | analyzer-core/src/main/java/com/datasabai/services/schemaanalyzer/core/generator/JsonSchema2PojoGenerator.java:167-203 | a name normalising to word parts joined by "_" becomes the camel form of those parts |
| PojoGenerator.CamelNameExample | analyzer-core/src/main/java/com/datasabai/services/schemaanalyzer/core/generator/JsonSchema2PojoGenerator.java:167-170 | EXPENSE.TYPE_TOWN/CITY becomes expenseTypeTownCity |
| PojoGenerator.MapJsonSchemaType | analyzer-core/src/main/java/com/datasabai/services/schemaanalyzer/core/generator/JsonSchema2PojoGenerator.java:172-183 | integer, number and boolean pass through; null, "null" and anything else map to string |
| PojoGenerator.BuildFlatProperties | analyzer-core/src/main/java/com/datasabai/services/schemaanalyzer/core/generator/JsonSchema2PojoGenerator.java:121-141 | the loop with its counters yields the ordered map of the numbered column definitions |
| PojoGenerator.SameBaseNamesNumbered | analyzer-core/src/main/java/com/datasabai/services/schemaanalyzer/core/generator/JsonSchema2PojoGenerator.java:127-131 | the k-th column with base b is b for k = 1 and b followed by k otherwise, so columns sharing a base get different names |
| PojoGenerator.PropertyCount | analyzer-core/src/main/java/com/datasabai/services/schemaanalyzer/core/generator/JsonSchema2PojoGenerator.java:122-137 | at most one property per column, and exactly one per column exactly when the generated names are distinct |
| PojoGenerator.LastColumnWins | analyzer-core/src/main/java/com/datasabai/services/schemaanalyzer/core/generator/JsonSchema2PojoGenerator.java:137 | each property holds the definition of the last column with that name, in first-seen order |
| PojoGenerator.NumberedNameCanClash | analyzer-core/src/main/java/com/datasabai/services/schemaanalyzer/core/generator/JsonSchema2PojoGenerator.java:129-131 | columns a2, a, a yield the name a2 twice, so one property is lost |
| PojoGenerator.GenerateSchema | analyzer-core/src/main/java/com/datasabai/services/schemaanalyzer/core/generator/JsonSchema2PojoGenerator.java:53-115 | fails exactly for a null root, a childless root or a non-object item, always with GENERATION_ERROR |
| PojoGenerator.DocumentKeys | analyzer-core/src/main/java/com/datasabai/services/schemaanalyzer/core/generator/JsonSchema2PojoGenerator.java:75-111 | top-level keys exactly $schema, title, type, properties, $defs, in that order |
| PojoGenerator.DocumentRootProperties | analyzer-core/src/main/java/com/datasabai/services/schemaanalyzer/core/generator/JsonSchema2PojoGenerator.java:80-94 | properties is exactly header, a $ref to #/$defs/Header, and records, an array of $ref #/$defs/Record |
| PojoGenerator.DocumentDefinitions | analyzer-core/src/main/java/com/datasabai/services/schemaanalyzer/core/generator/JsonSchema2PojoGenerator.java:96-111 | Header and Record are objects over the same properties, differing only in title |
| PojoGenerator.GeneratedDefinitions | analyzer-core/src/main/java/com/datasabai/services/schemaanalyzer/core/generator/JsonSchema2PojoGenerator.java:72-111 | a generated document's Header and Record both hold the flat properties of the item's columns |
| Analyzer.ValidateRequest | analyzer-core/src/main/java/com/datasabai/services/schemaanalyzer/core/FileSchemaAnalyzer.java:194-212 | passes exactly for a valid request; otherwise VALIDATION_ERROR with validate()'s message, never the unreachable file-type message |
| Analyzer.SelectParser | analyzer-core/src/main/java/com/datasabai/services/schemaanalyzer/core/FileSchemaAnalyzer.java:217-242 | yields the factory's parser exactly when the factory knows the type and the parser accepts the request; an unknown type is PARSER_NOT_FOUND with the factory's message; every failure is PARSER_NOT_FOUND or PARSER_ERROR for the request's type |
| Analyzer.ParseMainFile | analyzer-core/src/main/java/com/datasabai/services/schemaanalyzer/core/FileSchemaAnalyzer.java:247-263 | yields a tree exactly when the parser returns a non-null one, and that tree; the parser's exceptions pass through; a null tree is PARSE_ERROR |
| Analyzer.Wrap | analyzer-core/src/main/java/com/datasabai/services/schemaanalyzer/core/FileSchemaAnalyzer.java:138-149 | an AnalyzerException is rethrown unchanged; anything else becomes ANALYSIS_ERROR "Analysis failed: " + message |
| Analyzer.AnalyzeSpec | analyzer-core/src/main/java/com/datasabai/services/schemaanalyzer/core/FileSchemaAnalyzer.java:98-150 | every failure is an AnalyzerException; a success carries the request's schema name and file type |
| Analyzer.FileSchemaAnalyzer.constructor | analyzer-core/src/main/java/com/datasabai/services/schemaanalyzer/core/FileSchemaAnalyzer.java:79-85 | keeps the factory and the generator it is given |
| Analyzer.FileSchemaAnalyzer.FuseSamples | analyzer-core/src/main/java/com/datasabai/services/schemaanalyzer/core/FileSchemaAnalyzer.java:268-306 | equals the fusion specification: the main tree, each parsed sample in order, then the parser's merge |
| Analyzer.FileSchemaAnalyzer.FuseSample | analyzer-core/src/main/java/com/datasabai/services/schemaanalyzer/core/FileSchemaAnalyzer.java:280-298 | one sample: the builder's exception, or the list with the sample's tree added, or unchanged when parsing throws |
| Analyzer.FileSchemaAnalyzer.BuildResult | analyzer-core/src/main/java/com/datasabai/services/schemaanalyzer/core/FileSchemaAnalyzer.java:356-402 | equals the result specification: metadata, counts and array paths of the tree |
| Analyzer.FileSchemaAnalyzer.GenerateSchema | analyzer-core/src/main/java/com/datasabai/services/schemaanalyzer/core/FileSchemaAnalyzer.java:311-335 | CSV goes to the jsonschema2pojo generator, others to the JSON Schema generator; null or empty is GENERATION_ERROR |
| Analyzer.FileSchemaAnalyzer.RunSteps | analyzer-core/src/main/java/com/datasabai/services/schemaanalyzer/core/FileSchemaAnalyzer.java:104-136 | the seven steps in order, the first failure ending the run |
| Analyzer.FileSchemaAnalyzer.Analyze | analyzer-core/src/main/java/com/datasabai/services/schemaanalyzer/core/FileSchemaAnalyzer.java:98-150 | equals the analysis specification, the catch blocks included |
| Analyzer.CountElementsIn | analyzer-core/src/main/java/com/datasabai/services/schemaanalyzer/core/FileSchemaAnalyzer.java:411-423 | 1 plus the children's counts |
| Analyzer.CountAttributesIn | analyzer-core/src/main/java/com/datasabai/services/schemaanalyzer/core/FileSchemaAnalyzer.java:425-437 | the node's attributes plus the children's counts |
| Analyzer.CountArraysIn | analyzer-core/src/main/java/com/datasabai/services/schemaanalyzer/core/FileSchemaAnalyzer.java:439-451 | the nodes marked as arrays |
| Analyzer.CollectArrayFieldsRecursive | analyzer-core/src/main/java/com/datasabai/services/schemaanalyzer/core/FileSchemaAnalyzer.java:459-479 | appends the dotted pre-order paths of the subtree's array nodes, root name first |
| Analyzer.FailureSticks | analyzer-core/src/main/java/com/datasabai/services/schemaanalyzer/core/FileSchemaAnalyzer.java:279-299 | once a sample has thrown out of the loop, later samples change nothing |
| Analyzer.SampleValidation | analyzer-core/src/main/java/com/datasabai/services/schemaanalyzer/core/FileSchemaAnalyzer.java:283-289 | a sample request passes the builder exactly when the sample has text |
| Analyzer.SampleRejection | analyzer-core/src/main/java/com/datasabai/services/schemaanalyzer/core/FileSchemaAnalyzer.java:279-299 | the fusion throws exactly when some sample is null or blank, and then with the missing-content message |
| Analyzer.UnparsableSamplesIgnored | analyzer-core/src/main/java/com/datasabai/services/schemaanalyzer/core/FileSchemaAnalyzer.java:291-298 | samples that all fail to parse leave the main tree alone |
| Analyzer.SampleStructuresShape | analyzer-core/src/main/java/com/datasabai/services/schemaanalyzer/core/FileSchemaAnalyzer.java:275-299 | with non-blank samples the main tree comes first and each sample adds at most one tree |
| Analyzer.InvalidRequestFails | analyzer-core/src/main/java/com/datasabai/services/schemaanalyzer/core/FileSchemaAnalyzer.java:201-205 | an invalid request ends with VALIDATION_ERROR and validate()'s message |
| Analyzer.UnknownTypeFails | analyzer-core/src/main/java/com/datasabai/services/schemaanalyzer/core/FileSchemaAnalyzer.java:234-241 | an unknown file type ends with PARSER_NOT_FOUND and the factory's message |
| Analyzer.ParserStageFails | analyzer-core/src/main/java/com/datasabai/services/schemaanalyzer/core/FileSchemaAnalyzer.java:223-259 | a parser that declines ends with PARSER_ERROR, a null tree with PARSE_ERROR, a parser exception through the catch blocks |
| Analyzer.CsvNeedsTextContent | analyzer-core/src/main/java/com/datasabai/services/schemaanalyzer/core/FileSchemaAnalyzer.java:223-229 | a valid CSV request with bytes only ends with PARSER_ERROR |
| Analyzer.GenerationStageFails | analyzer-core/src/main/java/com/datasabai/services/schemaanalyzer/core/FileSchemaAnalyzer.java:311-348 | a null or empty schema ends with GENERATION_ERROR, a refused schema with VALIDATION_ERROR |
| Analyzer.BlankSampleFailsAnalysis | analyzer-core/src/main/java/com/datasabai/services/schemaanalyzer/core/FileSchemaAnalyzer.java:279-299 | a blank sample ends the analysis with ANALYSIS_ERROR around the builder's message |
| Analyzer.ArrayPathsCountIn | analyzer-core/src/main/java/com/datasabai/services/schemaanalyzer/core/FileSchemaAnalyzer.java:439-479 | one array path per array node |
| Analyzer.ArraysAtMostElementsIn | analyzer-core/src/main/java/com/datasabai/services/schemaanalyzer/core/FileSchemaAnalyzer.java:411-451 | no more arrays than elements |
| Analyzer.ResultStatistics | analyzer-core/src/main/java/com/datasabai/services/schemaanalyzer/core/FileSchemaAnalyzer.java:356-402 | a result's elementsAnalyzed equals totalElements, its path count equals arrayElements, at most totalElements |
| Analyzer.BuildResultStatistics | analyzer-core/src/main/java/com/datasabai/services/schemaanalyzer/core/FileSchemaAnalyzer.java:356-402 | the same for one tree |
| Analyzer.CsvParseTree | analyzer-core/src/main/java/com/datasabai/services/schemaanalyzer/core/parser/CsvFileParser.java:247-275 | every tree the CSV parser returns is root array, item object, leaf columns |
| Analyzer.CsvTreeStatistics | analyzer-core/src/main/java/com/datasabai/services/schemaanalyzer/core/FileSchemaAnalyzer.java:411-479 | a CSV tree has 2 + columns elements, one array at the schema name's path, no attributes |
| Analyzer.CsvAnalysis | analyzer-core/src/main/java/com/datasabai/services/schemaanalyzer/core/FileSchemaAnalyzer.java:98-150 | a valid CSV request without samples yields the jsonschema2pojo document of its parsed columns with those statistics |
| Analyzer.AnalyzeWithoutSamples | analyzer-core/src/main/java/com/datasabai/services/schemaanalyzer/core/FileSchemaAnalyzer.java:104-136 | without samples, a request passing every step gets the result built from the main tree |
| Adapter.Prefixed | analyzer-sdk-adapter/src/main/java/com/datasabai/services/schemaanalyzer/adapter/FileSchemaAnalyzerAdapter.java:168-199 | advertised parser options appear under parserOptions.<name> |
| Adapter.ConfigurationSchemaKeys | analyzer-sdk-adapter/src/main/java/com/datasabai/services/schemaanalyzer/adapter/FileSchemaAnalyzerAdapter.java:168-199 | the keys are exactly detectArrays and parserOptions.<name> for each advertised option, each option with its description |
| Adapter.CsvOptionsAdvertised | analyzer-sdk-adapter/src/main/java/com/datasabai/services/schemaanalyzer/adapter/FileSchemaAnalyzerAdapter.java:168-199 | every CSV option is advertised under parserOptions. |
| Adapter.BeanIOKeyNotAdvertised | analyzer-sdk-adapter/src/main/java/com/datasabai/services/schemaanalyzer/adapter/FileSchemaAnalyzerAdapter.java:168-199 | detectArrays is advertised, optimizeForBeanIO is not |
| Adapter.ContextOptions | analyzer-sdk-adapter/src/main/java/com/datasabai/services/schemaanalyzer/adapter/FileSchemaAnalyzerAdapter.java:224-229 | each parserOptions. key puts its stripped name with its value |
| Adapter.MergeContextOptions | analyzer-sdk-adapter/src/main/java/com/datasabai/services/schemaanalyzer/adapter/FileSchemaAnalyzerAdapter.java:218-229 | the request's options overlaid with the context's stripped option keys, whatever the visiting order |
| Adapter.ApplyContextConfiguration | analyzer-sdk-adapter/src/main/java/com/datasabai/services/schemaanalyzer/adapter/FileSchemaAnalyzerAdapter.java:211-234 | detectArrays from the context when present; the merged options replace the request's when non-empty |
| Adapter.FileSchemaAnalyzerAdapter.constructor | analyzer-sdk-adapter/src/main/java/com/datasabai/services/schemaanalyzer/adapter/FileSchemaAnalyzerAdapter.java:103-108 | keeps the analyzer |
| Adapter.FileSchemaAnalyzerAdapter.Create | analyzer-sdk-adapter/src/main/java/com/datasabai/services/schemaanalyzer/adapter/FileSchemaAnalyzerAdapter.java:103-108 | rejects a null analyzer with IllegalArgumentException, and only then |
| Adapter.FileSchemaAnalyzerAdapter.Execute | analyzer-sdk-adapter/src/main/java/com/datasabai/services/schemaanalyzer/adapter/FileSchemaAnalyzerAdapter.java:126-155 | a null input is IllegalArgumentException; else the context is applied when present and the analysis run and wrapped |
| Adapter.FailuresAreSdkExceptions | analyzer-sdk-adapter/src/main/java/com/datasabai/services/schemaanalyzer/adapter/FileSchemaAnalyzerAdapter.java:136-154 | every failure of a non-null request is an SdkException "File schema analysis failed: " around an AnalyzerException |
| Adapter.ExecuteReportsAnalysis | analyzer-sdk-adapter/src/main/java/com/datasabai/services/schemaanalyzer/adapter/FileSchemaAnalyzerAdapter.java:126-146 | execute succeeds exactly when the analysis of the configured request does, with its result; a null context is an empty one |
| Adapter.ContextOptionReachesParser | analyzer-sdk-adapter/src/main/java/com/datasabai/services/schemaanalyzer/adapter/FileSchemaAnalyzerAdapter.java:224-233 | a parserOptions.x setting is what the parser reads for x: the context wins |
| Adapter.OtherOptionsKept | analyzer-sdk-adapter/src/main/java/com/datasabai/services/schemaanalyzer/adapter/FileSchemaAnalyzerAdapter.java:218-233 | options the context does not set read as before |
| Adapter.ContextDetectArrays | analyzer-sdk-adapter/src/main/java/com/datasabai/services/schemaanalyzer/adapter/FileSchemaAnalyzerAdapter.java:213-215 | detectArrays is set only from the context, true exactly for "true" ignoring case |
| Adapter.EmptyContextChangesNothing | analyzer-sdk-adapter/src/main/java/com/datasabai/services/schemaanalyzer/adapter/FileSchemaAnalyzerAdapter.java:211-234 | an empty context leaves the request unchanged |
| Adapter.ConfigurationIdempotent | analyzer-sdk-adapter/src/main/java/com/datasabai/services/schemaanalyzer/adapter/FileSchemaAnalyzerAdapter.java:211-234 | applying the same context twice is applying it once |
| Adapter.ConfigurationKeepsValidity | analyzer-sdk-adapter/src/main/java/com/datasabai/services/schemaanalyzer/adapter/FileSchemaAnalyzerAdapter.java:211-234 | the configuration never changes whether the request validates |

## Left out

- Reading the text into rows (OpenCSV, its quoting and `skipLines` counting) is a parameter of the parser (`CsvParser.CsvEnv.read`). Its exceptions become PARSE_ERROR with the reader's message.
- `TypeInferenceUtil.inferType`/`mergeTypes` are parameters (`Model.Inference`). No type lattice is assumed, so nothing is claimed about which types a column gets, only how they are folded.
- The other parsers, `ParserFactory`, `JsonSchemaGenerator.generateSchema` and `validateSchema` are parameters of the analyzer. An `IllegalArgumentException` that `canParse` itself would throw is not modelled.
- Jackson serialisation and its SERIALIZATION_ERROR are left out: `generateSchemaAsString` of the BeanIO and jsonschema2pojo generators, and, for a non-CSV type, the call `schemaGenerator.generateSchemaAsString(structure, request)` into the injected generator at FileSchemaAnalyzer.java:370. That call runs before `structure.getName()` and may throw, which would end the analysis with ANALYSIS_ERROR (or its own AnalyzerException); `Analyzer.BuildResultSpec` assumes it returns.
- Collections are modelled as values, which loses two behaviours. The Builder's `sampleFileContents`, `parserOptions` and `typeOverrides` keep the caller's list or map, and `addSampleFile`, `parserOption` and `typeOverride` then change that collection in place (FileAnalysisRequest.java:260-300), so the caller sees the change; the model copies instead. When the caller's collection is immutable those calls throw `UnsupportedOperationException`, which the model never raises. No call inside the analyzer depends on either behaviour.
- Timestamps and elapsed time (`System.currentTimeMillis`, `LocalDateTime.now`) and all logging are left out. The result's timing fields are not part of the model.
- The default constructors of `FileSchemaAnalyzer` and the adapter are left out: they build the real factory and generator, which are not part of this model.
- The getters are left out, along with `getAvailableFileTypes`, `getRegisteredFileTypes`, `getParserOptions`, `getParserFactory`, `getAnalyzer`, `inputType`, `outputType` and `getSupportedFileType`.
- The adapter's `name`/`description`/`version` strings are constants (`Adapter.ModuleName`, `ModuleDescription`, `ModuleVersion`) without properties of their own.
- Strings are ASCII: `toLowerCase`, `toUpperCase`, `isBlank` and `\s` follow their ASCII behaviour. JDK exception messages (NumberFormatException, StringIndexOutOfBounds, NullPointerException) are stand-in texts.
- `CsvParser.Parse` and `CsvParser.ParseSpec` require a non-null schema name. The analyzer only parses validated requests, and the sample requests always carry a name.
- A null request passed to `analyze` is not modelled: it fails at the log line before the `try` (FileSchemaAnalyzer.java:101-102). That also makes the null-request check in `validateRequest` unreachable. The later null-file-type check is unreachable too; `Analyzer.ValidateRequest` states that its message never appears.
- The `UnsupportedOperationException` branch of `execute` is unreachable, because `analyze` reports every exception as an `AnalyzerException`. `Adapter.FailuresAreSdkExceptions` proves this.
- Counts, positions and the per-name counters are unbounded integers. Java `int` overflow would need more than 2^31 columns or nodes.
- `Adapter.MergeContextOptions` visits the context keys in any order, because `HashMap` iteration order is not fixed. Its result is the same for every order, since distinct keys strip to distinct names.
- Thread safety is not modelled.
- Sample fusion: the loop at FileSchemaAnalyzer.java:279-299 logs a warning and continues past a sample whose parse throws (lines 295-297), so bad samples are meant to be skipped. A null or blank sample, however, makes the Builder's `validate()` throw `IllegalArgumentException` at lines 283-289, outside that inner `try`, so the whole analysis ends with ANALYSIS_ERROR. The model follows the code (`Analyzer.SampleRejection`, `Analyzer.BlankSampleFailsAnalysis`).
- The javadoc of `applyContextConfiguration` says context values apply only when not already set. The code lets the context win, and the model follows the code (`Adapter.ContextOptionReachesParser`).
