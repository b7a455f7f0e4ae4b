/**
 * CsvFileParser: from the rows the CSV reader returns to the structure tree
 * root (array) -> item (object) -> one element per column, and the merge of
 * several such trees. Reading rows out of the text (OpenCSV) is a parameter.
 */
module CsvParser {
  import opened Wrappers
  import opened Text
  import opened OrderedMap
  import opened Model
  import opened Request

  /** The separator, quote and escape characters handed to the CSV reader. */
  datatype Dialect = Dialect(separator: char, quote: char, escape: char)

  /**
   * The CSV reader: the rows of a text (each a list of cells) left after
   * skipping the given number of lines, or the message of what it threw.
   */
  type Reader = (string, Dialect, int) -> Result<seq<seq<string>>, string>

  /** What the parser calls and does not define: type inference and the reader. */
  datatype CsvEnv = CsvEnv(inference: Inference, read: Reader)

  /** The options parse() reads, after defaults and conversions. */
  datatype CsvOptions = CsvOptions(
    delimiter: string, hasHeader: bool, quoteChar: string, escapeChar: string,
    skipLines: int, sampleRows: int)

  const DefaultOptions := CsvOptions(",", true, "\"", "\\", 0, 100)

  /** The option keys parse() reads. */
  const OptionsRead: set<string> := {"delimiter", "hasHeader", "quoteChar", "escapeChar", "skipLines", "sampleRows"}

  const NoContentMessage := "No file content provided"
  const EmptyCsvMessage := "CSV file is empty"
  const NoStructuresMessage := "No structures to merge"

  function CsvError(code: string, message: string): Exception {
    AnalyzerException(code, Some(CSV), message)
  }

  /** The message of the NumberFormatException Integer.parseInt throws for s. */
  function NumberFormatMessage(s: string): string {
    "For input string: \"" + s + "\""
  }

  function InvalidOption(s: string): Exception {
    CsvError("INVALID_OPTION", "Invalid numeric option value: " + NumberFormatMessage(s))
  }

  function ParseFailure(message: string): Exception {
    CsvError("PARSE_ERROR", "Failed to parse CSV: " + message)
  }

  // ---------------------------------------------------------------- pure parts

  /** removeBOM: drops one leading U+FEFF and nothing else. */
  function RemoveBom(s: string): (r: string)
    ensures [Bom] + r == s || (r == s && (s == [] || s[0] != Bom))
  {
    if |s| > 0 && s[0] == Bom then s[1..] else s
  }

  /** canParse: a non-null CSV request with non-blank text content. */
  predicate CanParse(request: Option<RequestFields>)
    ensures CanParse(request) ==> request.Some? && HasContent(request.value)
    ensures request.Some? && request.value.fileType == Some(CSV) && HasContent(request.value) && !CanParse(request) ==>
      request.value.fileBytes.Some? && |request.value.fileBytes.value| > 0
  {
    request.Some? && request.value.fileType == Some(CSV) && !NullOrBlank(request.value.fileContent)
  }

  /**
   * The options block of parse(): defaults for missing or null values,
   * Boolean.parseBoolean for hasHeader, Integer.parseInt for skipLines and
   * then sampleRows; a number that does not parse is INVALID_OPTION.
   */
  function ReadOptions(f: RequestFields): (r: Result<CsvOptions, Exception>)
    ensures r.Err? <==> ParseInt(GetParserOptionOr(f, "skipLines", "0")).None? || ParseInt(GetParserOptionOr(f, "sampleRows", "100")).None?
    ensures r.Err? ==> r.error.AnalyzerException? && r.error.code == "INVALID_OPTION"
  {
    var skip := GetParserOptionOr(f, "skipLines", "0");
    var sample := GetParserOptionOr(f, "sampleRows", "100");
    match ParseInt(skip)
    case None => Err(InvalidOption(skip))
    case Some(skipLines) =>
      match ParseInt(sample)
      case None => Err(InvalidOption(sample))
      case Some(sampleRows) =>
        Ok(CsvOptions(
          GetParserOptionOr(f, "delimiter", ","),
          ParseBoolean(Some(GetParserOptionOr(f, "hasHeader", "true"))),
          GetParserOptionOr(f, "quoteChar", "\""),
          GetParserOptionOr(f, "escapeChar", "\\"),
          skipLines, sampleRows))
  }

  /** The names column1 .. columnN given to the columns of a file without a header row. */
  function GeneratedNames(n: nat): seq<string> {
    seq(n, i requires 0 <= i < n => "column" + NatToString(i + 1))
  }

  /** The header row, or generated names as many as the first row has cells. */
  function Headers(rows: seq<seq<string>>, hasHeader: bool): seq<string>
    requires |rows| > 0
  {
    if hasHeader then rows[0] else GeneratedNames(|rows[0]|)
  }

  /** Math.min(sampleRows, dataRowCount): how many data rows are sampled; none when not positive. */
  function SampleCount(sampleRows: int, dataRows: int): int {
    if sampleRows < dataRows then sampleRows else dataRows
  }

  /** The data rows sampled: count rows from start, or none. */
  function SampledRows(rows: seq<seq<string>>, start: nat, count: int): seq<seq<string>>
    requires start <= |rows| && count <= |rows| - start
  {
    if count <= 0 then [] else rows[start..start + count]
  }

  /** The non-blank cells of row, among its first n columns, that belong to the column named h. */
  function RowSamples(headers: seq<string>, row: seq<string>, n: nat, h: string): seq<string>
    requires n <= |headers| && n <= |row|
  {
    if n == 0 then []
    else RowSamples(headers, row, n - 1, h) + (if headers[n - 1] == h && !IsBlank(row[n - 1]) then [row[n - 1]] else [])
  }

  function Min(a: int, b: int): int { if a < b then a else b }

  /**
   * The sample list of column name h: the non-blank cells, row by row and
   * left to right, of every column named h (columns sharing a name share a
   * list), never beyond the shorter of the header and the row.
   */
  function ColumnSamples(headers: seq<string>, rows: seq<seq<string>>, h: string): seq<string>
    decreases |rows|
  {
    if rows == [] then []
    else
      var row := rows[|rows| - 1];
      ColumnSamples(headers, rows[..|rows| - 1], h) + RowSamples(headers, row, Min(|headers|, |row|), h)
  }

  /**
   * inferColumnType as written: "null" without samples, otherwise the type of
   * the first value widened by each later value's type, stopping as soon as
   * the widened type is "string".
   */
  function InferColumnTypeSpec(inf: Inference, values: seq<string>): string {
    if values == [] then "null" else Widen(inf, inf.inferType(values[0]), values[1..])
  }

  function Widen(inf: Inference, acc: string, rest: seq<string>): string
    decreases |rest|
  {
    if rest == [] then acc
    else
      var merged := inf.mergeTypes(acc, inf.inferType(rest[0]));
      if merged == "string" then merged else Widen(inf, merged, rest[1..])
  }

  /** The plain left fold of mergeTypes over the values' types, without the early exit. */
  function FoldTypes(inf: Inference, acc: string, rest: seq<string>): string
    decreases |rest|
  {
    if rest == [] then acc else FoldTypes(inf, inf.mergeTypes(acc, inf.inferType(rest[0])), rest[1..])
  }

  /** One column element per header, in header order. */
  function ColumnNodes(names: seq<string>, types: seq<string>): seq<Node>
    requires |types| == |names|
  {
    seq(|names|, i requires 0 <= i < |names| => Leaf(names[i], types[i]))
  }

  /** The CSV tree: root (array) -> item (object) -> columns. */
  function CsvTree(name: string, columns: seq<Node>): Node {
    Node(name, "array", true, [Node("item", "object", false, columns, [])], [])
  }

  /** The type of every header: inferColumnType of that header's samples. */
  function ColumnTypes(inf: Inference, headers: seq<string>, sampled: seq<seq<string>>): (r: seq<string>)
    ensures |r| == |headers|
  {
    seq(|headers|, i requires 0 <= i < |headers| => InferColumnTypeSpec(inf, ColumnSamples(headers, sampled, headers[i])))
  }

  /** The tree parse() builds from the rows the reader returned. */
  function TreeOf(name: string, rows: seq<seq<string>>, o: CsvOptions, inf: Inference): Node
    requires |rows| > 0
  {
    var headers := Headers(rows, o.hasHeader);
    var start := if o.hasHeader then 1 else 0;
    var sampled := SampledRows(rows, start, SampleCount(o.sampleRows, |rows| - start));
    CsvTree(name, ColumnNodes(headers, ColumnTypes(inf, headers, sampled)))
  }

  /**
   * parse(): blank content, then the numeric options, then an empty
   * delimiter, quote or escape string, then the reader, then an empty row
   * list; everything the reader or charAt throws becomes PARSE_ERROR.
   */
  function ParseSpec(f: RequestFields, env: CsvEnv): Result<Node, Exception>
    requires f.schemaName.Some?
  {
    if NullOrBlank(f.fileContent) then Err(CsvError("INVALID_CSV", NoContentMessage))
    else ParseContent(f.schemaName.value, RemoveBom(f.fileContent.value), ReadOptions(f), env)
  }

  /** parse() once the content is known not blank and its BOM is removed. */
  function ParseContent(name: string, content: string, options: Result<CsvOptions, Exception>, env: CsvEnv): Result<Node, Exception> {
    match options
    case Err(e) => Err(e)
    case Ok(o) =>
      if o.delimiter == [] || o.quoteChar == [] || o.escapeChar == [] then Err(ParseFailure(EmptyStringCharAtMessage))
      else
        match env.read(content, Dialect(o.delimiter[0], o.quoteChar[0], o.escapeChar[0]), o.skipLines)
        case Err(message) => Err(ParseFailure(message))
        case Ok(rows) =>
          if rows == [] then Err(CsvError("EMPTY_CSV", EmptyCsvMessage))
          else Ok(TreeOf(name, rows, o, env.inference))
  }

  /** The (name, type) pairs of the columns of a tree's first child; none for a childless tree. */
  function ItemEntries(t: Node): OMap<string, string> {
    if t.children == [] then []
    else
      var columns := t.children[0].children;
      seq(|columns|, i requires 0 <= i < |columns| => (columns[i].name, columns[i].typ))
  }

  /** The column entries of all trees, tree after tree. */
  function ColumnEntries(trees: seq<Node>): OMap<string, string>
    decreases |trees|
  {
    if trees == [] then [] else ColumnEntries(trees[..|trees| - 1]) + ItemEntries(trees[|trees| - 1])
  }

  /** One step of mergeStructures: a known column's type is widened, a new column is appended. */
  function MergeStep(inf: Inference, acc: OMap<string, string>, e: (string, string)): OMap<string, string> {
    match Get(acc, e.0)
    case Some(existing) => Put(acc, e.0, inf.mergeTypes(existing, e.1))
    case None => Put(acc, e.0, e.1)
  }

  /** The allColumns map after merging the entries es, in order, into acc. */
  function MergeInto(inf: Inference, acc: OMap<string, string>, es: OMap<string, string>): OMap<string, string>
    decreases |es|
  {
    if es == [] then acc else MergeStep(inf, MergeInto(inf, acc, es[..|es| - 1]), es[|es| - 1])
  }

  /**
   * mergeStructures: no list or an empty one is MERGE_ERROR, one tree is
   * returned as it is, several give the first tree's name over the merged
   * columns of all of them.
   */
  function MergeSpec(inf: Inference, structures: Option<seq<Node>>): Result<Node, Exception> {
    if structures.None? || structures.value == [] then Err(CsvError("MERGE_ERROR", NoStructuresMessage))
    else if |structures.value| == 1 then Ok(structures.value[0])
    else
      var columns := MergeInto(inf, [], ColumnEntries(structures.value));
      Ok(CsvTree(structures.value[0].name, ColumnNodes(Keys(columns), Values(columns))))
  }

  /** getAvailableOptions: each option key with its description. */
  function AvailableOptions(): (r: map<string, string>)
    ensures r.Keys == OptionsRead + {"encoding"}
  {
    map[
      "delimiter" := "Column delimiter (default: ,)",
      "hasHeader" := "Whether the first row contains headers (true/false, default: true)",
      "encoding" := "File encoding (default: UTF-8)",
      "quoteChar" := "Quote character (default: \")",
      "escapeChar" := "Escape character (default: \\)",
      "skipLines" := "Number of lines to skip at the beginning (default: 0)",
      "sampleRows" := "Number of data rows to sample for type inference (default: 100)"]
  }

  // ---------------------------------------------------------------- the parser's loops

  /** The loop that generates column1 .. columnN. */
  method GenerateColumnNames(columnCount: nat) returns (headers: seq<string>)
    ensures headers == GeneratedNames(columnCount)
  {
    headers := [];
    var i := 0;
    while i < columnCount
      invariant 0 <= i <= columnCount
      invariant |headers| == i
      invariant forall k :: 0 <= k < i ==> headers[k] == "column" + NatToString(k + 1)
    {
      headers := headers + ["column" + NatToString(i + 1)];
      i := i + 1;
    }
  }

  /** The first loop of the columnValues map: an empty list for every header, the last put of a name winning. */
  method NewColumnValues(headers: seq<string>) returns (columnValues: OMap<string, seq<string>>)
    ensures Keys(columnValues) == Distinct(headers)
    ensures forall h :: h in headers ==> Get(columnValues, h) == Some([])
  {
    columnValues := [];
    var k := 0;
    while k < |headers|
      invariant 0 <= k <= |headers|
      invariant Keys(columnValues) == Distinct(headers[..k])
      invariant forall h :: h in headers[..k] ==> Get(columnValues, h) == Some([])
    {
      PrefixOfPrefix(headers, k);
      columnValues := Put(columnValues, headers[k], []);
      k := k + 1;
    }
    WholePrefix(headers, |headers|);
  }

  /** columnValues.get(key).add(value): appends to the list of a present key. */
  function AppendValue(columnValues: OMap<string, seq<string>>, key: string, value: string): (r: OMap<string, seq<string>>)
    requires key in Keys(columnValues)
    ensures Keys(r) == Keys(columnValues)
    ensures Get(r, key) == Some(Get(columnValues, key).value + [value])
    ensures forall h :: h != key ==> Get(r, h) == Get(columnValues, h)
  {
    Put(columnValues, key, Get(columnValues, key).value + [value])
  }

  /** One cell of the inner sampling loop, seen from the list of one column name h. */
  lemma RowSampleStepAt(headers: seq<string>, row: seq<string>, j: nat, done: seq<string>, h: string,
                        before: OMap<string, seq<string>>, after: OMap<string, seq<string>>)
    requires j < |headers| && j < |row|
    requires headers[j] in Keys(before)
    requires Get(before, h) == Some(done + RowSamples(headers, row, j, h))
    requires after == if IsBlank(row[j]) then before else AppendValue(before, headers[j], row[j])
    ensures Get(after, h) == Some(done + RowSamples(headers, row, j + 1, h))
  {
    var prefix := RowSamples(headers, row, j, h);
    var blank := IsBlank(row[j]);
    assert RowSamples(headers, row, j + 1, h) == prefix + (if headers[j] == h && !blank then [row[j]] else []);
    if headers[j] == h && !blank {
      assert Get(after, h) == Some((done + prefix) + [row[j]]);
      assert (done + prefix) + [row[j]] == done + (prefix + [row[j]]);
    } else {
      assert Get(after, h) == Get(before, h);
      assert prefix + [] == prefix;
    }
  }

  /** The inner sampling loop: each non-blank cell of one row appended to its column's list. */
  method AddRowSamples(headers: seq<string>, row: seq<string>, columnValues: OMap<string, seq<string>>)
    returns (updated: OMap<string, seq<string>>)
    requires forall h :: h in headers ==> h in Keys(columnValues)
    ensures Keys(updated) == Keys(columnValues)
    ensures forall h :: h in headers ==> Get(updated, h) == Some(Get(columnValues, h).value + RowSamples(headers, row, Min(|headers|, |row|), h))
  {
    updated := columnValues;
    forall h | h in headers ensures Get(columnValues, h).value + RowSamples(headers, row, 0, h) == Get(columnValues, h).value {
    }
    var j := 0;
    while j < |headers| && j < |row|
      invariant 0 <= j <= Min(|headers|, |row|)
      invariant Keys(updated) == Keys(columnValues)
      invariant forall h :: h in headers ==> Get(updated, h) == Some(Get(columnValues, h).value + RowSamples(headers, row, j, h))
    {
      var value := row[j];
      ghost var before := updated;
      if !IsBlank(value) {
        updated := AppendValue(updated, headers[j], value);
      }
      forall h | h in headers
        ensures Get(updated, h) == Some(Get(columnValues, h).value + RowSamples(headers, row, j + 1, h))
      {
        RowSampleStepAt(headers, row, j, Get(columnValues, h).value, h, before, updated);
      }
      j := j + 1;
    }
  }

  /**
   * The columnValues map: one list per distinct header, holding the
   * non-blank cells of the sampled rows that belong to that header.
   */
  method CollectSamples(headers: seq<string>, rows: seq<seq<string>>, start: nat, count: int)
    returns (columnValues: OMap<string, seq<string>>)
    requires start <= |rows| && count <= |rows| - start
    ensures Keys(columnValues) == Distinct(headers)
    ensures forall h :: h in headers ==> Get(columnValues, h) == Some(ColumnSamples(headers, SampledRows(rows, start, count), h))
  {
    columnValues := NewColumnValues(headers);
    DistinctSpec(headers);
    var i := start;
    ghost var sampled: seq<seq<string>> := [];
    while i < start + count && i < |rows|
      invariant start <= i <= |rows|
      invariant i == start || i <= start + count
      invariant sampled == rows[start..i]
      invariant Keys(columnValues) == Distinct(headers)
      invariant forall h :: h in headers ==> Get(columnValues, h) == Some(ColumnSamples(headers, sampled, h))
    {
      ghost var before := columnValues;
      columnValues := AddRowSamples(headers, rows[i], columnValues);
      CollectSamplesStep(headers, sampled, rows[i], before, columnValues);
      SliceSnoc(rows, start, i);
      sampled := sampled + [rows[i]];
      i := i + 1;
    }
    SampledSlice(rows, start, count, i);
  }

  /** A slice one longer is the slice followed by the next element. */
  lemma SliceSnoc<T>(s: seq<T>, lo: nat, hi: nat)
    requires lo <= hi < |s|
    ensures s[lo..hi + 1] == s[lo..hi] + [s[hi]]
  {
  }

  /** When the sampling loop stops, the rows it went through are the sampled rows. */
  lemma SampledSlice<T>(rows: seq<T>, start: nat, count: int, i: nat)
    requires start <= i <= |rows| && count <= |rows| - start
    requires i == start || i <= start + count
    requires !(i < start + count && i < |rows|)
    ensures rows[start..i] == if count <= 0 then [] else rows[start..start + count]
  {
  }

  /** Adding a row's cells to the samples of the rows before it gives the samples of both. */
  lemma CollectSamplesStep(headers: seq<string>, sampled: seq<seq<string>>, row: seq<string>,
                           before: OMap<string, seq<string>>, after: OMap<string, seq<string>>)
    requires forall h :: h in headers ==> Get(before, h) == Some(ColumnSamples(headers, sampled, h))
    requires forall h :: h in headers ==>
      Get(after, h) == Some(Get(before, h).value + RowSamples(headers, row, Min(|headers|, |row|), h))
    ensures forall h :: h in headers ==> Get(after, h) == Some(ColumnSamples(headers, sampled + [row], h))
  {
    forall h | h in headers ensures Get(after, h) == Some(ColumnSamples(headers, sampled + [row], h)) {
      ColumnSamplesSnoc(headers, sampled + [row], sampled, row, h);
    }
  }

  /** The samples of rows that end in row are those of the rows before it followed by row's own. */
  lemma ColumnSamplesSnoc(headers: seq<string>, rows: seq<seq<string>>, init: seq<seq<string>>, row: seq<string>, h: string)
    requires rows == init + [row]
    ensures ColumnSamples(headers, rows, h) == ColumnSamples(headers, init, h) + RowSamples(headers, row, Min(|headers|, |row|), h)
  {
    assert rows[..|rows| - 1] == init;
  }

  /** inferColumnType: the widening loop with its early exit at "string". */
  method InferColumnType(inf: Inference, values: seq<string>) returns (mergedType: string)
    ensures mergedType == InferColumnTypeSpec(inf, values)
  {
    if values == [] {
      return "null";
    }
    mergedType := inf.inferType(values[0]);
    var i := 1;
    while i < |values|
      invariant 1 <= i <= |values|
      invariant Widen(inf, mergedType, values[i..]) == InferColumnTypeSpec(inf, values)
    {
      var valueType := inf.inferType(values[i]);
      assert values[i..][1..] == values[i + 1..];
      mergedType := inf.mergeTypes(mergedType, valueType);
      if mergedType == "string" {
        break;
      }
      i := i + 1;
    }
  }

  /** The columnTypes map: inferColumnType of each header's sample list. */
  method InferColumnTypes(inf: Inference, headers: seq<string>, columnValues: OMap<string, seq<string>>)
    returns (columnTypes: OMap<string, string>)
    requires forall h :: h in headers ==> h in Keys(columnValues)
    ensures forall h :: h in headers ==> Get(columnTypes, h) == Some(InferColumnTypeSpec(inf, Get(columnValues, h).value))
  {
    columnTypes := [];
    var k := 0;
    while k < |headers|
      invariant 0 <= k <= |headers|
      invariant forall h :: h in headers[..k] ==> Get(columnTypes, h) == Some(InferColumnTypeSpec(inf, Get(columnValues, h).value))
    {
      assert headers[..k + 1] == headers[..k] + [headers[k]];
      var values := Get(columnValues, headers[k]).value;
      var inferred := InferColumnType(inf, values);
      columnTypes := Put(columnTypes, headers[k], inferred);
      k := k + 1;
    }
    WholePrefix(headers, |headers|);
  }

  /** buildStructure: root (array) -> item (object) -> one column per header with its type. */
  method BuildStructure(schemaName: string, headers: seq<string>, columnTypes: OMap<string, string>) returns (root: Node)
    requires forall h :: h in headers ==> h in Keys(columnTypes)
    ensures root.name == schemaName && root.typ == "array" && root.isArray && root.attributes == []
    ensures |root.children| == 1 && root.children[0].name == "item" && root.children[0].typ == "object"
    ensures root == CsvTree(schemaName, root.children[0].children)
    ensures |root.children[0].children| == |headers|
    ensures forall i :: 0 <= i < |headers| ==> root.children[0].children[i] == Leaf(headers[i], Get(columnTypes, headers[i]).value)
  {
    var columns: seq<Node> := [];
    var k := 0;
    while k < |headers|
      invariant 0 <= k <= |headers|
      invariant |columns| == k
      invariant forall i :: 0 <= i < k ==> columns[i] == Leaf(headers[i], Get(columnTypes, headers[i]).value)
    {
      var typ := Get(columnTypes, headers[k]).value;
      columns := columns + [Leaf(headers[k], typ)];
      k := k + 1;
    }
    var item := Node("item", "object", false, columns, []);
    root := Node(schemaName, "array", true, [item], []);
  }

  /** parse(): the stages of CsvFileParser.parse after the reader, as one method. */
  method Parse(f: RequestFields, env: CsvEnv) returns (r: Result<Node, Exception>)
    requires f.schemaName.Some?
    ensures r == ParseSpec(f, env)
    ensures NullOrBlank(f.fileContent) ==> r == Err(CsvError("INVALID_CSV", NoContentMessage))
    ensures !NullOrBlank(f.fileContent) && ReadOptions(f).Err? ==> r == Err(ReadOptions(f).error)
    ensures r.Ok? ==> r.value.name == f.schemaName.value && r.value.isArray && |r.value.children| == 1
  {
    if f.fileContent.None? || IsBlank(f.fileContent.value) {
      return Err(CsvError("INVALID_CSV", NoContentMessage));
    }
    var content := RemoveBom(f.fileContent.value);
    var options := ReadOptions(f);
    if options.Err? {
      return Err(options.error);
    }
    var o := options.value;
    if o.delimiter == [] || o.quoteChar == [] || o.escapeChar == [] {
      return Err(ParseFailure(EmptyStringCharAtMessage));
    }
    var read := env.read(content, Dialect(o.delimiter[0], o.quoteChar[0], o.escapeChar[0]), o.skipLines);
    if read.Err? {
      return Err(ParseFailure(read.error));
    }
    var rows := read.value;
    if rows == [] {
      return Err(CsvError("EMPTY_CSV", EmptyCsvMessage));
    }
    var root := BuildTree(f.schemaName.value, rows, o, env.inference);
    r := Ok(root);
  }

  /** The part of parse() after the reader: headers, sampling, type inference and the structure. */
  method BuildTree(name: string, rows: seq<seq<string>>, o: CsvOptions, inf: Inference) returns (root: Node)
    requires |rows| > 0
    ensures root == TreeOf(name, rows, o, inf)
  {
    var headers: seq<string>;
    var start: nat;
    if o.hasHeader {
      headers, start := rows[0], 1;
    } else {
      headers := GenerateColumnNames(|rows[0]|);
      start := 0;
    }
    var rowsToSample := SampleCount(o.sampleRows, |rows| - start);
    var columnTypes := SampleColumnTypes(inf, headers, rows, start, rowsToSample);
    root := BuildStructure(name, headers, columnTypes);
    InferredColumns(inf, headers, SampledRows(rows, start, rowsToSample), columnTypes, root.children[0].children);
  }

  /** The sample lists of the sampled rows, then the type inferred from each list. */
  method SampleColumnTypes(inf: Inference, headers: seq<string>, rows: seq<seq<string>>, start: nat, count: int)
    returns (columnTypes: OMap<string, string>)
    requires start <= |rows| && count <= |rows| - start
    ensures forall h :: h in headers ==>
      Get(columnTypes, h) == Some(InferColumnTypeSpec(inf, ColumnSamples(headers, SampledRows(rows, start, count), h)))
  {
    var columnValues := CollectSamples(headers, rows, start, count);
    DistinctSpec(headers);
    columnTypes := InferColumnTypes(inf, headers, columnValues);
  }

  /** The column elements built from the inferred types are those of the sampled rows. */
  lemma InferredColumns(inf: Inference, headers: seq<string>, sampled: seq<seq<string>>,
                        columnTypes: OMap<string, string>, columns: seq<Node>)
    requires forall h :: h in headers ==> Get(columnTypes, h) == Some(InferColumnTypeSpec(inf, ColumnSamples(headers, sampled, h)))
    requires |columns| == |headers|
    requires forall i :: 0 <= i < |headers| ==> columns[i] == Leaf(headers[i], Get(columnTypes, headers[i]).value)
    ensures columns == ColumnNodes(headers, ColumnTypes(inf, headers, sampled))
  {
    var expected := ColumnNodes(headers, ColumnTypes(inf, headers, sampled));
    forall i | 0 <= i < |headers| ensures columns[i] == expected[i] {
      assert headers[i] in headers;
    }
  }

  /** The column entries of one tree's item merged into the allColumns map, one after another. */
  method MergeItemColumns(inf: Inference, allColumns: OMap<string, string>, structure: Node)
    returns (updated: OMap<string, string>)
    requires structure.children != []
    ensures updated == MergeInto(inf, allColumns, ItemEntries(structure))
  {
    var item := structure.children[0];
    ghost var entries := ItemEntries(structure);
    updated := allColumns;
    var j := 0;
    while j < |item.children|
      invariant 0 <= j <= |item.children| == |entries|
      invariant updated == MergeInto(inf, allColumns, entries[..j])
    {
      var column := item.children[j];
      assert entries[j] == (column.name, column.typ);
      MergeIntoSnoc(inf, allColumns, entries, j);
      var existing := Get(updated, column.name);
      if existing.Some? {
        updated := Put(updated, column.name, inf.mergeTypes(existing.value, column.typ));
      } else {
        updated := Put(updated, column.name, column.typ);
      }
      j := j + 1;
    }
    WholePrefix(entries, j);
  }

  /** Merging one more entry of es is one more MergeStep. */
  lemma MergeIntoSnoc(inf: Inference, acc: OMap<string, string>, es: OMap<string, string>, j: nat)
    requires j < |es|
    ensures MergeInto(inf, acc, es[..j + 1]) == MergeStep(inf, MergeInto(inf, acc, es[..j]), es[j])
  {
    PrefixOfPrefix(es, j);
  }

  /** The loop that turns every allColumns entry into a column element. */
  method ColumnElements(allColumns: OMap<string, string>) returns (columns: seq<Node>)
    ensures columns == ColumnNodes(Keys(allColumns), Values(allColumns))
  {
    columns := [];
    var k := 0;
    while k < |allColumns|
      invariant 0 <= k <= |allColumns|
      invariant |columns| == k
      invariant forall c :: 0 <= c < k ==> columns[c] == Leaf(allColumns[c].0, allColumns[c].1)
    {
      columns := columns + [Leaf(allColumns[k].0, allColumns[k].1)];
      k := k + 1;
    }
  }

  /** mergeStructures: every tree's columns merged into one allColumns map, under the first tree's name. */
  method MergeStructures(inf: Inference, structures: Option<seq<Node>>) returns (r: Result<Node, Exception>)
    ensures r == MergeSpec(inf, structures)
    ensures r.Err? <==> structures.None? || structures.value == []
    ensures structures.Some? && |structures.value| == 1 ==> r == Ok(structures.value[0])
  {
    if structures.None? || |structures.value| == 0 {
      return Err(CsvError("MERGE_ERROR", NoStructuresMessage));
    }
    var trees := structures.value;
    if |trees| == 1 {
      return Ok(trees[0]);
    }
    var allColumns: OMap<string, string> := [];
    var i := 0;
    while i < |trees|
      invariant 0 <= i <= |trees|
      invariant allColumns == MergeInto(inf, [], ColumnEntries(trees[..i]))
    {
      var structure := trees[i];
      MergeTreesStep(inf, trees, i);
      if structure.children != [] {
        allColumns := MergeItemColumns(inf, allColumns, structure);
      }
      i := i + 1;
    }
    WholePrefix(trees, i);
    var columns := ColumnElements(allColumns);
    r := Ok(CsvTree(trees[0].name, columns));
  }

  // ---------------------------------------------------------------- properties

  /** One more tree: its item's columns merged into the columns of the trees before it. */
  lemma MergeTreesStep(inf: Inference, trees: seq<Node>, i: nat)
    requires i < |trees|
    ensures MergeInto(inf, [], ColumnEntries(trees[..i + 1]))
      == MergeInto(inf, MergeInto(inf, [], ColumnEntries(trees[..i])), ItemEntries(trees[i]))
  {
    var seen := trees[..i + 1];
    assert ColumnEntries(seen) == ColumnEntries(trees[..i]) + ItemEntries(trees[i]) by {
      assert seen[..i] == trees[..i] && seen[i] == trees[i];
    }
    MergeIntoAppend(inf, [], ColumnEntries(trees[..i]), ItemEntries(trees[i]));
  }

  /** Merging a concatenation is merging its two parts one after the other. */
  lemma {:induction false} MergeIntoAppend(inf: Inference, acc: OMap<string, string>, a: OMap<string, string>, b: OMap<string, string>)
    ensures MergeInto(inf, acc, a + b) == MergeInto(inf, MergeInto(inf, acc, a), b)
    decreases |b|
  {
    if b == [] {
      assert a + b == a;
    } else {
      var b' := b[..|b| - 1];
      assert (a + b)[..|a + b| - 1] == a + b';
      MergeIntoAppend(inf, acc, a, b');
    }
  }
}
